/** The load beside the stream, as a transition system: the source and its
    slot, what the target keeps, one running attempt with its two channels and
    its engine, any number of loaders sharing the copy channel, tables joining
    while it runs, crashes and restarts. */
module Protocol {
  import opened Wrappers
  import opened Source
  import opened Target
  import opened Ranges
  import opened Engine

  datatype StreamEvent = Begin(pos: nat) | Change(w: Write) | Commit(pos: nat)

  datatype CopyEvent = CopyRow(w: Write) | Boundary | LoadMark(mark: nat) | LoadStarted | LoadFinished

  /** What a table's stored progress document says. */
  datatype Progress = Progress(bounds: seq<int>, done: nat, finished: bool)

  /** One range being read: its position first, then its rows from a snapshot
      taken later. */
  datatype RangeRead = Unread | Located(v: nat) | Copying(v: nat, s: nat, left: set<Write>)

  /** A table's loader. `done` counts the leading ranges durably written. */
  datatype Loader =
    | Ready(bounds: seq<int>, done: nat)
    | Reading(bounds: seq<int>, done: nat, wave: seq<RangeRead>)
    | Drawn(bounds: seq<int>, done: nat, wave: seq<RangeRead>, mark: nat)
    | Waiting(bounds: seq<int>, done: nat, wave: seq<RangeRead>, mark: nat)
    | Written(bounds: seq<int>, done: nat)
    | Loaded(bounds: seq<int>, done: nat)

  datatype State = State(
    // the source: its log, where the log ends, the slot, the publication
    hist: seq<Txn>, clock: nat, slot: nat, published: map<nat, nat>,
    // the configuration file
    config: set<nat>,
    // the target: its documents, the checkpoint, load progress by table
    target: Index, checkpoint: Option<nat>, progress: map<nat, Progress>,
    // the process
    durable: nat,
    // the attempt
    start: nat, cursor: nat, admitted: set<nat>, rules: set<nat>,
    events: seq<StreamEvent>, taken: nat,
    copy: seq<CopyEvent>, copied: nat, drawn: seq<nat>,
    eng: Engine, persisted: nat, loaders: map<nat, Loader>, barriers: map<nat, nat>, cleared: set<nat>,
    // history: what has landed, requests a crash left open, the position a
    // table was admitted at and joined at, and each key's base, below which
    // the stream owes it nothing
    landed: set<Write>, stray: set<Write>, admittedAt: map<nat, nat>, joined: map<nat, nat>,
    base: Key -> nat)

  /** What the source database does. */
  datatype SourceStep =
    | DoCommit(pos: nat, changes: map<Key, Option<Doc>>)
    | LogMoves(pos: nat)

  /** What the walsender, the checkpoint task and the feedback do. */
  datatype StreamStep =
    | Emit(i: nat, order: seq<Key>)
    | KeepAlive(pos: nat)
    | WriteCheckpoint
    | StoreDurable
    | Feedback(walEnd: nat)

  /** What the engine and the target do. */
  datatype EngineStep =
    | TakeEvent(hold: bool)
    | TakeCopy(hold: bool)
    | SplitBatch
    | OpenWrite
    | Arrive(w: Write)
    | CloseWrite
    | Barrier

  /** What it takes to put a table on the running pipeline. */
  datatype JoinStep =
    | EditFile
    | AlterPublication(pos: nat)
    | ReadBarrier(pos: nat)
    | Admit
    | Adopt

  /** What one table's loader does. */
  datatype LoadStep =
    | Announce(ev: CopyEvent)
    | BeginLoad(bounds: seq<int>)
    | BeginWave(width: nat)
    | ReadPosition(i: nat)
    | Snapshot(i: nat)
    | SendRow(i: nat, w: Write)
    | DrawMark
    | SendMark
    | SeeMark
    | StoreProgress
    | StoreFinished
    | ClearProgress

  datatype Step =
    | SourceDoes(source: SourceStep)
    | StreamDoes(stream: StreamStep)
    | EngineDoes(engine: EngineStep)
    | TableJoins(table: nat, join: JoinStep)
    | LoaderDoes(table: nat, load: LoadStep)
    | Reconnect
    | Restart
    | RecreateSlot(pos: nat)

  // ------------------------------------------------------------------ helpers

  function Max(a: nat, b: nat): nat { if a > b then a else b }
  function Min(a: nat, b: nat): nat { if a < b then a else b }

  /** The rows of a transaction the walsender sends and the decoder admits. */
  function Sendable(s: State, t: Txn): set<Key> {
    set k | k in t.changes && k.table in s.admitted && k.table in s.published && s.published[k.table] < t.pos
  }

  function ChangeEvents(t: Txn, order: seq<Key>): (evs: seq<StreamEvent>)
    requires forall k | k in order :: k in t.changes
    ensures |evs| == |order|
    ensures forall i | 0 <= i < |evs| :: evs[i] == Change(Write(order[i], t.pos, t.changes[order[i]]))
  {
    seq(|order|, i requires 0 <= i < |order| => Change(Write(order[i], t.pos, t.changes[order[i]])))
  }

  function KeysOf(hist: seq<Txn>): set<Key> {
    set w | w in Changes(hist) :: w.key
  }

  /** The rows a snapshot at `s` finds in one range, versioned by `v`. */
  function RowsOf(hist: seq<Txn>, s: nat, table: nat, range: KeyRange, v: nat): set<Write> {
    set k | k in KeysOf(hist) && k.table == table && range.Contains(k.id) && DocAt(hist, s, k).Some?
      :: Write(k, v, DocAt(hist, s, k))
  }

  function OpenWrites(e: Engine): set<Write> {
    Elems(Rows(BatchItems(e.inflight)))
  }

  /** The first row of `k` still waiting in the event channel. */
  function FirstWaiting(events: seq<StreamEvent>, k: Key, otherwise: nat): nat {
    if events == [] then otherwise
    else if events[0].Change? && events[0].w.key == k then events[0].w.version
    else FirstWaiting(events[1..], k, otherwise)
  }

  /** A row reaching the engine is filed if a rule knows its table. */
  function TakeIfKnown(s: State, w: Write): Engine {
    if w.key.table in s.rules then TakeRow(s.eng, w) else s.eng
  }

  predicate AllCopied(wave: seq<RangeRead>) {
    forall i | 0 <= i < |wave| :: wave[i].Copying? && wave[i].left == {}
  }

  // ------------------------------------------------------------- when a step may run

  ghost predicate StreamEnabled(s: State, step: StreamStep) {
    match step
    case Emit(i, order) =>
      && i < |s.hist| && s.hist[i].pos > s.cursor
      && (i > 0 ==> s.hist[i - 1].pos <= s.cursor)
      && Elems(order) == Sendable(s, s.hist[i])
    case KeepAlive(pos) =>
      && s.cursor <= pos <= s.clock && pos > 0
      && (forall i | 0 <= i < |s.hist| && s.cursor < s.hist[i].pos <= pos :: Sendable(s, s.hist[i]) == {})
    case WriteCheckpoint => s.eng.acked > 0
    case StoreDurable => s.persisted > 0
    case Feedback(walEnd) => walEnd <= s.cursor
  }

  ghost predicate EngineEnabled(s: State, step: EngineStep) {
    match step
    case TakeEvent(_) => s.taken < |s.events|
    case TakeCopy(_) => s.copied < |s.copy|
    case SplitBatch => s.eng.buffer != []
    case OpenWrite => s.eng.commands != [] && s.eng.commands[0].WriteBatch?
    case Arrive(w) => w in OpenWrites(s.eng) || w in s.stray
    case CloseWrite =>
      && s.eng.inflight != []
      && (forall i | 0 <= i < |s.eng.inflight[0]| :: s.eng.inflight[0][i].w in s.landed)
    case Barrier => s.eng.commands != [] && !s.eng.commands[0].WriteBatch? && s.eng.inflight == []
  }

  ghost predicate JoinEnabled(s: State, t: nat, step: JoinStep) {
    match step
    case EditFile => true
    case AlterPublication(pos) => t in s.config && t !in s.published && pos > s.clock
    case ReadBarrier(pos) => t in s.config && t in s.published && t !in s.rules && pos > s.clock
    case Admit => t in s.barriers && t in s.published && s.eng.acked > 0 && s.eng.acked >= s.barriers[t]
    case Adopt => t in s.cleared && t in s.admitted && t in s.config && t !in s.rules
  }

  ghost predicate LoadEnabled(s: State, t: nat, step: LoadStep) {
    match step
    case Announce(ev) => ev.Boundary? || ev.LoadStarted? || ev.LoadFinished?
    case BeginLoad(bounds) =>
      && t in s.rules && t !in s.loaders
      && (t in s.progress ==> !s.progress[t].finished)
      && StrictlyIncreasing(bounds)
    case BeginWave(width) =>
      && t in s.loaders && s.loaders[t].Ready? && width > 0 && s.loaders[t].done <= |s.loaders[t].bounds|
    case ReadPosition(i) =>
      && t in s.loaders && s.loaders[t].Reading? && i < |s.loaders[t].wave| && s.loaders[t].wave[i].Unread?
    case Snapshot(i) =>
      && t in s.loaders && s.loaders[t].Reading? && i < |s.loaders[t].wave| && s.loaders[t].wave[i].Located?
      && s.loaders[t].done + i <= |s.loaders[t].bounds|
    case SendRow(i, w) =>
      && t in s.loaders && s.loaders[t].Reading? && i < |s.loaders[t].wave| && s.loaders[t].wave[i].Copying?
      && w in s.loaders[t].wave[i].left
    case DrawMark => t in s.loaders && s.loaders[t].Reading? && AllCopied(s.loaders[t].wave)
    case SendMark => t in s.loaders && s.loaders[t].Drawn?
    case SeeMark => t in s.loaders && s.loaders[t].Waiting? && s.eng.written >= s.loaders[t].mark
    case StoreProgress => t in s.loaders && s.loaders[t].Written?
    case StoreFinished => t in s.loaders && s.loaders[t].Ready? && s.loaders[t].done == |s.loaders[t].bounds| + 1
    case ClearProgress =>
      || (t in s.loaders && s.loaders[t].Loaded?)
      || (t !in s.loaders && t in s.progress && s.progress[t].finished)
  }

  ghost predicate Enabled(s: State, step: Step) {
    match step
    case SourceDoes(DoCommit(pos, _)) => pos > s.clock
    case SourceDoes(LogMoves(pos)) => pos >= s.clock
    case StreamDoes(x) => StreamEnabled(s, x)
    case EngineDoes(x) => EngineEnabled(s, x)
    case TableJoins(t, x) => JoinEnabled(s, t, x)
    case LoaderDoes(t, x) => LoadEnabled(s, t, x)
    case RecreateSlot(pos) => pos > s.clock
    case _ => true
  }

  /** A change the stream owes the target. */
  ghost predicate Owed(s: State, w: Write) {
    w.key.table in s.rules && s.base(w.key) < w.version
  }

  /** Every owed change at or below `p` has landed or been overtaken. */
  ghost predicate SafeTo(s: State, p: nat) {
    forall w | w in Changes(s.hist) && Owed(s, w) && w.version <= p :: Covers(s.landed, w.key, w.version)
  }

  /** A reconnect keeps the durable position of the attempt before it, and starts
      at the slot: what the new attempt owes at or below that position has to be
      on the target already. */
  ghost predicate ReconnectOk(s: State) {
    forall w | w in Changes(s.hist) && w.key.table in s.rules && LoweredBaseOf(s, w.key) < w.version <= s.durable ::
      Covers(s.landed, w.key, w.version)
  }

  /** A slot created again starts at the end of the log: everything owed has to be
      on the target already. */
  ghost predicate RecreateOk(s: State) {
    SafeTo(s, s.clock)
  }

  /** The two steps that need care. */
  ghost predicate Careful(s: State, step: Step) {
    && (step.Reconnect? ==> ReconnectOk(s))
    && (step.RecreateSlot? ==> RecreateOk(s))
  }

  // ----------------------------------------------------------- what a step does

  function SetLoader(s: State, t: nat, l: Loader): State {
    s.(loaders := s.loaders[t := l])
  }

  function SetRead(s: State, t: nat, i: nat, r: RangeRead): State
    requires t in s.loaders && s.loaders[t].Reading? && i < |s.loaders[t].wave|
  {
    SetLoader(s, t, Reading(s.loaders[t].bounds, s.loaders[t].done, s.loaders[t].wave[i := r]))
  }

  function EmitTxn(s: State, t: Txn, order: seq<Key>): State
    requires forall k | k in order :: k in t.changes
  {
    s.(events := s.events + ([Begin(t.pos)] + ChangeEvents(t, order) + [Commit(t.pos)]), cursor := t.pos)
  }

  function TakeOneEvent(s: State, hold: bool): State
    requires s.taken < |s.events|
  {
    var e := match s.events[s.taken]
             case Begin(_) => TakeBegin(s.eng)
             case Change(w) => TakeIfKnown(s, w)
             case Commit(pos) => TakeCommit(s.eng, pos, hold);
    s.(eng := e, taken := s.taken + 1)
  }

  function TakeOneCopy(s: State, hold: bool): State
    requires s.copied < |s.copy|
  {
    var e := match s.copy[s.copied]
             case CopyRow(w) => TakeIfKnown(s, w)
             case Boundary => TakeCommit(s.eng, 0, hold)
             case LoadMark(m) => TakeMark(s.eng, m)
             case LoadStarted => TakeStarted(s.eng)
             case LoadFinished => TakeFinished(s.eng);
    s.(eng := e, copied := s.copied + 1)
  }

  function PublishedAt(s: State, t: nat): nat {
    if t in s.published then s.published[t] else s.clock
  }

  function AdmitTable(s: State, t: nat): State {
    s.(admitted := s.admitted + {t}, cleared := s.cleared + {t},
       admittedAt := if t in s.admitted then s.admittedAt
                     else s.admittedAt[t := Max(s.cursor, PublishedAt(s, t))])
  }

  /** Put a table's section into effect. Everything the stream has yet to send
      is filed from here on, and so is a row of it already decoded that the
      engine has not taken: the base is where those start. */
  function AdoptTable(s: State, t: nat): State {
    var waiting := if s.taken <= |s.events| then s.events[s.taken..] else [];
    s.(rules := s.rules + {t}, joined := s.joined[t := s.clock],
       base := (k: Key) => if k.table == t then FirstWaiting(waiting, k, Max(s.cursor, PublishedAt(s, t))) else s.base(k))
  }

  /** Start from the stored document, or store a fresh one first. */
  function BeginTable(s: State, t: nat, bounds: seq<int>): State {
    var p := if t in s.progress then s.progress[t] else Progress(bounds, 0, false);
    SetLoader(s, t, Ready(p.bounds, p.done)).(progress := s.progress[t := p])
  }

  /** What every end of an attempt loses: channels, marks, the engine and the
      loaders. Requests already open may still arrive. */
  function EndAttempt(s: State): State {
    s.(start := s.slot, cursor := s.slot, events := [], taken := 0, copy := [], copied := 0, drawn := [],
       eng := Fresh, persisted := 0, loaders := map[], barriers := map[], cleared := {},
       stray := s.stray + OpenWrites(s.eng))
  }

  /** Where the stream picks table `t` up again after an attempt ends. */
  function ResumesAt(s: State, t: nat): nat {
    Max(s.slot, PublishedAt(s, t))
  }

  function LoweredBaseOf(s: State, k: Key): nat {
    if k.table in s.rules then Min(s.base(k), ResumesAt(s, k.table)) else ResumesAt(s, k.table)
  }

  function LoweredBase(s: State): Key -> nat {
    (k: Key) => LoweredBaseOf(s, k)
  }

  /** The same process opens a new attempt: admission, rules and the durable
      position carry over. */
  function ReconnectAttempt(s: State): State {
    EndAttempt(s).(
      admittedAt := map t | t in s.admitted :: ResumesAt(s, t),
      joined := map t | t in s.rules :: if t in s.joined then Min(s.joined[t], ResumesAt(s, t)) else ResumesAt(s, t),
      base := LoweredBase(s))
  }

  /** A new process: everything is built from the file. */
  function RestartProcess(s: State): State {
    EndAttempt(s).(
      durable := 0,
      admitted := s.config, rules := s.config,
      published := map t | t in s.published.Keys + s.config :: PublishedAt(s, t),
      admittedAt := map t | t in s.config :: ResumesAt(s, t),
      joined := map t | t in s.config :: ResumesAt(s, t),
      base := LoweredBase(s))
  }

  ghost function DoStream(s: State, step: StreamStep): State
    requires StreamEnabled(s, step)
  {
    match step
    case Emit(i, order) =>
      assert forall k | k in order :: k in Elems(order);
      EmitTxn(s, s.hist[i], order)
    case KeepAlive(pos) => s.(events := s.events + [Commit(pos)], cursor := pos)
    case WriteCheckpoint => s.(checkpoint := Some(s.eng.acked), persisted := s.eng.acked)
    case StoreDurable => s.(durable := s.persisted)
    case Feedback(walEnd) => s.(slot := Max(s.slot, Min(walEnd, s.durable)))
  }

  ghost function DoEngine(s: State, step: EngineStep): State
    requires EngineEnabled(s, step)
  {
    match step
    case TakeEvent(hold) => TakeOneEvent(s, hold)
    case TakeCopy(hold) => TakeOneCopy(s, hold)
    case SplitBatch => s.(eng := Flush(s.eng))
    case OpenWrite => s.(eng := StartWrite(s.eng))
    case Arrive(w) => s.(target := Land(s.target, w), landed := s.landed + {w})
    case CloseWrite => s.(eng := FinishWrite(s.eng))
    case Barrier => s.(eng := PassBarrier(s.eng))
  }

  ghost function DoJoin(s: State, t: nat, step: JoinStep): State
    requires JoinEnabled(s, t, step)
  {
    match step
    case EditFile => s.(config := s.config + {t})
    case AlterPublication(pos) => s.(published := s.published[t := pos], clock := pos)
    case ReadBarrier(pos) => s.(clock := pos, barriers := s.barriers[t := pos])
    case Admit => AdmitTable(s, t)
    case Adopt => AdoptTable(s, t)
  }

  ghost function DoLoad(s: State, t: nat, step: LoadStep): State
    requires LoadEnabled(s, t, step)
  {
    match step
    case Announce(ev) => s.(copy := s.copy + [ev])
    case BeginLoad(bounds) => BeginTable(s, t, bounds)
    case BeginWave(width) =>
      var l := s.loaders[t];
      SetLoader(s, t, Reading(l.bounds, l.done, seq(Min(width, |l.bounds| + 1 - l.done), _ => Unread)))
    case ReadPosition(i) => SetRead(s, t, i, Located(s.clock))
    case Snapshot(i) =>
      var l := s.loaders[t];
      var v := l.wave[i].v;
      SetRead(s, t, i, Copying(v, s.clock, RowsOf(s.hist, s.clock, t, RangeAt(l.bounds, l.done + i), v)))
    case SendRow(i, w) =>
      var r := s.loaders[t].wave[i];
      SetRead(s, t, i, r.(left := r.left - {w})).(copy := s.copy + [CopyRow(w)])
    case DrawMark =>
      var l := s.loaders[t];
      SetLoader(s, t, Drawn(l.bounds, l.done, l.wave, |s.drawn| + 1)).(drawn := s.drawn + [|s.copy|])
    case SendMark =>
      var l := s.loaders[t];
      SetLoader(s, t, Waiting(l.bounds, l.done, l.wave, l.mark)).(copy := s.copy + [LoadMark(l.mark)])
    case SeeMark =>
      var l := s.loaders[t];
      SetLoader(s, t, Written(l.bounds, l.done + |l.wave|))
    case StoreProgress =>
      var l := s.loaders[t];
      SetLoader(s, t, Ready(l.bounds, l.done)).(progress := s.progress[t := Progress(l.bounds, l.done, false)])
    case StoreFinished =>
      var l := s.loaders[t];
      SetLoader(s, t, Loaded(l.bounds, l.done)).(progress := s.progress[t := Progress(l.bounds, l.done, true)])
    case ClearProgress => s.(progress := s.progress - {t}, loaders := s.loaders - {t})
  }

  ghost function Do(s: State, step: Step): State
    requires Enabled(s, step)
  {
    match step
    case SourceDoes(DoCommit(pos, changes)) => s.(hist := s.hist + [Txn(pos, changes)], clock := pos)
    case SourceDoes(LogMoves(pos)) => s.(clock := pos)
    case StreamDoes(x) => DoStream(s, x)
    case EngineDoes(x) => DoEngine(s, x)
    case TableJoins(t, x) => DoJoin(s, t, x)
    case LoaderDoes(t, x) => DoLoad(s, t, x)
    case Reconnect => ReconnectAttempt(s)
    case Restart => RestartProcess(s)
    case RecreateSlot(pos) => RestartProcess(s.(slot := pos, clock := pos))
  }

  /** The slot exists and every configured table is published before the first
      row is read; the target is empty. */
  ghost predicate Init(s: State) {
    && Increasing(s.hist, s.clock)
    && s.slot == s.start == s.cursor == s.clock
    && s.published == (map t | t in s.config :: s.clock)
    && s.target == map[] && s.landed == {} && s.stray == {} && s.checkpoint.None? && s.progress == map[]
    && s.durable == 0 && s.persisted == 0
    && s.admitted == s.config && s.rules == s.config
    && s.events == [] && s.taken == 0 && s.copy == [] && s.copied == 0 && s.drawn == []
    && s.eng == Fresh && s.loaders == map[] && s.barriers == map[] && s.cleared == {}
    && s.admittedAt == (map t | t in s.config :: s.clock) && s.joined == s.admittedAt
    && (forall k: Key :: s.base(k) == s.clock)
  }

  /** `s'` is what some run of `steps` from `s` ends in; with `care`, each step
      is also a careful one. */
  ghost predicate Runs(care: bool, s: State, steps: seq<Step>, s': State)
    decreases |steps|
  {
    if steps == [] then s' == s
    else
      && Enabled(s, steps[0]) && (care ==> Careful(s, steps[0]))
      && Runs(care, Do(s, steps[0]), steps[1..], s')
  }

  ghost predicate Reachable(care: bool, s: State) {
    exists s0, steps :: Init(s0) && Runs(care, s0, steps, s)
  }

  /** A run goes on by one step. */
  lemma {:induction false} RunThen(care: bool, s0: State, steps: seq<Step>, s: State, step: Step)
    requires Runs(care, s0, steps, s) && Enabled(s, step) && (care ==> Careful(s, step))
    ensures Runs(care, s0, steps + [step], Do(s, step))
    decreases |steps|
  {
    hide Enabled, Do, Careful;
    var longer := steps + [step];
    if steps == [] {
      assert longer[1..] == [];
      assert Runs(care, Do(s, step), [], Do(s, step));
    } else {
      assert longer[1..] == steps[1..] + [step];
      RunThen(care, Do(s0, steps[0]), steps[1..], s, step);
    }
  }

  lemma Then(care: bool, s: State, step: Step)
    requires Reachable(care, s) && Enabled(s, step) && (care ==> Careful(s, step))
    ensures Reachable(care, Do(s, step))
  {
    hide Enabled, Do, Careful;
    var s0, steps :| Init(s0) && Runs(care, s0, steps, s);
    RunThen(care, s0, steps, s, step);
  }
}
