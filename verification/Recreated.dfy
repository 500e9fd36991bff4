/** A slot created again before everything owed has landed: what a later load and
    the stream make good, key by key.

    A run after the creation is set beside one that began at the new slot with
    nothing behind it. The two share source, channels, engine and loaders; the
    second holds on its target only what has landed since, and, for ranges a
    stored document says are done, what the source held there. It keeps the
    invariant, and what differs between the two targets is what the creation
    left behind. */
module Recreated {
  import opened Wrappers
  import opened Source
  import opened Target
  import opened Ranges
  import opened Engine
  import opened Protocol
  import opened Invariant
  import opened Frames
  import opened StreamSteps
  import opened JoinSteps
  import opened AttemptSteps
  import opened Safety

  // ------------------------------------------------------ the run beside

  /** A key that a stored document counts as done. */
  predicate DoneKey(progress: map<nat, Progress>, k: Key) {
    k.table in progress && RangeOf(progress[k.table].bounds, k.id) < progress[k.table].done
  }

  function DoneRow(s: State, pos: nat, k: Key): Write {
    Write(k, pos, DocAt(s.hist, pos, k))
  }

  function DoneKeys(s: State, pos: nat): set<Key> {
    set k | k in KeysOf(s.hist) && DoneKey(s.progress, k) && DocAt(s.hist, pos, k).Some?
  }

  function DoneRows(s: State, pos: nat): set<Write> {
    set k | k in DoneKeys(s, pos) :: DoneRow(s, pos, k)
  }

  function DoneTarget(s: State, pos: nat): Index {
    map k | k in DoneKeys(s, pos) :: DoneRow(s, pos, k)
  }

  ghost function Beside(s: State, pos: nat): State
    requires pos > s.clock
  {
    Do(s, RecreateSlot(pos)).(base := (k: Key) => pos, landed := DoneRows(s, pos), target := DoneTarget(s, pos), stray := {})
  }

  lemma BesideIsSource(s: State, pos: nat)
    requires SourceOk(s) && pos > s.clock
    ensures var b := Beside(s, pos); SourceOk(b) && BaseOk(b)
  {
    RecreateIsSource(s, pos);
    hide Increasing;
  }

  lemma BesideIsNew(s: State, pos: nat)
    requires SourceOk(s) && pos > s.clock
    ensures var b := Beside(s, pos);
            NewAttempt(b, b) && (forall t | t in b.admitted :: t in b.admittedAt && b.admittedAt[t] >= b.slot)
  {
    hide Increasing, DoneRows, DoneTarget;
    assert OpenWrites(Fresh) == {} by { assert BatchItems(Fresh.inflight) == []; }
  }

  lemma DoneRowsAreTrue(s: State, pos: nat, w: Write)
    requires ProgressOk(s) && w in DoneRows(s, pos)
    ensures w.key.table in s.rules && w.version == pos && Genuine(s.hist, pos, w)
  {
    assert DocAt(s.hist, pos, w.key) == w.doc;
    hide LoadedBelow;
  }

  lemma DoneTargetHolds(s: State, pos: nat)
    ensures KeepsHighest(DoneTarget(s, pos), DoneRows(s, pos))
  {
  }

  lemma BesideWrites(s: State, pos: nat)
    requires SourceOk(s) && ProgressOk(s) && pos > s.clock
    ensures var b := Beside(s, pos); WritesOk(b) && KeepsHighest(b.target, b.landed)
  {
    var b := Beside(s, pos);
    DoneTargetHolds(s, pos);
    FreshIsSound(b.landed);
    assert s.rules <= s.config by { hide Increasing; }
    assert b.eng == Fresh && b.landed == DoneRows(s, pos) && b.target == DoneTarget(s, pos) && b.stray == {};
    assert b.rules == s.config && b.hist == s.hist && b.clock == pos && forall k: Key :: b.base(k) == pos;
    hide SourceOk, DoneRows, DoneTarget, KeepsHighest, Sound, Remembered, Flow, Genuine, ProgressOk, Beside;
    forall w | w in b.landed ensures WriteOk(b, w) { DoneRowsAreTrue(s, pos, w); }
    hide WriteOk;
  }

  lemma BesideProgress(s: State, pos: nat)
    requires SourceOk(s) && ProgressOk(s) && pos > s.clock
    ensures ProgressOk(Beside(s, pos))
  {
    var b := Beside(s, pos);
    forall k: Key | DoneKey(s.progress, k) ensures KeyLoaded(b, k) {
      if DocAt(s.hist, pos, k).Some? {
        LastChangeIsLast(s.hist, s.clock, pos, k);
        assert LastChange(s.hist, pos, k).value in Changes(s.hist);
        assert DoneRow(s, pos, k) in b.landed;
      }
      assert ReadAt(b, k, pos, pos);
    }
    hide KeyLoaded;
  }

  lemma BesideKeeps(s: State, pos: nat)
    requires Inv(s) && pos > s.clock
    ensures Inv(Beside(s, pos))
  {
    hide Inv, BaseOk, WritesOk, KeepsHighest, Sound, Remembered, EventsOk, TakenOk, CopyOk, JoinOk, ProgressOk, LoadersOk;
    PartsOf(s);
    var b := Beside(s, pos);
    BesideIsSource(s, pos);
    BesideIsNew(s, pos);
    BesideWrites(s, pos);
    BesideProgress(s, pos);
    forall w | w in Changes(s.hist) ensures 0 < w.version <= s.clock { ChangeWithinClock(s.hist, s.clock, w); }
    assert SafeTo(b, b.slot) && SafeTo(b, b.durable);
    hide SourceOk, SafeTo, NewAttempt;
    NewAttemptIsEmpty(b, b);
    Assembled(b);
  }

  // --------------------------------------------------------- the two runs side by side

  /** Alike in everything but what has landed and what is owed. */
  ghost predicate Same(s: State, t: State) {
    t == s.(base := t.base, landed := t.landed, target := t.target, stray := t.stray)
  }

  /** `t2` is to `t` what a step that sees none of those four makes of it. */
  ghost predicate Blind(t: State, s2: State, t2: State) {
    t2 == s2.(base := t.base, landed := t.landed, target := t.target, stray := t.stray)
  }

  /** The step leaves those four alone. */
  ghost predicate Keeps(s: State, s2: State) {
    && s2.base == s.base && s2.landed == s.landed && s2.target == s.target && s2.stray == s.stray
    && s2.hist == s.hist && s.clock <= s2.clock && s2.rules == s.rules && s2.start == s.start
  }

  lemma StreamBlind(s: State, t: State, x: StreamStep)
    requires Same(s, t) && StreamEnabled(s, x)
    ensures StreamEnabled(t, x) && Blind(t, DoStream(s, x), DoStream(t, x)) && Keeps(s, DoStream(s, x))
  {
  }

  lemma EngineBlind(s: State, t: State, x: EngineStep)
    requires Same(s, t) && EngineEnabled(s, x) && !x.Arrive? && !x.CloseWrite?
    ensures EngineEnabled(t, x) && Blind(t, DoEngine(s, x), DoEngine(t, x)) && Keeps(s, DoEngine(s, x))
  {
  }

  lemma JoinBlind(s: State, t: State, table: nat, x: JoinStep)
    requires Same(s, t) && JoinEnabled(s, table, x) && !x.Adopt?
    ensures JoinEnabled(t, table, x) && Blind(t, DoJoin(s, table, x), DoJoin(t, table, x)) && Keeps(s, DoJoin(s, table, x))
  {
  }

  predicate Reads(x: LoadStep) {
    x.Announce? || x.BeginLoad? || x.BeginWave? || x.ReadPosition? || x.Snapshot? || x.SendRow?
  }

  lemma ReadBlind(s: State, t: State, table: nat, x: LoadStep)
    requires Same(s, t) && LoadEnabled(s, table, x) && Reads(x)
    ensures LoadEnabled(t, table, x) && Blind(t, DoLoad(s, table, x), DoLoad(t, table, x)) && Keeps(s, DoLoad(s, table, x))
  {
  }

  lemma RecordBlind(s: State, t: State, table: nat, x: LoadStep)
    requires Same(s, t) && LoadEnabled(s, table, x) && !Reads(x)
    ensures LoadEnabled(t, table, x) && Blind(t, DoLoad(s, table, x), DoLoad(t, table, x)) && Keeps(s, DoLoad(s, table, x))
  {
  }

  lemma LoadBlind(s: State, t: State, table: nat, x: LoadStep)
    requires Same(s, t) && LoadEnabled(s, table, x)
    ensures LoadEnabled(t, table, x) && Blind(t, DoLoad(s, table, x), DoLoad(t, table, x)) && Keeps(s, DoLoad(s, table, x))
  {
    hide Same, LoadEnabled, Blind, Keeps, DoLoad;
    if Reads(x) { ReadBlind(s, t, table, x); } else { RecordBlind(s, t, table, x); }
  }

  /** A step neither run's target or debts have a part in. */
  predicate Plain(step: Step) {
    match step
    case SourceDoes(DoCommit(_, _)) => false
    case SourceDoes(LogMoves(_)) => true
    case StreamDoes(_) => true
    case EngineDoes(x) => !x.Arrive? && !x.CloseWrite?
    case TableJoins(_, x) => !x.Adopt?
    case LoaderDoes(_, _) => true
    case _ => false
  }

  lemma PlainBlind(s: State, t: State, step: Step)
    requires Same(s, t) && Enabled(s, step) && Plain(step)
    ensures Enabled(t, step) && Blind(t, Do(s, step), Do(t, step)) && Keeps(s, Do(s, step)) && Careful(t, step)
  {
    match step
    case SourceDoes(LogMoves(pos)) =>
    case StreamDoes(x) => hide Same; StreamBlind(s, t, x); hide StreamEnabled, DoStream, Blind, Keeps;
    case EngineDoes(x) => hide Same; EngineBlind(s, t, x); hide EngineEnabled, DoEngine, Blind, Keeps;
    case TableJoins(table, x) => hide Same; JoinBlind(s, t, table, x); hide JoinEnabled, DoJoin, Blind, Keeps;
    case LoaderDoes(table, x) => hide Same; LoadBlind(s, t, table, x); hide LoadEnabled, DoLoad, Blind, Keeps;
  }

  /** Requests open when the slot was created again. */
  function OldOpen(s0: State): set<Write> {
    s0.stray + OpenWrites(s0.eng)
  }

  function Old(s0: State): set<Write> {
    s0.landed + OldOpen(s0)
  }

  /** What the one target has beyond the other. */
  ghost predicate Landings(s0: State, pos: nat, s: State, t: State) {
    && s.landed <= t.landed + Old(s0) && t.landed <= s.landed + DoneRows(s0, pos)
    && t.stray <= s.stray && s.stray <= t.stray + OldOpen(s0)
    && KeepsHighest(s.target, s.landed)
  }

  ghost predicate Debts(pos: nat, k: Key, s: State, t: State) {
    && pos <= s.start && k.table in s.rules && t.base(k) == pos
    && (forall x: Key | x.table in s.rules :: s.base(x) <= t.base(x) && pos <= t.base(x))
  }

  ghost predicate Past(s0: State, pos: nat, k: Key, s: State) {
    && (forall w | w in Old(s0) :: Genuine(s.hist, s.clock, w) && w.version < pos)
    && DocAt(s.hist, pos, k) == DocAt(s0.hist, pos, k) && pos <= s.clock
    && (forall c | c in Changes(s.hist) :: c.version != pos)
  }

  function Held(target: Index, k: Key): Option<Write> {
    if k in target then Some(target[k]) else None
  }

  /** Either something of `k` at or above the new slot has landed, or, no request
      of it having been open, the target holds of it what it held. */
  ghost predicate Left(s0: State, pos: nat, k: Key, s: State) {
    (forall w | w in OldOpen(s0) :: w.key != k) ==> Covers(s.landed, k, pos) || Held(s.target, k) == Held(s0.target, k)
  }

  ghost predicate Paired(s0: State, pos: nat, k: Key, s: State, t: State) {
    Inv(t) && Same(s, t) && Landings(s0, pos, s, t) && Debts(pos, k, s, t) && Past(s0, pos, k, s) && Left(s0, pos, k, s)
  }

  lemma PlainPaired(s0: State, pos: nat, k: Key, s: State, t: State, step: Step)
    requires Paired(s0, pos, k, s, t) && Enabled(s, step) && Plain(step)
    ensures Enabled(t, step) && Paired(s0, pos, k, Do(s, step), Do(t, step))
  {
    hide Enabled, Do, Careful, Inv, Landings, Debts, Past, Left;
    PlainBlind(s, t, step);
    StepKeeps(t, step);
    PlainStays(s0, pos, k, s, t, Do(s, step), Do(t, step));
  }

  lemma PlainStays(s0: State, pos: nat, k: Key, s: State, t: State, s2: State, t2: State)
    requires Landings(s0, pos, s, t) && Debts(pos, k, s, t) && Past(s0, pos, k, s) && Left(s0, pos, k, s)
    requires Keeps(s, s2) && Blind(t, s2, t2)
    ensures Same(s2, t2) && Landings(s0, pos, s2, t2) && Debts(pos, k, s2, t2) && Past(s0, pos, k, s2) && Left(s0, pos, k, s2)
  {
    hide KeepsHighest, Covers, Old, OldOpen;
    forall w | Genuine(s.hist, s.clock, w) ensures Genuine(s2.hist, s2.clock, w) {}
    hide Genuine;
  }

  lemma CommitPaired(s0: State, pos: nat, k: Key, s: State, t: State, p: nat, changes: map<Key, Option<Doc>>)
    requires Paired(s0, pos, k, s, t) && p > s.clock
    ensures var step := SourceDoes(DoCommit(p, changes));
            Enabled(s, step) && Enabled(t, step) && Paired(s0, pos, k, Do(s, step), Do(t, step))
  {
    var step := SourceDoes(DoCommit(p, changes));
    hide Inv, Landings, Debts, Left;
    StepKeeps(t, step);
    var x := Txn(p, changes);
    forall w | Genuine(s.hist, s.clock, w) ensures Genuine(s.hist + [x], p, w) { GenuineStays(s.hist, x, s.clock, p, w); }
    CommitKeepsThePast(s.hist, x, pos, k);
    hide Genuine, DocAt, Changes;
    var s2, t2 := Do(s, step), Do(t, step);
    assert Past(s0, pos, k, s2);
    assert Landings(s0, pos, s2, t2) by { SameLandings(s0, pos, s, t, s2, t2); }
    assert Debts(pos, k, s2, t2) by { SameDebts(pos, k, s, t, s2, t2); }
    assert Left(s0, pos, k, s2) by { SameLeft(s0, pos, k, s, s2); }
  }

  lemma SameLandings(s0: State, pos: nat, s: State, t: State, s2: State, t2: State)
    requires Landings(s0, pos, s, t)
    requires s2.landed == s.landed && s2.target == s.target && s2.stray == s.stray
    requires t2.landed == t.landed && t2.stray == t.stray
    ensures Landings(s0, pos, s2, t2)
  {
  }

  lemma SameDebts(pos: nat, k: Key, s: State, t: State, s2: State, t2: State)
    requires Debts(pos, k, s, t) && s2.start == s.start && s2.rules == s.rules && s2.base == s.base && t2.base == t.base
    ensures Debts(pos, k, s2, t2)
  {
  }

  lemma SameLeft(s0: State, pos: nat, k: Key, s: State, s2: State)
    requires Left(s0, pos, k, s) && s2.landed == s.landed && s2.target == s.target
    ensures Left(s0, pos, k, s2)
  {
  }

  lemma SamePast(s0: State, pos: nat, k: Key, s: State, s2: State)
    requires Past(s0, pos, k, s) && s2.hist == s.hist && s.clock <= s2.clock
    ensures Past(s0, pos, k, s2)
  {
    forall w | Genuine(s.hist, s.clock, w) ensures Genuine(s2.hist, s2.clock, w) {}
    hide Genuine;
  }

  // ------------------------------------------------- a table adopted, an attempt ended

  function JoinBase(s: State, table: nat, k: Key): nat {
    FirstWaiting(if s.taken <= |s.events| then s.events[s.taken..] else [], k, Max(s.cursor, PublishedAt(s, table)))
  }

  lemma AdoptBase(s: State, t: State, table: nat, x: Key)
    requires Same(s, t)
    ensures AdoptTable(s, table).base(x) == (if x.table == table then JoinBase(s, table, x) else s.base(x))
    ensures AdoptTable(t, table).base(x) == (if x.table == table then JoinBase(s, table, x) else t.base(x))
  {
    assert t.events == s.events && t.taken == s.taken && t.cursor == s.cursor && t.published == s.published && t.clock == s.clock;
  }

  lemma AdoptDebts(pos: nat, k: Key, s: State, t: State, table: nat)
    requires Inv(t) && Same(s, t) && Debts(pos, k, s, t) && JoinEnabled(s, table, Adopt)
    ensures Debts(pos, k, AdoptTable(s, table), AdoptTable(t, table))
  {
    PartsOf(t);
    hide Inv, BaseOk, WritesOk, KeepsHighest, TakenOk, CopyOk, JoinOk, ProgressOk, LoadersOk, JoinBase;
    var s2, t2 := AdoptTable(s, table), AdoptTable(t, table);
    assert s2.rules == s.rules + {table} && s2.start == s.start;
    assert table in t.admitted && table !in t.rules && t.start <= t.admittedAt[table] && t.start == s.start;
    hide Same, SourceOk, JoinEnabled;
    forall x: Key | x.table in s2.rules ensures s2.base(x) <= t2.base(x) && pos <= t2.base(x) {
      AdoptBase(s, t, table, x);
      if x.table == table { JoiningBase(t, table, x); }
    }
    AdoptBase(s, t, table, k);
  }

  lemma AdoptSame(s: State, t: State, table: nat)
    requires Same(s, t) && JoinEnabled(s, table, Adopt)
    ensures JoinEnabled(t, table, Adopt)
    ensures var s2, t2 := AdoptTable(s, table), AdoptTable(t, table);
            && Same(s2, t2) && s2.landed == s.landed && s2.target == s.target && s2.stray == s.stray
            && t2.landed == t.landed && t2.stray == t.stray && s2.hist == s.hist && s2.clock == s.clock
  {
  }

  lemma AdoptPaired(s0: State, pos: nat, k: Key, s: State, t: State, table: nat)
    requires Paired(s0, pos, k, s, t) && JoinEnabled(s, table, Adopt)
    ensures var step := TableJoins(table, Adopt);
            Enabled(t, step) && Paired(s0, pos, k, Do(s, step), Do(t, step))
  {
    hide Inv, Paired, Landings, Debts, Past, Left, Same, JoinEnabled, AdoptTable, Do, Enabled, Careful;
    PairedParts(s0, pos, k, s, t);
    var step := TableJoins(table, Adopt);
    AdoptSame(s, t, table);
    AdoptIs(s, table);
    AdoptIs(t, table);
    AdoptDebts(pos, k, s, t, table);
    StepKeeps(t, step);
    var s2, t2 := Do(s, step), Do(t, step);
    SameLandings(s0, pos, s, t, s2, t2);
    SamePast(s0, pos, k, s, s2);
    SameLeft(s0, pos, k, s, s2);
    PairedFrom(s0, pos, k, s2, t2);
  }

  lemma AdoptIs(s: State, table: nat)
    requires JoinEnabled(s, table, Adopt)
    ensures var step := TableJoins(table, Adopt);
            Enabled(s, step) && Careful(s, step) && Do(s, step) == AdoptTable(s, table)
  {
  }

  /** What the end of an attempt does to the four. */
  ghost predicate Ends(s: State, s2: State) {
    && s2.landed == s.landed && s2.target == s.target && s2.stray == s.stray + OpenWrites(s.eng)
    && s2.hist == s.hist && s.clock <= s2.clock && s.slot <= s2.slot == s2.start && s.rules <= s2.rules
    && (forall x: Key | x.table in s2.rules ::
          s2.base(x) == if x.table in s.rules then Min(s.base(x), Resumed(s2, x.table)) else Resumed(s2, x.table))
  }

  function Resumed(s2: State, table: nat): nat {
    Max(s2.slot, PublishedAt(s2, table))
  }

  lemma AttemptEnds(s: State, step: Step)
    requires s.rules <= s.config && s.rules <= s.published.Keys && s.slot <= s.clock
    requires Enabled(s, step) && (step.Reconnect? || step.Restart? || step.RecreateSlot?)
    ensures Ends(s, Do(s, step))
  {
  }

  lemma ReconnectSame(s: State, t: State)
    requires Same(s, t)
    ensures Same(ReconnectAttempt(s), ReconnectAttempt(t))
  {
  }

  lemma RestartSame(s: State, t: State)
    requires Same(s, t)
    ensures Same(RestartProcess(s), RestartProcess(t))
  {
  }

  lemma MovedSame(s: State, t: State, pos: nat)
    requires Same(s, t)
    ensures Same(s.(slot := pos, clock := pos), t.(slot := pos, clock := pos)) && s.clock == t.clock
  {
  }

  lemma AttemptSame(s: State, t: State, step: Step)
    requires Same(s, t) && Enabled(s, step) && (step.Reconnect? || step.Restart? || step.RecreateSlot?)
    ensures Enabled(t, step) && Same(Do(s, step), Do(t, step))
  {
    hide Same, ReconnectAttempt, RestartProcess;
    match step
    case Reconnect => ReconnectSame(s, t);
    case Restart => RestartSame(s, t);
    case RecreateSlot(pos) =>
      MovedSame(s, t, pos);
      RestartSame(s.(slot := pos, clock := pos), t.(slot := pos, clock := pos));
  }

  lemma AttemptDebts(pos: nat, k: Key, s: State, t: State, s2: State, t2: State)
    requires Debts(pos, k, s, t) && s.start <= s.slot && t.rules == s.rules
    requires Ends(s, s2) && Ends(t, t2) && t2.rules == s2.rules && t2.slot == s2.slot && t2.published == s2.published && t2.clock == s2.clock
    ensures Debts(pos, k, s2, t2)
  {
    assert forall n :: Resumed(t2, n) == Resumed(s2, n) >= s2.slot;
    hide Resumed;
  }

  /** What counts for the one run counts for the other above the new slot. */
  lemma CoversToo(s0: State, pos: nat, k: Key, s: State, t: State, w: Write)
    requires Landings(s0, pos, s, t) && Past(s0, pos, k, s) && Covers(s.landed, w.key, w.version) && w.version >= pos
    ensures Covers(t.landed, w.key, w.version)
  {
    hide Genuine;
    var y :| y in s.landed && y.key == w.key && y.version >= w.version;
    assert y !in Old(s0);
  }

  lemma AttemptCareful(s0: State, pos: nat, k: Key, s: State, t: State, step: Step)
    requires Same(s, t) && Landings(s0, pos, s, t) && Debts(pos, k, s, t) && Past(s0, pos, k, s) && s.start <= s.slot
    requires Careful(s, step) && (step.Reconnect? || step.Restart? || step.RecreateSlot?)
    ensures Careful(t, step)
  {
    assert t.rules == s.rules && t.hist == s.hist && t.durable == s.durable && t.slot == s.slot && t.clock == s.clock
           && t.published == s.published;
    assert forall x: Key | x.table in s.rules ::
        LoweredBaseOf(s, x) <= LoweredBaseOf(t, x) && pos <= LoweredBaseOf(t, x) && s.base(x) <= t.base(x) && pos <= t.base(x);
    hide Same, LoweredBaseOf, Debts;
    forall w: Write | Covers(s.landed, w.key, w.version) && w.version >= pos ensures Covers(t.landed, w.key, w.version) {
      CoversToo(s0, pos, k, s, t, w);
    }
    hide Covers, Landings, Past;
  }

  lemma AttemptLandings(s0: State, pos: nat, k: Key, s: State, t: State, s2: State, t2: State)
    requires Landings(s0, pos, s, t) && Past(s0, pos, k, s) && Left(s0, pos, k, s) && t.eng == s.eng
    requires Ends(s, s2) && Ends(t, t2)
    ensures Landings(s0, pos, s2, t2) && Past(s0, pos, k, s2) && Left(s0, pos, k, s2)
  {
    SamePast(s0, pos, k, s, s2);
    SameLeft(s0, pos, k, s, s2);
    hide Past, Left, KeepsHighest, Old, OldOpen, OpenWrites;
  }

  lemma AttemptPaired(s0: State, pos: nat, k: Key, s: State, t: State, step: Step)
    requires Paired(s0, pos, k, s, t) && Enabled(s, step) && Careful(s, step)
    requires step.Reconnect? || step.Restart? || step.RecreateSlot?
    ensures Enabled(t, step) && Paired(s0, pos, k, Do(s, step), Do(t, step))
  {
    PartsOf(t);
    assert s.rules <= s.config && s.rules <= s.published.Keys && s.start <= s.slot <= s.clock by { hide Inv, Increasing; }
    assert t.rules == s.rules && t.config == s.config && t.published == s.published && t.slot == s.slot && t.clock == s.clock && t.eng == s.eng;
    hide Inv, SourceOk, Landings, Debts, Past, Left;
    AttemptSame(s, t, step);
    hide Do, Enabled, Careful;
    var s2, t2 := Do(s, step), Do(t, step);
    assert t2.rules == s2.rules && t2.slot == s2.slot && t2.published == s2.published && t2.clock == s2.clock;
    hide Same;
    AttemptEnds(s, step);
    AttemptEnds(t, step);
    AttemptCareful(s0, pos, k, s, t, step);
    StepKeeps(t, step);
    hide Ends;
    AttemptDebts(pos, k, s, t, s2, t2);
    AttemptLandings(s0, pos, k, s, t, s2, t2);
  }

  // ----------------------------------------------------------- writes that land

  /** A write the run beside has open is at or above the new slot. */
  lemma OpenIsNew(pos: nat, k: Key, s: State, t: State, w: Write)
    requires Inv(t) && Same(s, t) && Debts(pos, k, s, t) && (w in OpenWrites(t.eng) || w in t.stray)
    ensures w.version >= pos
  {
    PartsOf(t);
    hide Inv;
    if w in OpenWrites(t.eng) { OpenWritesFlow(t.eng, w); }
    assert WriteOk(t, w);
  }

  lemma ArriveLeft(s0: State, pos: nat, k: Key, s: State, s2: State, w: Write)
    requires Left(s0, pos, k, s) && s2.target == Land(s.target, w) && s2.landed == s.landed + {w}
    requires w.version >= pos || w in OldOpen(s0)
    ensures Left(s0, pos, k, s2)
  {
    hide OldOpen;
    if w.key == k && w.version >= pos { assert Covers(s2.landed, k, pos); }
    if Covers(s.landed, k, pos) { assert Covers(s2.landed, k, pos); }
  }

  lemma ArriveLandings(s0: State, pos: nat, s: State, t: State, s2: State, t2: State, w: Write)
    requires Landings(s0, pos, s, t) && s2.target == Land(s.target, w) && s2.landed == s.landed + {w} && s2.stray == s.stray
    requires (t2.landed == t.landed + {w} || (t2.landed == t.landed && w in OldOpen(s0))) && t2.stray == t.stray
    ensures Landings(s0, pos, s2, t2)
  {
    LandKeepsHighest(s.target, s.landed, w);
    hide KeepsHighest, OldOpen;
  }

  lemma ArriveIs(t: State, w: Write)
    requires Inv(t) && EngineEnabled(t, Arrive(w))
    ensures Inv(Arrived(t, w))
  {
    EngineStepsKeep(t, Arrive(w));
  }

  function Arrived(s: State, w: Write): State {
    s.(target := Land(s.target, w), landed := s.landed + {w})
  }

  lemma ArrivedSame(s: State, t: State, w: Write)
    requires Same(s, t)
    ensures Same(Arrived(s, w), t) && Same(Arrived(s, w), Arrived(t, w))
  {
  }

  lemma ArrivedPaired(s0: State, pos: nat, k: Key, s: State, t: State, w: Write, t2: State)
    requires Paired(s0, pos, k, s, t) && Inv(t2)
    requires (t2 == t && w in OldOpen(s0)) || (t2 == Arrived(t, w) && w.version >= pos)
    ensures Paired(s0, pos, k, Arrived(s, w), t2)
  {
    hide Inv, Paired, Same, OldOpen, Landings, Debts, Past, Left, Land;
    PairedParts(s0, pos, k, s, t);
    var s2 := Arrived(s, w);
    ArriveLandings(s0, pos, s, t, s2, t2, w);
    SameDebts(pos, k, s, t, s2, t2);
    SamePast(s0, pos, k, s, s2);
    ArriveLeft(s0, pos, k, s, s2, w);
    ArrivedSame(s, t, w);
    PairedFrom(s0, pos, k, s2, t2);
  }

  lemma ArrivePaired(s0: State, pos: nat, k: Key, s: State, t: State, w: Write) returns (t2: State)
    requires Paired(s0, pos, k, s, t) && EngineEnabled(s, Arrive(w))
    ensures Paired(s0, pos, k, DoEngine(s, Arrive(w)), t2)
  {
    hide Inv, Paired, Same, OpenWrites, OldOpen, Landings, Debts, Past, Left;
    PairedParts(s0, pos, k, s, t);
    ArriveFrom(s0, pos, s, t, w);
    if w in OpenWrites(t.eng) || w in t.stray {
      ArriveIs(t, w);
      OpenIsNew(pos, k, s, t, w);
      t2 := Arrived(t, w);
    } else {
      t2 := t;
    }
    assert DoEngine(s, Arrive(w)) == Arrived(s, w);
    hide Arrived, DoEngine;
    ArrivedPaired(s0, pos, k, s, t, w, t2);
  }

  lemma ArriveFrom(s0: State, pos: nat, s: State, t: State, w: Write)
    requires Same(s, t) && Landings(s0, pos, s, t) && EngineEnabled(s, Arrive(w))
    ensures t.eng == s.eng && (w in OpenWrites(t.eng) || w in t.stray || w in OldOpen(s0))
  {
    hide OpenWrites, OldOpen, KeepsHighest;
  }

  lemma StillSame(s: State, t: State, s2: State, t2: State)
    requires Same(s, t) && s2 == s.(target := s2.target, landed := s2.landed) && t2 == t.(target := t2.target, landed := t2.landed)
    ensures Same(s2, t2)
  {
  }

  lemma PairedParts(s0: State, pos: nat, k: Key, s: State, t: State)
    requires Paired(s0, pos, k, s, t)
    ensures Inv(t) && Same(s, t) && Landings(s0, pos, s, t) && Debts(pos, k, s, t) && Past(s0, pos, k, s) && Left(s0, pos, k, s)
  {
    hide Inv, Same, Landings, Debts, Past, Left;
  }

  lemma PairedFrom(s0: State, pos: nat, k: Key, s: State, t: State)
    requires Inv(t) && Same(s, t) && Landings(s0, pos, s, t) && Debts(pos, k, s, t) && Past(s0, pos, k, s) && Left(s0, pos, k, s)
    ensures Paired(s0, pos, k, s, t)
  {
    hide Inv, Same, Landings, Debts, Past, Left;
  }

  lemma {:induction false} OldestIsOpen(e: Engine, i: nat)
    requires e.inflight != [] && i < |e.inflight[0]|
    ensures e.inflight[0][i].w in OpenWrites(e)
  {
    FirstBatch(e.inflight);
    RowsConcat(OpItems(e.inflight[0]), BatchItems(e.inflight[1..]));
    RowsOfOps(e.inflight[0]);
    assert Rows(BatchItems(e.inflight))[i] == e.inflight[0][i].w;
  }

  /** The oldest open request lands in full. */
  lemma {:induction false} OldestLands(t: State, n: nat) returns (t2: State)
    requires Inv(t) && t.eng.inflight != [] && n <= |t.eng.inflight[0]|
    ensures Inv(t2) && t2 == t.(target := t2.target, landed := t2.landed) && t.landed <= t2.landed
    ensures forall i | 0 <= i < n :: t.eng.inflight[0][i].w in t2.landed
    ensures forall w | w in t2.landed :: w in t.landed || exists i :: 0 <= i < n && w == t.eng.inflight[0][i].w
  {
    hide Inv, OpenWrites;
    t2 := t;
    if n > 0 {
      var t1 := OldestLands(t, n - 1);
      var w := t.eng.inflight[0][n - 1].w;
      OldestIsOpen(t1.eng, n - 1);
      ArriveIs(t1, w);
      t2 := t1.(target := Land(t1.target, w), landed := t1.landed + {w});
      hide Land;
    }
  }

  lemma ClosePaired(s0: State, pos: nat, k: Key, s: State, t: State) returns (t2: State)
    requires Paired(s0, pos, k, s, t) && EngineEnabled(s, CloseWrite)
    ensures Paired(s0, pos, k, DoEngine(s, CloseWrite), t2)
  {
    hide Inv, Paired, Landings, Debts, Past, Left;
    PairedParts(s0, pos, k, s, t);
    assert t.eng == s.eng;
    hide Same;
    var t1 := OldestLands(t, |t.eng.inflight[0]|);
    StillSame(s, t, s, t1);
    CloseIs(s, t1);
    t2 := DoEngine(t1, CloseWrite);
    var s2 := DoEngine(s, CloseWrite);
    assert forall w | w in t1.landed :: w in t.landed || w in s.landed;
    hide EngineEnabled;
    CloseLandings(s0, pos, s, t, s2, t2);
    SameDebts(pos, k, s, t, s2, t2);
    SamePast(s0, pos, k, s, s2);
    SameLeft(s0, pos, k, s, s2);
    PairedFrom(s0, pos, k, s2, t2);
  }

  lemma CloseIs(s: State, t: State)
    requires Inv(t) && Same(s, t) && t.eng.inflight != []
    requires forall i | 0 <= i < |t.eng.inflight[0]| :: t.eng.inflight[0][i].w in t.landed
    requires EngineEnabled(s, CloseWrite)
    ensures EngineEnabled(t, CloseWrite) && Inv(DoEngine(t, CloseWrite)) && Same(DoEngine(s, CloseWrite), DoEngine(t, CloseWrite))
  {
    hide Inv, FinishWrite;
    EngineStepsKeep(t, CloseWrite);
  }

  lemma CloseLandings(s0: State, pos: nat, s: State, t: State, s2: State, t2: State)
    requires Landings(s0, pos, s, t) && s2.landed == s.landed && s2.target == s.target && s2.stray == s.stray
    requires t2.stray == t.stray && t.landed <= t2.landed && forall w | w in t2.landed :: w in t.landed || w in s.landed
    ensures Landings(s0, pos, s2, t2)
  {
    hide KeepsHighest, Old, OldOpen;
  }

  // ------------------------------------------------------------------ whole runs

  lemma StepPaired(s0: State, pos: nat, k: Key, s: State, t: State, step: Step) returns (t2: State)
    requires Paired(s0, pos, k, s, t) && Enabled(s, step) && Careful(s, step)
    ensures Paired(s0, pos, k, Do(s, step), t2)
  {
    hide Paired;
    if Plain(step) {
      hide Careful;
      PlainPaired(s0, pos, k, s, t, step);
      t2 := Do(t, step);
    } else if step.SourceDoes? {
      hide Careful;
      CommitPaired(s0, pos, k, s, t, step.source.pos, step.source.changes);
      t2 := Do(t, step);
    } else if step.EngineDoes? {
      hide Careful, DoEngine, EngineEnabled;
      if step.engine.Arrive? { t2 := ArrivePaired(s0, pos, k, s, t, step.engine.w); }
      else { t2 := ClosePaired(s0, pos, k, s, t); }
    } else if step.TableJoins? {
      hide Careful, DoJoin, JoinEnabled;
      AdoptPaired(s0, pos, k, s, t, step.table);
      t2 := Do(t, step);
    } else {
      hide Do;
      AttemptPaired(s0, pos, k, s, t, step);
      t2 := Do(t, step);
    }
  }

  lemma {:induction false} RunPaired(s0: State, pos: nat, k: Key, s: State, t: State, steps: seq<Step>, s2: State) returns (t2: State)
    requires Paired(s0, pos, k, s, t) && Runs(true, s, steps, s2)
    ensures Paired(s0, pos, k, s2, t2)
    decreases |steps|
  {
    hide Paired, Enabled, Careful, Do;
    t2 := t;
    if steps != [] {
      var t1 := StepPaired(s0, pos, k, s, t, steps[0]);
      t2 := RunPaired(s0, pos, k, Do(s, steps[0]), t1, steps[1..], s2);
    }
  }

  // ------------------------------------------------------------------ what it comes to

  lemma BesideIsPaired(s: State, pos: nat, k: Key)
    requires Inv(s) && pos > s.clock && k.table in s.rules
    ensures Paired(s, pos, k, Do(s, RecreateSlot(pos)), Beside(s, pos))
  {
    hide Inv, BaseOk, WritesOk, Sound, Remembered, EventsOk, TakenOk, CopyOk, JoinOk, ProgressOk, LoadersOk, SafeTo;
    PartsOf(s);
    BesideKeeps(s, pos);
    RecreateIsSource(s, pos);
    RecreateBase(s, pos);
    OldIsPast(s, pos);
    forall c | c in Changes(s.hist) ensures c.version != pos { ChangeWithinClock(s.hist, s.clock, c); }
    var r, b := Do(s, RecreateSlot(pos)), Beside(s, pos);
    BesideDebts(s, pos, k);
    assert Landings(s, pos, r, b) by { hide SourceOk, KeepsHighest, DoneRows, OpenWrites; }
    assert Same(r, b) && Past(s, pos, k, r) && Left(s, pos, k, r) by { hide SourceOk, KeepsHighest, DoneRows, DoneTarget, OldOpen, Genuine, Changes; }
    hide Same, Landings, Debts, Past, Left, Do, Beside;
    PairedFrom(s, pos, k, r, b);
  }

  lemma BesideDebts(s: State, pos: nat, k: Key)
    requires SourceOk(s) && BaseOk(s) && pos > s.clock && k.table in s.rules
    ensures Debts(pos, k, Do(s, RecreateSlot(pos)), Beside(s, pos))
  {
    RecreateIsSource(s, pos);
    RecreateBase(s, pos);
    hide Increasing, DoneRows, DoneTarget;
  }

  lemma OldIsPast(s: State, pos: nat)
    requires SourceOk(s) && WritesOk(s) && pos > s.clock
    ensures forall w | w in Old(s) :: Genuine(s.hist, pos, w) && w.version < pos
  {
    forall w | w in Old(s) ensures Genuine(s.hist, pos, w) && w.version < pos {
      if w in OpenWrites(s.eng) { OpenWritesFlow(s.eng, w); }
      assert WriteOk(s, w);
      if w in Changes(s.hist) { ChangeWithinClock(s.hist, s.clock, w); }
    }
  }

  /** The highest write of a key decides it: if it reaches the key's last change,
      it shows the source's row. */
  lemma TopDecides(hist: seq<Txn>, clock: nat, target: Index, landed: set<Write>, k: Key)
    requires Increasing(hist, clock) && KeepsHighest(target, landed)
    requires forall w | w in landed && w.key == k :: Genuine(hist, clock, w)
    requires var last := LastChange(hist, clock, k);
             if last.Some? then Covers(landed, k, last.value.version) else forall w | w in landed :: w.key != k
    ensures View(target, k) == DocAt(hist, clock, k)
  {
    LastChangeIsLast(hist, clock, clock, k);
    var last := LastChange(hist, clock, k);
    if last.Some? {
      var w := target[k];
      if w in Changes(hist) && w.version <= clock {
        ChangeIsUnique(hist, clock, w, last.value);
      } else {
        var at: nat :| w.version <= at <= clock && DocAt(hist, at, k) == w.doc;
        DocUnchanged(hist, clock, at, clock, k);
      }
    }
  }

  ghost predicate CaughtUp(s: State) {
    s.eng.acked >= s.clock || s.slot >= s.clock
  }

  lemma NewChangeLanded(s0: State, pos: nat, k: Key, s: State, t: State, c: Write)
    requires Paired(s0, pos, k, s, t) && CaughtUp(s) && c in Changes(s.hist) && c.key == k && c.version > pos
    ensures Covers(s.landed, k, c.version)
  {
    assert t.slot == s.slot && t.clock == s.clock && t.hist == s.hist && t.rules == s.rules && t.eng == s.eng && Owed(t, c);
    ChangeWithinClock(s.hist, s.clock, c) by { PartsOf(t); hide Inv; }
    if s.slot >= s.clock { assert SafeTo(t, t.slot); } else { AckedIsSafe(t); }
    hide Inv, Changes;
    var y :| y in t.landed && y.key == k && y.version >= c.version;
    assert y !in DoneRows(s0, pos);
  }

  lemma LandedIsGenuine(s0: State, pos: nat, k: Key, s: State, t: State, w: Write)
    requires Paired(s0, pos, k, s, t) && w in s.landed
    ensures Genuine(s.hist, s.clock, w)
  {
    hide Genuine;
    if w in t.landed { assert WriteOk(t, w); }
  }

  /** Something at or above the new slot has landed: the key is right. */
  lemma CoveredIsRight(s0: State, pos: nat, k: Key, s: State, t: State)
    requires Paired(s0, pos, k, s, t) && CaughtUp(s) && Covers(s.landed, k, pos)
    ensures View(s.target, k) == DocAt(s.hist, s.clock, k)
  {
    assert Increasing(s.hist, s.clock) by { PartsOf(t); hide Inv; }
    LastChangeIsLast(s.hist, s.clock, s.clock, k);
    forall w | w in s.landed && w.key == k ensures Genuine(s.hist, s.clock, w) { LandedIsGenuine(s0, pos, k, s, t, w); }
    var last := LastChange(s.hist, s.clock, k);
    if last.Some? {
      if last.value.version > pos { NewChangeLanded(s0, pos, k, s, t, last.value); }
    } else {
      var x :| x in s.landed && x.key == k && x.version >= pos;
      NothingToTell(s.hist, s.clock, x);
    }
    assert KeepsHighest(s.target, s.landed);
    hide Paired;
    TopDecides(s.hist, s.clock, s.target, s.landed, k);
  }

  /** A key the log never names has no true write. */
  lemma NothingToTell(hist: seq<Txn>, clock: nat, x: Write)
    requires Increasing(hist, clock) && LastChange(hist, clock, x.key).None?
    ensures !Genuine(hist, clock, x)
  {
    LastChangeIsLast(hist, clock, clock, x.key);
    if x.doc.Some? && exists at: nat :: x.version <= at <= clock && DocAt(hist, at, x.key) == x.doc {
      var at: nat :| x.version <= at <= clock && DocAt(hist, at, x.key) == x.doc;
      LastChangeIsLast(hist, clock, at, x.key);
    }
  }

  /** Nothing has: no change came since, and the row is what it was. */
  lemma UncoveredIsUnchanged(s0: State, pos: nat, k: Key, s: State, t: State)
    requires Paired(s0, pos, k, s, t) && CaughtUp(s) && !Covers(s.landed, k, pos)
    requires Increasing(s0.hist, s0.clock) && pos > s0.clock
    ensures forall c | c in Changes(s.hist) && c.key == k :: c.version <= pos
    ensures DocAt(s.hist, s.clock, k) == DocAt(s0.hist, s0.clock, k)
  {
    assert Increasing(s.hist, s.clock) by { PartsOf(t); hide Inv; }
    forall c | c in Changes(s.hist) && c.key == k ensures c.version <= pos {
      if c.version > pos { NewChangeLanded(s0, pos, k, s, t, c); }
    }
    forall c | c in Changes(s0.hist) ensures c.version <= s0.clock { ChangeWithinClock(s0.hist, s0.clock, c); }
    assert DocAt(s.hist, pos, k) == DocAt(s0.hist, pos, k) && pos <= s.clock;
    hide Paired, Changes;
    DocUnchanged(s.hist, s.clock, pos, s.clock, k);
    DocUnchanged(s0.hist, s0.clock, s0.clock, pos, k);
  }

  /** What the target holds of the key, if anything, was written or on its way
      before the slot was created again, and it shows `d`. */
  ghost predicate OldShows(s0: State, s: State, k: Key, d: Option<Doc>) {
    && View(s.target, k) == d && (k in s.target ==> s.target[k] in Old(s0))
    && forall w | w in s.landed && w in Old(s0) && w.key == k :: k in s.target && w.version <= s.target[k].version
  }

  /** Nothing of the key came since: the target holds the highest old write. */
  lemma UncoveredIsOld(s0: State, pos: nat, k: Key, s: State, t: State)
    requires Landings(s0, pos, s, t) && WritesOk(t) && Debts(pos, k, s, t) && !Covers(s.landed, k, pos)
    ensures OldShows(s0, s, k, View(s.target, k))
  {
    hide Old, DoneRows, Genuine;
    if k in s.target {
      var w := s.target[k];
      assert w in s.landed && w.key == k && w.version < pos;
      assert w in t.landed ==> WriteOk(t, w);
    }
  }

  lemma PairedExactly(s0: State, pos: nat, k: Key, s: State, t: State)
    requires Paired(s0, pos, k, s, t) && CaughtUp(s) && Increasing(s0.hist, s0.clock) && pos > s0.clock
    ensures View(s.target, k) == DocAt(s.hist, s.clock, k) <==>
            Covers(s.landed, k, pos) || OldShows(s0, s, k, DocAt(s0.hist, s0.clock, k))
  {
    if Covers(s.landed, k, pos) {
      CoveredIsRight(s0, pos, k, s, t);
    } else {
      UncoveredIsUnchanged(s0, pos, k, s, t);
      PairedParts(s0, pos, k, s, t);
      PartsOf(t);
      hide Inv, Paired, Changes, Landings, WritesOk, Debts, Left, Same, Past, Covers;
      UncoveredIsOld(s0, pos, k, s, t);
    }
  }

  /** What a recreated slot comes to, key by key and exactly. After any run from
      the creation to a moment at which the stream is caught up, the target shows
      the source's row if and only if a write of the key at or above the new slot
      has landed since, or the highest write from before it to have landed by then
      shows the row the source held. */
  lemma RecreatedSlotExactly(s0: State, pos: nat, steps: seq<Step>, s: State, k: Key)
    requires Inv(s0) && pos > s0.clock && k.table in s0.rules
    requires Runs(true, Do(s0, RecreateSlot(pos)), steps, s) && CaughtUp(s)
    ensures View(s.target, k) == DocAt(s.hist, s.clock, k) <==>
            Covers(s.landed, k, pos) || OldShows(s0, s, k, DocAt(s0.hist, s0.clock, k))
  {
    var t := RunBeside(s0, pos, steps, s, k);
    LogIncreases(s0);
    hide Inv, Paired, Runs, Do, OldShows;
    PairedExactly(s0, pos, k, s, t);
  }

  /** No request of the key was open when the slot was created again. */
  ghost predicate Unopened(s0: State, k: Key) {
    forall w | w in OldOpen(s0) :: w.key != k
  }

  /** With none open, what landed by then is what the target held already. */
  lemma UnopenedExactly(s0: State, pos: nat, k: Key, s: State, t: State)
    requires Paired(s0, pos, k, s, t) && CaughtUp(s) && Increasing(s0.hist, s0.clock) && pos > s0.clock && Unopened(s0, k)
    ensures View(s.target, k) == DocAt(s.hist, s.clock, k) <==>
            Covers(s.landed, k, pos) || View(s0.target, k) == DocAt(s0.hist, s0.clock, k)
  {
    if Covers(s.landed, k, pos) {
      CoveredIsRight(s0, pos, k, s, t);
    } else {
      UncoveredIsUnchanged(s0, pos, k, s, t);
      assert Left(s0, pos, k, s);
    }
  }

  lemma RunBeside(s0: State, pos: nat, steps: seq<Step>, s: State, k: Key) returns (t: State)
    requires Inv(s0) && pos > s0.clock && k.table in s0.rules && Runs(true, Do(s0, RecreateSlot(pos)), steps, s)
    ensures Paired(s0, pos, k, s, t)
  {
    hide Inv, Paired, Do, Runs;
    BesideIsPaired(s0, pos, k);
    t := RunPaired(s0, pos, k, Do(s0, RecreateSlot(pos)), Beside(s0, pos), steps, s);
  }

  /** The log's last word on the key is a delete at or below the new slot. */
  ghost predicate DeletedBefore(s: State, pos: nat, k: Key) {
    DocAt(s.hist, s.clock, k).None? && forall c | c in Changes(s.hist) && c.key == k :: c.version <= pos
  }

  lemma LogIncreases(s: State)
    requires Inv(s)
    ensures Increasing(s.hist, s.clock)
  {
    PartsOf(s);
    hide Inv;
  }

  /** What landed stays landed, and the log's past stays as it was. */
  ghost predicate Grows(s: State, s2: State) {
    && s.landed <= s2.landed && s.clock <= s2.clock
    && (s2.hist == s.hist || exists x: Txn :: x.pos > s.clock && s2.hist == s.hist + [x])
  }

  lemma StepGrows(s: State, step: Step)
    requires Enabled(s, step)
    ensures Grows(s, Do(s, step))
  {
    hide StreamEnabled, EngineEnabled, JoinEnabled, LoadEnabled, DoStream, DoEngine, DoJoin, DoLoad, ReconnectAttempt, RestartProcess;
    match step
    case SourceDoes(DoCommit(pos, changes)) =>
      assert Txn(pos, changes).pos > s.clock && Do(s, step).hist == s.hist + [Txn(pos, changes)];
    case StreamDoes(x) => StreamGrows(s, x);
    case EngineDoes(x) => EngineGrows(s, x);
    case TableJoins(n, x) => JoinGrows(s, n, x);
    case LoaderDoes(n, x) => LoadGrows(s, n, x);
    case SourceDoes(LogMoves(pos)) =>
    case Reconnect => EndGrows(s);
    case Restart => EndGrows(s);
    case RecreateSlot(pos) => EndGrows(s.(slot := pos, clock := pos));
  }

  lemma EndGrows(s: State)
    ensures Grows(s, ReconnectAttempt(s)) && Grows(s, RestartProcess(s))
  {
  }

  lemma StreamGrows(s: State, x: StreamStep)
    requires StreamEnabled(s, x)
    ensures Grows(s, DoStream(s, x))
  {
  }

  lemma EngineGrows(s: State, x: EngineStep)
    requires EngineEnabled(s, x)
    ensures Grows(s, DoEngine(s, x))
  {
  }

  lemma JoinGrows(s: State, n: nat, x: JoinStep)
    requires JoinEnabled(s, n, x)
    ensures Grows(s, DoJoin(s, n, x))
  {
  }

  lemma LoadGrows(s: State, n: nat, x: LoadStep)
    requires LoadEnabled(s, n, x)
    ensures Grows(s, DoLoad(s, n, x))
  {
  }

  lemma {:induction false} RunGrows(s: State, steps: seq<Step>, s2: State, at: nat, k: Key)
    requires Runs(true, s, steps, s2) && at <= s.clock
    ensures s.landed <= s2.landed && s.clock <= s2.clock && DocAt(s2.hist, at, k) == DocAt(s.hist, at, k)
    decreases |steps|
  {
    hide Enabled, Do, Careful, DocAt;
    if steps != [] {
      var s1 := Do(s, steps[0]);
      StepGrows(s, steps[0]);
      if s1.hist != s.hist {
        var x: Txn :| x.pos > s.clock && s1.hist == s.hist + [x];
        CommitKeepsThePast(s.hist, x, at, k);
      }
      RunGrows(s1, steps[1..], s2, at, k);
    }
  }

  /** With no stored document the forced load reads every row again and mends all
      but one thing, since a load never deletes: once it has been finished, its
      document kept or cleared since, and the stream is caught up, the target
      shows the source's row unless, when the slot was created, it showed a
      document that was deleted at or below the new slot. */
  lemma LoadedAgainExactly(s0: State, pos: nat, loading: seq<Step>, s1: State, after: seq<Step>, s: State, k: Key)
    requires pos > s0.clock && Runs(true, Do(s0, RecreateSlot(pos)), loading, s1) && LoadFinishedFor(s1, k.table)
    requires Inv(s0) && k.table in s0.rules && Unopened(s0, k) && k.table !in s0.progress
    requires Runs(true, s1, after, s) && CaughtUp(s)
    ensures View(s.target, k) == DocAt(s.hist, s.clock, k) <==> !(View(s0.target, k).Some? && DeletedBefore(s, pos, k))
  {
    var t1 := RunBeside(s0, pos, loading, s1, k);
    LogIncreases(s0);
    hide Inv, Paired, Do, Changes;
    var t := RunPaired(s0, pos, k, s1, t1, after, s);
    UnopenedExactly(s0, pos, k, s, t);
    if !Covers(s.landed, k, pos) { UncoveredIsUnchanged(s0, pos, k, s, t); }
    if DocAt(s.hist, s.clock, k).Some? { RereadIsLanded(s0, pos, k, s1, t1, after, s, t); }
    hide Runs, LoadFinishedFor;
    if DeletedBefore(s, pos, k) { DeletedIsNotWritten(s0, pos, k, s, t); }
    else if DocAt(s.hist, s.clock, k).None? { ChangedIsLanded(s0, pos, k, s, t); }
  }

  lemma ChangedIsLanded(s0: State, pos: nat, k: Key, s: State, t: State)
    requires Paired(s0, pos, k, s, t) && CaughtUp(s) && !DeletedBefore(s, pos, k) && DocAt(s.hist, s.clock, k).None?
    ensures Covers(s.landed, k, pos)
  {
    var c :| c in Changes(s.hist) && c.key == k && c.version > pos;
    NewChangeLanded(s0, pos, k, s, t, c);
  }

  lemma PairedIncreases(s0: State, pos: nat, k: Key, s: State, t: State)
    requires Paired(s0, pos, k, s, t)
    ensures Increasing(s.hist, s.clock)
  {
    PartsOf(t);
    hide Inv;
  }

  lemma RereadIsLanded(s0: State, pos: nat, k: Key, s1: State, t1: State, after: seq<Step>, s: State, t: State)
    requires Paired(s0, pos, k, s1, t1) && LoadFinishedFor(s1, k.table) && k.table !in s0.progress
    requires Runs(true, s1, after, s) && Paired(s0, pos, k, s, t) && CaughtUp(s) && DocAt(s.hist, s.clock, k).Some?
    ensures Covers(s.landed, k, pos)
  {
    hide Inv, Paired, Same, Landings, Debts, Past, Left, Runs;
    PairedParts(s0, pos, k, s1, t1);
    var v, at := RereadAt(pos, k, s1, t1);
    RunGrows(s1, after, s, at, k);
    if DocAt(s1.hist, at, k).Some? {
      ReadIsNew(s0, pos, k, s1, t1, v);
      assert Covers(s.landed, k, pos);
    } else {
      PairedIncreases(s0, pos, k, s, t);
      LastChangeIsLast(s.hist, s.clock, s.clock, k);
      var c := LastChange(s.hist, s.clock, k).value;
      if c.version <= pos { DocUnchanged(s.hist, s.clock, at, s.clock, k); }
      else { NewChangeLanded(s0, pos, k, s, t, c); }
    }
  }

  lemma RereadAt(pos: nat, k: Key, s: State, t: State) returns (v: nat, at: nat)
    requires Inv(t) && Same(s, t) && Debts(pos, k, s, t) && LoadFinishedFor(s, k.table)
    ensures Increasing(s.hist, s.clock) && pos <= v <= at <= s.clock
    ensures DocAt(s.hist, at, k).Some? ==> Covers(t.landed, k, v)
  {
    hide Inv;
    PartsOf(t);
    assert t.hist == s.hist && t.clock == s.clock && t.base(k) == pos;
    FinishedLoadsEveryKey(t, k);
    hide BaseOk, WritesOk, KeepsHighest, Sound, Remembered, EventsOk, TakenOk, CopyOk, JoinOk, ProgressOk, LoadersOk, SafeTo;
    v, at :| ReadAt(t, k, v, at);
  }

  lemma ReadIsNew(s0: State, pos: nat, k: Key, s: State, t: State, v: nat)
    requires Landings(s0, pos, s, t) && k.table !in s0.progress && Covers(t.landed, k, v) && pos <= v
    ensures Covers(s.landed, k, pos)
  {
    var y :| y in t.landed && y.key == k && y.version >= v;
    assert y !in DoneRows(s0, pos);
  }

  lemma DeletedIsNotWritten(s0: State, pos: nat, k: Key, s: State, t: State)
    requires Paired(s0, pos, k, s, t) && DeletedBefore(s, pos, k)
    ensures !Covers(s.landed, k, pos)
  {
    hide Inv, Paired;
    PairedParts(s0, pos, k, s, t);
    PartsOf(t);
    assert Increasing(s.hist, s.clock);
    if x :| x in s.landed && x.key == k && x.version >= pos {
      LandedIsGenuine(s0, pos, k, s, t, x);
      StaleIsNotTrue(s.hist, s.clock, pos, x);
    }
  }

  lemma StaleIsNotTrue(hist: seq<Txn>, clock: nat, pos: nat, x: Write)
    requires Increasing(hist, clock) && DocAt(hist, clock, x.key).None? && x.version >= pos
    requires forall c | c in Changes(hist) && c.key == x.key :: c.version < pos
    ensures !Genuine(hist, clock, x)
  {
    if x.doc.Some? && exists at: nat :: x.version <= at <= clock && DocAt(hist, at, x.key) == x.doc {
      var at: nat :| x.version <= at <= clock && DocAt(hist, at, x.key) == x.doc;
      DocUnchanged(hist, clock, at, clock, x.key);
    }
  }

  /** With a stored document, a key of a finished range is not read again; it is
      right already if what the stream owed it has landed. */
  lemma OwedIsLandedIsRight(s0: State, k: Key)
    requires Inv(s0) && k.table in s0.rules && KeyLoaded(s0, k)
    requires forall c | c in Changes(s0.hist) && c.key == k && Owed(s0, c) :: Covers(s0.landed, k, c.version)
    ensures View(s0.target, k) == DocAt(s0.hist, s0.clock, k)
  {
    var v, at :| ReadAt(s0, k, v, at);
    PartsOf(s0);
    forall w | w in s0.landed && w.key == k ensures Genuine(s0.hist, s0.clock, w) && s0.base(k) <= w.version { assert WriteOk(s0, w); }
    hide Inv, Changes, Genuine;
    assert Settled(s0.hist, s0.landed, k, s0.base(k), v, at, s0.clock);
    SettledKeyIsTheSource(s0.hist, s0.clock, s0.target, s0.landed, k, s0.base(k), v, at, s0.clock);
  }
}
