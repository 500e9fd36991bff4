/** A slot created again beside a stored document: a range the document counts as
    done is not read again, so of its keys only the stream writes anything more. */
module Skipped {
  import opened Wrappers
  import opened Source
  import opened Target
  import opened Ranges
  import opened Engine
  import opened Protocol
  import opened Invariant
  import opened StreamSteps
  import opened AttemptSteps
  import opened Recreated

  /** A stored document, while there is one, counts the key as done, and so does
      the table's loader. */
  ghost predicate StaysDone(k: Key, s: State) {
    && (k.table in s.progress ==> DoneKey(s.progress, k))
    && (k.table in s.loaders ==>
          k.table in s.progress
          && s.loaders[k.table].bounds == s.progress[k.table].bounds && s.loaders[k.table].done >= s.progress[k.table].done)
  }

  ghost predicate Streamed(s: State, k: Key, writes: seq<Write>) {
    forall w | w in writes && w.key == k :: w in Changes(s.hist)
  }

  /** What is on its way of the key, or has landed of it since, the stream sent. */
  ghost predicate Skips(pos: nat, k: Key, s: State) {
    && StaysDone(k, s)
    && (forall w | CopyRow(w) in s.copy :: w.key != k)
    && Streamed(s, k, Flow(s.eng))
    && (forall w | w in s.stray && w.key == k :: w in Changes(s.hist))
    && (forall w | w in s.landed && w.key == k && w.version >= pos :: w in Changes(s.hist))
  }

  /** What the run beside knows of the channels and the loaders. */
  ghost predicate Beheld(s: State, landed: set<Write>) {
    && (forall i | 0 <= i < |s.events| && s.events[i].Change? :: s.events[i].w in Changes(s.hist))
    && Sound(s.eng, landed)
    && (forall n | n in s.progress :: StrictlyIncreasing(s.progress[n].bounds))
    && (forall n, i | n in s.loaders && s.loaders[n].Reading? && 0 <= i < |s.loaders[n].wave| && s.loaders[n].wave[i].Copying? ::
          LeftIsRead(s, n, i))
  }

  ghost predicate LeftIsRead(s: State, n: nat, i: nat)
    requires n in s.loaders && s.loaders[n].Reading? && i < |s.loaders[n].wave| && s.loaders[n].wave[i].Copying?
  {
    var l := s.loaders[n];
    l.done + i <= |l.bounds| && l.wave[i].left <= RowsOf(s.hist, l.wave[i].s, n, RangeAt(l.bounds, l.done + i), l.wave[i].v)
  }

  lemma BesideReads(t: State, n: nat, i: nat)
    requires SourceOk(t) && LoadersOk(t) && n in t.loaders && t.loaders[n].Reading?
    requires i < |t.loaders[n].wave| && t.loaders[n].wave[i].Copying?
    ensures LeftIsRead(t, n, i)
  {
    assert LoaderOk(t, n, t.loaders[n]);
    hide SourceOk, LoadedBelow, WaveSent, RowsOf;
    assert RangeReadOk(t, n, RangeAt(t.loaders[n].bounds, t.loaders[n].done + i), t.loaders[n].wave[i]);
  }

  lemma EventsAreChanges(t: State, i: nat)
    requires SourceOk(t) && EventsOk(t) && i < |t.events| && t.events[i].Change?
    ensures t.events[i].w in Changes(t.hist)
  {
    hide SourceOk, Changes;
    assert EventOk(t, t.events[i].w);
  }

  lemma BoundsIncrease(t: State, n: nat)
    requires ProgressOk(t) && n in t.progress
    ensures StrictlyIncreasing(t.progress[n].bounds)
  {
    hide KeyLoaded;
  }

  lemma InvBeholds(t: State)
    requires Inv(t)
    ensures Beheld(t, t.landed)
  {
    hide Inv;
    PartsOf(t);
    hide SourceOk, BaseOk, WritesOk, KeepsHighest, Sound, Remembered, EventsOk, TakenOk, CopyOk, JoinOk, ProgressOk, SafeTo, LoadersOk, Changes, LeftIsRead;
    forall i | 0 <= i < |t.events| && t.events[i].Change? ensures t.events[i].w in Changes(t.hist) { EventsAreChanges(t, i); }
    forall n | n in t.progress ensures StrictlyIncreasing(t.progress[n].bounds) { BoundsIncrease(t, n); }
    forall n, i | n in t.loaders && t.loaders[n].Reading? && 0 <= i < |t.loaders[n].wave| && t.loaders[n].wave[i].Copying?
      ensures LeftIsRead(t, n, i)
    {
      BesideReads(t, n, i);
    }
  }

  lemma BesideBeholds(s: State, t: State)
    requires Beheld(t, t.landed) && Same(s, t)
    ensures Beheld(s, t.landed)
  {
    hide Sound, Changes, RowsOf, StrictlyIncreasing;
    assert t.events == s.events && t.hist == s.hist && t.eng == s.eng && t.progress == s.progress && t.loaders == s.loaders;
    hide Same;
  }

  // ------------------------------------------------------------- the engine

  lemma StreamedMore(s: State, k: Key, flow: seq<Write>, w: Write)
    requires Streamed(s, k, flow) && (w.key == k ==> w in Changes(s.hist))
    ensures Streamed(s, k, flow + [w])
  {
    hide Changes;
  }

  lemma TakeKnownStreamed(s: State, landed: set<Write>, k: Key, w: Write)
    requires Streamed(s, k, Flow(s.eng)) && Sound(s.eng, landed) && (w.key == k ==> w in Changes(s.hist))
    ensures Streamed(s, k, Flow(TakeIfKnown(s, w)))
  {
    hide Sound, Flow, Streamed, TakeRow, Changes;
    TakeRowSound(s.eng, landed, w);
    StreamedMore(s, k, Flow(s.eng), w);
  }

  lemma SameFlow(e: Engine, e': Engine)
    requires e'.done == e.done && e'.inflight == e.inflight && e'.commands == e.commands && e'.buffer == e.buffer
    ensures Flow(e') == Flow(e)
  {
    assert Queue(e') == Queue(e);
  }

  lemma TakeEventStreamed(s: State, landed: set<Write>, k: Key, hold: bool)
    requires Streamed(s, k, Flow(s.eng)) && Beheld(s, landed) && s.taken < |s.events|
    ensures Streamed(s, k, Flow(TakeOneEvent(s, hold).eng))
  {
    hide Sound, Streamed, TakeRow, Changes, TakeIfKnown, TakeCommit, Flow;
    match s.events[s.taken]
    case Begin(_) => SameFlow(s.eng, TakeBegin(s.eng));
    case Change(w) => TakeKnownStreamed(s, landed, k, w);
    case Commit(pos) => TakeCommitSound(s.eng, landed, pos, hold);
  }

  function Signalled(e: Engine, ev: CopyEvent, hold: bool): Engine
    requires !ev.CopyRow?
  {
    match ev
    case Boundary => TakeCommit(e, 0, hold)
    case LoadMark(m) => TakeMark(e, m)
    case LoadStarted => TakeStarted(e)
    case LoadFinished => TakeFinished(e)
  }

  lemma SignalFlow(e: Engine, landed: set<Write>, ev: CopyEvent, hold: bool)
    requires !ev.CopyRow? && Sound(e, landed)
    ensures Flow(Signalled(e, ev, hold)) == Flow(e)
  {
    hide Sound, Flow, TakeCommit, TakeMark;
    match ev
    case Boundary => TakeCommitSound(e, landed, 0, hold);
    case LoadMark(m) => TakeMarkSound(e, landed, m);
    case LoadStarted => SameFlow(e, TakeStarted(e));
    case LoadFinished => SameFlow(e, TakeFinished(e));
  }

  lemma TakeCopyStreamed(s: State, landed: set<Write>, k: Key, hold: bool)
    requires Streamed(s, k, Flow(s.eng)) && Sound(s.eng, landed) && s.copied < |s.copy| && forall w | CopyRow(w) in s.copy :: w.key != k
    ensures Streamed(s, k, Flow(TakeOneCopy(s, hold).eng))
  {
    hide Sound, Streamed, TakeRow, Changes, TakeIfKnown, TakeCommit, TakeMark, Flow;
    var ev := s.copy[s.copied];
    if ev.CopyRow? {
      assert ev in s.copy;
      TakeKnownStreamed(s, landed, k, ev.w);
    } else {
      assert TakeOneCopy(s, hold).eng == Signalled(s.eng, ev, hold);
      SignalFlow(s.eng, landed, ev, hold);
    }
  }

  lemma PassesStreamed(s: State, landed: set<Write>, k: Key, x: EngineStep)
    requires Streamed(s, k, Flow(s.eng)) && Sound(s.eng, landed) && (x.SplitBatch? || x.OpenWrite? || x.Barrier?) && EngineEnabled(s, x)
    ensures Streamed(s, k, Flow(DoEngine(s, x).eng))
  {
    hide Sound, Flow, Streamed;
    match x
    case SplitBatch => FlushSound(s.eng, landed);
    case OpenWrite => StartWriteSound(s.eng, landed);
    case Barrier => PassBarrierSound(s.eng, landed);
  }

  lemma ClosesStreamed(s: State, k: Key)
    requires Streamed(s, k, Flow(s.eng)) && s.eng.inflight != []
    ensures Streamed(s, k, Flow(FinishWrite(s.eng)))
  {
    CloseFlow(s.eng);
    hide Streamed, Flow, FinishWrite;
  }

  lemma CloseFlow(e: Engine)
    requires e.inflight != []
    ensures Flow(FinishWrite(e)) == Flow(e)
  {
    var e', first := FinishWrite(e), OpItems(e.inflight[0]);
    PopBatch(e);
    assert e'.done == e.done + Rows(first);
    hide FinishWrite, OpItems, Rows, Queue;
    RowsConcat(first, Queue(e'));
    ConcatAssociates(e.done, Rows(first), Rows(Queue(e')));
  }

  lemma EngineSkips(pos: nat, k: Key, s: State, landed: set<Write>, x: EngineStep)
    requires Skips(pos, k, s) && Beheld(s, landed) && EngineEnabled(s, x)
    ensures Skips(pos, k, DoEngine(s, x))
  {
    hide Sound, Flow, Streamed, Changes, OpenWrites, DoneKey;
    match x
    case TakeEvent(hold) => TakeEventStreamed(s, landed, k, hold); SameStreamed(s, DoEngine(s, x), k);
    case TakeCopy(hold) => TakeCopyStreamed(s, landed, k, hold); SameStreamed(s, DoEngine(s, x), k);
    case Arrive(w) => ArriveStreamed(s, k, w); SameStreamed(s, DoEngine(s, x), k);
    case CloseWrite => ClosesStreamed(s, k); SameStreamed(s, DoEngine(s, x), k);
    case _ => PassesStreamed(s, landed, k, x); SameStreamed(s, DoEngine(s, x), k);
  }

  lemma SameStreamed(s: State, s': State, k: Key)
    requires s'.hist == s.hist
    ensures forall f :: Streamed(s', k, f) == Streamed(s, k, f)
  {
    hide Changes;
  }

  lemma ArriveStreamed(s: State, k: Key, w: Write)
    requires Streamed(s, k, Flow(s.eng)) && (forall x | x in s.stray && x.key == k :: x in Changes(s.hist))
    requires w in OpenWrites(s.eng) || w in s.stray
    ensures w.key == k ==> w in Changes(s.hist)
  {
    hide Changes, Flow, OpenWrites;
    if w in OpenWrites(s.eng) { OpenWritesFlow(s.eng, w); }
  }

  // ---------------------------------------------------------------- the loader

  /** No row of the key is left to send: its range is below the wave. */
  lemma OtherRow(k: Key, s: State, landed: set<Write>, n: nat, i: nat, w: Write)
    requires StaysDone(k, s) && Beheld(s, landed) && LoadEnabled(s, n, SendRow(i, w))
    ensures w.key != k
  {
    hide Sound, Changes;
    assert LeftIsRead(s, n, i);
    var l := s.loaders[n];
    if n == k.table { ExactlyOneRange(l.bounds, k.id, l.done + i); }
    assert w in RowsOf(s.hist, l.wave[i].s, n, RangeAt(l.bounds, l.done + i), l.wave[i].v);
  }

  lemma LoadDone(k: Key, s: State, n: nat, x: LoadStep)
    requires StaysDone(k, s) && LoadEnabled(s, n, x) && !(n == k.table && n !in s.progress && x.BeginLoad?)
    ensures StaysDone(k, DoLoad(s, n, x))
  {
    hide RowsOf, RangeOf;
  }

  lemma LoadSkips(pos: nat, k: Key, s: State, landed: set<Write>, n: nat, x: LoadStep)
    requires Skips(pos, k, s) && Beheld(s, landed) && LoadEnabled(s, n, x) && !(n == k.table && n !in s.progress && x.BeginLoad?)
    ensures Skips(pos, k, DoLoad(s, n, x))
  {
    var s' := DoLoad(s, n, x);
    LoadDone(k, s, n, x);
    if x.SendRow? { OtherRow(k, s, landed, n, x.i, x.w); }
    LoadAside(s, n, x);
    hide Beheld, Flow, Streamed, Changes, DoLoad, LoadEnabled, StaysDone;
    SameStreamed(s, s', k);
  }

  lemma LoadAside(s: State, n: nat, x: LoadStep)
    requires LoadEnabled(s, n, x)
    ensures var s' := DoLoad(s, n, x);
            && s'.hist == s.hist && s'.eng == s.eng && s'.stray == s.stray && s'.landed == s.landed
            && forall w | CopyRow(w) in s'.copy :: CopyRow(w) in s.copy || (x.SendRow? && w == x.w)
  {
    hide RowsOf;
  }

  // ------------------------------------------------------------- every other step

  /** Nothing the key's writes pass through moved. */
  lemma AsideSkips(pos: nat, k: Key, s: State, s': State)
    requires Skips(pos, k, s) && Changes(s.hist) <= Changes(s'.hist)
    requires s'.progress == s.progress && (s'.loaders == s.loaders || s'.loaders == map[])
    requires s'.copy == s.copy || s'.copy == []
    requires s'.eng == s.eng || s'.eng == Fresh
    requires s'.landed == s.landed && s.stray <= s'.stray <= s.stray + OpenWrites(s.eng)
    ensures Skips(pos, k, s')
  {
    forall w | w in OpenWrites(s.eng) ensures w in Flow(s.eng) { OpenWritesFlow(s.eng, w); }
    assert Flow(Fresh) == [] by { assert Queue(Fresh) == []; }
    hide Changes, OpenWrites, Flow;
  }

  lemma StreamSkips(pos: nat, k: Key, s: State, x: StreamStep)
    requires Skips(pos, k, s) && StreamEnabled(s, x)
    ensures Skips(pos, k, DoStream(s, x))
  {
    hide Skips, Changes, OpenWrites;
    AsideSkips(pos, k, s, DoStream(s, x));
  }

  lemma JoinSkips(pos: nat, k: Key, s: State, n: nat, x: JoinStep)
    requires Skips(pos, k, s) && JoinEnabled(s, n, x)
    ensures Skips(pos, k, DoJoin(s, n, x))
  {
    hide Skips, Changes, OpenWrites;
    AsideSkips(pos, k, s, DoJoin(s, n, x));
  }

  lemma SourceSkips(pos: nat, k: Key, s: State, x: SourceStep)
    requires Skips(pos, k, s) && Enabled(s, SourceDoes(x))
    ensures Skips(pos, k, Do(s, SourceDoes(x)))
  {
    hide Skips, OpenWrites;
    if x.DoCommit? { CommitKeepsThePast(s.hist, Txn(x.pos, x.changes), s.clock, k); }
    hide Changes;
    AsideSkips(pos, k, s, Do(s, SourceDoes(x)));
  }

  /** What the end of any attempt drops and keeps. */
  ghost predicate LetGo(s: State, s': State) {
    && s'.hist == s.hist && s'.progress == s.progress && s'.loaders == map[] && s'.copy == [] && s'.eng == Fresh
    && s'.landed == s.landed && s'.stray == s.stray + OpenWrites(s.eng)
  }

  lemma AttemptDrops(s: State, step: Step)
    requires Enabled(s, step) && (step.Reconnect? || step.Restart? || step.RecreateSlot?)
    ensures LetGo(s, Do(s, step))
  {
    hide OpenWrites;
  }

  lemma AttemptSkips(pos: nat, k: Key, s: State, step: Step)
    requires Skips(pos, k, s) && Enabled(s, step) && (step.Reconnect? || step.Restart? || step.RecreateSlot?)
    ensures Skips(pos, k, Do(s, step))
  {
    hide Skips, OpenWrites, Changes, Do;
    AttemptDrops(s, step);
    AsideSkips(pos, k, s, Do(s, step));
  }

  /** A load of the key's table that has no stored document to start from. */
  predicate ReadsAfresh(k: Key, s: State, step: Step) {
    step.LoaderDoes? && step.table == k.table && step.load.BeginLoad? && k.table !in s.progress
  }

  /** No step of the run is one. */
  ghost predicate NeverAfresh(k: Key, s: State, steps: seq<Step>)
    decreases |steps|
  {
    steps == [] || (!ReadsAfresh(k, s, steps[0]) && Enabled(s, steps[0]) && NeverAfresh(k, Do(s, steps[0]), steps[1..]))
  }

  lemma StepSkips(pos: nat, k: Key, s: State, landed: set<Write>, step: Step)
    requires Skips(pos, k, s) && Beheld(s, landed) && Enabled(s, step) && !ReadsAfresh(k, s, step)
    ensures Skips(pos, k, Do(s, step))
  {
    hide Skips, Beheld;
    match step
    case StreamDoes(x) => hide StreamEnabled, DoStream; StreamSkips(pos, k, s, x);
    case EngineDoes(x) => hide EngineEnabled, DoEngine; EngineSkips(pos, k, s, landed, x);
    case TableJoins(n, x) => hide JoinEnabled, DoJoin; JoinSkips(pos, k, s, n, x);
    case LoaderDoes(n, x) => hide LoadEnabled, DoLoad; LoadSkips(pos, k, s, landed, n, x);
    case SourceDoes(x) => hide Do, Enabled; SourceSkips(pos, k, s, x);
    case _ => hide Do, Enabled; AttemptSkips(pos, k, s, step);
  }

  // --------------------------------------------------------------- whole runs

  lemma {:induction false} RunSkips(s0: State, pos: nat, k: Key, s: State, t: State, steps: seq<Step>, s2: State) returns (t2: State)
    requires Paired(s0, pos, k, s, t) && Skips(pos, k, s) && Runs(true, s, steps, s2)
    requires NeverAfresh(k, s, steps)
    ensures Paired(s0, pos, k, s2, t2) && Skips(pos, k, s2)
    decreases |steps|
  {
    hide Paired, Enabled, Careful, Do, Skips, Inv, Same, Beheld, ReadsAfresh;
    t2 := t;
    if steps != [] {
      PairedParts(s0, pos, k, s, t);
      InvBeholds(t);
      BesideBeholds(s, t);
      StepSkips(pos, k, s, t.landed, steps[0]);
      var t1 := StepPaired(s0, pos, k, s, t, steps[0]);
      t2 := RunSkips(s0, pos, k, Do(s, steps[0]), t1, steps[1..], s2);
    }
  }

  lemma RecreatedSkips(s0: State, pos: nat, k: Key)
    requires pos > s0.clock && Inv(s0) && Unopened(s0, k) && DoneKey(s0.progress, k)
    ensures k.table in s0.rules && Skips(pos, k, Do(s0, RecreateSlot(pos)))
  {
    hide Inv, Changes, OpenWrites, Do;
    PartsOf(s0);
    hide BaseOk, KeepsHighest, Sound, Remembered, EventsOk, TakenOk, CopyOk, JoinOk, LoadersOk, SafeTo, LoadedBelow;
    OldIsPast(s0, pos);
    hide SourceOk, WritesOk, Genuine;
    AttemptDrops(s0, RecreateSlot(pos));
    assert Flow(Fresh) == [] by { assert Queue(Fresh) == []; }
    hide Flow, DoneKey;
  }

  /** With a stored document, exactly: a key of a range it counts as done shows
      the source's row if and only if the target showed it when the slot was
      created again, or the row has changed since; whether the load has cleared the
      document by then or not, until some start reads the table afresh. */
  lemma StoredDocumentExactly(s0: State, pos: nat, steps: seq<Step>, s: State, k: Key)
    requires pos > s0.clock && Runs(true, Do(s0, RecreateSlot(pos)), steps, s) && CaughtUp(s)
    requires NeverAfresh(k, Do(s0, RecreateSlot(pos)), steps)
    requires Inv(s0) && Unopened(s0, k) && DoneKey(s0.progress, k)
    ensures View(s.target, k) == DocAt(s.hist, s.clock, k) <==>
            View(s0.target, k) == DocAt(s0.hist, s0.clock, k) || exists c :: c in Changes(s.hist) && c.key == k && c.version > pos
  {
    var t := StoredRun(s0, pos, steps, s, k);
    LogIncreases(s0);
    hide Inv, Runs, Do, Enabled, NeverAfresh, Paired, Skips, Unopened, CaughtUp, DoneKey;
    UnopenedExactly(s0, pos, k, s, t);
    ChangedExactly(s0, pos, k, s, t);
  }

  lemma StoredRun(s0: State, pos: nat, steps: seq<Step>, s: State, k: Key) returns (t: State)
    requires pos > s0.clock && Runs(true, Do(s0, RecreateSlot(pos)), steps, s) && NeverAfresh(k, Do(s0, RecreateSlot(pos)), steps)
    requires Inv(s0) && Unopened(s0, k) && DoneKey(s0.progress, k)
    ensures Paired(s0, pos, k, s, t) && Skips(pos, k, s)
  {
    hide Inv, Skips, Paired, Runs, Do, NeverAfresh, Unopened, DoneKey, Beside;
    RecreatedSkips(s0, pos, k);
    BesideIsPaired(s0, pos, k);
    t := RunSkips(s0, pos, k, Do(s0, RecreateSlot(pos)), Beside(s0, pos), steps, s);
  }

  lemma ChangedExactly(s0: State, pos: nat, k: Key, s: State, t: State)
    requires Paired(s0, pos, k, s, t) && Skips(pos, k, s) && CaughtUp(s)
    ensures Covers(s.landed, k, pos) <==> exists c :: c in Changes(s.hist) && c.key == k && c.version > pos
  {
    hide Inv, Same, Landings, Debts, Left, Streamed, StaysDone, Changes, CaughtUp;
    if c :| c in Changes(s.hist) && c.key == k && c.version > pos { NewChangeLanded(s0, pos, k, s, t, c); }
  }
}
