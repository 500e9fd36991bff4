/** From every state the system can still get there: a restart, the stream read to
    the end of the log, every table loaded, and the target shows the source's
    rows. */
module Convergence {
  import opened Wrappers
  import opened Source
  import opened Target
  import opened Ranges
  import opened Engine
  import opened Protocol
  import opened Invariant
  import opened Safety
  import opened Losses
  import opened Drains
  import R = Recreated

  // -------------------------------------------------------------------- runs

  ghost predicate Reaches(s: State, s': State) {
    exists steps :: Runs(true, s, steps, s')
  }

  lemma {:induction false} RunsOn(s: State, a: seq<Step>, s1: State, b: seq<Step>, s2: State)
    requires Runs(true, s, a, s1) && Runs(true, s1, b, s2)
    ensures Runs(true, s, a + b, s2)
    decreases |a|
  {
    hide Enabled, Careful, Do;
    if a == [] {
      assert a + b == b;
    } else {
      RunsOn(Do(s, a[0]), a[1..], s1, b, s2);
      assert (a + b)[0] == a[0] && (a + b)[1..] == a[1..] + b;
    }
  }

  lemma ReachesOn(s: State, s1: State, s2: State)
    requires Reaches(s, s1) && Reaches(s1, s2)
    ensures Reaches(s, s2)
  {
    var a :| Runs(true, s, a, s1);
    var b :| Runs(true, s1, b, s2);
    RunsOn(s, a, s1, b, s2);
  }

  lemma ReachesItself(s: State)
    ensures Reaches(s, s)
  {
    assert Runs(true, s, [], s);
  }

  lemma ReachesOne(s: State, step: Step)
    requires Enabled(s, step) && !step.Reconnect? && !step.RecreateSlot?
    ensures Reaches(s, Do(s, step))
  {
    assert Careful(s, step);
    hide Enabled, Careful, Do;
    assert Runs(true, Do(s, step), [], Do(s, step));
    assert [step][1..] == [];
    assert Runs(true, s, [step], Do(s, step));
  }

  lemma RunReaches(s: State, steps: seq<Step>, s': State)
    requires Runs(true, s, steps, s')
    ensures Reaches(s, s')
  {
  }

  lemma ReachesKeeps(s: State, s': State)
    requires Inv(s) && Reaches(s, s')
    ensures Inv(s')
  {
    hide Inv;
    var steps :| Runs(true, s, steps, s');
    RunKeeps(s, steps, s');
  }

  // ---------------------------------------------------- the engine written through

  /** Only the engine and what it has landed moved. */
  ghost predicate OnlyWrote(s: State, s': State) {
    s' == s.(eng := s'.eng, target := s'.target, landed := s'.landed)
  }

  /** The first `n` writes of the oldest open request land. */
  lemma {:induction false} LandSome(s: State, n: nat) returns (s': State)
    requires s.eng.inflight != [] && n <= |s.eng.inflight[0]|
    ensures Reaches(s, s') && s' == s.(target := s'.target, landed := s'.landed) && s.landed <= s'.landed
    ensures forall i | 0 <= i < n :: s.eng.inflight[0][i].w in s'.landed
  {
    hide Reaches;
    if n == 0 {
      s' := s;
      ReachesItself(s);
    } else {
      var s1 := LandSome(s, n - 1);
      var w := s.eng.inflight[0][n - 1].w;
      R.OldestIsOpen(s1.eng, n - 1);
      ReachesOne(s1, EngineDoes(Arrive(w)));
      s' := s1.(target := Land(s1.target, w), landed := s1.landed + {w});
      assert Do(s1, EngineDoes(Arrive(w))) == s';
      ReachesOn(s, s1, s');
    }
  }

  lemma FinishOldest(s: State) returns (s': State)
    requires s.eng.inflight != []
    ensures Reaches(s, s') && OnlyWrote(s, s') && s'.eng == FinishWrite(s.eng)
  {
    hide Reaches;
    var s1 := LandSome(s, |s.eng.inflight[0]|);
    ReachesOne(s1, EngineDoes(CloseWrite));
    s' := s1.(eng := FinishWrite(s1.eng));
    assert Do(s1, EngineDoes(CloseWrite)) == s';
    ReachesOn(s, s1, s');
  }

  lemma StepEngine(s: State, x: EngineStep) returns (s': State)
    requires EngineEnabled(s, x) && (x.SplitBatch? || x.OpenWrite? || x.Barrier?)
    ensures Reaches(s, s') && s' == s.(eng := DoEngine(s, x).eng)
  {
    ReachesOne(s, EngineDoes(x));
    s' := Do(s, EngineDoes(x));
  }

  lemma WriteQueued(s: State) returns (s': State)
    requires Busy(s.eng) && s.eng.inflight == []
    ensures Reaches(s, s') && s' == s.(eng := Next(s.eng))
  {
    hide Reaches;
    if s.eng.commands == [] { s' := StepEngine(s, SplitBatch); }
    else if s.eng.commands[0].WriteBatch? { s' := StepEngine(s, OpenWrite); }
    else { s' := StepEngine(s, Barrier); }
  }

  lemma WriteNext(s: State) returns (s': State)
    requires Busy(s.eng)
    ensures Reaches(s, s') && OnlyWrote(s, s') && s'.eng == Next(s.eng)
  {
    if s.eng.inflight != [] {
      s' := FinishOldest(s);
    } else {
      s' := WriteQueued(s);
    }
    hide Reaches, FinishWrite;
  }

  /** The engine writes everything it has through. */
  lemma {:induction false} WriteThrough(s: State) returns (s': State)
    ensures Reaches(s, s') && OnlyWrote(s, s') && s'.eng == Drained(s.eng)
    decreases Weight(s.eng)
  {
    hide Reaches, Next, Weight, Busy;
    if Busy(s.eng) {
      NextIsLighter(s.eng);
      var s1 := WriteNext(s);
      s' := WriteThrough(s1);
      ReachesOn(s, s1, s');
    } else {
      s' := s;
      ReachesItself(s);
    }
  }

  /** Nothing taken and unfinished, and no mark held back. */
  predicate Empty(e: Engine) {
    !Busy(e) && e.pendingMark.None?
  }

  // ------------------------------------------------------------ the event channel

  lemma BareCommit(e: Engine, pos: nat)
    requires Empty(e) && pos > 0
    ensures var s := Drained(TakeCommit(e, pos, false)); Empty(s) && !s.txnOpen && s.acked == pos
  {
    var e1 := TakeCommit(e, pos, false);
    assert e1.commands == [AckPosition(pos)] && e1.inflight == [] && e1.buffer == [] && e1.pendingMark.None? && !e1.txnOpen;
    var e2 := PassBarrier(e1);
    assert e2.commands == [] && e2.acked == pos;
    hide TakeCommit;
    assert Drained(e1) == Drained(e2) == e2;
  }

  lemma StaysEmpty(e: Engine)
    requires e.pendingMark.None?
    ensures Empty(Drained(e)) && Drained(e).txnOpen == e.txnOpen
  {
    DrainedIsDone(e);
    DrainedKeeps(e);
  }

  lemma EventHoldsNoMark(s: State)
    requires Empty(s.eng) && s.taken < |s.events|
    ensures TakeOneEvent(s, false).eng.pendingMark.None?
  {
    hide Flow;
  }

  lemma TakeEventStep(s: State)
    requires s.taken < |s.events|
    ensures Reaches(s, TakeOneEvent(s, false))
  {
    ReachesOne(s, EngineDoes(TakeEvent(false)));
    hide Reaches, TakeOneEvent;
    assert Do(s, EngineDoes(TakeEvent(false))) == TakeOneEvent(s, false);
  }

  ghost predicate Acknowledges(s: State, e: Engine)
    requires s.taken < |s.events|
  {
    s.events[s.taken].Commit? && s.events[s.taken].pos > 0 ==> e.acked == s.events[s.taken].pos && !e.txnOpen
  }

  lemma EventIsAcknowledged(s: State)
    requires Empty(s.eng) && s.taken < |s.events|
    ensures Acknowledges(s, Drained(TakeOneEvent(s, false).eng))
  {
    hide Drained;
    if s.events[s.taken].Commit? && s.events[s.taken].pos > 0 { BareCommit(s.eng, s.events[s.taken].pos); }
    hide TakeCommit, Empty;
  }

  /** One event is taken and written through. */
  lemma TakeOne(s: State) returns (s': State)
    requires Empty(s.eng) && s.taken < |s.events|
    ensures Reaches(s, s') && s' == s.(eng := s'.eng, target := s'.target, landed := s'.landed, taken := s.taken + 1) && Empty(s'.eng)
    ensures Acknowledges(s, s'.eng)
  {
    TakeEventStep(s);
    EventIsAcknowledged(s);
    EventHoldsNoMark(s);
    var s1 := TakeOneEvent(s, false);
    assert s1 == s.(eng := s1.eng, taken := s.taken + 1);
    hide Reaches, Drained, TakeOneEvent, Acknowledges, Empty;
    s' := WriteThrough(s1);
    ReachesOn(s, s1, s');
    StaysEmpty(s1.eng);
  }

  /** The whole channel is taken; its last commit ends up acknowledged. */
  lemma {:induction false} TakeAll(s: State) returns (s': State)
    requires Empty(s.eng) && s.taken < |s.events| && s.events[|s.events| - 1] == Commit(s.clock) && s.clock > 0
    ensures Reaches(s, s') && s' == s.(eng := s'.eng, target := s'.target, landed := s'.landed, taken := |s.events|)
    ensures Empty(s'.eng) && !s'.eng.txnOpen && s'.eng.acked == s.clock
    decreases |s.events| - s.taken
  {
    hide Reaches, Empty;
    s' := TakeOne(s);
    if s'.taken < |s.events| {
      var s1 := s';
      s' := TakeAll(s1);
      ReachesOn(s, s1, s');
    }
  }

  /** The stream has reached the end of the log and everything on it is confirmed. */
  ghost predicate CaughtUp(s: State) {
    Empty(s.eng) && !s.eng.txnOpen && s.slot == s.clock && s.copied == |s.copy|
  }

  lemma Confirm(s: State) returns (s': State)
    requires SourceOk(s) && s.eng.acked == s.clock > 0 && s.cursor == s.clock
    ensures Reaches(s, s') && s' == s.(checkpoint := Some(s.clock), persisted := s.clock, durable := s.clock, slot := s.clock)
  {
    hide Reaches;
    ReachesOne(s, StreamDoes(WriteCheckpoint));
    var s1 := s.(checkpoint := Some(s.clock), persisted := s.clock);
    assert Do(s, StreamDoes(WriteCheckpoint)) == s1;
    ReachesOne(s1, StreamDoes(StoreDurable));
    var s2 := s1.(durable := s.clock);
    assert Do(s1, StreamDoes(StoreDurable)) == s2;
    ReachesOne(s2, StreamDoes(Feedback(s.clock)));
    s' := s2.(slot := s.clock);
    assert Do(s2, StreamDoes(Feedback(s.clock))) == s';
    ReachesOn(s, s1, s2);
    ReachesOn(s, s2, s');
  }

  lemma KeepAliveAtTheEnd(s: State) returns (s': State)
    requires SourceOk(s) && s.clock > 0 && (s.hist == [] || s.cursor >= s.hist[|s.hist| - 1].pos)
    ensures Reaches(s, s') && s' == s.(events := s.events + [Commit(s.clock)], cursor := s.clock)
  {
    assert forall i | 0 <= i < |s.hist| :: s.hist[i].pos <= s.cursor;
    ReachesOne(s, StreamDoes(KeepAlive(s.clock)));
    s' := Do(s, StreamDoes(KeepAlive(s.clock)));
  }

  lemma SendToTheEnd(s: State) returns (s': State)
    requires Inv(s)
    ensures Reaches(s, s') && s' == s.(events := s'.events, cursor := s'.cursor)
    ensures s.hist == [] || s'.cursor >= s.hist[|s.hist| - 1].pos
  {
    hide Reaches, Inv;
    if s.hist == [] {
      s' := s;
      ReachesItself(s);
    } else {
      assert Increasing(s.hist, s.clock) by { PartsOf(s); }
      var steps;
      steps, s' := SendThrough(s, |s.hist| - 1);
      RunReaches(s, steps, s');
    }
  }

  /** From a new attempt the stream can be read, written and confirmed to the end
      of the log. */
  lemma CatchUp(s: State) returns (s': State)
    requires Inv(s) && Empty(s.eng) && !s.eng.txnOpen && s.copied == |s.copy|
    ensures Reaches(s, s') && CaughtUp(s')
    ensures s'.hist == s.hist && s'.clock == s.clock && s'.rules == s.rules && s'.loaders == s.loaders && s'.progress == s.progress
  {
    hide Reaches, Inv, SourceOk;
    if s.clock == 0 {
      s' := s;
      ReachesItself(s);
      assert s.slot == 0 by { PartsOf(s); SlotIsInLog(s); }
    } else {
      var s1 := SendToTheEnd(s);
      ReachesKeeps(s, s1);
      PartsOf(s1);
      var s2 := KeepAliveAtTheEnd(s1);
      ReachesOn(s, s1, s2);
      assert s2.taken < |s2.events| by { TakenIsSent(s1); }
      var s3 := TakeAll(s2);
      ReachesOn(s, s2, s3);
      ReachesKeeps(s, s3);
      PartsOf(s3);
      s' := Confirm(s3);
      ReachesOn(s, s3, s');
    }
  }

  lemma SlotIsInLog(s: State)
    requires SourceOk(s)
    ensures s.slot <= s.clock
  {
  }

  lemma TakenIsSent(s: State)
    requires SourceOk(s)
    ensures s.taken <= |s.events|
  {
  }

  // ------------------------------------------------------------ the copy channel

  lemma BareMark(e: Engine, m: nat)
    requires Empty(e) && !e.txnOpen
    ensures var s := Drained(TakeMark(e, m)); Empty(s) && !s.txnOpen && s.written == m
  {
    var e1 := TakeMark(e, m);
    assert e1.commands == [PublishMark(m)] && e1.inflight == [] && e1.buffer == [] && e1.pendingMark.None? && !e1.txnOpen;
    var e2 := PassBarrier(e1);
    assert e2.commands == [] && e2.written == m;
    hide TakeMark;
    assert Drained(e1) == Drained(e2) == e2;
  }

  /** Nothing waits anywhere: the engine is done and both channels are taken. */
  predicate AtRest(s: State) {
    Empty(s.eng) && !s.eng.txnOpen && s.copied == |s.copy|
  }

  /** Only the copy channel was taken and written through. */
  ghost predicate OnlyCopied(s: State, s': State) {
    s' == s.(eng := s'.eng, target := s'.target, landed := s'.landed, copied := s'.copied)
  }

  lemma CopyOne(s: State) returns (s': State)
    requires Empty(s.eng) && !s.eng.txnOpen && s.copied < |s.copy| && (s.copy[s.copied].CopyRow? || s.copy[s.copied].LoadMark?)
    ensures Reaches(s, s') && OnlyCopied(s, s') && s'.copied == s.copied + 1 && Empty(s'.eng) && !s'.eng.txnOpen
    ensures s.copy[s.copied].LoadMark? ==> s'.eng.written == s.copy[s.copied].mark
  {
    hide Reaches, Drained;
    ReachesOne(s, EngineDoes(TakeCopy(false)));
    var s1 := TakeOneCopy(s, false);
    assert Do(s, EngineDoes(TakeCopy(false))) == s1;
    if s.copy[s.copied].LoadMark? { BareMark(s.eng, s.copy[s.copied].mark); }
    assert s1.eng.pendingMark.None? && !s1.eng.txnOpen;
    s' := WriteThrough(s1);
    ReachesOn(s, s1, s');
    StaysEmpty(s1.eng);
  }

  /** Rows, and our mark behind them: the mark ends up published. */
  lemma {:induction false} CopyAll(s: State, m: nat) returns (s': State)
    requires Empty(s.eng) && !s.eng.txnOpen && s.copied < |s.copy| && s.copy[|s.copy| - 1] == LoadMark(m)
    requires forall i | s.copied <= i < |s.copy| - 1 :: s.copy[i].CopyRow?
    ensures Reaches(s, s') && OnlyCopied(s, s') && AtRest(s') && s'.eng.written == m
    decreases |s.copy| - s.copied
  {
    hide Reaches, Empty;
    s' := CopyOne(s);
    if s'.copied < |s.copy| {
      var s1 := s';
      s' := CopyAll(s1, m);
      ReachesOn(s, s1, s');
    }
  }

  // -------------------------------------------------------------------- one wave

  /** Only table `t`'s loader and what it has sent and recorded moved. */
  ghost predicate OnlyLoaded(s: State, s': State, t: nat) {
    && s' == s.(copy := s'.copy, copied := s'.copied, drawn := s'.drawn, eng := s'.eng, target := s'.target,
                landed := s'.landed, loaders := s'.loaders, progress := s'.progress)
    && (forall u | u != t :: (u in s'.loaders <==> u in s.loaders) && (u in s'.progress <==> u in s.progress))
    && (forall u | u != t && u in s.loaders :: s'.loaders[u] == s.loaders[u])
    && (forall u | u != t && u in s.progress :: s'.progress[u] == s.progress[u])
  }

  lemma LoadedOn(s: State, s1: State, s2: State, t: nat)
    requires OnlyLoaded(s, s1, t) && OnlyLoaded(s1, s2, t)
    ensures OnlyLoaded(s, s2, t)
  {
  }

  lemma LoadStepOnly(s: State, t: nat, x: LoadStep) returns (s': State)
    requires LoadEnabled(s, t, x) && !x.Announce?
    ensures Reaches(s, s') && s' == DoLoad(s, t, x) && OnlyLoaded(s, s', t)
  {
    ReachesOne(s, LoaderDoes(t, x));
    s' := DoLoad(s, t, x);
    hide RowsOf, Reaches;
  }

  /** One range is located. */
  lemma LocateRange(s: State, t: nat, bounds: seq<int>, done: nat) returns (s': State)
    requires t in s.loaders && s.loaders[t] == Ready(bounds, done) && done <= |bounds|
    ensures Reaches(s, s') && OnlyLoaded(s, s', t) && s' == SetLoader(s, t, Reading(bounds, done, [Located(s.clock)]))
  {
    hide Reaches, OnlyLoaded;
    var s1 := LoadStepOnly(s, t, BeginWave(1));
    assert seq(1, _ => Unread) == [Unread];
    assert s1 == SetLoader(s, t, Reading(bounds, done, [Unread]));
    s' := LoadStepOnly(s1, t, ReadPosition(0));
    assert [Unread][0 := Located(s.clock)] == [Located(s.clock)];
    ReachesOn(s, s1, s');
    LoadedOn(s, s1, s', t);
  }

  /** ... and read. */
  lemma ReadRange(s: State, t: nat, bounds: seq<int>, done: nat) returns (s': State, v: nat, left: set<Write>)
    requires t in s.loaders && s.loaders[t] == Ready(bounds, done) && done <= |bounds|
    ensures Reaches(s, s') && OnlyLoaded(s, s', t) && s' == s.(loaders := s'.loaders)
    ensures t in s'.loaders && s'.loaders[t] == Reading(bounds, done, [Copying(v, s.clock, left)])
  {
    hide Reaches, OnlyLoaded, RowsOf;
    var s1 := LocateRange(s, t, bounds, done);
    v, left := s.clock, RowsOf(s.hist, s.clock, t, RangeAt(bounds, done), s.clock);
    s' := LoadStepOnly(s1, t, Snapshot(0));
    assert [Located(s.clock)][0 := Copying(v, s.clock, left)] == [Copying(v, s.clock, left)];
    ReachesOn(s, s1, s');
    LoadedOn(s, s1, s', t);
  }

  /** Every row read is sent. */
  lemma {:induction false} SendRows(s: State, t: nat, bounds: seq<int>, done: nat, v: nat, at: nat, left: set<Write>) returns (s': State)
    requires t in s.loaders && s.loaders[t] == Reading(bounds, done, [Copying(v, at, left)])
    ensures Reaches(s, s') && OnlyLoaded(s, s', t) && s' == s.(loaders := s'.loaders, copy := s'.copy) && s.copy <= s'.copy
    ensures forall i | |s.copy| <= i < |s'.copy| :: s'.copy[i].CopyRow?
    ensures t in s'.loaders && s'.loaders[t] == Reading(bounds, done, [Copying(v, at, {})])
    decreases |left|
  {
    hide Reaches, OnlyLoaded;
    if left == {} {
      s' := s;
      ReachesItself(s);
      assert OnlyLoaded(s, s, t) by { LoadedItself(s, t); }
    } else {
      var w :| w in left;
      var s1 := LoadStepOnly(s, t, SendRow(0, w));
      assert [Copying(v, at, left)][0 := Copying(v, at, left - {w})] == [Copying(v, at, left - {w})];
      assert s1 == SetLoader(s, t, Reading(bounds, done, [Copying(v, at, left - {w})])).(copy := s.copy + [CopyRow(w)]);
      s' := SendRows(s1, t, bounds, done, v, at, left - {w});
      ReachesOn(s, s1, s');
      LoadedOn(s, s1, s', t);
    }
  }

  lemma LoadedItself(s: State, t: nat)
    ensures OnlyLoaded(s, s, t)
  {
  }

  /** The mark is drawn and sent. */
  lemma MarkWave(s: State, t: nat, bounds: seq<int>, done: nat, v: nat, at: nat) returns (s': State, m: nat)
    requires t in s.loaders && s.loaders[t] == Reading(bounds, done, [Copying(v, at, {})])
    ensures Reaches(s, s') && OnlyLoaded(s, s', t) && s'.copy == s.copy + [LoadMark(m)]
    ensures s' == s.(loaders := s'.loaders, copy := s'.copy, drawn := s'.drawn)
    ensures t in s'.loaders && s'.loaders[t] == Waiting(bounds, done, [Copying(v, at, {})], m)
  {
    hide Reaches, OnlyLoaded;
    m := |s.drawn| + 1;
    var s1 := LoadStepOnly(s, t, DrawMark);
    assert s1 == SetLoader(s, t, Drawn(bounds, done, [Copying(v, at, {})], m)).(drawn := s.drawn + [|s.copy|]);
    s' := LoadStepOnly(s1, t, SendMark);
    ReachesOn(s, s1, s');
    LoadedOn(s, s1, s', t);
  }

  /** The mark is seen and the progress stored. */
  lemma RecordWave(s: State, t: nat, bounds: seq<int>, done: nat, wave: seq<RangeRead>, m: nat) returns (s': State)
    requires t in s.loaders && s.loaders[t] == Waiting(bounds, done, wave, m) && s.eng.written >= m && |wave| == 1
    ensures Reaches(s, s') && OnlyLoaded(s, s', t) && s' == s.(loaders := s'.loaders, progress := s'.progress)
    ensures t in s'.loaders && s'.loaders[t] == Ready(bounds, done + 1)
  {
    hide Reaches, OnlyLoaded;
    var s1 := LoadStepOnly(s, t, SeeMark);
    assert s1 == SetLoader(s, t, Written(bounds, done + 1));
    s' := LoadStepOnly(s1, t, StoreProgress);
    ReachesOn(s, s1, s');
    LoadedOn(s, s1, s', t);
  }

  lemma CopiedIsLoaded(s: State, s': State, t: nat)
    requires OnlyCopied(s, s')
    ensures OnlyLoaded(s, s', t) && s'.loaders == s.loaders
  {
  }

  /** One more range is read, written and recorded. */
  lemma OneWave(s: State, t: nat, bounds: seq<int>, done: nat) returns (s': State)
    requires AtRest(s) && t in s.loaders && s.loaders[t] == Ready(bounds, done) && done <= |bounds|
    ensures Reaches(s, s') && OnlyLoaded(s, s', t) && AtRest(s')
    ensures t in s'.loaders && s'.loaders[t] == Ready(bounds, done + 1)
  {
    hide Reaches, OnlyLoaded, Empty;
    var s1, v, left := ReadRange(s, t, bounds, done);
    var s2 := SendRows(s1, t, bounds, done, v, s.clock, left);
    var s3, m := MarkWave(s2, t, bounds, done, v, s.clock);
    var s4 := CopyAll(s3, m);
    CopiedIsLoaded(s3, s4, t);
    s' := RecordWave(s4, t, bounds, done, [Copying(v, s.clock, {})], m);
    ReachesOn(s, s1, s2);
    ReachesOn(s, s2, s3);
    ReachesOn(s, s3, s4);
    ReachesOn(s, s4, s');
    LoadedOn(s, s1, s2, t);
    LoadedOn(s, s2, s3, t);
    LoadedOn(s, s3, s4, t);
    LoadedOn(s, s4, s', t);
  }

  // ------------------------------------------------------------------- one table

  lemma {:induction false} LoadRanges(s: State, t: nat, bounds: seq<int>, done: nat) returns (s': State)
    requires AtRest(s) && t in s.loaders && s.loaders[t] == Ready(bounds, done) && done <= |bounds| + 1
    ensures Reaches(s, s') && OnlyLoaded(s, s', t) && AtRest(s')
    ensures t in s'.loaders && s'.loaders[t] == Ready(bounds, |bounds| + 1)
    decreases |bounds| + 1 - done
  {
    hide Reaches, OnlyLoaded, AtRest;
    if done == |bounds| + 1 {
      s' := s;
      ReachesItself(s);
      LoadedItself(s, t);
    } else {
      var s1 := OneWave(s, t, bounds, done);
      s' := LoadRanges(s1, t, bounds, done + 1);
      ReachesOn(s, s1, s');
      LoadedOn(s, s1, s', t);
    }
  }

  /** A table's load, begun or taken up where its document left it, runs to its
      end. */
  lemma LoadTable(s: State, t: nat) returns (s': State)
    requires AtRest(s) && t in s.rules && t !in s.loaders && (t in s.progress ==> s.progress[t].done <= |s.progress[t].bounds| + 1)
    ensures Reaches(s, s') && OnlyLoaded(s, s', t) && AtRest(s') && LoadFinishedFor(s', t)
  {
    hide Reaches, OnlyLoaded, Empty;
    if t in s.progress && s.progress[t].finished {
      s' := s;
      ReachesItself(s);
      LoadedItself(s, t);
    } else {
      var s1 := LoadStepOnly(s, t, BeginLoad([]));
      var l := s1.loaders[t];
      var s2 := LoadRanges(s1, t, l.bounds, l.done);
      s' := LoadStepOnly(s2, t, StoreFinished);
      ReachesOn(s, s1, s2);
      ReachesOn(s, s2, s');
      LoadedOn(s, s1, s2, t);
      LoadedOn(s, s2, s', t);
    }
  }

  // ------------------------------------------------------------------- every table

  ghost predicate Loadable(s: State, t: nat) {
    t in s.rules && t !in s.loaders && (t in s.progress ==> s.progress[t].done <= |s.progress[t].bounds| + 1)
  }

  /** Only loads went on. */
  ghost predicate OnlyLoads(s: State, s': State) {
    s' == s.(copy := s'.copy, copied := s'.copied, drawn := s'.drawn, eng := s'.eng, target := s'.target,
             landed := s'.landed, loaders := s'.loaders, progress := s'.progress)
  }

  lemma {:induction false} LoadTables(s: State, ts: set<nat>) returns (s': State)
    requires AtRest(s) && forall t | t in ts :: Loadable(s, t)
    ensures Reaches(s, s') && OnlyLoads(s, s') && forall t | t in ts || LoadFinishedFor(s, t) :: LoadFinishedFor(s', t)
    decreases |ts|
  {
    hide Reaches, AtRest;
    if ts == {} {
      s' := s;
      ReachesItself(s);
    } else {
      var t :| t in ts;
      var s1 := LoadTable(s, t);
      OthersStay(s, s1, t);
      hide LoadFinishedFor, Loadable, OnlyLoaded;
      s' := LoadTables(s1, ts - {t});
      ReachesOn(s, s1, s');
    }
  }

  lemma OthersStay(s: State, s1: State, t: nat)
    requires OnlyLoaded(s, s1, t)
    ensures OnlyLoads(s, s1)
    ensures forall u | u != t :: (Loadable(s, u) ==> Loadable(s1, u)) && (LoadFinishedFor(s, u) ==> LoadFinishedFor(s1, u))
  {
  }

  // ------------------------------------------------------------------ main theorem

  lemma RestartIsFresh(s: State)
    ensures var s' := Do(s, Restart);
            && Empty(s'.eng) && !s'.eng.txnOpen && s'.copied == |s'.copy| && s'.loaders == map[]
            && s'.hist == s.hist && s'.clock == s.clock && s'.rules == s.config && s'.progress == s.progress
  {
  }

  lemma StoredIsLoadable(s: State, t: nat)
    requires ProgressOk(s) && t in s.rules && s.loaders == map[]
    ensures Loadable(s, t)
  {
    hide KeyLoaded;
  }

  /** Whatever has happened, the system can still get there: from every state a
      restart leads to one in which every configured table is loaded, the stream is
      confirmed to the end of the log, and the target shows the source's rows. */
  lemma EveryStateCanConverge(s: State) returns (s': State)
    requires Reachable(true, s)
    ensures Reaches(s, s') && s'.hist == s.hist && s'.clock == s.clock && s'.slot == s.clock && s'.rules == s.config
    ensures forall t | t in s.config :: LoadFinishedFor(s', t)
    ensures forall k: Key | k.table in s.config :: View(s'.target, k) == DocAt(s.hist, s.clock, k)
  {
    ReachableKeeps(s);
    ReachesOne(s, Restart);
    var s1 := Do(s, Restart);
    RestartIsFresh(s);
    hide *;
    ReachesKeeps(s, s1);
    s' := ConvergeAfresh(s1);
    ReachesOn(s, s1, s');
    ReachesKeeps(s, s');
    forall k: Key | k.table in s.config ensures View(s'.target, k) == DocAt(s.hist, s.clock, k) { LoadedShows(s', k); }
  }

  lemma ConvergeAfresh(s: State) returns (s': State)
    requires Inv(s) && Empty(s.eng) && !s.eng.txnOpen && s.copied == |s.copy| && s.loaders == map[]
    ensures Reaches(s, s') && s'.hist == s.hist && s'.clock == s.clock && s'.slot == s.clock && s'.rules == s.rules
    ensures forall t | t in s.rules :: LoadFinishedFor(s', t)
  {
    hide Reaches, Inv, LoadFinishedFor;
    var s1 := CatchUp(s);
    ReachesKeeps(s, s1);
    PartsOf(s1);
    hide SourceOk, BaseOk, WritesOk, KeepsHighest, Sound, Remembered, EventsOk, TakenOk, CopyOk, SafeTo, JoinOk, ProgressOk, LoadersOk;
    forall t | t in s1.rules ensures Loadable(s1, t) { StoredIsLoadable(s1, t); }
    hide Loadable, Empty;
    s' := LoadTables(s1, s1.rules);
    ReachesOn(s, s1, s');
  }

  lemma LoadedShows(s: State, k: Key)
    requires Inv(s) && LoadFinishedFor(s, k.table) && s.slot == s.clock
    ensures View(s.target, k) == DocAt(s.hist, s.clock, k)
  {
    FinishedLoadsEveryKey(s, k);
    var v, at :| ReadAt(s, k, v, at);
    assert forall w | w in s.landed && w.key == k :: WriteOk(s, w) && Genuine(s.hist, s.clock, w);
    hide Inv;
    AcknowledgedIsTheSource(s, k, v, at, s.clock);
  }
}
