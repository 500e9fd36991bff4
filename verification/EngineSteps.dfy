/** The engine's own steps keep the invariant. */
module EngineSteps {
  import opened Wrappers
  import opened Source
  import opened Target
  import opened Ranges
  import opened Engine
  import opened Protocol
  import opened Invariant
  import opened Frames

  /** Steps of the engine that take nothing new: flushing, writing, closing a
      write, publishing a mark, acknowledging a position. */
  lemma EngineStepKeeps(s: State, e: Engine)
    requires Inv(s) && Sound(e, s.landed) && Remembered(e)
    requires Flow(e) == Flow(s.eng) && e.markAt == s.eng.markAt && e.commitAt == s.eng.commitAt
    ensures Inv(s.(eng := e))
  {
    var s' := s.(eng := e);
    assert s'.taken <= |s'.events| && s'.copied <= |s'.copy|;
    hide SourceOk, BaseOk, WritesOk, EventsOk, TakenOk, CopyOk, SafeTo, JoinOk, ProgressOk, LoadersOk, Sound, Remembered, Flow;
    SourceStays(s, s');
    WritesStay(s, s');
    EventsStay(s, s');
    TakenStays(s, s');
    CopyStays(s, s');
    SafetyStays(s, s');
    JoinStays(s, s');
    ProgressStays(s, s');
    LoadersStay(s, s');
  }

  lemma FlushKeeps(s: State)
    requires Inv(s)
    ensures Inv(s.(eng := Flush(s.eng)))
  {
    assert Sound(s.eng, s.landed) && Remembered(s.eng);
    hide Inv, Sound, Flow;
    FlushSound(s.eng, s.landed);
    EngineStepKeeps(s, Flush(s.eng));
  }

  lemma OpenWriteKeeps(s: State)
    requires Inv(s) && s.eng.commands != [] && s.eng.commands[0].WriteBatch?
    ensures Inv(s.(eng := StartWrite(s.eng)))
  {
    StartWriteSound(s.eng, s.landed);
    EngineStepKeeps(s, StartWrite(s.eng));
  }

  lemma CloseWriteKeeps(s: State)
    requires Inv(s) && s.eng.inflight != []
    requires forall i | 0 <= i < |s.eng.inflight[0]| :: s.eng.inflight[0][i].w in s.landed
    ensures Inv(s.(eng := FinishWrite(s.eng)))
  {
    FinishWriteSound(s.eng, s.landed);
    EngineStepKeeps(s, FinishWrite(s.eng));
  }

  lemma BarrierKeeps(s: State)
    requires Inv(s) && s.eng.commands != [] && !s.eng.commands[0].WriteBatch? && s.eng.inflight == []
    ensures Inv(s.(eng := PassBarrier(s.eng)))
  {
    assert Sound(s.eng, s.landed) && Remembered(s.eng);
    hide Inv, Sound, Flow, PassBarrier;
    PassBarrierNotes(s.eng);
    PassBarrierSound(s.eng, s.landed);
    EngineStepKeeps(s, PassBarrier(s.eng));
  }

  /** The engine took the next item of one of its channels: nothing but its own
      state and the two cursors changed, and the flow only grew. */
  ghost predicate Took(s: State, s': State) {
    && s' == s.(eng := s'.eng, taken := s'.taken, copied := s'.copied)
    && Sound(s'.eng, s.landed) && Remembered(s'.eng)
    && |Flow(s.eng)| <= |Flow(s'.eng)| && Flow(s'.eng)[..|Flow(s.eng)|] == Flow(s.eng)
    && (forall w | w in Flow(s'.eng) :: w in Flow(s.eng) || WriteOk(s, w))
    && s.eng.commitAt.Keys <= s'.eng.commitAt.Keys
  }

  lemma WritesGrow(s: State, s': State)
    requires WritesOk(s) && Took(s, s')
    ensures WritesOk(s')
  {
    forall w | WriteOk(s, w) ensures WriteOk(s', w) { WriteStays(s, s', w); }
  }

  lemma EventsTaken(s: State, s': State)
    requires SourceOk(s) && SourceOk(s') && EventsOk(s) && Took(s, s') && s.taken <= s'.taken
    ensures EventsOk(s')
  {
  }

  lemma TookKeeps(s: State, s': State)
    requires Inv(s) && Took(s, s')
    requires s.taken <= s'.taken <= |s.events| && s'.copied <= |s.copy|
    requires TakenOk(s') && CopyOk(s')
    ensures Inv(s')
  {
    hide SourceOk, BaseOk, WritesOk, EventsOk, TakenOk, CopyOk, SafeTo, JoinOk, ProgressOk, LoadersOk, Sound, Remembered, Flow;
    SourceStays(s, s');
    WritesGrow(s, s');
    EventsTaken(s, s');
    SafetyStays(s, s');
    JoinStays(s, s');
    ProgressStays(s, s');
    LoadersStay(s, s');
  }

  /** The taken part of the event channel, after an item that is not a commit. */
  lemma TakenGrows(s: State, s': State)
    requires TakenOk(s) && Took(s, s') && s'.eng.commitAt == s.eng.commitAt
    requires s'.taken == s.taken || (s'.taken == s.taken + 1 <= |s.events| && !s.events[s.taken].Commit?)
    requires s'.taken == s.taken + 1 && s.events[s.taken].Change? && Owed(s, s.events[s.taken].w) ==>
               FlowCovers(s'.eng, |Flow(s'.eng)|, s.events[s.taken].w)
    ensures TakenOk(s')
  {
    forall w, n | FlowCovers(s.eng, n, w)
      ensures FlowCovers(s'.eng, n, w) && FlowCovers(s'.eng, |Flow(s'.eng)|, w)
    {
      FlowCoversStays(s.eng, s'.eng, n, w);
    }
  }

  lemma CopiedGrows(s: State, s': State)
    requires CopyOk(s) && Took(s, s') && s'.eng.markAt == s.eng.markAt
    requires s'.copied == s.copied || (s'.copied == s.copied + 1 <= |s.copy| && !s.copy[s.copied].LoadMark?)
    requires s'.copied == s.copied + 1 && s.copy[s.copied].CopyRow? ==>
               FlowCovers(s'.eng, |Flow(s'.eng)|, s.copy[s.copied].w)
    ensures CopyOk(s')
  {
    forall w, n | FlowCovers(s.eng, n, w)
      ensures FlowCovers(s'.eng, n, w) && FlowCovers(s'.eng, |Flow(s'.eng)|, w)
    {
      FlowCoversStays(s.eng, s'.eng, n, w);
    }
    forall w | WriteOk(s, w) ensures WriteOk(s', w) { WriteStays(s, s', w); }
  }

  /** Taking a row that may be filed. */
  lemma TakeRowTook(s: State, s': State, w: Write)
    requires Inv(s) && (w.key.table in s.rules ==> WriteOk(s, w))
    requires s' == s.(eng := TakeIfKnown(s, w), taken := s'.taken, copied := s'.copied)
    ensures Took(s, s') && s'.eng.markAt == s.eng.markAt && s'.eng.commitAt == s.eng.commitAt
    ensures w.key.table in s.rules ==> FlowCovers(s'.eng, |Flow(s'.eng)|, w)
  {
    assert Sound(s.eng, s.landed) && Remembered(s.eng);
    hide Inv;
    if w.key.table in s.rules {
      TakeRowSound(s.eng, s.landed, w);
      TakeRowRemembered(s.eng, s.landed, w);
      var f := Flow(s'.eng);
      assert f[..|f|] == f;
    }
  }

  lemma TakeCommitTook(s: State, s': State, pos: nat, hold: bool)
    requires Inv(s)
    requires s' == s.(eng := TakeCommit(s.eng, pos, hold), taken := s'.taken, copied := s'.copied)
    ensures Took(s, s') && Flow(s'.eng) == Flow(s.eng) && s'.eng.markAt == s.eng.markAt
    ensures s'.eng.commitAt == if pos == 0 || pos in s.eng.commitAt then s.eng.commitAt
                               else s.eng.commitAt[pos := |Flow(s.eng)|]
  {
    assert Sound(s.eng, s.landed) && Remembered(s.eng);
    hide Inv, Sound, Flow, TakeCommit;
    TakeCommitNotes(s.eng, pos, hold);
    TakeCommitSound(s.eng, s.landed, pos, hold);
  }

  lemma TakeEventKeeps(s: State, hold: bool)
    requires Inv(s) && s.taken < |s.events|
    ensures Inv(TakeOneEvent(s, hold))
  {
    var s' := TakeOneEvent(s, hold);
    assert SourceOk(s) && EventsOk(s) && TakenOk(s) && CopyOk(s);
    assert s.taken <= s'.taken <= |s.events| && s'.copied <= |s.copy|;
    if s.events[s.taken].Change? { WaitingRowOk(s, s.events[s.taken].w); }
    assert s.events[s.taken].Change? && Owed(s, s.events[s.taken].w) ==> s.events[s.taken].w.key.table in s.rules;
    hide Inv, SourceOk, EventsOk, Took, TakenOk, CopyOk, WriteOk, Owed, Flow, TakeCommit, TakeRow, TakeBegin;
    match s.events[s.taken]
    case Begin(_) =>
      BeginTook(s, s');
      TakenGrows(s, s');
      CopyStays(s, s');
      TookKeeps(s, s');
    case Change(w) =>
      TakeRowTook(s, s', w);
      TakenGrows(s, s');
      CopiedGrows(s, s');
      TookKeeps(s, s');
    case Commit(pos) =>
      TakeCommitTook(s, s', pos, hold);
      CommitTaken(s, s', pos);
      CopyStays(s, s');
      TookKeeps(s, s');
  }

  /** A row waiting in the event channel of a table the rules know. */
  lemma WaitingRowOk(s: State, w: Write)
    requires SourceOk(s) && EventsOk(s) && s.taken < |s.events| && s.events[s.taken] == Change(w)
    ensures w.key.table in s.rules ==> WriteOk(s, w)
  {
    assert EventOk(s, w);
  }

  lemma BeginTook(s: State, s': State)
    requires Inv(s)
    requires s' == s.(eng := TakeBegin(s.eng), taken := s'.taken, copied := s'.copied)
    ensures Took(s, s') && Flow(s'.eng) == Flow(s.eng)
    ensures s'.eng.commitAt == s.eng.commitAt && s'.eng.markAt == s.eng.markAt
  {
    assert Sound(s.eng, s.landed) && Remembered(s.eng);
    assert Queue(s'.eng) == Queue(s.eng);
  }

  /** A commit stands for the rows taken before it. */
  lemma CommitTaken(s: State, s': State, pos: nat)
    requires SourceOk(s) && EventsOk(s) && TakenOk(s) && Took(s, s') && Flow(s'.eng) == Flow(s.eng)
    requires s.taken < |s.events| && s.events[s.taken] == Commit(pos) && s'.taken == s.taken + 1
    requires s'.eng.commitAt == if pos == 0 || pos in s.eng.commitAt then s.eng.commitAt
                                else s.eng.commitAt[pos := |Flow(s.eng)|]
    ensures TakenOk(s')
  {
    assert pos <= s.cursor && forall i | s.taken < i < |s.events| && s.events[i].Change? :: pos < s.events[i].w.version;
    hide EventsOk, SourceOk;
    CommittedRows(s, s', pos);
  }

  lemma CommittedRows(s: State, s': State, pos: nat)
    requires TakenOk(s) && Took(s, s') && Flow(s'.eng) == Flow(s.eng)
    requires s.taken < |s.events| && s.events[s.taken] == Commit(pos) && s'.taken == s.taken + 1
    requires s'.eng.commitAt == if pos == 0 || pos in s.eng.commitAt then s.eng.commitAt
                                else s.eng.commitAt[pos := |Flow(s.eng)|]
    requires pos <= s.cursor && forall i | s.taken < i < |s.events| && s.events[i].Change? :: pos < s.events[i].w.version
    ensures TakenOk(s')
  {
    hide Sound, Remembered, WriteOk, Flow;
    forall c, i | c in s'.eng.commitAt && 0 <= i < s'.taken && s.events[i].Change?
                  && Owed(s, s.events[i].w) && s.events[i].w.version <= c
      ensures FlowCovers(s'.eng, s'.eng.commitAt[c], s.events[i].w)
    {
      assert c in s.eng.commitAt || c == pos;
      assert FlowCovers(s.eng, s'.eng.commitAt[c], s.events[i].w);
    }
  }

  /** A mark stands for the rows sent before it was drawn. */
  lemma MarkTaken(s: State, s': State, m: nat)
    requires CopyOk(s) && Took(s, s') && Flow(s'.eng) == Flow(s.eng) && s'.taken == s.taken
    requires s.copied < |s.copy| && s.copy[s.copied] == LoadMark(m) && s'.copied == s.copied + 1
    requires s'.eng.markAt == if m in s.eng.markAt then s.eng.markAt else s.eng.markAt[m := |Flow(s.eng)|]
    ensures CopyOk(s')
  {
    hide Sound, Remembered;
    forall w | WriteOk(s, w) ensures WriteOk(s', w) { WriteStays(s, s', w); }
    forall w, n: nat | FlowCovers(s.eng, n, w) ensures FlowCovers(s'.eng, n, w) {}
    hide WriteOk, Flow, FlowCovers, Took;
    assert SentOk(s') by { hide MarksOk; }
    MarkedRows(s, s', m);
    hide SentOk, MarksOk;
  }

  lemma MarkedRows(s: State, s': State, m: nat)
    requires CopyOk(s) && SentOk(s') && s' == s.(eng := s'.eng, copied := s.copied + 1)
    requires s.copied < |s.copy| && s.copy[s.copied] == LoadMark(m)
    requires s'.eng.markAt == if m in s.eng.markAt then s.eng.markAt else s.eng.markAt[m := |Flow(s.eng)|]
    requires forall w, n: nat | FlowCovers(s.eng, n, w) :: FlowCovers(s'.eng, n, w)
    ensures MarksOk(s')
  {
    hide WriteOk, Flow, FlowCovers;
    forall x, i | x in s'.eng.markAt && 0 <= i < s.drawn[x - 1] && s.copy[i].CopyRow?
      ensures FlowCovers(s'.eng, s'.eng.markAt[x], s.copy[i].w)
    {
      if x !in s.eng.markAt { assert i < s.copied; }
    }
  }

  lemma TakeMarkTook(s: State, s': State, m: nat)
    requires Inv(s)
    requires s' == s.(eng := TakeMark(s.eng, m), taken := s'.taken, copied := s'.copied)
    ensures Took(s, s') && Flow(s'.eng) == Flow(s.eng) && s'.eng.commitAt == s.eng.commitAt
    ensures s'.eng.markAt == if m in s.eng.markAt then s.eng.markAt else s.eng.markAt[m := |Flow(s.eng)|]
  {
    assert Sound(s.eng, s.landed);
    hide Inv, Sound, Flow, TakeMark;
    TakeMarkNotes(s.eng, m);
    TakeMarkSound(s.eng, s.landed, m);
  }

  /** Opening or closing the window of remembered deletes. */
  lemma WindowTook(s: State, s': State)
    requires Inv(s)
    requires s'.eng == TakeStarted(s.eng) || s'.eng == TakeFinished(s.eng)
    requires s' == s.(eng := s'.eng, taken := s'.taken, copied := s'.copied)
    ensures Took(s, s') && Flow(s'.eng) == Flow(s.eng)
    ensures s'.eng.commitAt == s.eng.commitAt && s'.eng.markAt == s.eng.markAt
  {
    assert Sound(s.eng, s.landed) && Remembered(s.eng);
    assert Queue(s'.eng) == Queue(s.eng);
  }

  lemma TakeCopyKeeps(s: State, hold: bool)
    requires Inv(s) && s.copied < |s.copy|
    ensures Inv(TakeOneCopy(s, hold))
  {
    var s' := TakeOneCopy(s, hold);
    assert TakenOk(s) && CopyOk(s);
    assert s.taken <= s'.taken <= |s.events| && s'.copied <= |s.copy|;
    assert s.copy[s.copied].CopyRow? ==> WriteOk(s, s.copy[s.copied].w);
    hide Inv, Took, TakenOk, CopyOk, WriteOk, Flow, TakeCommit, TakeMark, TakeRow, TakeStarted, TakeFinished;
    match s.copy[s.copied]
    case CopyRow(w) =>
      TakeRowTook(s, s', w);
      TakenGrows(s, s');
      CopiedGrows(s, s');
      TookKeeps(s, s');
    case Boundary =>
      TakeCommitTook(s, s', 0, hold);
      TakenStays(s, s');
      CopiedGrows(s, s');
      TookKeeps(s, s');
    case LoadMark(m) =>
      TakeMarkTook(s, s', m);
      TakenStays(s, s');
      MarkTaken(s, s', m);
      TookKeeps(s, s');
    case LoadStarted =>
      WindowTook(s, s');
      TakenStays(s, s');
      CopiedGrows(s, s');
      TookKeeps(s, s');
    case LoadFinished =>
      WindowTook(s, s');
      TakenStays(s, s');
      CopiedGrows(s, s');
      TookKeeps(s, s');
  }
}
