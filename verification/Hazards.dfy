/** The two steps that need care, each with a run that goes wrong without it. */
module Hazards {
  import opened Wrappers
  import opened Source
  import opened Target
  import opened Ranges
  import opened Engine
  import opened Protocol
  import opened Safety

  const Row := Key(0, 7)

  /** A first start at position 1 of a source whose log is `hist`. */
  function Start(config: set<nat>): State {
    State([], 1, 1, map t | t in config :: 1, config, map[], None, map[], 0,
          1, 1, config, config, [], 0, [], 0, [], Fresh, 0, map[], map[], {},
          {}, {}, map t | t in config :: 1, map t | t in config :: 1, (k: Key) => 1)
  }

  lemma StartIsReachable(config: set<nat>)
    ensures Reachable(false, Start(config))
  {
    assert Init(Start(config));
    assert Runs(false, Start(config), [], Start(config));
  }

  /** Nothing taken and unfinished, nothing sent and not taken. */
  ghost predicate Idle(s: State) {
    && s.eng.buffer == [] && s.eng.commands == [] && s.eng.inflight == []
    && !s.eng.txnOpen && s.eng.pendingMark.None?
    && s.taken == |s.events| && s.copied == |s.copy|
  }

  /** A keepalive reaches the engine and is acknowledged. */
  lemma AckThrough(s: State, pos: nat) returns (s': State)
    requires Reachable(false, s) && Idle(s) && Enabled(s, StreamDoes(KeepAlive(pos)))
    ensures Reachable(false, s') && Idle(s') && s'.eng.acked == pos
    ensures s' == s.(events := s'.events, taken := s'.taken, cursor := pos, eng := s'.eng)
  {
    hide Reachable;
    Then(false, s, StreamDoes(KeepAlive(pos)));
    var s1 := s.(events := s.events + [Commit(pos)], cursor := pos);
    assert pos > 0 && Do(s, StreamDoes(KeepAlive(pos))) == s1;
    s' := AckCommit(s1, pos);
  }

  lemma AckCommit(s: State, pos: nat) returns (s': State)
    requires Reachable(false, s) && pos > 0 && s.taken + 1 == |s.events| && s.events[s.taken] == Commit(pos)
    requires Idle(s.(taken := s.taken + 1))
    ensures Reachable(false, s') && Idle(s') && s'.eng.acked == pos
    ensures s' == s.(taken := s'.taken, eng := s'.eng)
  {
    hide Reachable;
    Then(false, s, EngineDoes(TakeEvent(false)));
    var e := TakeCommit(s.eng, pos, false);
    var s1 := s.(taken := s.taken + 1, eng := e);
    assert Do(s, EngineDoes(TakeEvent(false))) == s1;
    assert e.commands == [AckPosition(pos)] && e.inflight == [] && e.buffer == [] && !e.txnOpen && e.pendingMark.None?;
    s' := PassOne(s1);
  }

  lemma PassOne(s: State) returns (s': State)
    requires Reachable(false, s) && |s.eng.commands| == 1 && !s.eng.commands[0].WriteBatch? && s.eng.inflight == []
    ensures Reachable(false, s') && s' == s.(eng := PassBarrier(s.eng)) && s'.eng.commands == []
  {
    hide Reachable;
    Then(false, s, EngineDoes(Barrier));
    s' := Do(s, EngineDoes(Barrier));
  }

  // ---------------------------------------------------- loading an empty table

  lemma ReadNothing(s: State, t: nat) returns (s': State)
    requires Reachable(false, s) && t in s.rules && t !in s.loaders && t !in s.progress
    requires RowsOf(s.hist, s.clock, t, RangeAt([], 0), s.clock) == {}
    ensures Reachable(false, s')
    ensures s' == s.(progress := s.progress[t := Progress([], 0, false)],
                     loaders := s.loaders[t := Reading([], 0, [Copying(s.clock, s.clock, {})])])
  {
    hide Reachable;
    Then(false, s, LoaderDoes(t, BeginLoad([])));
    var s1 := s.(progress := s.progress[t := Progress([], 0, false)], loaders := s.loaders[t := Ready([], 0)]);
    assert Do(s, LoaderDoes(t, BeginLoad([]))) == s1;
    s' := ReadEmptyRange(s1, t);
  }

  lemma ReadEmptyRange(s: State, t: nat) returns (s': State)
    requires Reachable(false, s) && t in s.loaders && s.loaders[t] == Ready([], 0)
    requires RowsOf(s.hist, s.clock, t, RangeAt([], 0), s.clock) == {}
    ensures Reachable(false, s')
    ensures s' == s.(loaders := s.loaders[t := Reading([], 0, [Copying(s.clock, s.clock, {})])])
  {
    hide Reachable;
    Then(false, s, LoaderDoes(t, BeginWave(1)));
    var s1 := s.(loaders := s.loaders[t := Reading([], 0, [Unread])]);
    assert seq(1, _ => Unread) == [Unread];
    assert Do(s, LoaderDoes(t, BeginWave(1))) == s1;
    s' := ReadEmptyWave(s1, t);
  }

  lemma ReadEmptyWave(s: State, t: nat) returns (s': State)
    requires Reachable(false, s) && t in s.loaders && s.loaders[t] == Reading([], 0, [Unread])
    requires RowsOf(s.hist, s.clock, t, RangeAt([], 0), s.clock) == {}
    ensures Reachable(false, s')
    ensures s' == s.(loaders := s.loaders[t := Reading([], 0, [Copying(s.clock, s.clock, {})])])
  {
    hide Reachable, RowsOf;
    Then(false, s, LoaderDoes(t, ReadPosition(0)));
    var s2 := s.(loaders := s.loaders[t := Reading([], 0, [Located(s.clock)])]);
    assert [Unread][0 := Located(s.clock)] == [Located(s.clock)];
    assert Do(s, LoaderDoes(t, ReadPosition(0))) == s2;
    Then(false, s2, LoaderDoes(t, Snapshot(0)));
    s' := Do(s2, LoaderDoes(t, Snapshot(0)));
    assert s'.loaders[t].wave == [Copying(s.clock, s.clock, {})];
  }

  lemma MarkNothing(s: State, t: nat) returns (s': State)
    requires Reachable(false, s) && Idle(s) && t in s.loaders && s.loaders[t].Reading?
    requires s.loaders[t].bounds == [] && s.loaders[t].done == 0 && |s.loaders[t].wave| == 1 && AllCopied(s.loaders[t].wave)
    ensures Reachable(false, s') && s'.copied + 1 == |s'.copy| && s'.copy[s'.copied] == LoadMark(|s.drawn| + 1)
    ensures s' == s.(copy := s'.copy, drawn := s'.drawn,
                     loaders := s.loaders[t := Waiting([], 0, s.loaders[t].wave, |s.drawn| + 1)])
  {
    hide Reachable;
    Then(false, s, LoaderDoes(t, DrawMark));
    var s1 := Do(s, LoaderDoes(t, DrawMark));
    assert s1.loaders[t] == Drawn([], 0, s.loaders[t].wave, |s.drawn| + 1);
    Then(false, s1, LoaderDoes(t, SendMark));
    s' := Do(s1, LoaderDoes(t, SendMark));
  }

  lemma PublishNothing(s: State, m: nat) returns (s': State)
    requires Reachable(false, s) && s.copied + 1 == |s.copy| && s.copy[s.copied] == LoadMark(m)
    requires Idle(s.(copied := s.copied + 1))
    ensures Reachable(false, s') && Idle(s') && s'.eng.written == m && s'.eng.acked == s.eng.acked
    ensures s' == s.(copied := s'.copied, eng := s'.eng)
  {
    hide Reachable;
    Then(false, s, EngineDoes(TakeCopy(false)));
    var e := TakeMark(s.eng, m);
    var s1 := s.(copied := s.copied + 1, eng := e);
    assert Do(s, EngineDoes(TakeCopy(false))) == s1;
    assert e.commands == [PublishMark(m)] && e.inflight == [] && e.buffer == [] && !e.txnOpen && e.pendingMark.None?;
    s' := PassOne(s1);
  }

  lemma RecordNothing(s: State, t: nat) returns (s': State)
    requires Reachable(false, s) && t in s.loaders && s.loaders[t].Waiting? && s.eng.written >= s.loaders[t].mark
    requires s.loaders[t].bounds == [] && s.loaders[t].done == 0 && |s.loaders[t].wave| == 1
    ensures Reachable(false, s')
    ensures s' == s.(loaders := s.loaders[t := Loaded([], 1)], progress := s.progress[t := Progress([], 1, true)])
  {
    hide Reachable;
    Then(false, s, LoaderDoes(t, SeeMark));
    var s1 := s.(loaders := s.loaders[t := Written([], 1)]);
    assert Do(s, LoaderDoes(t, SeeMark)) == s1;
    s' := RecordWritten(s1, t);
  }

  lemma RecordWritten(s: State, t: nat) returns (s': State)
    requires Reachable(false, s) && t in s.loaders && s.loaders[t] == Written([], 1)
    ensures Reachable(false, s')
    ensures s' == s.(loaders := s.loaders[t := Loaded([], 1)], progress := s.progress[t := Progress([], 1, true)])
  {
    hide Reachable;
    Then(false, s, LoaderDoes(t, StoreProgress));
    var s1 := s.(loaders := s.loaders[t := Ready([], 1)], progress := s.progress[t := Progress([], 1, false)]);
    assert Do(s, LoaderDoes(t, StoreProgress)) == s1;
    Then(false, s1, LoaderDoes(t, StoreFinished));
    s' := Do(s1, LoaderDoes(t, StoreFinished));
  }

  /** A table with no rows to read is loaded and recorded as finished. */
  lemma LoadNothing(s: State, t: nat) returns (s': State)
    requires Reachable(false, s) && Idle(s) && t in s.rules && t !in s.loaders && t !in s.progress
    requires RowsOf(s.hist, s.clock, t, RangeAt([], 0), s.clock) == {}
    ensures Reachable(false, s') && Idle(s') && t in s'.progress && s'.progress[t] == Progress([], 1, true)
    ensures s' == s.(copy := s'.copy, copied := s'.copied, drawn := s'.drawn, eng := s'.eng,
                     loaders := s'.loaders, progress := s'.progress)
    ensures s'.eng.acked == s.eng.acked
  {
    hide Reachable, RowsOf;
    var s1 := ReadNothing(s, t);
    var s2 := MarkNothing(s1, t);
    var s3 := PublishNothing(s2, |s1.drawn| + 1);
    s' := RecordNothing(s3, t);
  }

  // --------------------------------------- a slot created again leaves a gap

  lemma NoRows(hist: seq<Txn>, at: nat, t: nat, range: KeyRange, v: nat)
    requires forall k: Key :: DocAt(hist, at, k).None?
    ensures RowsOf(hist, at, t, range, v) == {}
  {
  }

  /** With no checkpoint, or one behind the slot, `ResumePosition` asks for a
      full initial load. The load starts from the stored document all the same,
      so a table recorded as finished is not read again, and a row that changed
      between the old slot and the new one never arrives. */
  lemma RecreatedSlotLeavesAGap() returns (s: State)
    ensures Reachable(false, s) && LoadFinishedFor(s, 0) && s.eng.acked >= s.clock
    ensures forall bounds :: !Enabled(s, LoaderDoes(0, BeginLoad(bounds)))
    ensures View(s.target, Row).None? && DocAt(s.hist, s.clock, Row) == Some("new")
  {
    hide Reachable;
    StartIsReachable({0});
    NoRows([], 1, 0, RangeAt([], 0), 1);
    var s1 := LoadNothing(Start({0}), 0);
    Then(false, s1, SourceDoes(DoCommit(2, map[Row := Some("new")])));
    var s2 := s1.(hist := [Txn(2, map[Row := Some("new")])], clock := 2);
    assert Do(s1, SourceDoes(DoCommit(2, map[Row := Some("new")]))) == s2;
    Then(false, s2, RecreateSlot(3));
    var s3 := Do(s2, RecreateSlot(3));
    assert Idle(s3) && s3.cursor == 3 && s3.clock == 3;
    s := AckThrough(s3, 3);
  }

  // ------------------------- a reconnect while a table has joined above the slot

  const Inserted := Write(Row, 3, Some("gone"))
  const Deleted := Write(Row, 4, None)
  const Brief := [Txn(3, map[Row := Some("gone")]), Txn(4, map[Row := None])]

  lemma BriefRow()
    ensures forall k: Key :: DocAt(Brief, 5, k).None?
  {
    var one := Brief[..1];
    assert one == [Txn(3, map[Row := Some("gone")])] && one[..0] == [];
    forall k: Key ensures DocAt(Brief, 5, k).None? {
      assert k != Row ==> LastChange(one, 5, k) == LastChange(one[..0], 5, k) == None;
    }
  }

  /** The table is published, its row comes and goes before the table is ours,
      and the barrier is read. */
  lemma Published() returns (s: State)
    ensures Reachable(false, s) && Idle(s)
    ensures s == Start({}).(config := {0}, published := map[0 := 2], hist := Brief, clock := 5, barriers := map[0 := 5])
  {
    hide Reachable;
    StartIsReachable({});
    var s0 := Start({});
    Then(false, s0, TableJoins(0, EditFile));
    var s1 := s0.(config := {0});
    assert Do(s0, TableJoins(0, EditFile)) == s1;
    Then(false, s1, TableJoins(0, AlterPublication(2)));
    var s2 := s1.(published := map[0 := 2], clock := 2);
    assert Do(s1, TableJoins(0, AlterPublication(2))) == s2;
    s := Committed(s2);
  }

  lemma Committed(s: State) returns (s': State)
    requires Reachable(false, s) && s.hist == [] && s.clock == 2 && s.config == {0} && s.rules == {}
    requires s.published == map[0 := 2] && s.barriers == map[]
    ensures Reachable(false, s') && s' == s.(hist := Brief, clock := 5, barriers := map[0 := 5])
  {
    hide Reachable;
    Then(false, s, SourceDoes(DoCommit(3, map[Row := Some("gone")])));
    var s1 := Do(s, SourceDoes(DoCommit(3, map[Row := Some("gone")])));
    Then(false, s1, SourceDoes(DoCommit(4, map[Row := None])));
    var s2 := Do(s1, SourceDoes(DoCommit(4, map[Row := None])));
    assert s2.hist == Brief;
    Then(false, s2, TableJoins(0, ReadBarrier(5)));
    s' := Do(s2, TableJoins(0, ReadBarrier(5)));
  }

  lemma Checkpointed(s: State) returns (s': State)
    requires Reachable(false, s) && s.eng.acked == 5
    ensures Reachable(false, s') && s' == s.(checkpoint := Some(5), persisted := 5, durable := 5)
  {
    hide Reachable;
    Then(false, s, StreamDoes(WriteCheckpoint));
    var s1 := Do(s, StreamDoes(WriteCheckpoint));
    Then(false, s1, StreamDoes(StoreDurable));
    s' := Do(s1, StreamDoes(StoreDurable));
  }

  lemma JoinedNow(s: State) returns (s': State)
    requires Reachable(false, s) && Idle(s) && s.eng.acked == 5 && s.cursor == s.clock == 5 && s.config == {0}
    requires s.published == map[0 := 2] && s.barriers == map[0 := 5] && s.admitted == {} && s.rules == {}
    ensures Reachable(false, s') && Idle(s') && s'.base(Row) == 5
    ensures s' == s.(admitted := {0}, rules := {0}, cleared := s'.cleared, admittedAt := s'.admittedAt,
                     joined := s'.joined, base := s'.base)
    ensures 0 in s'.joined && s'.joined[0] == 5
  {
    hide Reachable;
    Then(false, s, TableJoins(0, Admit));
    var s1 := Do(s, TableJoins(0, Admit));
    Then(false, s1, TableJoins(0, Adopt));
    s' := Do(s1, TableJoins(0, Adopt));
  }

  /** Loaded and recorded, with the durable position ahead of the slot. */
  lemma JoinedAndLoaded() returns (s: State)
    ensures Reachable(false, s) && s.hist == Brief && s.clock == 5 && s.slot == 1 && s.durable == 5
    ensures s.config == s.rules == s.admitted == {0} && s.published == map[0 := 2] && s.base(Row) == 5
    ensures 0 in s.joined && s.joined[0] == 5
    ensures s.target == map[] && s.landed == {} && 0 in s.progress && s.progress[0] == Progress([], 1, true)
  {
    hide Reachable, DocAt;
    var s1 := Published();
    var s2 := AckThrough(s1, 5);
    var s3 := Checkpointed(s2);
    var s4 := JoinedNow(s3);
    BriefRow();
    NoRows(Brief, 5, 0, RangeAt([], 0), 5);
    hide RowsOf;
    s := LoadNothing(s4, 0);
  }

  /** The stream starts over from the slot, and the row's insert lands. */
  lemma InsertLands(s: State) returns (s': State)
    requires Reachable(false, s) && Idle(s) && s.hist == Brief && s.cursor == 1 && s.events == [] && s.eng == Fresh
    requires s.admitted == s.rules == {0} && 0 in s.published && s.published[0] < 3 && s.target == map[]
    ensures Reachable(false, s') && View(s'.target, Row) == Some("gone")
    ensures s' == s.(events := s'.events, taken := s'.taken, cursor := 3, eng := s'.eng, target := s'.target, landed := s'.landed)
  {
    hide Reachable;
    assert Elems([Row]) == Sendable(s, Brief[0]);
    Then(false, s, StreamDoes(Emit(0, [Row])));
    var s1 := s.(events := [Begin(3), Change(Inserted), Commit(3)], cursor := 3);
    assert Do(s, StreamDoes(Emit(0, [Row]))) == s1;
    s' := InsertTaken(s1);
  }

  lemma InsertTaken(s: State) returns (s': State)
    requires Reachable(false, s) && s.events == [Begin(3), Change(Inserted), Commit(3)] && s.taken == 0
    requires s.eng == Fresh && s.rules == {0} && s.target == map[]
    ensures Reachable(false, s') && View(s'.target, Row) == Some("gone")
    ensures s' == s.(taken := s'.taken, eng := s'.eng, target := s'.target, landed := s'.landed)
  {
    hide Reachable;
    Then(false, s, EngineDoes(TakeEvent(false)));
    var s1 := s.(taken := 1, eng := Fresh.(txnOpen := true));
    assert Do(s, EngineDoes(TakeEvent(false))) == s1;
    Then(false, s1, EngineDoes(TakeEvent(false)));
    var s2 := s.(taken := 2, eng := Fresh.(txnOpen := true, buffer := [LsnOp(Inserted, 0)]));
    assert Do(s1, EngineDoes(TakeEvent(false))) == s2;
    s' := InsertCommitted(s2);
  }

  lemma InsertCommitted(s: State) returns (s': State)
    requires Reachable(false, s) && |s.events| == 3 && s.taken == 2 && s.events[2] == Commit(3)
    requires s.eng == Fresh.(txnOpen := true, buffer := [LsnOp(Inserted, 0)]) && s.target == map[]
    ensures Reachable(false, s') && View(s'.target, Row) == Some("gone")
    ensures s' == s.(taken := s'.taken, eng := s'.eng, target := s'.target, landed := s'.landed)
  {
    hide Reachable;
    Then(false, s, EngineDoes(TakeEvent(false)));
    var s1 := Do(s, EngineDoes(TakeEvent(false)));
    assert Stamp([LsnOp(Inserted, 0)], 3) == [LsnOp(Inserted, 3)];
    assert s1.eng.commands == [WriteBatch([LsnOp(Inserted, 3)])] && s1.eng.inflight == [];
    s' := InsertArrives(s1);
  }

  lemma InsertArrives(s: State) returns (s': State)
    requires Reachable(false, s) && s.eng.commands == [WriteBatch([LsnOp(Inserted, 3)])] && s.eng.inflight == []
    requires s.target == map[]
    ensures Reachable(false, s') && View(s'.target, Row) == Some("gone")
    ensures s' == s.(eng := s'.eng, target := s'.target, landed := s'.landed)
  {
    hide Reachable;
    Then(false, s, EngineDoes(OpenWrite));
    var s1 := s.(eng := s.eng.(commands := [], inflight := [[LsnOp(Inserted, 3)]]));
    assert Do(s, EngineDoes(OpenWrite)) == s1;
    InsertIsOpen(s1.eng);
    hide OpenWrites;
    Then(false, s1, EngineDoes(Arrive(Inserted)));
    s' := Do(s1, EngineDoes(Arrive(Inserted)));
  }

  lemma InsertIsOpen(e: Engine)
    requires e.inflight == [[LsnOp(Inserted, 3)]]
    ensures Inserted in OpenWrites(e)
  {
    assert e.inflight[..0] == [];
    assert BatchItems(e.inflight) == [Op(LsnOp(Inserted, 3))];
  }

  /** The delete is sent, not yet written, when the feedback confirms the
      durable position of the attempt before. */
  lemma ConfirmedEarly(s: State) returns (s': State)
    requires Reachable(false, s) && s.hist == Brief && s.cursor == 3 && s.clock == 5 && s.slot == 1 && s.durable == 5
    requires s.admitted == {0} && s.published == map[0 := 2]
    ensures Reachable(false, s') && s' == s.(events := s'.events, cursor := 5, slot := 5)
  {
    hide Reachable;
    assert Elems([Row]) == Sendable(s, Brief[1]);
    Then(false, s, StreamDoes(Emit(1, [Row])));
    var s1 := Do(s, StreamDoes(Emit(1, [Row])));
    Then(false, s1, StreamDoes(KeepAlive(5)));
    var s2 := Do(s1, StreamDoes(KeepAlive(5)));
    Then(false, s2, StreamDoes(Feedback(5)));
    s' := Do(s2, StreamDoes(Feedback(5)));
  }

  /** A table joins above a slot that lags the durable position, and the
      connection drops. The reconnect redelivers a row of it from before the
      join; the slot is confirmed past the row's delete before that delete is
      written; a crash then loses the delete for good. */
  lemma UnsettledReconnectLosesADelete() returns (s: State)
    ensures Reachable(false, s) && LoadFinishedFor(s, 0) && s.eng.acked >= s.clock
    ensures View(s.target, Row) == Some("gone") && DocAt(s.hist, s.clock, Row).None?
  {
    hide Reachable, DocAt;
    var s1 := JoinedAndLoaded();
    Then(false, s1, Reconnect);
    var s2 := Do(s1, Reconnect);
    assert Idle(s2) && s2.cursor == 1 && s2.hist == Brief;
    s := AfterReconnect(s2);
    BriefRow();
  }

  lemma AfterReconnect(s: State) returns (s': State)
    requires Reachable(false, s) && Idle(s) && s.hist == Brief && s.clock == 5 && s.slot == s.cursor == 1 && s.durable == 5
    requires s.events == [] && s.eng == Fresh && s.config == s.admitted == s.rules == {0} && s.published == map[0 := 2]
    requires s.target == map[] && 0 in s.progress && s.progress[0].finished
    ensures Reachable(false, s') && LoadFinishedFor(s', 0) && s'.eng.acked >= s'.clock && s'.clock == 5
    ensures View(s'.target, Row) == Some("gone") && s'.hist == Brief
  {
    hide Reachable;
    var s1 := InsertLands(s);
    var s2 := ConfirmedEarly(s1);
    Then(false, s2, Restart);
    var s3 := Do(s2, Restart);
    assert Idle(s3) && s3.cursor == 5 && s3.clock == 5;
    s' := AckThrough(s3, 5);
  }

  // ------------------------------ a slot created again, and no stored document

  /** A row is inserted and deleted at the source; only the insert has landed when
      the slot is created again. The load that follows reads the whole table, and
      never deletes: the document stays. */
  lemma RecreatedSlotKeepsADeletedRow() returns (s: State)
    ensures Reachable(false, s) && LoadFinishedFor(s, 0) && s.eng.acked >= s.clock
    ensures View(s.target, Row) == Some("gone") && DocAt(s.hist, s.clock, Row).None?
  {
    hide Reachable, DocAt;
    var s1 := BriefCommitted();
    var s2 := InsertLands(s1);
    Then(false, s2, RecreateSlot(5));
    var s3 := Do(s2, RecreateSlot(5));
    assert Idle(s3) && s3.progress == map[] && s3.rules == {0} && s3.hist == Brief && s3.clock == 5 && s3.cursor == 5;
    BriefRow();
    NoRows(Brief, 5, 0, RangeAt([], 0), 5);
    hide RowsOf, RestartProcess;
    var s4 := LoadNothing(s3, 0);
    s := AckThrough(s4, 5);
  }

  lemma BriefCommitted() returns (s: State)
    ensures Reachable(false, s) && s == Start({0}).(hist := Brief, clock := 4)
  {
    StartIsReachable({0});
    hide Reachable;
    var s0 := Start({0});
    Then(false, s0, SourceDoes(DoCommit(3, map[Row := Some("gone")])));
    var s1 := s0.(hist := [Brief[0]], clock := 3);
    assert Do(s0, SourceDoes(DoCommit(3, map[Row := Some("gone")]))) == s1;
    Then(false, s1, SourceDoes(DoCommit(4, map[Row := None])));
    s := Do(s1, SourceDoes(DoCommit(4, map[Row := None])));
    assert s.hist == Brief;
  }
}
