/** Runs that are fair but for one move and end, everything written, with a deleted
    document showing: a tombstone forgotten while the row it outranks is in an
    older request, another loader's mark over a row on the channel, and a delete
    taken unremembered because another load has ended. */
module Resurrections {
  import opened Wrappers
  import opened Source
  import opened Target
  import opened Ranges
  import opened Engine
  import opened Protocol
  import opened Tombstones
  import opened Undoing

  const row := Key(0, 7)
  const live := Write(row, 1, Some("live"))
  const gone := Write(row, 2, None)
  const hist1 := [Txn(1, map[row := Some("live")])]
  const hist2 := hist1 + [Txn(2, map[row := None])]
  const start := Load(hist1, 1, 1, 0, [], 0, Between, [], 0, 1, [], 0, Fresh, [], map[])
  const read := InWave([Copying(1, 1, {})])

  lemma Then(s0: Load, s: Load, m: Move, s': Load)
    requires Leads(Fairly, s0, s) && May(s, m) && Fair(s, m) && Make(s, m) == s'
    ensures Leads(Fairly, s0, s')
  {
    hide May, Make, Fair, Leads;
    LeadsThenOne(Fairly, s0, s, m);
  }

  lemma OneRow()
    ensures RowsOf(hist1, 1, 0, RangeAt([], 0), 1) == {live}
  {
    assert hist1[..0] == [];
    forall w ensures w in ChangesOf(hist1[0]) <==> w == live {
      if w == live { assert row in hist1[0].changes; }
    }
    assert ChangesOf(hist1[0]) == {live};
    assert Changes(hist1) == {live};
  }

  const copying := InWave([Copying(1, 1, {live})])

  /** The range is located and read at 1. */
  lemma RowIsRead(s0: Load, s: Load)
    requires Leads(Fairly, s0, s) && s.phase == Between && s.done == 0 && s.bounds == [] && s.table == 0 && s.hist == hist1 && s.clock == 1
    ensures Leads(Fairly, s0, s.(phase := copying))
  {
    var s1, s2 := s.(phase := InWave([Unread])), s.(phase := InWave([Located(1)]));
    hide Leads;
    assert seq(1, _ => Unread) == [Unread];
    Then(s0, s, StartsWave(1), s1);
    assert [Unread][0 := Located(1)] == [Located(1)];
    Then(s0, s1, Locates(0), s2);
    OneRow();
    assert [Located(1)][0 := Copying(1, 1, {live})] == [Copying(1, 1, {live})];
    Then(s0, s2, Snapshots(0), s.(phase := copying));
  }

  lemma RowIsSent(s0: Load, s: Load)
    requires Leads(Fairly, s0, s) && s.phase == copying && s.done == 0 && s.bounds == []
    ensures Leads(Fairly, s0, s.(phase := read, copy := s.copy + [Row(live)]))
  {
    hide Leads;
    assert {live} - {live} == {};
    assert s.phase.wave[0 := Copying(1, 1, {})] == read.wave;
    Then(s0, s, SendsRow(0, live), s.(phase := read, copy := s.copy + [Row(live)]));
  }

  /** The row is deleted at 2 and the stream sends the delete. */
  function Deleted(s: Load): Load {
    s.(hist := hist2, clock := 2, cursor := 2, events := [gone])
  }

  function Deleting(s: Load): Load {
    Deleted(s).(taken := 1, eng := TakeRow(s.eng, gone))
  }

  lemma DeleteIsSent(s0: Load, s: Load)
    requires Leads(Fairly, s0, s) && s.hist == hist1 && s.clock == s.cursor == 1 && s.events == [] && s.taken == 0
    ensures Leads(Fairly, s0, Deleted(s))
  {
    hide Leads;
    var s1 := s.(hist := hist2, clock := 2);
    Then(s0, s, Commits(2, map[row := None]), s1);
    assert Elems([row]) == {row};
    Then(s0, s1, Sends(1, [row]), Deleted(s));
  }

  lemma DeleteIsTaken(s0: Load, s: Load)
    requires Leads(Fairly, s0, s) && s.hist == hist1 && s.clock == s.cursor == 1 && s.events == [] && s.taken == 0 && s.eng.loadRunning
    ensures Leads(Fairly, s0, Deleting(s))
  {
    hide Leads;
    DeleteIsSent(s0, s);
    Then(s0, Deleted(s), Takes, Deleting(s));
  }

  /** The delete lands and its tombstone goes, nothing else of the row being on
      its way. */
  lemma GoneIsForgotten(s0: Load, s: Load)
    requires Leads(Fairly, s0, s) && s.eng.buffer == [LsnOp(gone, 0)] && s.open == [] && s.target == map[]
    ensures Leads(Fairly, s0, s.(eng := s.eng.(buffer := [])))
  {
    hide Leads;
    var s' := s.(eng := s.eng.(buffer := []));
    assert Writes([LsnOp(gone, 0)]) == [gone];
    var s1 := s'.(open := [gone]);
    Then(s0, s, Opens(1), s1);
    var s2 := s'.(target := map[row := gone]);
    Then(s0, s1, Lands(0), s2);
    assert ForgetOk(s2, row) by {
      assert Pool(s', row) == {};
      assert s2.(target := s2.target - {row}) == s';
    }
    hide ForgetOk;
    Then(s0, s2, Forgets(row), s');
  }

  /** Our mark is sent, taken and seen, and there is no range left. */
  lemma LoadEnds(s0: Load, s: Load) returns (s': Load)
    requires Leads(Fairly, s0, s) && s.phase == read && s.done == 0 && s.bounds == [] && s.copied == |s.copy|
    ensures Leads(Fairly, s0, s') && s'.phase.Over? && s'.copied == |s'.copy|
    ensures s' == s.(phase := s'.phase, done := s'.done, copy := s'.copy, copied := s'.copied, eng := s.eng.(superseded := map[]))
  {
    hide Leads;
    var s1 := s.(phase := Marked, done := 1, copy := s.copy + [OwnMark]);
    Then(s0, s, SendsMark, s1);
    var s2 := s1.(copied := |s1.copy|, eng := s.eng.(superseded := map[]));
    Then(s0, s1, TakesCopy, s2);
    var s3 := s2.(phase := Between);
    Then(s0, s2, SeesMark, s3);
    s' := s3.(phase := Over);
    Then(s0, s3, StartsWave(1), s');
  }

  lemma Began(s: Load)
    requires Leads(Fairly, start, s)
    ensures Played(Fairly, s)
  {
    hide Leads;
    assert Begins(start);
  }

  lemma DeletedIsGone()
    ensures DocAt(hist2, 2, row).None?
  {
    assert hist2[..1] == hist1;
  }

  // ----------------------------------------------------------- two requests

  /** The row in one request, its delete landed by the next. */
  const overtaken := Deleting(start.(phase := read, copy := [Row(live)], copied := 1, eng := Fresh, open := [live]))
      .(eng := Fresh.(superseded := map[row := 2]), target := map[row := gone])

  lemma OvertakenIsPlayed()
    ensures Leads(Fairly, start, overtaken)
  {
    LeadsNowhere(Fairly, start);
    hide Leads;
    RowIsRead(start, start);
    RowIsSent(start, start.(phase := copying));
    var s1 := start.(phase := read, copy := [Row(live)]);
    assert start.copy + [Row(live)] == s1.copy;
    var s2 := s1.(copied := 1, eng := TakeRow(Fresh, live));
    Then(start, s1, TakesCopy, s2);
    var s3 := s2.(eng := Fresh, open := [live]);
    assert Writes([LsnOp(live, 0)]) == [live];
    Then(start, s2, Opens(1), s3);
    DeleteIsTaken(start, s3);
    var s4 := Deleting(s3);
    assert s4.eng == Fresh.(buffer := [LsnOp(gone, 0)], superseded := map[row := 2]);
    var s5 := overtaken.(open := [live, gone], target := map[]);
    assert Writes([LsnOp(gone, 0)]) == [gone];
    Then(start, s4, Opens(1), s5);
    Then(start, s5, Lands(1), overtaken);
  }

  /** The delete's request lands before the older request holding the row; the
      tombstone is forgotten; the row lands and stays. */
  lemma ForgottenTooEarlyUndoesADelete() returns (s0: Load, s: Load)
    ensures Played(Fairly, s0) && May(s0, Forgets(row)) && Leads(Fairly, Make(s0, Forgets(row)), s)
    ensures Complete(s) && row.table == s.table && View(s.target, row) == Some("live") && DocAt(s.hist, s.clock, row).None?
  {
    s0 := overtaken;
    OvertakenIsPlayed();
    Began(s0);
    var s1 := overtaken.(target := map[]);
    assert Make(s0, Forgets(row)) == s1;
    LeadsNowhere(Fairly, s1);
    hide Leads;
    var s2 := overtaken.(target := map[row := live], open := []);
    Then(s1, s1, Lands(0), s2);
    s := LoadEnds(s1, s2);
    DeletedIsGone();
  }

  // ------------------------------------------------------ another loader's mark

  /** The row on the channel behind the other's mark, its delete landed and the
      tombstone gone. */
  const behind := Deleting(start.(phase := read, copy := [OtherMark, Row(live)])).(eng := Fresh.(superseded := map[row := 2]))

  lemma BehindIsPlayed()
    ensures Leads(Fairly, start, behind)
  {
    LeadsNowhere(Fairly, start);
    hide Leads;
    RowIsRead(start, start);
    var s1 := start.(phase := copying, copy := [OtherMark]);
    Then(start, start.(phase := copying), OtherLoaderMarks, s1);
    RowIsSent(start, s1);
    var s2 := start.(phase := read, copy := [OtherMark, Row(live)]);
    assert s1.copy + [Row(live)] == s2.copy;
    DeleteIsTaken(start, s2);
    assert Deleting(s2).eng == Fresh.(buffer := [LsnOp(gone, 0)], superseded := map[row := 2]);
    GoneIsForgotten(start, Deleting(s2));
  }

  /** With nothing remembered the row is taken, lands, and the load ends. */
  lemma RowComesIn(s0: Load, s: Load) returns (s': Load)
    requires Leads(Fairly, s0, s) && s.phase == read && s.done == 0 && s.bounds == [] && s.copied + 1 == |s.copy|
    requires s.copy[s.copied] == Row(live) && s.eng.superseded == map[] && s.eng.buffer == [] && s.open == [] && s.target == map[]
    requires s.hist == hist2 && s.clock == s.cursor == 2 && s.taken == |s.events| && s.table == 0
    ensures Leads(Fairly, s0, s') && Complete(s') && s'.table == 0 && View(s'.target, row) == Some("live") && DocAt(s'.hist, s'.clock, row).None?
  {
    hide Leads;
    var s1 := s.(copied := |s.copy|, eng := TakeRow(s.eng, live));
    Then(s0, s, TakesCopy, s1);
    var s2 := s.(copied := |s.copy|, open := [live]);
    assert Writes([LsnOp(live, 0)]) == [live];
    Then(s0, s1, Opens(1), s2);
    var s3 := s.(copied := |s.copy|, target := map[row := live]);
    Then(s0, s2, Lands(0), s3);
    s' := LoadEnds(s0, s3);
    DeletedIsGone();
  }

  /** The mark empties the record of deletes while our row is on the channel: the
      row is taken, lands and stays. */
  lemma OtherLoadersMarkUndoesADelete() returns (s0: Load, s: Load)
    ensures Played(Fairly, s0) && s0.copied < |s0.copy| && s0.copy[s0.copied] == OtherMark
    ensures Leads(Fairly, Make(s0, TakesCopy), s)
    ensures Complete(s) && row.table == s.table && View(s.target, row) == Some("live") && DocAt(s.hist, s.clock, row).None?
  {
    s0 := behind;
    var s1 := behind.(copied := 1, eng := Fresh);
    LeadsNowhere(Fairly, s1);
    hide Leads;
    BehindIsPlayed();
    Began(s0);
    assert Make(s0, TakesCopy) == s1;
    s := RowComesIn(s1, s1);
  }

  // ------------------------------------------------------ another load's end

  /** Another load has ended before our row is read; the row is on the channel and
      its delete on the stream. */
  const unseen := Deleted(start.(phase := read, copy := [OtherFinish, Row(live)], copied := 1, eng := Fresh.(loadRunning := false)))

  lemma UnseenIsPlayed()
    ensures Leads(Fairly, start, unseen)
  {
    LeadsNowhere(Fairly, start);
    hide Leads;
    var s1 := start.(copy := [OtherFinish]);
    Then(start, start, OtherLoaderFinishes, s1);
    var s2 := s1.(copied := 1, eng := Fresh.(loadRunning := false));
    Then(start, s1, TakesCopy, s2);
    RowIsRead(start, s2);
    RowIsSent(start, s2.(phase := copying));
    var s3 := s2.(phase := read, copy := [OtherFinish, Row(live)]);
    assert s2.copy + [Row(live)] == s3.copy;
    DeleteIsSent(start, s3);
  }

  /** The delete is taken and not remembered: it lands, its tombstone goes, and
      the row is taken, lands and stays. */
  lemma AnotherLoadsEndUndoesADelete() returns (s0: Load, s: Load)
    ensures Played(Fairly, s0) && May(s0, Takes) && Leads(Fairly, Make(s0, Takes), s)
    ensures Complete(s) && row.table == s.table && View(s.target, row) == Some("live") && DocAt(s.hist, s.clock, row).None?
  {
    s0 := unseen;
    var s1 := unseen.(taken := 1, eng := Fresh.(loadRunning := false, buffer := [LsnOp(gone, 0)]));
    LeadsNowhere(Fairly, s1);
    hide Leads;
    UnseenIsPlayed();
    Began(s0);
    assert Make(s0, Takes) == s1;
    GoneIsForgotten(s1, s1);
    s := RowComesIn(s1, s1.(eng := Fresh.(loadRunning := false)));
  }
}
