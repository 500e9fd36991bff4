/** What the engine has taken comes out: written through to the end, everything it
    accepted is done, every commit is acknowledged and every mark published. */
module Drains {
  import opened Wrappers
  import opened Source
  import opened Engine

  predicate Busy(e: Engine) {
    e.inflight != [] || e.commands != [] || e.buffer != []
  }

  /** What is next when nothing more is taken in: open writes finish oldest first,
      the sink works off its commands, and what is buffered is handed over. */
  function Next(e: Engine): Engine
    requires Busy(e)
  {
    if e.inflight != [] then FinishWrite(e)
    else if e.commands != [] then (if e.commands[0].WriteBatch? then StartWrite(e) else PassBarrier(e))
    else Flush(e)
  }

  function Weight(e: Engine): nat {
    |e.inflight| + 2 * |e.commands| + if e.buffer != [] then 3 else 0
  }

  lemma NextIsLighter(e: Engine)
    requires Busy(e)
    ensures Weight(Next(e)) < Weight(e)
  {
    hide MaxLsn, OpItems, Rows;
  }

  /** The engine once everything it has is written through. */
  function Drained(e: Engine): Engine
    decreases Weight(e)
  {
    if Busy(e) then
      NextIsLighter(e);
      Drained(Next(e))
    else e
  }

  // ------------------------------------------------------- what stands in the queue

  function Position(it: Item): nat {
    match it
    case Op(op) => op.lsn
    case PositionItem(lsn) => lsn
    case MarkItem(_) => 0
  }

  /** The last position carried, or what was acknowledged before. */
  function LastPosition(items: seq<Item>, otherwise: nat): nat {
    if items == [] then otherwise
    else LastPosition(items[1..], if Position(items[0]) > 0 then Position(items[0]) else otherwise)
  }

  /** Positions do not fall, as the stream sends them. */
  predicate Rising(items: seq<Item>, floor: nat) {
    items != [] ==>
      && (Position(items[0]) > 0 ==> floor <= Position(items[0]))
      && Rising(items[1..], if Position(items[0]) > 0 then Position(items[0]) else floor)
  }

  function LastMark(items: seq<Item>, otherwise: nat): nat {
    if items == [] then otherwise
    else LastMark(items[1..], if items[0].MarkItem? then items[0].mark else otherwise)
  }

  lemma {:induction false} LastConcat(a: seq<Item>, b: seq<Item>, n: nat)
    ensures LastPosition(a + b, n) == LastPosition(b, LastPosition(a, n))
    ensures Rising(a + b, n) <==> Rising(a, n) && Rising(b, LastPosition(a, n))
    ensures LastMark(a + b, n) == LastMark(b, LastMark(a, n))
  {
    if a == [] {
      assert a + b == b;
    } else {
      assert (a + b)[1..] == a[1..] + b;
      LastConcat(a[1..], b, if Position(a[0]) > 0 then Position(a[0]) else n);
      LastConcat(a[1..], b, if a[0].MarkItem? then a[0].mark else n);
    }
  }

  lemma {:induction false} RisingUp(items: seq<Item>, n: nat)
    requires Rising(items, n)
    ensures n <= LastPosition(items, n)
  {
    if items != [] { RisingUp(items[1..], if Position(items[0]) > 0 then Position(items[0]) else n); }
  }

  /** The highest position of a batch is its last. */
  lemma {:induction false} BatchLast(ops: seq<LsnOp>, n: nat)
    requires Rising(OpItems(ops), n)
    ensures LastPosition(OpItems(ops), n) == if MaxLsn(ops) > 0 then MaxLsn(ops) else n
    ensures MaxLsn(ops) > 0 ==> n <= MaxLsn(ops)
    ensures LastMark(OpItems(ops), n) == n
  {
    if ops != [] {
      assert OpItems(ops)[1..] == OpItems(ops[1..]);
      BatchLast(ops[1..], if ops[0].lsn > 0 then ops[0].lsn else n);
      NoMarks(ops[1..], n);
    }
  }

  lemma {:induction false} NoMarks(ops: seq<LsnOp>, n: nat)
    ensures LastMark(OpItems(ops), n) == n
  {
    if ops != [] {
      assert OpItems(ops)[1..] == OpItems(ops[1..]);
      NoMarks(ops[1..], n);
    }
  }

  // ------------------------------------------------------------- one step of it

  lemma StartQueue(e: Engine)
    requires e.commands != [] && e.commands[0].WriteBatch?
    ensures Queue(StartWrite(e)) == Queue(e)
  {
    var e' := StartWrite(e);
    FirstCommand(e.commands);
    assert e'.inflight[..|e'.inflight| - 1] == e.inflight;
  }

  lemma PassQueue(e: Engine)
    requires e.commands != [] && !e.commands[0].WriteBatch? && e.inflight == []
    ensures Queue(e) == CommandItem(e.commands[0]) + Queue(PassBarrier(e))
  {
    PopCommand(e);
    assert Queue(PassBarrier(e)) == Queue(e.(commands := e.commands[1..]));
  }

  lemma FinishFlow(e: Engine)
    requires e.inflight != []
    ensures Flow(FinishWrite(e)) == Flow(e)
  {
    var e', first := FinishWrite(e), OpItems(e.inflight[0]);
    PopBatch(e);
    assert e'.done == e.done + Rows(first);
    hide FinishWrite, OpItems, Rows, Queue;
    RowsConcat(first, Queue(e'));
    ConcatAssociates(e.done, Rows(first), Rows(Queue(e')));
  }

  lemma PassFlow(e: Engine)
    requires e.commands != [] && !e.commands[0].WriteBatch? && e.inflight == []
    ensures Flow(PassBarrier(e)) == Flow(e)
  {
    PassQueue(e);
    var first := CommandItem(e.commands[0]);
    assert Rows(first) == [];
    RowsConcat(first, Queue(PassBarrier(e)));
  }

  // ---------------------------------------------------------------- all of it

  lemma NextFlow(e: Engine)
    requires Busy(e)
    ensures Flow(Next(e)) == Flow(e)
  {
    hide Flow, MaxLsn, FinishWrite;
    if e.inflight != [] { FinishFlow(e); }
    else if e.commands != [] && e.commands[0].WriteBatch? { StartFlow(e); }
    else if e.commands != [] { PassFlow(e); }
    else { FlushFlow(e); }
  }

  /** In the end nothing is held back, and what was accepted is done, in order. */
  lemma {:induction false} DrainedIsDone(e: Engine)
    ensures !Busy(Drained(e)) && Drained(e).done == Flow(e)
    decreases Weight(e)
  {
    hide Flow, Next, Weight;
    if Busy(e) {
      NextIsLighter(e);
      NextFlow(e);
      DrainedIsDone(Next(e));
    } else {
      EmptyFlow(e);
    }
  }

  /** No transaction is opened, no mark held back, and the window is as it was. */
  predicate SameWindow(e: Engine, s: Engine) {
    s.txnOpen == e.txnOpen && s.pendingMark == e.pendingMark && s.superseded == e.superseded && s.loadRunning == e.loadRunning
  }

  lemma NextKeepsWindow(e: Engine)
    requires Busy(e)
    ensures SameWindow(e, Next(e))
  {
    hide MaxLsn, OpItems, Rows;
  }

  lemma {:induction false} DrainedKeeps(e: Engine)
    ensures SameWindow(e, Drained(e))
    decreases Weight(e)
  {
    hide Next, Weight;
    if Busy(e) {
      NextIsLighter(e);
      NextKeepsWindow(e);
      DrainedKeeps(Next(e));
    }
  }

  lemma StartFlow(e: Engine)
    requires e.commands != [] && e.commands[0].WriteBatch?
    ensures Flow(StartWrite(e)) == Flow(e)
  {
    StartQueue(e);
  }

  lemma FlushFlow(e: Engine)
    ensures Flow(Flush(e)) == Flow(e)
  {
    FlushKeepsQueue(e);
  }

  lemma EmptyFlow(e: Engine)
    requires e.inflight == [] && e.commands == [] && e.buffer == []
    ensures Flow(e) == e.done
  {
    assert Queue(e) == [];
  }

  /** One step more acknowledges what it takes off the queue. */
  lemma NextAck(e: Engine)
    requires Busy(e) && Rising(Queue(e), e.acked)
    ensures var s := Next(e); Rising(Queue(s), s.acked) && LastPosition(Queue(s), s.acked) == LastPosition(Queue(e), e.acked)
  {
    hide Rising, LastPosition, Queue, MaxLsn, OpItems, CommandItem;
    if e.inflight != [] {
      var first := e.inflight[0];
      PopBatch(e);
      LastConcat(OpItems(first), Queue(FinishWrite(e)), e.acked);
      BatchLast(first, e.acked);
    } else if e.commands != [] && e.commands[0].WriteBatch? {
      StartQueue(e);
    } else if e.commands != [] {
      PassQueue(e);
      LastConcat(CommandItem(e.commands[0]), Queue(PassBarrier(e)), e.acked);
      OneLast(e.commands[0], e.acked);
    } else {
      FlushKeepsQueue(e);
    }
  }

  /** The acknowledged position ends at the last one carried. */
  lemma {:induction false} DrainedAck(e: Engine)
    requires Rising(Queue(e), e.acked)
    ensures Drained(e).acked == LastPosition(Queue(e), e.acked)
    decreases Weight(e)
  {
    hide Rising, LastPosition, Queue, Next, Weight;
    if Busy(e) {
      NextIsLighter(e);
      NextAck(e);
      DrainedAck(Next(e));
    } else {
      EmptyLast(e);
    }
  }

  lemma OneLast(c: Command, n: nat)
    requires !c.WriteBatch?
    ensures LastPosition(CommandItem(c), n) == if c.AckPosition? && c.lsn > 0 then c.lsn else n
    ensures LastMark(CommandItem(c), n) == if c.PublishMark? then c.mark else n
  {
  }

  lemma EmptyLast(e: Engine)
    requires e.inflight == [] && e.commands == [] && e.buffer == []
    ensures LastPosition(Queue(e), e.acked) == e.acked && LastMark(Queue(e), e.written) == e.written
  {
    assert Queue(e) == [];
  }

  lemma NextMark(e: Engine)
    requires Busy(e)
    ensures var s := Next(e); LastMark(Queue(s), s.written) == LastMark(Queue(e), e.written)
  {
    hide LastMark, Queue, MaxLsn, OpItems, CommandItem;
    if e.inflight != [] {
      var first := e.inflight[0];
      PopBatch(e);
      LastConcat(OpItems(first), Queue(FinishWrite(e)), e.written);
      NoMarks(first, e.written);
    } else if e.commands != [] && e.commands[0].WriteBatch? {
      StartQueue(e);
    } else if e.commands != [] {
      PassQueue(e);
      LastConcat(CommandItem(e.commands[0]), Queue(PassBarrier(e)), e.written);
      OneLast(e.commands[0], e.written);
    } else {
      FlushKeepsQueue(e);
    }
  }

  /** The published mark ends at the last one in the queue. */
  lemma {:induction false} DrainedMark(e: Engine)
    ensures Drained(e).written == LastMark(Queue(e), e.written)
    decreases Weight(e)
  {
    hide LastMark, Queue, Next, Weight;
    if Busy(e) {
      NextIsLighter(e);
      NextMark(e);
      DrainedMark(Next(e));
    } else {
      EmptyLast(e);
    }
  }

  // ---------------------------------------------------- commits and marks come out

  lemma QueueThenMark(e: Engine)
    ensures var e' := ReleasePending(e);
            Queue(e') == Queue(e) + if e.buffer == [] && !e.txnOpen && e.pendingMark.Some? then [MarkItem(e.pendingMark.value)] else []
    ensures ReleasePending(e).acked == e.acked && ReleasePending(e).written == e.written
  {
    if e.buffer == [] && !e.txnOpen && e.pendingMark.Some? {
      PushCommand(e, PublishMark(e.pendingMark.value));
      assert Queue(ReleasePending(e)) == Queue(e.(commands := e.commands + [PublishMark(e.pendingMark.value)]));
    } else {
      assert Queue(e) + [] == Queue(e);
    }
  }

  lemma {:induction false} StampedLast(ahead: seq<Item>, ops: seq<LsnOp>, pos: nat, n: nat)
    requires ops != [] && pos > 0 && Rising(ahead + OpItems(ops), n) && LastPosition(ahead + OpItems(ops), n) <= pos
    ensures Rising(ahead + OpItems(Stamp(ops, pos)), n) && LastPosition(ahead + OpItems(Stamp(ops, pos)), n) == pos
  {
    var front, last := ops[..|ops| - 1], ops[|ops| - 1];
    var before := ahead + OpItems(front);
    assert OpItems(ops) == OpItems(front) + [Op(last)];
    assert OpItems(Stamp(ops, pos)) == OpItems(front) + [Op(last.(lsn := pos))];
    assert ahead + OpItems(ops) == before + [Op(last)];
    assert ahead + OpItems(Stamp(ops, pos)) == before + [Op(last.(lsn := pos))];
    LastConcat(before, [Op(last)], n);
    LastConcat(before, [Op(last.(lsn := pos))], n);
    OneItem(Op(last), LastPosition(before, n));
    OneItem(Op(last.(lsn := pos)), LastPosition(before, n));
  }

  lemma OneItem(it: Item, n: nat)
    ensures LastPosition([it], n) == if Position(it) > 0 then Position(it) else n
    ensures Rising([it], n) <==> (Position(it) > 0 ==> n <= Position(it))
    ensures LastMark([it], n) == if it.MarkItem? then it.mark else n
  {
    assert [it][1..] == [];
  }

  /** What a commit does to the queue: its position stands last, and no other
      position is lost but one it replaces. */
  lemma CommitStandsLast(e: Engine, pos: nat, hold: bool)
    requires pos > 0 && Rising(Queue(e), e.acked) && LastPosition(Queue(e), e.acked) <= pos
    ensures var e' := TakeCommit(e, pos, hold);
            e'.acked == e.acked && Rising(Queue(e'), e.acked) && LastPosition(Queue(e'), e.acked) == pos
  {
    var n := if pos in e.commitAt then e.commitAt else e.commitAt[pos := |Flow(e)|];
    hide Flow;
    var e1 := e.(txnOpen := false, commitAt := n);
    assert Queue(e1) == Queue(e);
    hide Queue;
    if e.buffer == [] {
      BareStandsLast(e1, pos);
      MarkKeepsLast(e1.(commands := e1.commands + [AckPosition(pos)]), pos);
    } else {
      var e2 := e1.(buffer := Stamp(e1.buffer, pos));
      StampStandsLast(e1, pos);
      FlushKeepsQueue(e2);
      MarkKeepsLast(if hold then e2 else Flush(e2), pos);
    }
  }

  lemma BareStandsLast(e: Engine, pos: nat)
    requires e.buffer == [] && pos > 0 && Rising(Queue(e), e.acked) && LastPosition(Queue(e), e.acked) <= pos
    ensures var e' := e.(commands := e.commands + [AckPosition(pos)]);
            Rising(Queue(e'), e.acked) && LastPosition(Queue(e'), e.acked) == pos
  {
    PushCommand(e, AckPosition(pos));
    LastConcat(Queue(e), [PositionItem(pos)], e.acked);
    OneItem(PositionItem(pos), LastPosition(Queue(e), e.acked));
    hide Queue, Rising, LastPosition;
  }

  lemma StampStandsLast(e: Engine, pos: nat)
    requires e.buffer != [] && pos > 0 && Rising(Queue(e), e.acked) && LastPosition(Queue(e), e.acked) <= pos
    ensures var e' := e.(buffer := Stamp(e.buffer, pos));
            Rising(Queue(e'), e.acked) && LastPosition(Queue(e'), e.acked) == pos
  {
    hide Rising, LastPosition, Stamp;
    StampedLast(BatchItems(e.inflight) + CommandItems(e.commands), e.buffer, pos, e.acked);
  }

  lemma MarkKeepsLast(e: Engine, pos: nat)
    requires Rising(Queue(e), e.acked) && LastPosition(Queue(e), e.acked) == pos
    ensures var e' := ReleasePending(e);
            e'.acked == e.acked && Rising(Queue(e'), e.acked) && LastPosition(Queue(e'), e.acked) == pos
  {
    QueueThenMark(e);
    if e.buffer == [] && !e.txnOpen && e.pendingMark.Some? {
      LastConcat(Queue(e), [MarkItem(e.pendingMark.value)], e.acked);
      OneItem(MarkItem(e.pendingMark.value), pos);
    } else {
      assert Queue(e) + [] == Queue(e);
    }
  }

  /** Every commit is acknowledged: with nothing taken after it, and once all that
      is open has landed, the acknowledged position is its own; everything accepted
      is done. */
  lemma CommitIsAcknowledged(e: Engine, pos: nat, hold: bool)
    requires pos > 0 && Rising(Queue(e), e.acked) && LastPosition(Queue(e), e.acked) <= pos
    ensures Drained(TakeCommit(e, pos, hold)).acked == pos
    ensures Drained(TakeCommit(e, pos, hold)).done == Flow(e)
  {
    var e' := TakeCommit(e, pos, hold);
    CommitStandsLast(e, pos, hold);
    assert Flow(e') == Flow(e) by { CommitFlow(e, pos, hold); }
    hide TakeCommit, Rising, LastPosition, Queue, Flow;
    DrainedAck(e');
    DrainedIsDone(e');
  }

  lemma CommitFlow(e: Engine, pos: nat, hold: bool)
    requires pos > 0
    ensures Flow(TakeCommit(e, pos, hold)) == Flow(e)
  {
    var n := if pos in e.commitAt then e.commitAt else e.commitAt[pos := |Flow(e)|];
    var e1 := e.(txnOpen := false, commitAt := n);
    assert Queue(e1) == Queue(e);
    assert Flow(e1) == Flow(e);
    hide Queue, Flow;
    if e.buffer == [] {
      BareFlow(e1, pos);
      ReleasedFlow(e1.(commands := e1.commands + [AckPosition(pos)]));
    } else {
      var e2 := e1.(buffer := Stamp(e1.buffer, pos));
      StampedFlow(e1, pos);
      FlushFlow(e2);
      ReleasedFlow(if hold then e2 else Flush(e2));
    }
  }

  lemma BareFlow(e: Engine, pos: nat)
    requires e.buffer == []
    ensures Flow(e.(commands := e.commands + [AckPosition(pos)])) == Flow(e)
  {
    PushCommand(e, AckPosition(pos));
    assert Rows([PositionItem(pos)]) == [];
    RowsConcat(Queue(e), [PositionItem(pos)]);
  }

  lemma StampedFlow(e: Engine, pos: nat)
    requires e.buffer != []
    ensures Flow(e.(buffer := Stamp(e.buffer, pos))) == Flow(e)
  {
    var e' := e.(buffer := Stamp(e.buffer, pos));
    var ahead := BatchItems(e.inflight) + CommandItems(e.commands);
    RowsConcat(ahead, OpItems(e.buffer));
    RowsConcat(ahead, OpItems(e'.buffer));
    RowsOfOps(e.buffer);
    RowsOfOps(e'.buffer);
    assert Rows(OpItems(e.buffer)) == Rows(OpItems(e'.buffer));
  }

  lemma ReleasedFlow(e: Engine)
    ensures Flow(ReleasePending(e)) == Flow(e)
  {
    QueueThenMark(e);
    var q, q' := Queue(e), Queue(ReleasePending(e));
    assert ReleasePending(e).done == e.done;
    hide Queue, ReleasePending;
    if q' != q {
      var mark := [MarkItem(e.pendingMark.value)];
      assert Rows(mark) == [];
      RowsConcat(q, mark);
    }
  }

  /** Every mark is published: at once where no transaction is open, and with the
      commit of the one that is, unless that commit is held back to coalesce. */
  lemma MarkIsPublished(e: Engine, m: nat, pos: nat)
    ensures !e.txnOpen ==> Drained(TakeMark(e, m)).written == m
    ensures e.txnOpen && pos > 0 ==> Drained(TakeCommit(TakeMark(e, m), pos, false)).written == m
  {
    var e1 := TakeMark(e, m);
    if !e.txnOpen {
      MarkStandsLast(e, m);
      hide TakeMark;
      DrainedMark(e1);
    } else if pos > 0 {
      assert e1.pendingMark == Some(m);
      hide TakeMark;
      HeldMarkStandsLast(e1, m, pos);
      hide TakeCommit;
      DrainedMark(TakeCommit(e1, pos, false));
    }
  }

  lemma MarkStandsLast(e: Engine, m: nat)
    requires !e.txnOpen
    ensures var e' := TakeMark(e, m); LastMark(Queue(e'), e'.written) == m
  {
    var n := if m in e.markAt then e.markAt else e.markAt[m := |Flow(e)|];
    var e1 := e.(superseded := map[], markAt := n);
    var e2 := Flush(e1);
    PushCommand(e2, PublishMark(m));
    LastConcat(Queue(e2), [MarkItem(m)], e.written);
    OneItem(MarkItem(m), LastMark(Queue(e2), e.written));
  }

  lemma HeldMarkStandsLast(e: Engine, m: nat, pos: nat)
    requires e.pendingMark == Some(m) && pos > 0
    ensures var e' := TakeCommit(e, pos, false); LastMark(Queue(e'), e'.written) == m
  {
    var n := if pos in e.commitAt then e.commitAt else e.commitAt[pos := |Flow(e)|];
    hide Flow;
    var e1 := e.(txnOpen := false, commitAt := n);
    var e2 := if e.buffer == [] then e1.(commands := e1.commands + [AckPosition(pos)])
              else Flush(e1.(buffer := Stamp(e1.buffer, pos)));
    assert e2.buffer == [] && !e2.txnOpen && e2.pendingMark == Some(m) && e2.written == e.written;
    QueueThenMark(e2);
    LastConcat(Queue(e2), [MarkItem(m)], e.written);
    OneItem(MarkItem(m), LastMark(Queue(e2), e.written));
  }
}
