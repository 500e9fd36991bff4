/** The engine between the two channels and the target: one loop that buffers
    rows until a boundary, and one sink task that writes what the loop hands
    over. The loop's thresholds, clocks and choices of which channel to read
    become parameters of its steps, so every schedule is covered. */
module Engine {
  import opened Wrappers
  import opened Source

  /** A document operation and the source position its acknowledgement may
      carry; zero until a commit is attached. */
  datatype LsnOp = LsnOp(w: Write, lsn: nat)

  datatype Command =
    | WriteBatch(ops: seq<LsnOp>)
    | PublishMark(mark: nat)
    | AckPosition(lsn: nat)

  /** `done`, `markAt` and `commitAt` are history: what finished writes carried,
      and how many operations had been accepted when a mark or a commit was
      first taken. Nothing decides by them. */
  datatype Engine = Engine(
    buffer: seq<LsnOp>,
    txnOpen: bool,
    pendingMark: Option<nat>,
    superseded: map<Key, nat>,
    loadRunning: bool,
    commands: seq<Command>,
    inflight: seq<seq<LsnOp>>,
    written: nat,
    acked: nat,
    done: seq<Write>,
    markAt: map<nat, nat>,
    commitAt: map<nat, nat>)

  /** An attempt begins with its load running or about to. */
  const Fresh := Engine([], false, None, map[], true, [], [], 0, 0, [], map[], map[])

  // ---------------------------------------------------------------- the loop

  /** A write the stream has already superseded. Deletes are never dropped. */
  predicate Dropped(e: Engine, w: Write) {
    w.doc.Some? && w.key in e.superseded && e.superseded[w.key] > w.version
  }

  function Remember(e: Engine, w: Write): map<Key, nat> {
    if w.doc.None? && e.loadRunning then
      e.superseded[w.key := if w.key in e.superseded && e.superseded[w.key] > w.version
                            then e.superseded[w.key] else w.version]
    else e.superseded
  }

  function TakeRow(e: Engine, w: Write): Engine {
    if Dropped(e, w) then e
    else e.(buffer := e.buffer + [LsnOp(w, 0)], superseded := Remember(e, w))
  }

  function TakeBegin(e: Engine): Engine {
    e.(txnOpen := true)
  }

  function TakeStarted(e: Engine): Engine {
    e.(loadRunning := true)
  }

  function TakeFinished(e: Engine): Engine {
    e.(loadRunning := false, superseded := map[])
  }

  /** Hand the buffer to the sink as one batch. */
  function Flush(e: Engine): Engine {
    if e.buffer == [] then e
    else e.(buffer := [], commands := e.commands + [WriteBatch(e.buffer)])
  }

  function Stamp(ops: seq<LsnOp>, pos: nat): seq<LsnOp> {
    if ops == [] then [] else ops[|ops| - 1 := ops[|ops| - 1].(lsn := pos)]
  }

  function ReleasePending(e: Engine): Engine {
    if e.buffer == [] && !e.txnOpen && e.pendingMark.Some? then
      e.(pendingMark := None, commands := e.commands + [PublishMark(e.pendingMark.value)])
    else e
  }

  /** A commit of the stream at `pos`, or, at zero, a boundary of the load.
      `hold` keeps a non-empty buffer back so that transactions coalesce. */
  function TakeCommit(e: Engine, pos: nat, hold: bool): Engine {
    if pos == 0 then
      ReleasePending(if hold then e else Flush(e))
    else
      var n := if pos in e.commitAt then e.commitAt else e.commitAt[pos := |Flow(e)|];
      var e1 := e.(txnOpen := false, commitAt := n);
      if e.buffer == [] then
        ReleasePending(e1.(commands := e1.commands + [AckPosition(pos)]))
      else
        var e2 := e1.(buffer := Stamp(e1.buffer, pos));
        ReleasePending(if hold then e2 else Flush(e2))
  }

  /** A mark closes the window of remembered deletes at once, and is passed on
      behind everything buffered, or held while a transaction is open. */
  function TakeMark(e: Engine, m: nat): Engine {
    var n := if m in e.markAt then e.markAt else e.markAt[m := |Flow(e)|];
    var e1 := e.(superseded := map[], markAt := n);
    if e.txnOpen then e1.(pendingMark := Some(m))
    else
      var e2 := Flush(e1);
      e2.(commands := e2.commands + [PublishMark(m)])
  }

  // ------------------------------------------------------------ the sink task

  function StartWrite(e: Engine): Engine
    requires e.commands != [] && e.commands[0].WriteBatch?
  {
    e.(commands := e.commands[1..], inflight := e.inflight + [e.commands[0].ops])
  }

  function MaxLsn(ops: seq<LsnOp>): nat {
    if ops == [] then 0
    else
      var m := MaxLsn(ops[1..]);
      if ops[0].lsn > m then ops[0].lsn else m
  }

  /** The oldest open write came back: acknowledge its highest position, unless
      it carries none. */
  function FinishWrite(e: Engine): Engine
    requires e.inflight != []
  {
    var ops := e.inflight[0];
    var lsn := MaxLsn(ops);
    e.(inflight := e.inflight[1..], done := e.done + Rows(OpItems(ops)),
       acked := if lsn > 0 then lsn else e.acked)
  }

  /** A mark or a bare position is a barrier: nothing may still be open. */
  function PassBarrier(e: Engine): Engine
    requires e.commands != [] && !e.commands[0].WriteBatch? && e.inflight == []
  {
    var e1 := e.(commands := e.commands[1..]);
    match e.commands[0]
    case PublishMark(m) => e1.(written := m)
    case AckPosition(lsn) => if lsn > 0 then e1.(acked := lsn) else e1
  }

  // -------------------------------------------------- what is still on its way

  datatype Item = Op(op: LsnOp) | MarkItem(mark: nat) | PositionItem(lsn: nat)

  function OpItems(ops: seq<LsnOp>): seq<Item> {
    seq(|ops|, i requires 0 <= i < |ops| => Op(ops[i]))
  }

  function BatchItems(batches: seq<seq<LsnOp>>): seq<Item> {
    if batches == [] then []
    else BatchItems(batches[..|batches| - 1]) + OpItems(batches[|batches| - 1])
  }

  function CommandItem(c: Command): seq<Item> {
    match c
    case WriteBatch(ops) => OpItems(ops)
    case PublishMark(m) => [MarkItem(m)]
    case AckPosition(lsn) => [PositionItem(lsn)]
  }

  function CommandItems(cs: seq<Command>): seq<Item> {
    if cs == [] then []
    else CommandItems(cs[..|cs| - 1]) + CommandItem(cs[|cs| - 1])
  }

  /** Everything taken and not finished, in the order it was taken. */
  function Queue(e: Engine): seq<Item> {
    BatchItems(e.inflight) + CommandItems(e.commands) + OpItems(e.buffer)
  }

  function Rows(items: seq<Item>): seq<Write> {
    if items == [] then []
    else if items[0].Op? then [items[0].op.w] + Rows(items[1..])
    else Rows(items[1..])
  }

  /** Every write the engine ever accepted, in order. */
  function Flow(e: Engine): seq<Write> {
    e.done + Rows(Queue(e))
  }

  function Elems<T>(s: seq<T>): set<T> {
    set x | x in s
  }

  /** Behind `n` finished or earlier operations, no mark or position in `items`
      comes before the operations it stands for. */
  ghost predicate Ordered(n: nat, items: seq<Item>, markAt: map<nat, nat>, commitAt: map<nat, nat>)
    decreases items
  {
    items != [] ==>
      match items[0]
      case Op(op) =>
        && (op.lsn > 0 ==> op.lsn in commitAt && commitAt[op.lsn] <= n + 1)
        && Ordered(n + 1, items[1..], markAt, commitAt)
      case MarkItem(m) =>
        && m in markAt && markAt[m] <= n
        && Ordered(n, items[1..], markAt, commitAt)
      case PositionItem(lsn) =>
        && (lsn > 0 ==> lsn in commitAt && commitAt[lsn] <= n)
        && Ordered(n, items[1..], markAt, commitAt)
  }

  /** The engine's contract with what has landed at the target. */
  ghost predicate Sound(e: Engine, landed: set<Write>) {
    && (forall w | w in e.done :: w in landed)
    && Ordered(|e.done|, Queue(e), e.markAt, e.commitAt)
    && (e.pendingMark.Some? ==> e.pendingMark.value in e.markAt)
    && (forall m | m in e.markAt :: e.markAt[m] <= |Flow(e)|)
    && (forall c | c in e.commitAt :: e.commitAt[c] <= |Flow(e)|)
    && (e.written > 0 ==> e.written in e.markAt && e.markAt[e.written] <= |e.done|)
    && (e.acked > 0 ==> e.acked in e.commitAt && e.commitAt[e.acked] <= |e.done|)
  }

  /** Every remembered removal is a write the engine accepted. */
  ghost predicate Remembered(e: Engine) {
    forall k | k in e.superseded :: Covers(Elems(Flow(e)), k, e.superseded[k])
  }

  // --------------------------------------------------------------- small facts

  lemma {:induction false} RowsConcat(a: seq<Item>, b: seq<Item>)
    ensures Rows(a + b) == Rows(a) + Rows(b)
  {
    if a == [] {
      assert a + b == b;
    } else {
      assert (a + b)[1..] == a[1..] + b;
      RowsConcat(a[1..], b);
    }
  }

  lemma {:induction false} OrderedConcat(n: nat, a: seq<Item>, b: seq<Item>, ms: map<nat, nat>, cs: map<nat, nat>)
    ensures Ordered(n, a + b, ms, cs) <==> Ordered(n, a, ms, cs) && Ordered(n + |Rows(a)|, b, ms, cs)
    decreases a
  {
    if a == [] {
      assert a + b == b;
    } else {
      assert (a + b)[1..] == a[1..] + b;
      OrderedConcat(if a[0].Op? then n + 1 else n, a[1..], b, ms, cs);
    }
  }

  lemma {:induction false} OrderedExtends(n: nat, items: seq<Item>, ms: map<nat, nat>, cs: map<nat, nat>,
                                          ms': map<nat, nat>, cs': map<nat, nat>)
    requires Ordered(n, items, ms, cs)
    requires forall m | m in ms :: m in ms' && ms'[m] == ms[m]
    requires forall c | c in cs :: c in cs' && cs'[c] == cs[c]
    ensures Ordered(n, items, ms', cs')
    decreases items
  {
    if items != [] {
      OrderedExtends(if items[0].Op? then n + 1 else n, items[1..], ms, cs, ms', cs');
    }
  }

  lemma {:induction false} RowsOfOps(ops: seq<LsnOp>)
    ensures |Rows(OpItems(ops))| == |ops|
    ensures forall i | 0 <= i < |ops| :: Rows(OpItems(ops))[i] == ops[i].w
  {
    if ops != [] {
      assert OpItems(ops)[1..] == OpItems(ops[1..]);
      RowsOfOps(ops[1..]);
    }
  }

  lemma ConcatAssociates<T>(a: seq<T>, b: seq<T>, c: seq<T>)
    ensures (a + b) + c == a + (b + c)
  {
  }

  lemma {:induction false} FirstBatch(batches: seq<seq<LsnOp>>)
    requires batches != []
    ensures BatchItems(batches) == OpItems(batches[0]) + BatchItems(batches[1..])
  {
    if |batches| > 1 {
      var front, mid, last := batches[..|batches| - 1], batches[1..|batches| - 1], batches[|batches| - 1];
      FirstBatch(front);
      assert front[1..] == mid && batches[1..][..|batches| - 2] == mid;
      hide OpItems;
      ConcatAssociates(OpItems(batches[0]), BatchItems(mid), OpItems(last));
    }
  }

  lemma {:induction false} FirstCommand(cs: seq<Command>)
    requires cs != []
    ensures CommandItems(cs) == CommandItem(cs[0]) + CommandItems(cs[1..])
  {
    if |cs| > 1 {
      var front, mid, last := cs[..|cs| - 1], cs[1..|cs| - 1], cs[|cs| - 1];
      FirstCommand(front);
      assert front[1..] == mid && cs[1..][..|cs| - 2] == mid;
      hide CommandItem;
      ConcatAssociates(CommandItem(cs[0]), CommandItems(mid), CommandItem(last));
    }
  }

  lemma LastCommand(cs: seq<Command>, c: Command)
    ensures CommandItems(cs + [c]) == CommandItems(cs) + CommandItem(c)
  {
    assert (cs + [c])[..|cs + [c]| - 1] == cs;
  }

  /** A command put behind an empty buffer goes to the end of the queue. */
  lemma PushCommand(e: Engine, c: Command)
    requires e.buffer == []
    ensures Queue(e.(commands := e.commands + [c])) == Queue(e) + CommandItem(c)
  {
    LastCommand(e.commands, c);
    ConcatAssociates(BatchItems(e.inflight), CommandItems(e.commands), CommandItem(c));
  }

  /** With nothing open, the first command is the head of the queue. */
  lemma PopCommand(e: Engine)
    requires e.commands != [] && e.inflight == []
    ensures Queue(e) == CommandItem(e.commands[0]) + Queue(e.(commands := e.commands[1..]))
  {
    FirstCommand(e.commands);
    var first, rest, buf := CommandItem(e.commands[0]), CommandItems(e.commands[1..]), OpItems(e.buffer);
    var none := BatchItems(e.inflight);
    assert none == [];
    hide CommandItem, CommandItems, OpItems, BatchItems;
    assert none + rest == rest && none + (first + rest) == first + rest;
    ConcatAssociates(first, rest, buf);
  }

  /** The oldest open write is the head of the queue. */
  lemma PopBatch(e: Engine)
    requires e.inflight != []
    ensures Queue(e) == OpItems(e.inflight[0]) + Queue(FinishWrite(e))
  {
    FirstBatch(e.inflight);
    var first, open, cmds, buf :=
      OpItems(e.inflight[0]), BatchItems(e.inflight[1..]), CommandItems(e.commands), OpItems(e.buffer);
    hide CommandItems, OpItems, BatchItems, Rows, MaxLsn;
    assert Queue(FinishWrite(e)) == open + cmds + buf;
    ConcatAssociates(first, open, cmds);
    ConcatAssociates(first, open + cmds, buf);
  }

  /** A batch whose highest position is `lsn` holds everything `lsn` stands for. */
  lemma {:induction false} BatchHoldsItsPosition(n: nat, ops: seq<LsnOp>, ms: map<nat, nat>, cs: map<nat, nat>)
    requires Ordered(n, OpItems(ops), ms, cs)
    ensures MaxLsn(ops) > 0 ==> MaxLsn(ops) in cs && cs[MaxLsn(ops)] <= n + |ops|
    decreases |ops|
  {
    if ops != [] {
      assert OpItems(ops)[1..] == OpItems(ops[1..]);
      BatchHoldsItsPosition(n + 1, ops[1..], ms, cs);
    }
  }

  // ---------------------------------------- what a step does to the window and the notes

  ghost predicate SameNotes(e: Engine, e': Engine) {
    e'.superseded == e.superseded && e'.markAt == e.markAt && e'.commitAt == e.commitAt && e'.written == e.written
  }

  lemma HandOverNotes(e: Engine, hold: bool)
    ensures SameNotes(e, ReleasePending(if hold then e else Flush(e)))
    ensures SameNotes(e, ReleasePending(e))
  {
  }

  lemma TakeCommitNotes(e: Engine, pos: nat, hold: bool)
    ensures var e' := TakeCommit(e, pos, hold);
            && e'.superseded == e.superseded && e'.markAt == e.markAt && e'.written == e.written
            && e'.commitAt == if pos == 0 || pos in e.commitAt then e.commitAt else e.commitAt[pos := |Flow(e)|]
  {
    hide Flow, Flush, ReleasePending, Stamp;
    HandOverNotes(e, hold);
    if pos > 0 {
      var n := if pos in e.commitAt then e.commitAt else e.commitAt[pos := |Flow(e)|];
      var e1 := e.(txnOpen := false, commitAt := n);
      HandOverNotes(e1.(commands := e1.commands + [AckPosition(pos)]), hold);
      HandOverNotes(e1.(buffer := Stamp(e1.buffer, pos)), hold);
    }
  }

  lemma TakeMarkNotes(e: Engine, m: nat)
    ensures var e' := TakeMark(e, m);
            && e'.superseded == map[] && e'.commitAt == e.commitAt && e'.written == e.written
            && e'.markAt == if m in e.markAt then e.markAt else e.markAt[m := |Flow(e)|]
  {
  }

  lemma PassBarrierNotes(e: Engine)
    requires e.commands != [] && !e.commands[0].WriteBatch? && e.inflight == []
    ensures var e' := PassBarrier(e);
            e'.superseded == e.superseded && e'.markAt == e.markAt && e'.commitAt == e.commitAt
  {
  }

  // ------------------------------------------------- every step keeps the contract

  /** The queue is untouched by handing the buffer over. */
  lemma FlushKeepsQueue(e: Engine)
    ensures Queue(Flush(e)) == Queue(e)
  {
    if e.buffer != [] {
      LastCommand(e.commands, WriteBatch(e.buffer));
    }
  }

  lemma TakeRowSound(e: Engine, landed: set<Write>, w: Write)
    requires Sound(e, landed)
    ensures Sound(TakeRow(e, w), landed)
    ensures Flow(TakeRow(e, w)) == if Dropped(e, w) then Flow(e) else Flow(e) + [w]
  {
    if !Dropped(e, w) {
      var e' := TakeRow(e, w);
      var it := Op(LsnOp(w, 0));
      assert OpItems(e'.buffer) == OpItems(e.buffer) + [it];
      assert Queue(e') == Queue(e) + [it];
      RowsConcat(Queue(e), [it]);
      OrderedConcat(|e.done|, Queue(e), [it], e.markAt, e.commitAt);
      assert Rows([it]) == [w];
    }
  }

  /** A dropped row is one a remembered removal outranks. */
  lemma TakeRowRemembered(e: Engine, landed: set<Write>, w: Write)
    requires Sound(e, landed) && Remembered(e)
    ensures Remembered(TakeRow(e, w))
    ensures Covers(Elems(Flow(TakeRow(e, w))), w.key, w.version)
  {
    TakeRowSound(e, landed, w);
    var f, f' := Flow(e), Flow(TakeRow(e, w));
    if Dropped(e, w) {
      assert Covers(Elems(f), w.key, e.superseded[w.key]);
    } else {
      assert w in Elems(f') by { assert f'[|f|] == w; }
      assert Elems(f) <= Elems(f');
    }
  }

  lemma ReleasePendingSound(e: Engine, landed: set<Write>)
    requires Sound(e, landed)
    ensures Sound(ReleasePending(e), landed) && Flow(ReleasePending(e)) == Flow(e)
  {
    var e' := ReleasePending(e);
    if e' != e {
      PushCommand(e, PublishMark(e.pendingMark.value));
      assert Queue(e') == Queue(e) + [MarkItem(e.pendingMark.value)];
      PushBarrier(e, landed, e', MarkItem(e.pendingMark.value));
    }
  }

  /** Appending a barrier whose operations are all ahead of it. */
  lemma PushBarrier(e: Engine, landed: set<Write>, e': Engine, it: Item)
    requires Sound(e, landed)
    requires !it.Op?
    requires Queue(e') == Queue(e) + [it]
    requires e'.done == e.done && e'.markAt == e.markAt && e'.commitAt == e.commitAt
    requires e'.written == e.written && e'.acked == e.acked
    requires e'.pendingMark == e.pendingMark || e'.pendingMark.None?
    requires it.MarkItem? ==> it.mark in e.markAt
    requires it.PositionItem? ==> it.lsn in e.commitAt
    ensures Sound(e', landed) && Flow(e') == Flow(e)
  {
    RowsConcat(Queue(e), [it]);
    OrderedConcat(|e.done|, Queue(e), [it], e.markAt, e.commitAt);
    assert Rows([it]) == [];
    assert |Flow(e)| == |e.done| + |Rows(Queue(e))|;
  }

  lemma FlushSound(e: Engine, landed: set<Write>)
    requires Sound(e, landed)
    ensures Sound(Flush(e), landed) && Flow(Flush(e)) == Flow(e)
  {
    FlushKeepsQueue(e);
  }

  /** Recording how far the flow was at a mark or a commit disturbs nothing. */
  lemma NoteSound(e: Engine, landed: set<Write>, e': Engine)
    requires Sound(e, landed)
    requires Queue(e') == Queue(e) && e'.done == e.done && e'.pendingMark == e.pendingMark
    requires e'.written == e.written && e'.acked == e.acked
    requires forall m | m in e.markAt :: m in e'.markAt && e'.markAt[m] == e.markAt[m]
    requires forall c | c in e.commitAt :: c in e'.commitAt && e'.commitAt[c] == e.commitAt[c]
    requires forall m | m in e'.markAt :: e'.markAt[m] <= |Flow(e)|
    requires forall c | c in e'.commitAt :: e'.commitAt[c] <= |Flow(e)|
    ensures Sound(e', landed) && Flow(e') == Flow(e)
  {
    OrderedExtends(|e.done|, Queue(e), e.markAt, e.commitAt, e'.markAt, e'.commitAt);
  }

  lemma TakeMarkSound(e: Engine, landed: set<Write>, m: nat)
    requires Sound(e, landed)
    ensures Sound(TakeMark(e, m), landed) && Flow(TakeMark(e, m)) == Flow(e)
  {
    var n := if m in e.markAt then e.markAt else e.markAt[m := |Flow(e)|];
    var e1 := e.(superseded := map[], markAt := n);
    NoteSound(e, landed, e1);
    if !e.txnOpen {
      FlushSound(e1, landed);
      var e2 := Flush(e1);
      PushCommand(e2, PublishMark(m));
      PushBarrier(e2, landed, TakeMark(e, m), MarkItem(m));
    }
  }

  lemma StampOrdered(n: nat, ops: seq<LsnOp>, pos: nat, ms: map<nat, nat>, cs: map<nat, nat>)
    requires ops != [] && Ordered(n, OpItems(ops), ms, cs)
    requires pos in cs && cs[pos] <= n + |ops|
    ensures Ordered(n, OpItems(Stamp(ops, pos)), ms, cs)
    ensures Rows(OpItems(Stamp(ops, pos))) == Rows(OpItems(ops))
  {
    var front := ops[..|ops| - 1];
    var last := [Op(ops[|ops| - 1].(lsn := pos))];
    assert OpItems(ops) == OpItems(front) + [Op(ops[|ops| - 1])];
    assert OpItems(Stamp(ops, pos)) == OpItems(front) + last;
    OrderedConcat(n, OpItems(front), [Op(ops[|ops| - 1])], ms, cs);
    OrderedConcat(n, OpItems(front), last, ms, cs);
    RowsOfOps(front);
    RowsOfOps(ops);
    RowsOfOps(Stamp(ops, pos));
  }

  lemma TakeCommitSound(e: Engine, landed: set<Write>, pos: nat, hold: bool)
    requires Sound(e, landed)
    ensures Sound(TakeCommit(e, pos, hold), landed) && Flow(TakeCommit(e, pos, hold)) == Flow(e)
  {
    if pos == 0 {
      FlushSound(e, landed);
      ReleasePendingSound(if hold then e else Flush(e), landed);
    } else {
      var n := if pos in e.commitAt then e.commitAt else e.commitAt[pos := |Flow(e)|];
      var e1 := e.(txnOpen := false, commitAt := n);
      NoteSound(e, landed, e1);
      if e.buffer == [] {
        BarePositionSound(e1, landed, pos);
      } else {
        StampedSound(e1, landed, pos, hold);
      }
    }
  }

  lemma BarePositionSound(e: Engine, landed: set<Write>, pos: nat)
    requires Sound(e, landed) && e.buffer == [] && pos in e.commitAt
    ensures var e' := ReleasePending(e.(commands := e.commands + [AckPosition(pos)]));
            Sound(e', landed) && Flow(e') == Flow(e)
  {
    var e1 := e.(commands := e.commands + [AckPosition(pos)]);
    PushCommand(e, AckPosition(pos));
    PushBarrier(e, landed, e1, PositionItem(pos));
    ReleasePendingSound(e1, landed);
  }

  lemma StampedSound(e: Engine, landed: set<Write>, pos: nat, hold: bool)
    requires Sound(e, landed) && e.buffer != [] && pos in e.commitAt
    ensures var e1 := e.(buffer := Stamp(e.buffer, pos));
            var e' := ReleasePending(if hold then e1 else Flush(e1));
            Sound(e', landed) && Flow(e') == Flow(e)
  {
    var e1 := e.(buffer := Stamp(e.buffer, pos));
    StampSound(e, landed, pos);
    FlushSound(e1, landed);
    ReleasePendingSound(if hold then e1 else Flush(e1), landed);
  }

  lemma StampSound(e: Engine, landed: set<Write>, pos: nat)
    requires Sound(e, landed) && e.buffer != [] && pos in e.commitAt
    ensures var e' := e.(buffer := Stamp(e.buffer, pos));
            Sound(e', landed) && Flow(e') == Flow(e)
  {
    var e' := e.(buffer := Stamp(e.buffer, pos));
    var ahead := BatchItems(e.inflight) + CommandItems(e.commands);
    OrderedConcat(|e.done|, ahead, OpItems(e.buffer), e.markAt, e.commitAt);
    OrderedConcat(|e.done|, ahead, OpItems(e'.buffer), e.markAt, e.commitAt);
    RowsConcat(ahead, OpItems(e.buffer));
    RowsConcat(ahead, OpItems(e'.buffer));
    RowsOfOps(e.buffer);
    StampOrdered(|e.done| + |Rows(ahead)|, e.buffer, pos, e.markAt, e.commitAt);
  }

  lemma StartWriteSound(e: Engine, landed: set<Write>)
    requires Sound(e, landed) && e.commands != [] && e.commands[0].WriteBatch?
    ensures Sound(StartWrite(e), landed) && Flow(StartWrite(e)) == Flow(e)
  {
    var e' := StartWrite(e);
    FirstCommand(e.commands);
    assert e'.inflight[..|e'.inflight| - 1] == e.inflight;
    assert Queue(e') == Queue(e);
  }

  lemma FinishWriteSound(e: Engine, landed: set<Write>)
    requires Sound(e, landed) && e.inflight != []
    requires forall i | 0 <= i < |e.inflight[0]| :: e.inflight[0][i].w in landed
    ensures Sound(FinishWrite(e), landed) && Flow(FinishWrite(e)) == Flow(e)
  {
    var e' := FinishWrite(e);
    var first := OpItems(e.inflight[0]);
    PopBatch(e);
    RowsConcat(first, Queue(e'));
    OrderedConcat(|e.done|, first, Queue(e'), e.markAt, e.commitAt);
    RowsOfOps(e.inflight[0]);
    BatchHoldsItsPosition(|e.done|, e.inflight[0], e.markAt, e.commitAt);
    hide Queue, Rows, Ordered, OpItems, MaxLsn;
    ConcatAssociates(e.done, Rows(first), Rows(Queue(e')));
    assert Flow(e') == Flow(e);
    forall w | w in Rows(first) ensures w in landed {
      var i :| 0 <= i < |Rows(first)| && Rows(first)[i] == w;
      assert e.inflight[0][i].w == w;
    }
  }

  lemma PassBarrierSound(e: Engine, landed: set<Write>)
    requires Sound(e, landed) && e.commands != [] && !e.commands[0].WriteBatch? && e.inflight == []
    ensures Sound(PassBarrier(e), landed) && Flow(PassBarrier(e)) == Flow(e)
  {
    var e' := PassBarrier(e);
    var first := CommandItem(e.commands[0]);
    assert Rows(first) == [];
    PopCommand(e);
    assert Queue(e') == Queue(e.(commands := e.commands[1..]));
    RowsConcat(first, Queue(e'));
    assert Flow(e') == Flow(e);
    OrderedConcat(|e.done|, first, Queue(e'), e.markAt, e.commitAt);
    assert Ordered(|e.done|, first, e.markAt, e.commitAt);
  }
}
