/** The source, the stream and the checkpoint keep the invariant. */
module StreamSteps {
  import opened Wrappers
  import opened Source
  import opened Target
  import opened Ranges
  import opened Engine
  import opened Protocol
  import opened Invariant
  import opened Frames

  lemma LogMovesKeeps(s: State, pos: nat)
    requires Inv(s) && pos >= s.clock
    ensures Inv(s.(clock := pos))
  {
    var s' := s.(clock := pos);
    hide WritesOk, EventsOk, TakenOk, CopyOk, SafeTo, JoinOk, ProgressOk, LoadersOk, Sound, Remembered, Flow;
    SourceStays(s, s');
    WritesStay(s, s');
    EventsStay(s, s');
    TakenStays(s, s');
    CopyStays(s, s');
    SafetyStays(s, s');
    JoinStays(s, s');
    ProgressStays(s, s');
    LoadersStay(s, s');
  }

  // ---------------------------------------------------------------- a commit

  /** The log grew by one transaction past its end. */
  ghost predicate Grew(s: State, s': State, x: Txn) {
    Increasing(s.hist, s.clock) && x.pos > s.clock && s' == s.(hist := s.hist + [x], clock := x.pos)
  }

  lemma GrewSource(s: State, s': State, x: Txn)
    requires Grew(s, s', x) && SourceOk(s) && BaseOk(s)
    ensures SourceOk(s') && BaseOk(s')
  {
  }

  lemma GrewWrite(s: State, s': State, x: Txn, w: Write)
    requires Grew(s, s', x) && WriteOk(s, w)
    ensures WriteOk(s', w)
  {
    GenuineStays(s.hist, x, s.clock, x.pos, w);
  }

  lemma GrewWrites(s: State, s': State, x: Txn)
    requires Grew(s, s', x) && WritesOk(s) && CopyOk(s)
    ensures WritesOk(s') && CopyOk(s')
  {
    forall w | WriteOk(s, w) ensures WriteOk(s', w) { GrewWrite(s, s', x, w); }
    hide WriteOk, Flow;
  }

  lemma GrewChanges(s: State, s': State, x: Txn, w: Write)
    requires Grew(s, s', x)
    ensures w in Changes(s.hist) ==> w in Changes(s'.hist)
    ensures w in Changes(s'.hist) && w.version <= s.clock ==> w in Changes(s.hist)
  {
    CommitKeepsThePast(s.hist, x, s.clock, w.key);
  }

  lemma GrewEvents(s: State, s': State, x: Txn)
    requires Grew(s, s', x) && SourceOk(s) && SourceOk(s') && EventsOk(s)
    ensures EventsOk(s')
  {
    assert forall i | 0 <= i < |s.events| && s.events[i].Change? :: EventOk(s, s.events[i].w);
    forall w | EventOk(s, w) ensures EventOk(s', w) { GrewChanges(s, s', x, w); }
    forall w | w in Changes(s'.hist) && w.version <= s.clock ensures w in Changes(s.hist) {
      GrewChanges(s, s', x, w);
    }
    hide Changes, Increasing, EventOk;
  }

  lemma GrewTaken(s: State, s': State, x: Txn)
    requires Grew(s, s', x) && TakenOk(s)
    ensures TakenOk(s')
  {
    hide Flow;
  }

  lemma GrewSafe(s: State, s': State, x: Txn, p: nat)
    requires Grew(s, s', x) && SafeTo(s, p) && p <= s.clock
    ensures SafeTo(s', p)
  {
    forall w | w in Changes(s'.hist) && w.version <= p ensures w in Changes(s.hist) {
      GrewChanges(s, s', x, w);
    }
  }

  lemma GrewJoin(s: State, s': State, x: Txn)
    requires Grew(s, s', x) && JoinOk(s)
    ensures JoinOk(s')
  {
  }

  lemma GrewLoadedBelow(s: State, s': State, x: Txn, t: nat, bounds: seq<int>, done: nat)
    requires Grew(s, s', x) && LoadedBelow(s, t, bounds, done)
    ensures LoadedBelow(s', t, bounds, done)
  {
    forall k: Key | KeyLoaded(s, k) ensures KeyLoaded(s', k) {
      var v, at :| ReadAt(s, k, v, at);
      CommitKeepsThePast(s.hist, x, at, k);
      assert ReadAt(s', k, v, at);
    }
  }

  lemma GrewProgress(s: State, s': State, x: Txn)
    requires Grew(s, s', x) && ProgressOk(s)
    ensures ProgressOk(s')
  {
    forall t | t in s.progress ensures LoadedBelow(s', t, s.progress[t].bounds, s.progress[t].done) {
      GrewLoadedBelow(s, s', x, t, s.progress[t].bounds, s.progress[t].done);
    }
  }

  lemma GrewLoader(s: State, s': State, x: Txn, t: nat, l: Loader)
    requires Grew(s, s', x) && SourceOk(s) && SourceOk(s') && t in s.rules && LoaderOk(s, t, l)
    ensures LoaderOk(s', t, l)
  {
    GrewLoadedBelow(s, s', x, t, l.bounds, l.done);
    forall at: nat, range, v: nat | at <= s.clock
      ensures RowsOf(s'.hist, at, t, range, v) == RowsOf(s.hist, at, t, range, v)
    {
      RowsStay(s.hist, x, s.clock, at, t, range, v);
    }
    hide RowsOf, LoadedBelow, SourceOk;
  }

  lemma CommitKeeps(s: State, pos: nat, changes: map<Key, Option<Doc>>)
    requires Inv(s) && pos > s.clock
    ensures Inv(s.(hist := s.hist + [Txn(pos, changes)], clock := pos))
  {
    var x := Txn(pos, changes);
    var s' := s.(hist := s.hist + [x], clock := pos);
    assert Grew(s, s', x) && s.slot <= s.clock && s.durable <= s.clock && s.persisted <= s.clock;
    hide Grew, SourceOk, BaseOk, WritesOk, EventsOk, TakenOk, CopyOk, SafeTo, JoinOk, ProgressOk, Sound, Remembered;
    GrewSource(s, s', x);
    GrewWrites(s, s', x);
    GrewEvents(s, s', x);
    GrewTaken(s, s', x);
    GrewSafe(s, s', x, s.slot);
    GrewSafe(s, s', x, s.durable);
    GrewSafe(s, s', x, s.persisted);
    assert JoinOk(s') by { GrewJoin(s, s', x); }
    GrewProgress(s, s', x);
    forall t | t in s.loaders ensures LoaderOk(s', t, s.loaders[t]) {
      GrewLoader(s, s', x, t, s.loaders[t]);
    }
  }

  // -------------------------------------------------------------- the stream

  /** New events at the end of the channel and a cursor further on; nothing
      else. */
  ghost predicate Streamed(s: State, s': State) {
    && s' == s.(events := s'.events, cursor := s'.cursor)
    && s.events <= s'.events && s.cursor <= s'.cursor <= s.clock
  }

  lemma StreamedSource(s: State, s': State)
    requires Streamed(s, s') && SourceOk(s) && BaseOk(s)
    ensures SourceOk(s') && BaseOk(s')
  {
  }

  /** Rows behind everything acknowledged so far. */
  lemma StreamedTaken(s: State, s': State)
    requires Streamed(s, s') && TakenOk(s)
    requires forall i | |s.events| <= i < |s'.events| && s'.events[i].Change? :: s'.events[i].w.version > s.cursor
    ensures TakenOk(s')
  {
    hide Flow;
  }

  lemma StreamedKeeps(s: State, s': State)
    requires Inv(s) && Streamed(s, s') && SourceOk(s') && EventsOk(s')
    requires forall i | |s.events| <= i < |s'.events| && s'.events[i].Change? :: s'.events[i].w.version > s.cursor
    ensures Inv(s')
  {
    hide SourceOk, BaseOk, WritesOk, EventsOk, TakenOk, CopyOk, SafeTo, JoinOk, ProgressOk, LoadersOk, Sound, Remembered, Flow;
    StreamedSource(s, s');
    WritesStay(s, s');
    StreamedTaken(s, s');
    CopyStays(s, s');
    SafetyStays(s, s');
    JoinStays(s, s');
    ProgressStays(s, s');
    LoadersStay(s, s');
  }

  /** Between the cursor and the next transaction there are no changes. */
  lemma NextTransaction(s: State, i: nat, w: Write)
    requires SourceOk(s) && i < |s.hist| && s.hist[i].pos > s.cursor
    requires i > 0 ==> s.hist[i - 1].pos <= s.cursor
    requires w in Changes(s.hist) && s.cursor < w.version <= s.hist[i].pos
    ensures w in ChangesOf(s.hist[i])
  {
    ChangesAreIndexed(s.hist, w);
    var j :| 0 <= j < |s.hist| && w in ChangesOf(s.hist[j]);
    assert s.hist[j].pos == w.version;
    assert j == i;
  }

  lemma SentRowOk(s: State, s': State, i: nat, k: Key)
    requires SourceOk(s) && BaseOk(s) && SourceOk(s') && i < |s.hist| && s.hist[i].pos > s.cursor
    requires s' == s.(events := s'.events, cursor := s.hist[i].pos)
    requires k in Sendable(s, s.hist[i])
    ensures var w := Write(k, s.hist[i].pos, s.hist[i].changes[k]);
            EventOk(s', w) && (k.table in s.rules ==> s.base(k) <= w.version)
  {
    var w := Write(k, s.hist[i].pos, s.hist[i].changes[k]);
    assert w in ChangesOf(s.hist[i]);
    ChangesAreIndexed(s.hist, w);
  }

  /** A block of events for the stretch of log up to `p`: its rows are the
      changes there, and a commit closes it. */
  ghost predicate Block(s: State, s': State, block: seq<StreamEvent>, p: nat)
    requires SourceOk(s')
  {
    && (forall j | 0 <= j < |block| && block[j].Change? ::
          && EventOk(s', block[j].w) && s.cursor < block[j].w.version == p
          && (block[j].w.key.table in s.rules ==> s.base(block[j].w.key) <= p))
    && (forall j | 0 <= j < |block| && block[j].Commit? :: block[j].pos == p && j == |block| - 1)
  }

  lemma BlockEvents(s: State, s': State, block: seq<StreamEvent>, p: nat)
    requires SourceOk(s) && EventsOk(s) && SourceOk(s') && s.cursor <= p <= s.clock
    requires s' == s.(events := s.events + block, cursor := p)
    requires Block(s, s', block, p)
    requires forall w | w in Changes(s.hist) && w.key.table in s.admitted
                        && s.admittedAt[w.key.table] < w.version && s.cursor < w.version <= p :: Change(w) in block
    ensures EventsOk(s')
    ensures forall i | |s.events| <= i < |s'.events| && s'.events[i].Change? :: s'.events[i].w.version > s.cursor
  {
    assert forall j | 0 <= j < |s.events| && s.events[j].Change? :: EventOk(s, s.events[j].w) && EventOk(s', s.events[j].w);
    assert forall j | 0 <= j < |s.events| && s.events[j].Change? :: s.events[j].w.version <= s.cursor;
    assert forall x | x in s.events :: x in s'.events;
    assert forall x | x in block :: x in s'.events;
    hide Changes, EventOk, SourceOk;
  }

  lemma EmitBlock(s: State, s': State, i: nat, order: seq<Key>, block: seq<StreamEvent>)
    requires SourceOk(s) && BaseOk(s) && SourceOk(s')
    requires i < |s.hist| && s.hist[i].pos > s.cursor && Elems(order) == Sendable(s, s.hist[i])
    requires forall k | k in order :: k in s.hist[i].changes
    requires block == [Begin(s.hist[i].pos)] + ChangeEvents(s.hist[i], order) + [Commit(s.hist[i].pos)]
    requires s' == s.(events := s.events + block, cursor := s.hist[i].pos)
    ensures Block(s, s', block, s.hist[i].pos)
  {
    var t := s.hist[i];
    forall j | 0 <= j < |block| && block[j].Change?
      ensures EventOk(s', block[j].w) && block[j].w.version == t.pos
      ensures block[j].w.key.table in s.rules ==> s.base(block[j].w.key) <= t.pos
    {
      var k := order[j - 1];
      assert block[j] == Change(Write(k, t.pos, t.changes[k]));
      assert k in Elems(order);
      SentRowOk(s, s', i, k);
    }
  }

  lemma EmitIsComplete(s: State, i: nat, order: seq<Key>, block: seq<StreamEvent>, w: Write)
    requires SourceOk(s)
    requires i < |s.hist| && s.hist[i].pos > s.cursor && (i > 0 ==> s.hist[i - 1].pos <= s.cursor)
    requires Elems(order) == Sendable(s, s.hist[i]) && forall k | k in order :: k in s.hist[i].changes
    requires block == [Begin(s.hist[i].pos)] + ChangeEvents(s.hist[i], order) + [Commit(s.hist[i].pos)]
    requires w in Changes(s.hist) && w.key.table in s.admitted
    requires s.admittedAt[w.key.table] < w.version && s.cursor < w.version <= s.hist[i].pos
    ensures Change(w) in block
  {
    NextTransaction(s, i, w);
    assert w.key in Elems(order);
    var j :| 0 <= j < |order| && order[j] == w.key;
    assert block[1 + j] == Change(w);
  }

  lemma EmitKeeps(s: State, i: nat, order: seq<Key>)
    requires Inv(s)
    requires i < |s.hist| && s.hist[i].pos > s.cursor && (i > 0 ==> s.hist[i - 1].pos <= s.cursor)
    requires Elems(order) == Sendable(s, s.hist[i]) && forall k | k in order :: k in s.hist[i].changes
    ensures Inv(EmitTxn(s, s.hist[i], order))
  {
    var s' := EmitTxn(s, s.hist[i], order);
    var block := [Begin(s.hist[i].pos)] + ChangeEvents(s.hist[i], order) + [Commit(s.hist[i].pos)];
    assert SourceOk(s) && BaseOk(s) && EventsOk(s);
    assert s.hist[i].pos <= s.clock;
    assert Streamed(s, s');
    hide SourceOk, BaseOk, EventsOk, Inv, Block, ChangeEvents, Sendable, Elems;
    StreamedSource(s, s');
    EmitBlock(s, s', i, order, block);
    EmittedAll(s, s', i, order, block);
    StreamedKeeps(s, s');
  }

  lemma EmittedAll(s: State, s': State, i: nat, order: seq<Key>, block: seq<StreamEvent>)
    requires SourceOk(s) && EventsOk(s) && SourceOk(s')
    requires i < |s.hist| && s.hist[i].pos > s.cursor && (i > 0 ==> s.hist[i - 1].pos <= s.cursor)
    requires Elems(order) == Sendable(s, s.hist[i]) && forall k | k in order :: k in s.hist[i].changes
    requires block == [Begin(s.hist[i].pos)] + ChangeEvents(s.hist[i], order) + [Commit(s.hist[i].pos)]
    requires s' == s.(events := s.events + block, cursor := s.hist[i].pos) && Block(s, s', block, s.hist[i].pos)
    ensures EventsOk(s')
    ensures forall j | |s.events| <= j < |s'.events| && s'.events[j].Change? :: s'.events[j].w.version > s.cursor
  {
    forall w | w in Changes(s.hist) && w.key.table in s.admitted
               && s.admittedAt[w.key.table] < w.version && s.cursor < w.version <= s.hist[i].pos
      ensures Change(w) in block
    {
      EmitIsComplete(s, i, order, block, w);
    }
    assert s.hist[i].pos <= s.clock;
    hide EventsOk, Block, ChangeEvents, Sendable, Elems;
    BlockEvents(s, s', block, s.hist[i].pos);
  }

  lemma KeepAliveKeeps(s: State, pos: nat)
    requires Inv(s) && s.cursor <= pos <= s.clock
    requires forall i | 0 <= i < |s.hist| && s.cursor < s.hist[i].pos <= pos :: Sendable(s, s.hist[i]) == {}
    ensures Inv(s.(events := s.events + [Commit(pos)], cursor := pos))
  {
    var s' := s.(events := s.events + [Commit(pos)], cursor := pos);
    assert Streamed(s, s') && SourceOk(s) && EventsOk(s);
    StreamedSource(s, s');
    NothingSkipped(s, s', pos);
    hide SourceOk, EventsOk, Inv;
    StreamedKeeps(s, s');
  }

  /** The transaction that carries a change of an admitted table. */
  lemma CarriedBy(s: State, w: Write) returns (i: nat)
    requires SourceOk(s) && w in Changes(s.hist) && w.key.table in s.admitted
    requires s.admittedAt[w.key.table] < w.version
    ensures i < |s.hist| && s.hist[i].pos == w.version && w.key in Sendable(s, s.hist[i])
  {
    ChangesAreIndexed(s.hist, w);
    i :| 0 <= i < |s.hist| && w in ChangesOf(s.hist[i]);
  }

  /** A keepalive only passes over changes the stream does not carry. */
  lemma NothingSkipped(s: State, s': State, pos: nat)
    requires SourceOk(s) && EventsOk(s) && SourceOk(s') && s.cursor <= pos <= s.clock
    requires forall i | 0 <= i < |s.hist| && s.cursor < s.hist[i].pos <= pos :: Sendable(s, s.hist[i]) == {}
    requires s' == s.(events := s.events + [Commit(pos)], cursor := pos)
    ensures EventsOk(s')
    ensures forall j | |s.events| <= j < |s'.events| && s'.events[j].Change? :: s'.events[j].w.version > s.cursor
  {
    forall w | w in Changes(s.hist) && w.key.table in s.admitted && s.admittedAt[w.key.table] < w.version
      ensures !(s.cursor < w.version <= pos)
    {
      var i := CarriedBy(s, w);
    }
    BlockEvents(s, s', [Commit(pos)], pos);
  }

  // ----------------------------------------- landing, checkpoint and feedback

  lemma ArriveKeeps(s: State, w: Write)
    requires Inv(s) && (w in OpenWrites(s.eng) || w in s.stray)
    ensures Inv(s.(target := Land(s.target, w), landed := s.landed + {w}))
  {
    var s' := s.(target := Land(s.target, w), landed := s.landed + {w});
    if w in OpenWrites(s.eng) { OpenWritesFlow(s.eng, w); }
    assert WriteOk(s, w) && s'.taken <= |s'.events| && s'.copied <= |s'.copy|;
    LandKeepsHighest(s.target, s.landed, w);
    hide SourceOk, BaseOk, WriteOk, WritesOk, EventsOk, TakenOk, CopyOk, SafeTo, JoinOk, ProgressOk, LoadersOk, Sound, Remembered,
         Flow, KeepsHighest, Land, OpenWrites;
    SourceStays(s, s');
    LandedWrites(s, s', w);
    EventsStay(s, s');
    TakenStays(s, s');
    CopyStays(s, s');
    SafetyStays(s, s');
    JoinStays(s, s');
    ProgressStays(s, s');
    LoadersStay(s, s');
  }

  lemma OpenWritesFlow(e: Engine, w: Write)
    requires w in OpenWrites(e)
    ensures w in Flow(e)
  {
    var open := BatchItems(e.inflight);
    var rest := CommandItems(e.commands) + OpItems(e.buffer);
    ConcatAssociates(open, CommandItems(e.commands), OpItems(e.buffer));
    RowsConcat(open, rest);
    assert Flow(e) == e.done + (Rows(open) + Rows(rest));
  }

  lemma LandedWrites(s: State, s': State, w: Write)
    requires WritesOk(s) && Sound(s.eng, s.landed) && WriteOk(s, w)
    requires s' == s.(target := Land(s.target, w), landed := s.landed + {w})
    ensures WritesOk(s') && Sound(s'.eng, s'.landed)
  {
    forall x | WriteOk(s, x) ensures WriteOk(s', x) { WriteStays(s, s', x); }
    hide WriteOk, Flow, Queue;
  }

  /** What an acknowledged position promises: every change the stream owed up to
      it has landed or been overtaken. */
  lemma AckedIsSafe(s: State)
    requires Inv(s) && s.eng.acked > 0
    ensures SafeTo(s, s.eng.acked) && s.eng.acked <= s.cursor
  {
    var c := s.eng.acked;
    forall w | w in Changes(s.hist) && Owed(s, w) && w.version <= c ensures Covers(s.landed, w.key, w.version) {
      if w.version <= s.start {
        assert SafeTo(s, s.slot);
      } else {
        OwedWasTaken(s, w, c);
        DoneCovers(s.eng, s.landed, s.eng.commitAt[c], w);
      }
    }
  }

  lemma OwedWasTaken(s: State, w: Write, c: nat)
    requires SourceOk(s) && BaseOk(s) && EventsOk(s) && TakenOk(s)
    requires w in Changes(s.hist) && Owed(s, w) && s.start < w.version <= c && c in s.eng.commitAt
    ensures FlowCovers(s.eng, s.eng.commitAt[c], w)
  {
    assert s.admittedAt[w.key.table] <= Max(s.base(w.key), s.start);
    assert Change(w) in s.events;
    var i :| 0 <= i < |s.events| && s.events[i] == Change(w);
    assert i < s.taken;
  }

  /** Only the three positions the source is told about moved, each to one that
      is safe. */
  lemma PositionsKeep(s: State, s': State)
    requires Inv(s)
    requires s' == s.(slot := s'.slot, checkpoint := s'.checkpoint, durable := s'.durable, persisted := s'.persisted)
    requires s.slot <= s'.slot <= s.cursor && s'.durable <= s.clock && s'.persisted <= s.clock
    requires SafeTo(s, s'.slot) && SafeTo(s, s'.durable) && SafeTo(s, s'.persisted)
    requires JoinOk(s')
    ensures Inv(s')
  {
    assert SourceOk(s') && BaseOk(s');
    assert SafeTo(s', s'.slot) && SafeTo(s', s'.durable) && SafeTo(s', s'.persisted);
    hide SourceOk, BaseOk, WritesOk, EventsOk, TakenOk, CopyOk, SafeTo, JoinOk, ProgressOk, LoadersOk, Sound, Remembered, Flow;
    WritesStay(s, s');
    EventsStay(s, s');
    TakenStays(s, s');
    CopyStays(s, s');
    ProgressStays(s, s');
    LoadersStay(s, s');
  }

  lemma CheckpointKeeps(s: State)
    requires Inv(s) && s.eng.acked > 0
    ensures Inv(s.(checkpoint := Some(s.eng.acked), persisted := s.eng.acked))
  {
    AckedIsSafe(s);
    var s' := s.(checkpoint := Some(s.eng.acked), persisted := s.eng.acked);
    assert JoinOk(s');
    PositionsKeep(s, s');
  }

  lemma StoreDurableKeeps(s: State)
    requires Inv(s)
    ensures Inv(s.(durable := s.persisted))
  {
    var s' := s.(durable := s.persisted);
    assert Behind(s, s.persisted) && JoinOk(s');
    PositionsKeep(s, s');
  }

  /** Feedback clamped to the durable position. */
  lemma FeedbackKeeps(s: State, walEnd: nat)
    requires Inv(s) && walEnd <= s.cursor
    ensures Inv(s.(slot := Max(s.slot, Min(walEnd, s.durable))))
  {
    var s' := s.(slot := Max(s.slot, Min(walEnd, s.durable)));
    assert Behind(s, s.durable) ==> Behind(s, Min(walEnd, s.durable));
    assert JoinOk(s');
    PositionsKeep(s, s');
  }
}
