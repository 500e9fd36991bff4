/** What makes a run fair: one write request open at a time, or a target that
    forgets no tombstone over an older write of its key in an open request. */
module Requests {
  import opened Wrappers
  import opened Source
  import opened Target
  import opened Ranges
  import opened Engine
  import opened Protocol
  import opened Tombstones
  import opened Undoing

  /** No other loader marks or finishes; and what is open lands in order, or no tombstone is
      forgotten over an open older write of its key. */
  ghost predicate Orderly(inOrder: bool, s: Load, m: Move) {
    && !m.OtherLoaderMarks? && !m.OtherLoaderFinishes?
    && (if inOrder then m.Lands? ==> m.i == 0
        else m.Forgets? && m.k in s.target ==>
          forall x | x in s.open && x.key == m.k :: x.version >= s.target[m.k].version)
  }

  ghost predicate PlaysOrderly(inOrder: bool, s: Load, moves: seq<Move>, s': Load)
    decreases |moves|
  {
    if moves == [] then s' == s
    else May(s, moves[0]) && Orderly(inOrder, s, moves[0]) && PlaysOrderly(inOrder, Make(s, moves[0]), moves[1..], s')
  }

  // --------------------------------------------------------------- invariant

  /** What stands in the order it was accepted. */
  function Queue(inOrder: bool, s: Load): seq<Write> {
    if inOrder then Pending(s) else Writes(s.eng.buffer)
  }

  ghost predicate Deleted(s: Load, k: Key, e: Write) {
    Taken(s, k, e) && e.doc.None?
  }

  /** Behind each document stands every taken delete it is from before. */
  ghost predicate Behind(s: Load, q: seq<Write>) {
    forall j, e | 0 <= j < |q| && Deleted(s, q[j].key, e) && Stale(s.hist, s.clock, q[j], e.version) :: e in q[j + 1..]
  }

  /** Every taken delete a row to come is from before is remembered. */
  ghost predicate Remembered(s: Load) {
    forall w, e | ToCome(s, w) && Deleted(s, w.key, e) && Stale(s.hist, s.clock, w, e.version) ::
      w.key in s.eng.superseded && s.eng.superseded[w.key] >= e.version
  }

  ghost predicate Alone(s: Load) {
    OtherMark !in s.copy && OtherFinish !in s.copy && s.eng.loadRunning
  }

  ghost predicate Lined(inOrder: bool, s: Load) {
    Alone(s) && Remembered(s) && Behind(s, Queue(inOrder, s))
  }

  // ----------------------------------------------------------- the queue moves

  lemma BehindTail(s: Load, q: seq<Write>, n: nat)
    requires Behind(s, q) && n <= |q|
    ensures Behind(s, q[n..])
  {
    hide Deleted, Stale;
    forall j, e | 0 <= j < |q[n..]| && Deleted(s, q[n..][j].key, e) && Stale(s.hist, s.clock, q[n..][j], e.version)
      ensures e in q[n..][j + 1..]
    {
      assert q[n..][j] == q[n + j];
      assert q[n..][j + 1..] == q[n + j + 1..];
    }
  }

  /** Nothing more is deleted, and nothing more stale. */
  lemma BehindStays(s: Load, s': Load, q: seq<Write>)
    requires Behind(s, q)
    requires forall k, e | Deleted(s', k, e) :: Deleted(s, k, e)
    requires forall w, p: nat | Stale(s'.hist, s'.clock, w, p) :: Stale(s.hist, s.clock, w, p)
    ensures Behind(s', q)
  {
    hide Deleted, Stale;
  }

  lemma NotStaleAbove(hist: seq<Txn>, clock: nat, w: Write, p: nat)
    requires p <= w.version && (w.doc.Some? ==> TrueAt(hist, clock, w, w.version))
    ensures !Stale(hist, clock, w, p)
  {
  }

  /** One more at the end: `w` is stale by no delete taken, and what was taken
      since is `w` itself. */
  lemma BehindGrows(s: Load, s': Load, q: seq<Write>, w: Write)
    requires Behind(s, q) && SameSource(s, s')
    requires forall k, e | Deleted(s', k, e) :: Deleted(s, k, e) || e == w
    requires forall e | Deleted(s', w.key, e) :: !Stale(s'.hist, s'.clock, w, e.version)
    ensures Behind(s', q + [w])
  {
    hide Deleted, Stale;
    var q' := q + [w];
    assert q'[|q|] == w;
    forall j, e | 0 <= j < |q'| && Deleted(s', q'[j].key, e) && Stale(s'.hist, s'.clock, q'[j], e.version)
      ensures e in q'[j + 1..]
    {
      assert q'[j + 1..] == q[j + 1..] + [w];
    }
  }

  lemma QueueTakes(inOrder: bool, s: Load, s': Load, w: Write)
    requires !Dropped(s.eng, w) && s'.eng == TakeRow(s.eng, w) && s'.open == s.open
    ensures Queue(inOrder, s') == Queue(inOrder, s) + [w]
  {
    PendingGrows(s, s', w);
    WritesAppend(s.eng.buffer, LsnOp(w, 0));
    hide Pending, Writes;
  }

  // --------------------------------------------------------------- the stream

  lemma TakesLined(inOrder: bool, s: Load, s': Load)
    requires Good(s) && Good(s') && Lined(inOrder, s) && s.taken < |s.events| && s' == Make(s, Takes)
    ensures Lined(inOrder, s')
  {
    var w := s.events[s.taken];
    hide Good, Remembered, Behind, Queue;
    GoodHas(s);
    GoodHas(s');
    hide RowsOk, ChannelOk, WaveOk, KeyOk;
    StreamRowKept(s);
    hide WindowOk;
    QueueTakes(inOrder, s, s', w);
    PendingGrows(s, s', w);
    assert w in Pending(s') && Fit(s', w);
    forall k, e ensures Deleted(s', k, e) ==> Deleted(s, k, e) || e == w
                ensures Deleted(s', w.key, e) ==> e.version <= w.version
                ensures Deleted(s', k, e) && !Deleted(s, k, e) ==> e == w && k == w.key && w.doc.None?
    {
      TakenMore(s, s', k, e);
      TakenMore(s, s', w.key, e);
      if Taken(s, w.key, e) { TakenBefore(s, e, w.key); }
    }
    forall e | Deleted(s', w.key, e) ensures !Stale(s'.hist, s'.clock, w, e.version) {
      NotStaleAbove(s'.hist, s'.clock, w, e.version);
    }
    hide Deleted, StreamOk, PoolOk, Pending, Fit;
    BehindGrows(s, s', Queue(inOrder, s), w);
    TakesRemembered(s, s', w);
  }

  lemma TakesRemembered(s: Load, s': Load, w: Write)
    requires Remembered(s) && s' == s.(eng := s'.eng, taken := s'.taken)
    requires s'.eng.superseded == Remember(s.eng, w) && s.eng.loadRunning
    requires forall k, e | Deleted(s', k, e) && !Deleted(s, k, e) :: e == w && k == w.key && w.doc.None?
    ensures Remembered(s')
  {
    assert forall x :: ToCome(s', x) == ToCome(s, x);
    hide ToCome, Deleted, Stale;
  }

  // -------------------------------------------------------------- the channel

  lemma AcceptsLined(inOrder: bool, s: Load, s': Load, w: Write)
    requires Good(s) && Lined(inOrder, s) && s.copied < |s.copy| && s.copy[s.copied] == Row(w) && !Dropped(s.eng, w)
    requires s' == s.(eng := TakeRow(s.eng, w), copied := s.copied + 1)
    ensures Lined(inOrder, s')
  {
    hide Good, Behind, Queue;
    GoodHas(s);
    NextIsSafe(s, w);
    hide StreamOk, WindowOk, PoolOk, RowsOk, ChannelOk, WaveOk, KeyOk;
    QueueTakes(inOrder, s, s', w);
    assert ToCome(s, w) by { assert s.copy[s.copied] in s.copy[s.copied..]; }
    forall x | ToCome(s', x) ensures ToCome(s, x) { CopiedToCome(s, s', x); }
    assert forall k, e :: Deleted(s', k, e) == Deleted(s, k, e);
    hide ToCome, Deleted;
    forall e | Deleted(s', w.key, e) ensures !Stale(s'.hist, s'.clock, w, e.version) {
      if e.version <= w.version { NotStaleAbove(s'.hist, s'.clock, w, e.version); }
    }
    hide Stale, RowSafe;
    BehindGrows(s, s', Queue(inOrder, s), w);
  }

  /** The row was dropped, or our own mark closed the window with none behind. */
  lemma PassesLined(inOrder: bool, s: Load, s': Load)
    requires Good(s) && Lined(inOrder, s) && s.copied < |s.copy|
    requires s' == s.(eng := s'.eng, copied := s.copied + 1) && s'.eng.buffer == s.eng.buffer
    requires s'.eng == s.eng || s.copy[s.copied].OwnMark? || (s.copy[s.copied].OtherStart? && s'.eng == TakeStarted(s.eng))
    requires s'.eng.loadRunning
    ensures Lined(inOrder, s')
  {
    hide Good, Behind;
    GoodHas(s);
    hide Basics, StreamOk, WindowOk, PoolOk, RowsOk, WaveOk, KeyOk;
    SamePending(s, s');
    forall x | ToCome(s', x) ensures ToCome(s, x) && !s.copy[s.copied].OwnMark? {
      CopiedToCome(s, s', x);
      if s.copy[s.copied].OwnMark? { NoneBehind(s, s', x); }
    }
    assert forall k, e :: Deleted(s', k, e) == Deleted(s, k, e);
    hide ToCome, Deleted, Stale, Pending, ChannelOk;
    BehindStays(s, s', Queue(inOrder, s));
  }

  lemma TakesCopyLined(inOrder: bool, s: Load)
    requires Good(s) && Lined(inOrder, s) && May(s, TakesCopy)
    ensures Lined(inOrder, Make(s, TakesCopy))
  {
    var s' := Make(s, TakesCopy);
    assert Alone(s) && s.copy[s.copied] in s.copy;
    hide Good, Lined;
    match s.copy[s.copied] {
      case Row(w) => if Dropped(s.eng, w) { PassesLined(inOrder, s, s'); } else { AcceptsLined(inOrder, s, s', w); }
      case _ => PassesLined(inOrder, s, s');
    }
  }

  // ------------------------------------------------------------- the requests

  lemma RequestsLined(inOrder: bool, s: Load, s': Load, n: nat)
    requires Lined(inOrder, s) && n <= |Queue(inOrder, s)| && Queue(inOrder, s') == Queue(inOrder, s)[n..]
    requires s' == s.(eng := s.eng.(buffer := s'.eng.buffer), open := s'.open, target := s'.target)
    ensures Lined(inOrder, s')
  {
    BehindTail(s, Queue(inOrder, s), n);
    assert forall k, e :: Deleted(s', k, e) == Deleted(s, k, e);
    assert forall x :: ToCome(s', x) == ToCome(s, x);
    hide Deleted, Stale, ToCome, Behind, Queue;
    BehindStays(s, s', Queue(inOrder, s'));
  }

  lemma OpensLined(inOrder: bool, s: Load, n: nat)
    requires Lined(inOrder, s) && May(s, Opens(n))
    ensures Lined(inOrder, Make(s, Opens(n)))
  {
    var s' := Make(s, Opens(n));
    OpensPending(s, n);
    assert Writes(s.eng.buffer[n..]) == Writes(s.eng.buffer)[n..];
    assert Pending(s)[0..] == Pending(s);
    hide Lined, Pending;
    RequestsLined(inOrder, s, s', if inOrder then 0 else n);
  }

  lemma LandsLined(inOrder: bool, s: Load, i: nat)
    requires Lined(inOrder, s) && May(s, Lands(i)) && Orderly(inOrder, s, Lands(i))
    ensures Lined(inOrder, Make(s, Lands(i)))
  {
    var s' := Make(s, Lands(i));
    if inOrder {
      assert s'.open == s.open[1..];
      assert Pending(s') == Pending(s)[1..];
    }
    assert Writes(s.eng.buffer)[0..] == Writes(s.eng.buffer);
    hide Lined;
    RequestsLined(inOrder, s, s', if inOrder then 1 else 0);
  }

  lemma RetriesLined(inOrder: bool, s: Load, i: nat)
    requires Lined(inOrder, s) && May(s, Retries(i))
    ensures Lined(inOrder, Make(s, Retries(i)))
  {
    var s' := Make(s, Retries(i));
    SamePending(s, s');
    assert Queue(inOrder, s)[0..] == Queue(inOrder, s);
    hide Lined, Pending;
    RequestsLined(inOrder, s, s', 0);
  }

  lemma ForgetsLined(inOrder: bool, s: Load, k: Key)
    requires Lined(inOrder, s) && May(s, Forgets(k))
    ensures Lined(inOrder, Make(s, Forgets(k)))
  {
    var s' := Make(s, Forgets(k));
    SamePending(s, s');
    assert Queue(inOrder, s)[0..] == Queue(inOrder, s);
    hide Lined, Pending;
    RequestsLined(inOrder, s, s', 0);
  }

  // ----------------------------------------------------- the source and loader

  lemma CommitsLined(inOrder: bool, s: Load, s': Load, x: Txn)
    requires Lined(inOrder, s) && x.pos > s.clock && s' == s.(hist := s.hist + [x], clock := x.pos)
    ensures Lined(inOrder, s')
  {
    forall w, p: nat | Stale(s'.hist, s'.clock, w, p) ensures Stale(s.hist, s.clock, w, p) {
      if TrueAt(s.hist, s.clock, w, p) { TrueStays(s.hist, s.clock, x, w, p); }
    }
    assert forall k, e :: Deleted(s', k, e) == Deleted(s, k, e);
    assert forall w :: ToCome(s', w) == ToCome(s, w);
    SamePending(s, s');
    hide Deleted, Stale, ToCome, Behind, Pending;
    BehindStays(s, s', Queue(inOrder, s));
  }

  /** The stream sent more, or the loader moved: each row to come was one already,
      or has just been read. */
  lemma AsideLined(inOrder: bool, s: Load, s': Load)
    requires Basics(s) && StreamOk(s) && Lined(inOrder, s) && Alone(s')
    requires s' == s.(events := s'.events, cursor := s'.cursor, phase := s'.phase, done := s'.done, copy := s'.copy)
    requires s.events <= s'.events
    requires forall w | ToCome(s', w) :: ToCome(s, w) || TrueAt(s.hist, s.clock, w, s.clock)
    ensures Lined(inOrder, s')
  {
    assert s'.events[..s.taken] == s.events[..s.taken];
    assert forall k, e :: Deleted(s', k, e) == Deleted(s, k, e);
    forall k, e | Deleted(s, k, e) ensures e.version <= s.clock { DeletedBefore(s, k, e); }
    SamePending(s, s');
    forall w, p: nat | TrueAt(s.hist, s.clock, w, s.clock) && p <= s.clock ensures !Stale(s.hist, s.clock, w, p) {}
    hide Deleted, Stale, ToCome, Behind, Pending, StreamOk, TrueAt, Increasing;
    BehindStays(s, s', Queue(inOrder, s));
  }

  lemma DeletedBefore(s: Load, k: Key, e: Write)
    requires Basics(s) && StreamOk(s) && Deleted(s, k, e)
    ensures e.version <= s.clock
  {
    var i :| 0 <= i < s.taken && s.events[i] == e;
  }

  lemma LoaderLined(inOrder: bool, s: Load, m: Move)
    requires Good(s) && Lined(inOrder, s) && May(s, m)
    requires m.Sends? || m.StartsWave? || m.Locates? || m.Snapshots? || m.SendsRow? || m.SendsMark? || m.SeesMark?
             || m.OtherLoaderStarts?
    ensures Lined(inOrder, Make(s, m))
  {
    var s' := Make(s, m);
    hide Good, Remembered, Behind, Queue;
    GoodHas(s);
    hide StreamOk, WindowOk, PoolOk, RowsOk, WaveOk, KeyOk, Increasing;
    if m.Snapshots? {
      var rows := RowsOf(s.hist, s.clock, s.table, Range(s, m.i), s.phase.wave[m.i].v);
      forall w | w in rows ensures TrueAt(s.hist, s.clock, w, s.clock) { assert DocAt(s.hist, s.clock, w.key) == w.doc; }
      assert forall w | ToCome(s', w) :: ToCome(s, w) || w in rows by { hide RowsOf; }
    } else if m.SendsRow? {
      SendsRowToCome(s, s', m.i, m.w);
    } else if m.SendsMark? {
      MarkToCome(s, s');
    } else if m.OtherLoaderStarts? {
      IdleToCome(s, s') by { assert s'.copy[|s.copy|] == OtherStart; }
    } else {
      assert forall w | ToCome(s', w) :: ToCome(s, w);
    }
    AsideLined(inOrder, s, s');
  }

  // --------------------------------------------------------------- forgetting

  /** Each older document of the key has the key's last delete on its way too. */
  lemma QueuedMayForget(s: Load, k: Key)
    requires Good(s) && May(s, Forgets(k))
    requires forall e, z | LastTaken(s, k, e) && e.doc.None? && z in Pending(s) && z.key == k && Stale(s.hist, s.clock, z, e.version) ::
               z.version >= s.target[k].version || e in Pending(s)
    ensures ForgetOk(s, k)
  {
    var s1 := s.(target := s.target - {k});
    hide Good, Basics, StreamOk, WindowOk, RowsOk, ChannelOk, WaveOk, Stale;
    GoodHas(s);
    assert KeyOk(s, k);
    SamePending(s, s1);
    ForgetsPool(s, k, k);
    hide Pending, PoolOk, KeyOk;
    forall e | LastTaken(s, k, e) ensures Calm(s.hist, s.clock, Pool(s1, k), e.version) {
      assert Calm(s.hist, s.clock, Pool(s, k), e.version);
      if e.doc.None? {
        forall z | z in Pool(s1, k) && Stale(s.hist, s.clock, z, e.version)
          ensures Outranked(s.hist, s.clock, Pool(s1, k), z, e.version)
        {
          if e in Pending(s) {
            StaleIsOlder(s, k, z, e.version);
            NotStaleAbove(s.hist, s.clock, e, e.version);
            assert e in Pool(s1, k);
          } else {
            var x :| x in Pool(s, k) && x.version > z.version && !Stale(s.hist, s.clock, x, e.version);
            assert x in Pool(s1, k);
          }
        }
      } else if !Calm(s.hist, s.clock, Pool(s1, k), e.version) {
        UnfairForgetIsOfADelete(s, k, e);
      }
    }
  }

  lemma StaleIsOlder(s: Load, k: Key, z: Write, p: nat)
    requires PoolOk(s) && z in Pool(s, k) && Stale(s.hist, s.clock, z, p)
    ensures z.version < p
  {
    PoolIsTold(s, k, z);
    if z.version >= p { NotStaleAbove(s.hist, s.clock, z, p); }
  }

  lemma OrderlyMayForget(inOrder: bool, s: Load, k: Key)
    requires Good(s) && Lined(inOrder, s) && May(s, Forgets(k)) && Orderly(inOrder, s, Forgets(k))
    ensures ForgetOk(s, k)
  {
    hide Good, ForgetOk;
    forall e, z | LastTaken(s, k, e) && e.doc.None? && z in Pending(s) && z.key == k && Stale(s.hist, s.clock, z, e.version)
      ensures z.version >= s.target[k].version || e in Pending(s)
    {
      if z in Queue(inOrder, s) {
        var q := Queue(inOrder, s);
        var j :| 0 <= j < |q| && q[j] == z;
        assert Deleted(s, q[j].key, e);
        assert e in q[j + 1..] && e in Pending(s);
      }
    }
    QueuedMayForget(s, k);
  }

  // ----------------------------------------------------------------- the runs

  lemma OrderlyIsFair(inOrder: bool, s: Load, m: Move)
    requires Good(s) && Lined(inOrder, s) && May(s, m) && Orderly(inOrder, s, m)
    ensures Fair(s, m) && Good(Make(s, m)) && Lined(inOrder, Make(s, m))
  {
    assert Alone(s);
    hide Good, Lined, ForgetOk, MarkOk;
    if m.Forgets? { OrderlyMayForget(inOrder, s, m.k); }
    assert m.TakesCopy? ==> s.copy[s.copied] in s.copy;
    assert Fair(s, m);
    MakeKeeps(s, m);
    match m
    case Commits(pos, changes) => CommitsLined(inOrder, s, Make(s, m), Txn(pos, changes));
    case Takes => TakesLined(inOrder, s, Make(s, m));
    case TakesCopy => TakesCopyLined(inOrder, s);
    case Opens(n) => OpensLined(inOrder, s, n);
    case Lands(i) => LandsLined(inOrder, s, i);
    case Retries(i) => RetriesLined(inOrder, s, i);
    case Forgets(k) => ForgetsLined(inOrder, s, k);
    case _ => LoaderLined(inOrder, s, m);
  }

  lemma {:induction false} OrderlyRunIsFair(inOrder: bool, s: Load, moves: seq<Move>, s': Load)
    requires Good(s) && Lined(inOrder, s) && PlaysOrderly(inOrder, s, moves, s')
    ensures Plays(Fairly, s, moves, s')
    decreases |moves|
  {
    hide Good, Lined, May, Make, Fair, Orderly;
    if moves != [] {
      OrderlyIsFair(inOrder, s, moves[0]);
      OrderlyRunIsFair(inOrder, Make(s, moves[0]), moves[1..], s');
    }
  }

  ghost predicate PlayedOrderly(inOrder: bool, s: Load) {
    exists s0, moves :: Begins(s0) && PlaysOrderly(inOrder, s0, moves, s)
  }

  /** One request open at a time, or tombstones kept while an older write of their
      key is open: every such run is fair. */
  lemma OrderlyIsPlayedFairly(inOrder: bool, s: Load)
    requires PlayedOrderly(inOrder, s)
    ensures Played(Fairly, s)
  {
    var s0, moves :| Begins(s0) && PlaysOrderly(inOrder, s0, moves, s);
    assert Lined(inOrder, s0);
    BeginsGood(s0);
    hide Good, Lined;
    OrderlyRunIsFair(inOrder, s0, moves, s);
    assert Leads(Fairly, s0, s);
  }

  /** ... so its deletes stay, and once complete it shows the source's rows. */
  lemma OrderlyLoadIsTheSource(inOrder: bool, s: Load, k: Key)
    requires PlayedOrderly(inOrder, s)
    ensures !Undone(s, k)
    ensures Complete(s) && k.table == s.table ==> View(s.target, k) == DocAt(s.hist, s.clock, k)
  {
    hide PlayedOrderly, Undone;
    OrderlyIsPlayedFairly(inOrder, s);
    NoDeleteIsUndone(s, k);
    if Complete(s) && k.table == s.table { LoadedIsTheSource(s, k); }
  }
}
