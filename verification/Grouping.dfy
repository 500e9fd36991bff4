/** Rows of a transaction held back until their children can be resolved for
    the whole group: changed parents in order, and the parents that changed
    children name, each once. Keys are told apart by their rendering, so a key
    stands here for its rendering. */
module Grouping {
  import opened Wrappers

  datatype Table = Table(schema: string, name: string)
  type Key = string
  datatype Row = Row(pk: Key, body: string)
  datatype Collection = Collection(table: Table, field: string)

  /** What the decoder does to the buffer. */
  datatype Op =
    | Hold(table: Table, row: Row)
    | Name(table: Table, key: Key)
    | NameThrough(collection: Collection, key: Key)

  /** Which parents a collection's changed child rows belong to. */
  type Resolver = (Collection, seq<Key>) -> seq<Key>

  // ----------------------------------------------------- what a group amounts to

  function Distinct(keys: seq<Key>, k: Key): seq<Key> {
    if k in keys then keys else keys + [k]
  }

  /** The rows held of one table, in order. */
  function RowsOf(log: seq<Op>, t: Table): seq<Row> {
    if log == [] then []
    else
      var before, op := RowsOf(log[..|log| - 1], t), log[|log| - 1];
      if op.Hold? && op.table == t then before + [op.row] else before
  }

  /** The keys named of one table, each once, in the order first named. */
  function NamesOf(log: seq<Op>, t: Table): seq<Key> {
    if log == [] then []
    else
      var before, op := NamesOf(log[..|log| - 1], t), log[|log| - 1];
      if op.Name? && op.table == t then Distinct(before, op.key) else before
  }

  function ThroughOf(log: seq<Op>, c: Collection): seq<Key> {
    if log == [] then []
    else
      var before, op := ThroughOf(log[..|log| - 1], c), log[|log| - 1];
      if op.NameThrough? && op.collection == c then Distinct(before, op.key) else before
  }

  ghost predicate AllDifferent(keys: seq<Key>) {
    forall i, j | 0 <= i < j < |keys| :: keys[i] != keys[j]
  }

  lemma {:induction false} NamesAreDifferent(log: seq<Op>, t: Table)
    ensures AllDifferent(NamesOf(log, t))
    ensures forall k :: k in NamesOf(log, t) <==> Name(t, k) in log
  {
    if log != [] {
      NamesAreDifferent(log[..|log| - 1], t);
      assert log == log[..|log| - 1] + [log[|log| - 1]];
    }
  }

  lemma {:induction false} ThroughAreDifferent(log: seq<Op>, c: Collection)
    ensures AllDifferent(ThroughOf(log, c))
    ensures forall k :: k in ThroughOf(log, c) <==> NameThrough(c, k) in log
  {
    if log != [] {
      ThroughAreDifferent(log[..|log| - 1], c);
      assert log == log[..|log| - 1] + [log[|log| - 1]];
    }
  }

  // ------------------------------------------------------------------- in order

  /** Where in the log rows of the table are held. */
  function HoldsOf(log: seq<Op>, t: Table): set<nat> {
    set i: nat | i < |log| && log[i].Hold? && log[i].table == t
  }

  lemma {:induction false} HoldsSnoc(log: seq<Op>, t: Table)
    requires log != []
    ensures var n := |log| - 1;
            HoldsOf(log, t) == HoldsOf(log[..n], t) + if log[n].Hold? && log[n].table == t then {n} else {}
  {
  }

  /** The rows of a table are those held of it, each as often and in the order
      they were held: a row stands behind as many as were held before it. */
  lemma {:induction false} RowsStandInOrder(log: seq<Op>, t: Table)
    ensures |RowsOf(log, t)| == |HoldsOf(log, t)|
    ensures forall i | i in HoldsOf(log, t) ::
              var n := |HoldsOf(log[..i], t)|; n < |RowsOf(log, t)| && RowsOf(log, t)[n] == log[i].row
  {
    if log != [] {
      var n := |log| - 1;
      RowsStandInOrder(log[..n], t);
      HoldsSnoc(log, t);
      forall i | i in HoldsOf(log, t)
        ensures var m := |HoldsOf(log[..i], t)|; m < |RowsOf(log, t)| && RowsOf(log, t)[m] == log[i].row
      {
        if i < n { assert log[..n][..i] == log[..i] && i in HoldsOf(log[..n], t); }
      }
    }
  }

  /** A key named of the table at `i` and not before. */
  ghost predicate FirstNamed(log: seq<Op>, t: Table, i: nat) {
    i < |log| && log[i].Name? && log[i].table == t && log[i] !in log[..i]
  }

  ghost predicate StandsBefore(keys: seq<Key>, a: Key, b: Key) {
    exists x, y :: 0 <= x < y < |keys| && keys[x] == a && keys[y] == b
  }

  /** Of two names, the one first named stands first. */
  lemma {:induction false} NamesStandInOrder(log: seq<Op>, t: Table, i: nat, j: nat)
    requires i < j && FirstNamed(log, t, i) && FirstNamed(log, t, j)
    ensures StandsBefore(NamesOf(log, t), log[i].key, log[j].key)
  {
    var n := |log| - 1;
    var before, all := NamesOf(log[..n], t), NamesOf(log, t);
    NamesAreDifferent(log[..n], t);
    if j < n {
      assert log[..n][..i] == log[..i] && log[..n][..j] == log[..j];
      NamesStandInOrder(log[..n], t, i, j);
      var x, y :| 0 <= x < y < |before| && before[x] == log[i].key && before[y] == log[j].key;
      assert all[x] == log[i].key && all[y] == log[j].key;
    } else {
      assert log[i] == log[..n][i] && log[i] == Name(t, log[i].key) && log[j] == Name(t, log[j].key);
      var x :| 0 <= x < |before| && before[x] == log[i].key;
      assert all[x] == log[i].key && all[|before|] == log[j].key;
    }
  }

  ghost predicate FirstThrough(log: seq<Op>, c: Collection, i: nat) {
    i < |log| && log[i].NameThrough? && log[i].collection == c && log[i] !in log[..i]
  }

  lemma {:induction false} ThroughStandInOrder(log: seq<Op>, c: Collection, i: nat, j: nat)
    requires i < j && FirstThrough(log, c, i) && FirstThrough(log, c, j)
    ensures StandsBefore(ThroughOf(log, c), log[i].key, log[j].key)
  {
    var n := |log| - 1;
    var before, all := ThroughOf(log[..n], c), ThroughOf(log, c);
    ThroughAreDifferent(log[..n], c);
    if j < n {
      assert log[..n][..i] == log[..i] && log[..n][..j] == log[..j];
      ThroughStandInOrder(log[..n], c, i, j);
      var x, y :| 0 <= x < y < |before| && before[x] == log[i].key && before[y] == log[j].key;
      assert all[x] == log[i].key && all[y] == log[j].key;
    } else {
      assert log[i] == log[..n][i] && log[i] == NameThrough(c, log[i].key) && log[j] == NameThrough(c, log[j].key);
      var x :| 0 <= x < |before| && before[x] == log[i].key;
      assert all[x] == log[i].key && all[|before|] == log[j].key;
    }
  }

  function At<K, V>(m: map<K, seq<V>>, k: K): seq<V> {
    if k in m then m[k] else []
  }

  // -------------------------------------------------------------------- the buffer

  class Pending {
    var parents: map<Table, seq<Row>>
    var named: map<Table, seq<Key>>
    var through: map<Collection, seq<Key>>
    var seen: set<(Table, Key)>
    var seenThrough: set<(Collection, Key)>

    /** Held rows and named keys are those of `log`. */
    ghost predicate Grouped(log: seq<Op>)
      reads this
    {
      && (forall t: Table :: At(parents, t) == RowsOf(log, t) && (t in parents ==> parents[t] != []))
      && (forall t: Table :: At(named, t) == NamesOf(log, t) && (t in named ==> named[t] != []))
      && (forall t: Table, k: Key :: (t, k) in seen <==> k in NamesOf(log, t))
    }

    ghost predicate GroupedThrough(log: seq<Op>)
      reads this
    {
      && (forall c: Collection :: At(through, c) == ThroughOf(log, c) && (c in through ==> through[c] != []))
      && (forall c: Collection, k: Key :: (c, k) in seenThrough <==> k in ThroughOf(log, c))
    }

    predicate Blank()
      reads this
    {
      parents == map[] && named == map[] && through == map[] && seen == {} && seenThrough == {}
    }

    constructor ()
      ensures Blank()
    {
      parents, named, through, seen, seenThrough := map[], map[], map[], {}, {};
    }

    method HoldParent(t: Table, row: Row, ghost log: seq<Op>)
      requires Grouped(log)
      modifies this
      ensures Grouped(log + [Hold(t, row)])
      ensures named == old(named) && through == old(through) && seen == old(seen) && seenThrough == old(seenThrough)
    {
      assert (log + [Hold(t, row)])[..|log|] == log;
      parents := parents[t := At(parents, t) + [row]];
    }

    method NameParent(t: Table, key: Key, ghost log: seq<Op>)
      requires Grouped(log)
      modifies this
      ensures Grouped(log + [Name(t, key)])
      ensures seen == old(seen) + {(t, key)}
      ensures parents == old(parents) && through == old(through) && seenThrough == old(seenThrough)
    {
      assert (log + [Name(t, key)])[..|log|] == log;
      if (t, key) !in seen {
        seen := seen + {(t, key)};
        named := named[t := At(named, t) + [key]];
      }
    }

    method NameThroughKey(c: Collection, key: Key, ghost log: seq<Op>)
      requires GroupedThrough(log)
      modifies this
      ensures GroupedThrough(log + [NameThrough(c, key)])
      ensures parents == old(parents) && named == old(named) && seen == old(seen)
    {
      assert (log + [NameThrough(c, key)])[..|log|] == log;
      if (c, key) !in seenThrough {
        seenThrough := seenThrough + {(c, key)};
        through := through[c := At(through, c) + [key]];
      }
    }

    method TakeThrough() returns (taken: map<Collection, seq<Key>>)
      modifies this
      ensures taken == old(through) && through == map[]
      ensures parents == old(parents) && named == old(named) && seen == old(seen) && seenThrough == old(seenThrough)
    {
      taken, through := through, map[];
    }

    method Take(t: Table) returns (rows: seq<Row>, keys: seq<Key>)
      modifies this
      ensures rows == At(old(parents), t) && keys == At(old(named), t)
      ensures parents == old(parents) - {t} && named == old(named) - {t}
      ensures through == old(through) && seen == old(seen) && seenThrough == old(seenThrough)
    {
      rows, keys := At(parents, t), At(named, t);
      parents, named := parents - {t}, named - {t};
    }

    /** Held rows and distinct keys, for the cap on one group. */
    method Len(ghost log: seq<Op>) returns (n: nat)
      requires Grouped(log) && GroupedThrough(log)
      ensures n == Held(log) + |seen| + |seenThrough|
    {
      forall c | c in named ensures AllDifferent(named[c]) { NamesAreDifferent(log, c); }
      forall c | c in through ensures AllDifferent(through[c]) { ThroughAreDifferent(log, c); }
      var rows := CountRows(parents, log);
      var names := CountKeys(named, seen);
      var throughs := CountKeys(through, seenThrough);
      n := rows + names + throughs;
    }

    method ClearSeen()
      modifies this
      ensures seen == {} && seenThrough == {}
      ensures parents == old(parents) && named == old(named) && through == old(through)
    {
      seen, seenThrough := {}, {};
    }
  }

  // ------------------------------------------------------------------- counting

  /** How many rows of the tables in `ts` the group holds. */
  function HeldIn(log: seq<Op>, ts: set<Table>): nat {
    if log == [] then 0
    else
      var op := log[|log| - 1];
      HeldIn(log[..|log| - 1], ts) + if op.Hold? && op.table in ts then 1 else 0
  }

  function Held(log: seq<Op>): nat {
    if log == [] then 0 else Held(log[..|log| - 1]) + if log[|log| - 1].Hold? then 1 else 0
  }

  lemma {:induction false} HeldInOneMore(log: seq<Op>, ts: set<Table>, t: Table)
    requires t !in ts
    ensures HeldIn(log, ts + {t}) == HeldIn(log, ts) + |RowsOf(log, t)|
  {
    if log != [] { HeldInOneMore(log[..|log| - 1], ts, t); }
  }

  lemma {:induction false} HeldInAll(log: seq<Op>, ts: set<Table>)
    ensures ts == {} ==> HeldIn(log, ts) == 0
    ensures (forall t: Table :: RowsOf(log, t) != [] ==> t in ts) ==> HeldIn(log, ts) == Held(log)
  {
    if log != [] {
      var h := log[..|log| - 1];
      HeldInAll(h, ts);
      if forall t: Table :: RowsOf(log, t) != [] ==> t in ts {
        forall t: Table | RowsOf(h, t) != [] ensures t in ts { assert RowsOf(log, t) != []; }
        if log[|log| - 1].Hold? { assert RowsOf(log, log[|log| - 1].table) != []; }
      }
    }
  }

  method CountRows(parents: map<Table, seq<Row>>, ghost log: seq<Op>) returns (n: nat)
    requires forall t: Table :: At(parents, t) == RowsOf(log, t)
    ensures n == Held(log)
  {
    n := 0;
    var todo := parents.Keys;
    ghost var done: set<Table> := {};
    HeldInAll(log, {});
    while todo != {}
      invariant todo !! done && todo + done == parents.Keys && n == HeldIn(log, done)
      decreases |todo|
    {
      var t :| t in todo;
      HeldInOneMore(log, done, t);
      n := n + |parents[t]|;
      todo, done := todo - {t}, done + {t};
    }
    HeldInAll(log, done);
    forall t: Table | RowsOf(log, t) != [] ensures t in done { assert At(parents, t) != []; }
  }

  lemma {:induction false} DifferentKeysCount<K>(c: K, keys: seq<Key>)
    requires AllDifferent(keys)
    ensures |set k | k in keys :: (c, k)| == |keys|
  {
    var all := set k | k in keys :: (c, k);
    if keys == [] {
      assert all == {};
    } else {
      var n := |keys| - 1;
      var fewer := set k | k in keys[..n] :: (c, k);
      DifferentKeysCount(c, keys[..n]);
      assert keys == keys[..n] + [keys[n]];
      assert all == fewer + {(c, keys[n])};
      assert (c, keys[n]) !in fewer;
    }
  }

  method CountKeys<K(==)>(m: map<K, seq<Key>>, ghost all: set<(K, Key)>) returns (n: nat)
    requires forall c | c in m :: AllDifferent(m[c])
    requires forall c, k :: (c, k) in all <==> c in m && k in m[c]
    ensures n == |all|
  {
    n := 0;
    var todo := m.Keys;
    ghost var counted: set<(K, Key)> := {};
    while todo != {}
      invariant todo <= m.Keys && counted <= all && n == |counted|
      invariant forall c, k :: (c, k) in counted <==> (c, k) in all && c !in todo
      decreases |todo|
    {
      var c :| c in todo;
      DifferentKeysCount(c, m[c]);
      ghost var mine := set k | k in m[c] :: (c, k);
      assert mine !! counted;
      n := n + |m[c]|;
      counted := counted + mine;
      todo := todo - {c};
    }
    forall x | x in all ensures x in counted { assert x == (x.0, x.1); }
    assert counted == all;
  }

  // -------------------------------------------------------------- what to re-read

  predicate Carries(rows: seq<Row>, k: Key) {
    exists i :: 0 <= i < |rows| && rows[i].pk == k
  }

  /** The named keys no held row carries, in order. */
  function KeysNeedingRefetch(rows: seq<Row>, named: seq<Key>): (missing: seq<Key>)
    ensures forall k :: k in missing ==> k in named
    ensures forall k :: k in missing <==> k in named && forall i | 0 <= i < |rows| :: rows[i].pk != k
    ensures AllDifferent(named) ==> AllDifferent(missing)
  {
    if named == [] then []
    else
      var n := |named| - 1;
      assert named == named[..n] + [named[n]];
      var before := KeysNeedingRefetch(rows, named[..n]);
      assert AllDifferent(named) ==> named[n] !in named[..n] && named[n] !in before;
      before + if Carries(rows, named[n]) then [] else [named[n]]
  }

  /** The keys to re-read stand in the order they were named. */
  lemma {:induction false} RefetchInOrder(rows: seq<Row>, named: seq<Key>, i: nat, j: nat)
    requires i < j < |named| && (forall x | 0 <= x < |rows| :: rows[x].pk != named[i] && rows[x].pk != named[j])
    ensures StandsBefore(KeysNeedingRefetch(rows, named), named[i], named[j])
  {
    var n := |named| - 1;
    var before, all := KeysNeedingRefetch(rows, named[..n]), KeysNeedingRefetch(rows, named);
    if j < n {
      RefetchInOrder(rows, named[..n], i, j);
      var x, y :| 0 <= x < y < |before| && before[x] == named[i] && before[y] == named[j];
      assert all[x] == named[i] && all[y] == named[j];
    } else {
      assert named[i] in named[..n];
      var x :| 0 <= x < |before| && before[x] == named[i];
      assert all[x] == named[i] && all[|before|] == named[j];
    }
  }

  // ------------------------------------------------------------------ one round

  /** Any run of the decoder fills the buffer with the group it amounts to. */
  method Collect(p: Pending, ops: seq<Op>)
    requires p.Blank()
    modifies p
    ensures p.Grouped(ops) && p.GroupedThrough(ops)
  {
    for i := 0 to |ops|
      invariant p.Grouped(ops[..i]) && p.GroupedThrough(ops[..i])
    {
      ghost var log := ops[..i];
      assert ops[..i + 1] == log + [ops[i]];
      OneOp(log, ops[i]);
      match ops[i]
      case Hold(t, row) => p.HoldParent(t, row, log);
      case Name(t, key) => p.NameParent(t, key, log);
      case NameThrough(c, key) => p.NameThroughKey(c, key, log);
    }
    assert ops[..|ops|] == ops;
  }

  lemma OneOp(log: seq<Op>, op: Op)
    ensures !op.NameThrough? ==> forall c :: ThroughOf(log + [op], c) == ThroughOf(log, c)
    ensures op.NameThrough? ==> forall t :: RowsOf(log + [op], t) == RowsOf(log, t) && NamesOf(log + [op], t) == NamesOf(log, t)
    ensures op.Name? ==> forall t ::
              RowsOf(log + [op], t) == RowsOf(log, t)
  {
    assert (log + [op])[..|log|] == log;
  }

  /** `k` was named, or a collection's changed rows turned out to name it. */
  ghost predicate Wanted(log: seq<Op>, resolve: Resolver, t: Table, k: Key) {
    k in NamesOf(log, t) || exists field :: Resolved(log, resolve, Collection(t, field), k)
  }

  ghost predicate Resolved(log: seq<Op>, resolve: Resolver, c: Collection, k: Key) {
    ThroughOf(log, c) != [] && k in resolve(c, ThroughOf(log, c))
  }

  function Pairs(c: Collection, keys: seq<Key>): set<(Table, Key)> {
    set k | k in keys :: (c.table, k)
  }

  /** A hash table's keys, in whatever order it gives them. */
  method InSomeOrder<K(==)>(s: set<K>) returns (q: seq<K>)
    ensures forall x :: x in q <==> x in s
    ensures forall i, j | 0 <= i < j < |q| :: q[i] != q[j]
  {
    q := [];
    var todo := s;
    while todo != {}
      invariant todo <= s && forall x :: x in q <==> x in s && x !in todo
      invariant forall i, j | 0 <= i < j < |q| :: q[i] != q[j]
      decreases |todo|
    {
      var x :| x in todo;
      q, todo := q + [x], todo - {x};
    }
  }

  /** The parents a list of collections resolves to. */
  function Gathered(cs: seq<Collection>, taken: map<Collection, seq<Key>>, resolve: Resolver): set<(Table, Key)> {
    if cs == [] then {}
    else
      var c := cs[|cs| - 1];
      Gathered(cs[..|cs| - 1], taken, resolve) + Pairs(c, resolve(c, At(taken, c)))
  }

  lemma {:induction false} GatheredIs(cs: seq<Collection>, taken: map<Collection, seq<Key>>, resolve: Resolver, t: Table, k: Key)
    ensures (t, k) in Gathered(cs, taken, resolve) <==>
            exists c :: c in cs && c.table == t && k in resolve(c, At(taken, c))
  {
    if cs != [] {
      var n := |cs| - 1;
      GatheredIs(cs[..n], taken, resolve, t, k);
      assert cs == cs[..n] + [cs[n]];
    }
  }

  /** Turns the changed child rows into the parents they belong to. */
  method ResolveThrough(p: Pending, resolve: Resolver, ghost log: seq<Op>) returns (ghost longer: seq<Op>)
    requires p.Grouped(log) && p.GroupedThrough(log)
    modifies p
    ensures p.Grouped(longer) && p.through == map[] && p.parents == old(p.parents)
    ensures forall t, k :: (t, k) in p.seen <==> Wanted(log, resolve, t, k)
  {
    ghost var seen0 := p.seen;
    assert forall t: Table, k: Key :: (t, k) in seen0 <==> k in NamesOf(log, t);
    var taken := p.TakeThrough();
    assert forall c: Collection :: At(taken, c) == ThroughOf(log, c) && (c in taken ==> taken[c] != []);
    var cs := InSomeOrder(taken.Keys);
    WantedIs(seen0, taken, cs, resolve, log);
    hide Pending.Grouped, Pending.GroupedThrough, NamesOf, ThroughOf, Wanted, Pairs, Gathered;
    longer := NameEach(p, cs, taken, resolve, log);
  }

  method NameEach(p: Pending, cs: seq<Collection>, taken: map<Collection, seq<Key>>, resolve: Resolver, ghost log: seq<Op>)
    returns (ghost longer: seq<Op>)
    requires p.Grouped(log)
    modifies p
    ensures p.Grouped(longer) && p.through == old(p.through) && p.parents == old(p.parents)
    ensures p.seen == old(p.seen) + Gathered(cs, taken, resolve)
  {
    hide Pending.Grouped, Pairs;
    longer := log;
    for i := 0 to |cs|
      invariant p.Grouped(longer) && p.through == old(p.through) && p.parents == old(p.parents)
      invariant p.seen == old(p.seen) + Gathered(cs[..i], taken, resolve)
    {
      assert cs[..i + 1][..i] == cs[..i];
      longer := NameAll(p, cs[i], resolve(cs[i], At(taken, cs[i])), longer);
    }
    assert cs[..|cs|] == cs;
  }

  lemma WantedIs(seen: set<(Table, Key)>, taken: map<Collection, seq<Key>>, cs: seq<Collection>,
                 resolve: Resolver, log: seq<Op>)
    requires forall t: Table, k: Key :: (t, k) in seen <==> k in NamesOf(log, t)
    requires forall c: Collection :: At(taken, c) == ThroughOf(log, c) && (c in taken ==> taken[c] != [])
    requires forall c :: c in cs <==> c in taken
    ensures forall t, k :: (t, k) in seen + Gathered(cs, taken, resolve) <==> Wanted(log, resolve, t, k)
  {
    forall t, k ensures (t, k) in seen + Gathered(cs, taken, resolve) <==> Wanted(log, resolve, t, k) {
      GatheredIs(cs, taken, resolve, t, k);
      if c :| c in cs && c.table == t && k in resolve(c, At(taken, c)) {
        assert Resolved(log, resolve, Collection(t, c.field), k);
      }
      if field :| Resolved(log, resolve, Collection(t, field), k) {
        assert Collection(t, field) in cs;
      }
    }
  }

  method NameAll(p: Pending, c: Collection, keys: seq<Key>, ghost log: seq<Op>) returns (ghost longer: seq<Op>)
    requires p.Grouped(log)
    modifies p
    ensures p.Grouped(longer) && p.through == old(p.through) && p.parents == old(p.parents)
    ensures p.seen == old(p.seen) + Pairs(c, keys)
  {
    hide Pending.Grouped;
    longer := log;
    for i := 0 to |keys|
      invariant p.Grouped(longer) && p.through == old(p.through) && p.parents == old(p.parents)
      invariant p.seen == old(p.seen) + Pairs(c, keys[..i])
    {
      p.NameParent(c.table, keys[i], longer);
      longer := longer + [Name(c.table, keys[i])];
      assert keys[..i + 1] == keys[..i] + [keys[i]];
      assert Pairs(c, keys[..i + 1]) == Pairs(c, keys[..i]) + {(c.table, keys[i])};
    }
    assert keys[..|keys|] == keys;
  }

  /** What the round hands out for one table. */
  ghost predicate HandedOut(log: seq<Op>, resolve: Resolver, t: Table, rows: seq<Row>, missing: seq<Key>) {
    && rows == RowsOf(log, t) && AllDifferent(missing)
    && forall k :: k in missing <==> Wanted(log, resolve, t, k) && !Carries(rows, k)
  }

  ghost predicate Touched(log: seq<Op>, resolve: Resolver, t: Table) {
    RowsOf(log, t) != [] || exists k :: Wanted(log, resolve, t, k)
  }

  /** One round: every held row comes back once and in order, the keys to
      re-read are exactly the wanted ones no held row carries, each once, and
      the buffer ends as it began. */
  method FlushPending(p: Pending, resolve: Resolver, ghost log: seq<Op>) returns (out: map<Table, (seq<Row>, seq<Key>)>)
    requires p.Grouped(log) && p.GroupedThrough(log)
    modifies p
    ensures p.Blank()
    ensures forall t :: t in out <==> Touched(log, resolve, t)
    ensures forall t | t in out :: HandedOut(log, resolve, t, out[t].0, out[t].1)
  {
    ghost var longer := ResolveThrough(p, resolve, log);
    ghost var parents, named := p.parents, p.named;
    forall t ensures t in parents || t in named <==> Touched(log, resolve, t) {
      TouchedIs(p, log, longer, resolve, t);
    }
    forall t ensures HandedOut(log, resolve, t, At(parents, t), KeysNeedingRefetch(At(parents, t), At(named, t))) {
      HandsOut(p, log, longer, resolve, t);
    }
    hide Touched, HandedOut, Pending.Grouped, Pending.GroupedThrough, KeysNeedingRefetch;
    out := TakeAll(p);
    p.ClearSeen();
  }

  /** Every table's share, one table after another. */
  method TakeAll(p: Pending) returns (out: map<Table, (seq<Row>, seq<Key>)>)
    modifies p
    ensures p.parents == map[] && p.named == map[] && p.through == old(p.through)
    ensures out.Keys == old(p.parents).Keys + old(p.named).Keys
    ensures forall t | t in out :: out[t] == Share(old(p.parents), old(p.named), t)
  {
    var tables := InSomeOrder(p.parents.Keys + p.named.Keys);
    ghost var parents, named := p.parents, p.named;
    out := map[];
    for i := 0 to |tables|
      invariant p.through == old(p.through)
      invariant HalfTaken(parents, named, p.parents, p.named, Elems(tables[..i]), out)
    {
      ElemsMore(tables, i);
      HalfTakenMore(parents, named, p.parents, p.named, Elems(tables[..i]), tables[i], out);
      hide HalfTaken, Handed, At, Elems;
      var rows, keys := p.Take(tables[i]);
      out := out[tables[i] := Handed(rows, keys)];
    }
    assert tables[..|tables|] == tables;
    AllTaken(parents, named, p.parents, p.named, Elems(tables), out);
  }

  function Elems<T>(q: seq<T>): set<T> {
    set x | x in q
  }

  lemma ElemsMore(q: seq<Table>, i: nat)
    requires i < |q| && forall a, b | 0 <= a < b < |q| :: q[a] != q[b]
    ensures Elems(q[..i + 1]) == Elems(q[..i]) + {q[i]} && q[i] !in Elems(q[..i])
  {
    assert q[..i + 1] == q[..i] + [q[i]];
  }

  /** The tables done have their share, the others still theirs. */
  ghost predicate HalfTaken(parents: map<Table, seq<Row>>, named: map<Table, seq<Key>>,
                            nowParents: map<Table, seq<Row>>, nowNamed: map<Table, seq<Key>>,
                            done: set<Table>, out: map<Table, (seq<Row>, seq<Key>)>)
  {
    && nowParents == parents - done && nowNamed == named - done && out.Keys == done
    && (forall t | t in out :: out[t] == Share(parents, named, t))
  }

  lemma HalfTakenMore(parents: map<Table, seq<Row>>, named: map<Table, seq<Key>>,
                      nowParents: map<Table, seq<Row>>, nowNamed: map<Table, seq<Key>>,
                      done: set<Table>, t: Table, out: map<Table, (seq<Row>, seq<Key>)>)
    requires HalfTaken(parents, named, nowParents, nowNamed, done, out) && t !in done
    ensures HalfTaken(parents, named, nowParents - {t}, nowNamed - {t}, done + {t},
                      out[t := Handed(At(nowParents, t), At(nowNamed, t))])
  {
    Without(parents, done, t);
    Without(named, done, t);
    ShareIs(parents, named, t);
    hide Share, Handed, At;
  }

  lemma AllTaken(parents: map<Table, seq<Row>>, named: map<Table, seq<Key>>,
                 nowParents: map<Table, seq<Row>>, nowNamed: map<Table, seq<Key>>,
                 done: set<Table>, out: map<Table, (seq<Row>, seq<Key>)>)
    requires HalfTaken(parents, named, nowParents, nowNamed, done, out)
    requires forall t | t in parents || t in named :: t in done
    ensures nowParents == map[] && nowNamed == map[]
  {
    assert nowParents.Keys == {} && nowNamed.Keys == {};
  }

  lemma Without<V>(m: map<Table, seq<V>>, done: set<Table>, t: Table)
    requires t !in done
    ensures m - done - {t} == m - (done + {t}) && At(m - done, t) == At(m, t)
  {
  }

  lemma ShareIs(parents: map<Table, seq<Row>>, named: map<Table, seq<Key>>, t: Table)
    ensures Share(parents, named, t) == Handed(At(parents, t), At(named, t))
  {
  }

  function Share(parents: map<Table, seq<Row>>, named: map<Table, seq<Key>>, t: Table): (seq<Row>, seq<Key>) {
    Handed(At(parents, t), At(named, t))
  }

  function Handed(rows: seq<Row>, keys: seq<Key>): (seq<Row>, seq<Key>) {
    (rows, KeysNeedingRefetch(rows, keys))
  }

  lemma TouchedIs(p: Pending, log: seq<Op>, longer: seq<Op>, resolve: Resolver, t: Table)
    requires p.Grouped(longer) && At(p.parents, t) == RowsOf(log, t)
    requires forall t, k :: (t, k) in p.seen <==> Wanted(log, resolve, t, k)
    ensures t in p.parents || t in p.named <==> Touched(log, resolve, t)
  {
    if t in p.named {
      assert p.named[t][0] in NamesOf(longer, t);
      assert (t, p.named[t][0]) in p.seen;
    }
    if k :| Wanted(log, resolve, t, k) { assert (t, k) in p.seen; }
  }

  lemma HandsOut(p: Pending, log: seq<Op>, longer: seq<Op>, resolve: Resolver, t: Table)
    requires p.Grouped(longer) && At(p.parents, t) == RowsOf(log, t)
    requires forall t, k :: (t, k) in p.seen <==> Wanted(log, resolve, t, k)
    ensures HandedOut(log, resolve, t, At(p.parents, t), KeysNeedingRefetch(At(p.parents, t), At(p.named, t)))
  {
    NamesAreDifferent(longer, t);
    forall k ensures k in NamesOf(longer, t) <==> Wanted(log, resolve, t, k) {
      assert (t, k) in p.seen <==> k in NamesOf(longer, t);
    }
  }
}
