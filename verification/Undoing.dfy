/** The two moves that can undo a delete, and exactly when they do. Each failing
    case is played out: from any such state a run shows the deleted document. */
module Undoing {
  import opened Wrappers
  import opened Source
  import opened Target
  import opened Ranges
  import opened Engine
  import opened Protocol
  import opened Tombstones

  // -------------------------------------------------------------------- runs

  lemma {:induction false} PlaysOn(rule: Rule, s: Load, a: seq<Move>, s1: Load, b: seq<Move>, s2: Load)
    requires Plays(rule, s, a, s1) && Plays(rule, s1, b, s2)
    ensures Plays(rule, s, a + b, s2)
    decreases |a|
  {
    hide May, Allowed, Make;
    if a == [] {
      assert a + b == b;
    } else {
      PlaysOn(rule, Make(s, a[0]), a[1..], s1, b, s2);
      assert (a + b)[0] == a[0] && (a + b)[1..] == a[1..] + b;
    }
  }

  lemma LeadsOn(rule: Rule, s: Load, s1: Load, s2: Load)
    requires Leads(rule, s, s1) && Leads(rule, s1, s2)
    ensures Leads(rule, s, s2)
  {
    var a :| Plays(rule, s, a, s1);
    var b :| Plays(rule, s1, b, s2);
    PlaysOn(rule, s, a, s1, b, s2);
  }

  lemma LeadsNowhere(rule: Rule, s: Load)
    ensures Leads(rule, s, s)
  {
    assert Plays(rule, s, [], s);
  }

  lemma LeadsByOne(rule: Rule, s: Load, m: Move)
    requires May(s, m) && Allowed(rule, s, m)
    ensures Leads(rule, s, Make(s, m))
  {
    hide May, Allowed, Make;
    assert [m][1..] == [];
    assert Plays(rule, Make(s, m), [], Make(s, m));
    assert Plays(rule, s, [m], Make(s, m));
  }

  lemma LeadsThenOne(rule: Rule, s: Load, s1: Load, m: Move)
    requires Leads(rule, s, s1) && May(s1, m) && Allowed(rule, s1, m)
    ensures Leads(rule, s, Make(s1, m))
  {
    hide May, Allowed, Make, Leads;
    LeadsByOne(rule, s1, m);
    LeadsOn(rule, s, s1, Make(s1, m));
  }

  // ----------------------------------------------------------------- landing

  /** Only requests were opened and landed. */
  ghost predicate OnlyLanded(s: Load, s': Load) {
    s' == s.(eng := s.eng.(buffer := s'.eng.buffer), open := s'.open, target := s'.target)
  }

  ghost predicate Keyed(s: Load) {
    forall x | x in s.target :: s.target[x].key == x
  }

  /** Every open write of `k` outside `keep` has landed. */
  ghost predicate Landed(s: Load, k: Key, keep: set<Write>, s': Load) {
    && OnlyLanded(s, s') && s'.eng.buffer == [] && Keyed(s')
    && (forall x | x in s'.open :: x in s.open && (x.key == k ==> x in keep))
    && (forall x | x in s.open && x in keep :: x in s'.open)
    && (k in s'.target ==> s'.target[k] in Pool(s, k))
    && (forall x | x in Pool(s, k) && !(x in keep && x in s.open) :: k in s'.target && s'.target[k].version >= x.version)
    && (k in s.target ==> k in s'.target && s'.target[k].version >= s.target[k].version)
  }

  /** A document left showing after removals alone have landed outranks them. */
  ghost predicate Withstood(s: Load, k: Key, keep: set<Write>, s': Load) {
    (forall x | x in s.open && x.key == k && x !in keep :: x.doc.None?) ==>
      k in s'.target && s'.target[k].doc.Some? ==>
        k in s.target && s'.target[k] == s.target[k]
        && forall x | x in s.open && x.key == k && x !in keep :: x.version < s'.target[k].version
  }

  lemma OpenAll(rule: Rule, s: Load) returns (s': Load)
    ensures Leads(rule, s, s') && OnlyLanded(s, s') && s'.eng.buffer == [] && s'.target == s.target
    ensures s'.open == Pending(s) == Pending(s')
  {
    var n := |s.eng.buffer|;
    LeadsByOne(rule, s, Opens(n));
    s' := Make(s, Opens(n));
    assert s.eng.buffer[..n] == s.eng.buffer;
  }

  lemma LandOne(rule: Rule, s: Load, i: nat) returns (s': Load)
    requires i < |s.open| && Keyed(s)
    ensures Leads(rule, s, s') && s' == Make(s, Lands(i)) && Keyed(s')
    ensures forall x :: x in s.open <==> x == s.open[i] || x in s'.open
  {
    LeadsByOne(rule, s, Lands(i));
    s' := Make(s, Lands(i));
    assert s.open == s.open[..i] + [s.open[i]] + s.open[i + 1..];
  }

  lemma LandedMore(s: Load, i: nat, k: Key, keep: set<Write>, s1: Load, s': Load)
    requires i < |s.open| && s.open[i].key == k && s.open[i] !in keep && Keyed(s) && s1 == Make(s, Lands(i))
    requires forall x :: x in s.open <==> x == s.open[i] || x in s1.open
    requires Pending(s) == s.open && Pending(s1) == s1.open && Landed(s1, k, keep, s')
    ensures Landed(s, k, keep, s')
  {
    hide Pending;
    forall x | x in Pool(s1, k) ensures x in Pool(s, k) {}
  }

  lemma WithstoodMore(s: Load, i: nat, k: Key, keep: set<Write>, s1: Load, s': Load)
    requires i < |s.open| && s.open[i].key == k && s.open[i] !in keep && s1 == Make(s, Lands(i))
    requires forall x :: x in s.open <==> x == s.open[i] || x in s1.open
    requires Withstood(s1, k, keep, s')
    ensures Withstood(s, k, keep, s')
  {
  }

  lemma NothingToLand(s: Load, k: Key, keep: set<Write>)
    requires s.eng.buffer == [] && Keyed(s) && Pending(s) == s.open && forall x | x in s.open && x.key == k :: x in keep
    ensures Landed(s, k, keep, s) && Withstood(s, k, keep, s)
  {
    hide Pending;
  }

  lemma AllIsOpen(s: Load)
    requires s.eng.buffer == []
    ensures Pending(s) == s.open
  {
    assert Writes(s.eng.buffer) == [];
  }

  lemma {:induction false} LandRest(rule: Rule, s: Load, k: Key, keep: set<Write>) returns (s': Load)
    requires s.eng.buffer == [] && Keyed(s)
    ensures Leads(rule, s, s') && Landed(s, k, keep, s') && Withstood(s, k, keep, s')
    decreases |s.open|
  {
    hide Leads, May, Allowed, Landed, Withstood, Keyed, Pending;
    AllIsOpen(s);
    if i :| 0 <= i < |s.open| && s.open[i].key == k && s.open[i] !in keep {
      var s1 := LandOne(rule, s, i);
      AllIsOpen(s1);
      s' := LandRest(rule, s1, k, keep);
      LeadsOn(rule, s, s1, s');
      LandedMore(s, i, k, keep, s1, s');
      WithstoodMore(s, i, k, keep, s1, s');
    } else {
      s' := s;
      LeadsNowhere(rule, s);
      NothingToLand(s, k, keep);
    }
  }

  /** Of `k` only `z` is open, and it lands. */
  lemma LandLast(rule: Rule, s: Load, k: Key, z: Write) returns (s': Load)
    requires s.eng.buffer == [] && Keyed(s) && z in s.open && z.key == k
    requires forall x | x in s.open && x.key == k :: x == z
    ensures Leads(rule, s, s') && OnlyLanded(s, s') && k in s'.target
    ensures s'.target[k] == if k in s.target && s.target[k].version > z.version then s.target[k] else z
    ensures forall x | x in Pending(s') && x.key == k :: x == z
  {
    hide Leads;
    var i :| 0 <= i < |s.open| && s.open[i] == z;
    s' := LandOne(rule, s, i);
    assert Writes(s'.eng.buffer) == [];
    assert Pending(s') == s'.open;
  }

  // -------------------------------------------------------------- forgetting

  /** The change a tombstone stands for, if the key's last, was a delete. */
  lemma UnfairForgetIsOfADelete(s: Load, k: Key, e: Write)
    requires Good(s) && k in s.target && s.target[k].doc.None? && LastTaken(s, k, e)
    requires !Calm(s.hist, s.clock, Pool(s.(target := s.target - {k}), k), e.version)
    ensures e.doc.None?
  {
    var s1 := s.(target := s.target - {k});
    hide Good, Calm, WindowOk, RowsOk, ChannelOk, WaveOk, LastTaken, Stale, Covered;
    GoodHas(s);
    assert KeyOk(s, k);
    hide KeyOk;
    if e.doc.Some? {
      ForgottenStaysCovered(s, s1, k, e);
      ForgetsFit(s, s1, k);
      CalmWhenCovered(s1, k, e.version);
    }
  }

  lemma ForgottenStaysCovered(s: Load, s1: Load, k: Key, e: Write)
    requires Basics(s) && StreamOk(s) && PoolOk(s) && LastTaken(s, k, e) && e.doc.Some? && KeyOk(s, k)
    requires k in s.target && s.target[k].doc.None? && s1 == s.(target := s.target - {k})
    ensures Covered(Pool(s1, k), e.version)
  {
    var d := s.target[k];
    PoolIsTold(s, k, d) by { assert d in Pool(s, k); }
    DeleteIsOlder(s, k, e, d);
    ForgetsPool(s, k, k);
    hide Pool, Calm, LastTaken, StreamOk, PoolOk;
    var y :| y in Pool(s, k) && y.version >= e.version;
    assert y in Pool(s1, k);
  }

  /** A tombstone forgotten over a document that can still come out on top: the
      open requests may land so that it does. */
  lemma UnfairForgetUndoes(s: Load, k: Key) returns (s': Load)
    requires Good(s) && May(s, Forgets(k)) && !ForgetOk(s, k)
    ensures Leads(Fairly, Make(s, Forgets(k)), s') && Undone(s', k)
  {
    var s0 := Make(s, Forgets(k));
    assert s0 == s.(target := s.target - {k});
    hide Good, Make, Calm;
    var e :| LastTaken(s, k, e) && !Calm(s.hist, s.clock, Pool(s0, k), e.version);
    UnfairForgetIsOfADelete(s, k, e);
    StillLast(s, k, e);
    assert Keyed(s0) by { GoodIsKeyed(s); }
    s' := StaleComesOut(s0, k, e);
  }

  lemma GoodIsKeyed(s: Load)
    requires Good(s)
    ensures Keyed(s)
  {
    hide Good;
    GoodHas(s);
    hide Basics, StreamOk, WindowOk, RowsOk, ChannelOk, WaveOk, KeyOk, Fit;
  }

  lemma StillLast(s: Load, k: Key, e: Write)
    requires LastTaken(s, k, e)
    ensures LastTaken(s.(target := s.target - {k}), k, e)
  {
    var s1 := s.(target := s.target - {k});
    assert forall x :: Taken(s1, k, x) == Taken(s, k, x);
    hide Taken;
  }

  lemma StaleComesOut(s: Load, k: Key, e: Write) returns (s': Load)
    requires Keyed(s) && k !in s.target && LastTaken(s, k, e) && e.doc.None?
    requires !Calm(s.hist, s.clock, Pool(s, k), e.version)
    ensures Leads(Fairly, s, s') && Undone(s', k)
  {
    hide Stale, Leads;
    var z :| z in Pool(s, k) && Stale(s.hist, s.clock, z, e.version) && !Outranked(s.hist, s.clock, Pool(s, k), z, e.version);
    var s1 := OpenAll(Fairly, s);
    assert Pool(s1, k) == Pool(s, k);
    var s2 := LandRest(Fairly, s1, k, {z});
    LeadsOn(Fairly, s, s1, s2);
    assert z in s2.open;
    s' := LandLast(Fairly, s2, k, z);
    LeadsOn(Fairly, s, s2, s');
    assert s'.target[k] == z || (s'.target[k] in Pool(s, k) && s'.target[k].version > z.version);
    assert Stale(s.hist, s.clock, s'.target[k], e.version);
    assert Taken(s', k, e);
  }

  /** Forgetting a tombstone lets no delete of its key be undone exactly when no
      document from before the key's last change can still come out on top. */
  lemma ForgetExactly(s: Load, k: Key)
    requires Good(s) && May(s, Forgets(k))
    ensures ForgetOk(s, k) <==> forall s' | Leads(Fairly, Make(s, Forgets(k)), s') :: !Undone(s', k)
  {
    hide Good, May, Make, Undone, Leads;
    if ForgetOk(s, k) {
      MakeKeeps(s, Forgets(k));
      forall s' | Leads(Fairly, Make(s, Forgets(k)), s') ensures !Undone(s', k) {
        LeadsKeeps(Make(s, Forgets(k)), s');
        NeverUndone(s', k);
      }
    } else {
      var s' := UnfairForgetUndoes(s, k);
    }
  }

  /** What a target could check: no write of the key on its way is older than the
      tombstone. */
  lemma NoneOlderMayForget(s: Load, k: Key)
    requires Good(s) && May(s, Forgets(k))
    requires forall x | x in Pending(s) && x.key == k :: x.version >= s.target[k].version
    ensures ForgetOk(s, k)
  {
    hide Good, Basics, StreamOk, WindowOk, PoolOk, RowsOk, ChannelOk, WaveOk, Stale, LastTaken;
    GoodHas(s);
    assert KeyOk(s, k);
    hide KeyOk;
    var s1 := s.(target := s.target - {k});
    ForgetsPool(s, k, k);
    SamePending(s, s1);
    hide Pending;
    forall e | LastTaken(s, k, e) ensures Calm(s.hist, s.clock, Pool(s1, k), e.version) {
      assert Calm(s.hist, s.clock, Pool(s, k), e.version) by { assert KeyOk(s, k); }
      forall z | z in Pool(s1, k) && Stale(s.hist, s.clock, z, e.version)
        ensures Outranked(s.hist, s.clock, Pool(s1, k), z, e.version)
      {
        var x :| x in Pool(s, k) && x.version > z.version && !Stale(s.hist, s.clock, x, e.version);
        assert x in Pool(s1, k);
      }
    }
  }
}
