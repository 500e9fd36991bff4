/** Another loader empties the engine's record of deletes while rows of our wave
    are still on their way, or has closed the window so that a delete is not
    remembered: when that undoes a delete, and when it cannot. */
module Marks {
  import opened Wrappers
  import opened Source
  import opened Target
  import opened Ranges
  import opened Engine
  import opened Protocol
  import opened Tombstones
  import opened Undoing

  // ------------------------------------------- one row to come for each key

  /** The row of its key that range `i` of the wave read. */
  ghost predicate ReadIn(s: Load, i: nat, w: Write) {
    && InWaveAt(s, i) && s.phase.wave[i].Copying? && Range(s, i).Contains(w.key.id)
    && w.version == s.phase.wave[i].v && w.doc == DocAt(s.hist, s.phase.wave[i].s, w.key)
  }

  ghost predicate ReadSomewhere(s: Load, w: Write) {
    exists i :: ReadIn(s, i, w)
  }

  ghost predicate Single(s: Load) {
    forall x, y | ToCome(s, x) && ToCome(s, y) && x.key == y.key :: x == y
  }

  ghost predicate MarkBehind(s: Load, i: nat) {
    exists j :: i < j < |s.copy| && s.copy[j].OwnMark?
  }

  /** Rows come from the wave now read, one wave at a time. */
  ghost predicate Paced(s: Load) {
    && Single(s)
    && (s.phase.InWave? ==> forall w | ToCome(s, w) :: ReadSomewhere(s, w))
    && (s.phase.Between? || s.phase.Over? ==> forall w :: !ToCome(s, w))
    && (s.phase.Marked? ==> forall i | s.copied <= i < |s.copy| && s.copy[i].Row? :: MarkBehind(s, i))
  }

  lemma ReadOnce(s: Load, i: nat, j: nat, x: Write, y: Write)
    requires StrictlyIncreasing(s.bounds) && ReadIn(s, i, x) && ReadIn(s, j, y) && x.key == y.key
    ensures x == y
  {
    ExactlyOneRange(s.bounds, x.key.id, s.done + i);
    ExactlyOneRange(s.bounds, x.key.id, s.done + j);
  }

  lemma WaveIsSingle(s: Load)
    requires StrictlyIncreasing(s.bounds) && forall w | ToCome(s, w) :: ReadSomewhere(s, w)
    ensures Single(s)
  {
    hide ReadIn, ToCome;
    forall x, y | ToCome(s, x) && ToCome(s, y) && x.key == y.key ensures x == y {
      var i :| ReadIn(s, i, x);
      var j :| ReadIn(s, j, y);
      ReadOnce(s, i, j, x, y);
    }
  }

  /** Nothing of the loader's moved but what was taken off the channel. */
  lemma PacedAside(s: Load, s': Load)
    requires Paced(s) && s'.copy == s.copy && s.copied <= s'.copied <= |s.copy| && s'.phase == s.phase
    requires s'.hist == s.hist && s'.bounds == s.bounds && s'.done == s.done
    ensures Paced(s')
  {
    forall w | ToCome(s', w) ensures ToCome(s, w) {
      assert forall x | x in s.copy[s'.copied..] :: x in s.copy[s.copied..] by {
        assert s.copy[s'.copied..] == s.copy[s.copied..][s'.copied - s.copied..];
      }
    }
    assert forall i, w :: ReadIn(s', i, w) == ReadIn(s, i, w);
    assert forall i :: MarkBehind(s', i) == MarkBehind(s, i);
    hide ReadIn, ToCome, MarkBehind;
    forall w | ReadSomewhere(s, w) ensures ReadSomewhere(s', w) {
      var i :| ReadIn(s, i, w);
      assert ReadIn(s', i, w);
    }
    hide ReadSomewhere;
  }

  lemma CommitsPaced(s: Load, s': Load, x: Txn)
    requires Basics(s) && WaveOk(s) && Paced(s) && x.pos > s.clock && s' == s.(hist := s.hist + [x], clock := x.pos)
    ensures Paced(s')
  {
    assert forall w :: ToCome(s', w) == ToCome(s, w);
    assert forall i :: MarkBehind(s', i) == MarkBehind(s, i);
    forall i: nat, w | ReadIn(s, i, w) ensures ReadIn(s', i, w) {
      assert ReadOk(s, Range(s, i), s.phase.wave[i]);
      CommitKeepsThePast(s.hist, x, s.phase.wave[i].s, w.key);
    }
    hide ReadIn, ToCome, MarkBehind;
    forall w | ReadSomewhere(s, w) ensures ReadSomewhere(s', w) {
      var i :| ReadIn(s, i, w);
      assert ReadIn(s', i, w);
    }
    hide ReadSomewhere;
  }

  /** In a wave: whatever is to come was to come, or has just been read. */
  lemma PacedInWave(s: Load, s': Load, i: nat, r: RangeRead)
    requires Paced(s) && StrictlyIncreasing(s.bounds) && InWaveAt(s, i) && s'.phase == InWave(s.phase.wave[i := r])
    requires s'.hist == s.hist && s'.bounds == s.bounds && s'.done == s.done
    requires s.phase.wave[i].Copying? ==> r.Copying? && r.v == s.phase.wave[i].v && r.s == s.phase.wave[i].s
    requires forall w | ToCome(s', w) :: ToCome(s, w) || ReadIn(s', i, w)
    ensures Paced(s')
  {
    forall j, w | ReadIn(s, j, w) ensures ReadIn(s', j, w) {}
    hide ReadIn, ToCome;
    forall w | ToCome(s', w) ensures ReadSomewhere(s', w) {
      if ToCome(s, w) {
        var j :| ReadIn(s, j, w);
        assert ReadIn(s', j, w);
      }
    }
    hide ReadSomewhere;
    WaveIsSingle(s');
  }

  lemma SnapshotsPaced(s: Load, i: nat)
    requires Basics(s) && Paced(s) && May(s, Snapshots(i))
    ensures Paced(Make(s, Snapshots(i)))
  {
    var s' := Make(s, Snapshots(i));
    var v := s.phase.wave[i].v;
    var rows := RowsOf(s.hist, s.clock, s.table, Range(s, i), v);
    forall w | w in rows ensures ReadIn(s', i, w) {}
    hide RowsOf, ReadIn, Paced, Increasing;
    assert forall w | ToCome(s', w) :: ToCome(s, w) || w in rows;
    hide ToCome;
    PacedInWave(s, s', i, Copying(v, s.clock, rows));
  }

  lemma LocatesPaced(s: Load, i: nat)
    requires Basics(s) && Paced(s) && May(s, Locates(i))
    ensures Paced(Make(s, Locates(i)))
  {
    var s' := Make(s, Locates(i));
    hide ReadIn, Paced, Increasing;
    assert forall w | ToCome(s', w) :: ToCome(s, w);
    hide ToCome;
    PacedInWave(s, s', i, Located(s.clock));
  }

  lemma SendsRowPaced(s: Load, i: nat, w: Write)
    requires Basics(s) && ChannelOk(s) && Paced(s) && May(s, SendsRow(i, w))
    ensures Paced(Make(s, SendsRow(i, w)))
  {
    var s' := Make(s, SendsRow(i, w));
    var r := s.phase.wave[i];
    SendsRowToCome(s, s', i, w);
    hide ReadIn, Paced, Increasing, ToCome, ChannelOk;
    PacedInWave(s, s', i, r.(left := r.left - {w}));
  }

  lemma SendsMarkPaced(s: Load)
    requires Basics(s) && ChannelOk(s) && Paced(s) && May(s, SendsMark)
    ensures Paced(Make(s, SendsMark))
  {
    var s' := Make(s, SendsMark);
    MarkToCome(s, s');
    hide ToCome, ChannelOk, ReadSomewhere;
    forall i | s'.copied <= i < |s'.copy| && s'.copy[i].Row? ensures MarkBehind(s', i) {
      assert s'.copy[|s.copy|].OwnMark?;
    }
  }

  lemma SeesMarkPaced(s: Load)
    requires Paced(s) && May(s, SeesMark)
    ensures Paced(Make(s, SeesMark))
  {
    var s' := Make(s, SeesMark);
    assert forall i | s.copied <= i < |s.copy| :: s.copy[i] in s.copy[s.copied..];
    assert forall w :: !ToCome(s', w);
    hide ToCome;
  }

  lemma StartsWavePaced(s: Load, width: nat)
    requires Paced(s) && May(s, StartsWave(width))
    ensures Paced(Make(s, StartsWave(width)))
  {
    var s' := Make(s, StartsWave(width));
    forall w ensures !ToCome(s', w) { assert !ToCome(s, w); }
    hide ToCome;
  }

  lemma HeardPaced(s: Load, s': Load)
    requires Basics(s) && Paced(s) && s' == s.(copy := s'.copy) && Hears(s, s')
    ensures Paced(s')
  {
    assert s'.copy == s.copy || s'.copy[s'.copied..] == s.copy[s.copied..] + [s'.copy[|s.copy|]];
    assert forall w :: ToCome(s', w) == ToCome(s, w);
    assert forall i, w :: ReadIn(s', i, w) == ReadIn(s, i, w);
    forall i: nat | MarkBehind(s, i) ensures MarkBehind(s', i) {
      var j :| i < j < |s.copy| && s.copy[j].OwnMark?;
      assert s'.copy[j].OwnMark?;
    }
    hide ReadIn, ToCome, MarkBehind;
    forall w | ReadSomewhere(s, w) ensures ReadSomewhere(s', w) {
      var i :| ReadIn(s, i, w);
      assert ReadIn(s', i, w);
    }
    hide ReadSomewhere;
  }

  lemma MakePaced(s: Load, m: Move)
    requires Good(s) && Paced(s) && May(s, m)
    ensures Paced(Make(s, m))
  {
    hide Good, Paced;
    GoodHas(s);
    hide StreamOk, WindowOk, PoolOk, RowsOk, WaveOk, KeyOk, ChannelOk;
    match m
    case Commits(pos, changes) => CommitsPaced(s, Make(s, m), Txn(pos, changes));
    case StartsWave(width) => StartsWavePaced(s, width);
    case Locates(i) => LocatesPaced(s, i);
    case Snapshots(i) => SnapshotsPaced(s, i);
    case SendsRow(i, w) => SendsRowPaced(s, i, w);
    case SendsMark => SendsMarkPaced(s);
    case SeesMark => SeesMarkPaced(s);
    case OtherLoaderMarks => HeardPaced(s, Make(s, m));
    case OtherLoaderStarts => HeardPaced(s, Make(s, m));
    case OtherLoaderFinishes => HeardPaced(s, Make(s, m));
    case _ => PacedAside(s, Make(s, m));
  }

  lemma {:induction false} PlaysPaced(s: Load, moves: seq<Move>, s': Load)
    requires Good(s) && Paced(s) && Plays(Fairly, s, moves, s')
    ensures Paced(s')
    decreases |moves|
  {
    hide Good, May, Make, Fair, Paced;
    if moves != [] {
      MakeKeeps(s, moves[0]);
      MakePaced(s, moves[0]);
      PlaysPaced(Make(s, moves[0]), moves[1..], s');
    }
  }

  lemma PlayedIsPaced(s: Load)
    requires Played(Fairly, s)
    ensures Good(s) && Paced(s)
  {
    var s0 :| Begins(s0) && Leads(Fairly, s0, s);
    assert forall w :: !ToCome(s0, w);
    assert Paced(s0) by { hide ToCome; }
    hide Good, Paced;
    PlayedIsGood(s);
    BeginsGood(s0);
    var moves :| Plays(Fairly, s0, moves, s);
    PlaysPaced(s0, moves, s);
  }

  // ------------------------------------------------------- settling one key

  predicate Modest(rule: Rule) {
    rule.Quietly? || rule.Silently?
  }

  /** Everything of `k` lands, its removals last: only a document that no removal
      displaces can still show. */
  lemma LandKey(rule: Rule, s: Load, k: Key) returns (s': Load)
    requires Modest(rule) && Keyed(s)
    ensures Leads(rule, s, s') && OnlyLanded(s, s') && s'.eng.buffer == [] && Keyed(s')
    ensures forall x | x in s'.open :: x.key != k
    ensures k in s'.target && s'.target[k].doc.Some? ==> Shield(s, k, s'.target[k])
  {
    hide Leads, Landed, Withstood, Shield, Pool;
    var s1 := OpenAll(rule, s);
    var removals := set x | x in s1.open && x.doc.None?;
    var s2 := LandRest(rule, s1, k, removals);
    LeadsOn(rule, s, s1, s2);
    LandedHas(s1, k, removals, s2);
    s' := LandRest(rule, s2, k, {});
    LeadsOn(rule, s, s2, s');
    LandedHas(s2, k, {}, s');
    hide Pending;
    if k in s'.target && s'.target[k].doc.Some? { LeftIsShield(s, s1, s2, s', k, removals); }
  }

  /** ... and a tombstone left is forgotten. */
  lemma SettleKey(rule: Rule, s: Load, k: Key) returns (s': Load)
    requires Modest(rule) && Keyed(s)
    ensures Leads(rule, s, s') && OnlyLanded(s, s') && s'.eng.buffer == [] && Keyed(s')
    ensures forall x | x in s'.open :: x.key != k
    ensures k in s'.target ==> Shield(s, k, s'.target[k])
  {
    hide Leads, Shield, ForgetOk, Pending;
    var s1 := LandKey(rule, s, k);
    s' := s1;
    if k in s1.target && s1.target[k].doc.None? {
      MayForget(rule, s1, k);
      LeadsThenOne(rule, s, s1, Forgets(k));
      s' := Make(s1, Forgets(k));
    }
  }

  lemma LandedHas(s: Load, k: Key, keep: set<Write>, s': Load)
    requires Landed(s, k, keep, s')
    ensures OnlyLanded(s, s') && s'.eng.buffer == [] && Keyed(s')
    ensures forall x | x in s'.open :: x in s.open && (x.key == k ==> x in keep)
  {
  }

  lemma MayForget(rule: Rule, s: Load, k: Key)
    requires Modest(rule) && s.eng.buffer == [] && k in s.target && s.target[k].doc.None? && forall x | x in s.open :: x.key != k
    ensures May(s, Forgets(k)) && Allowed(rule, s, Forgets(k))
  {
    var s1 := s.(target := s.target - {k});
    assert Writes(s.eng.buffer) == [];
    assert Pending(s1) == s.open;
    assert Pool(s1, k) == {};
    hide Pool;
  }

  lemma LeftIsShield(s: Load, s1: Load, s2: Load, s3: Load, k: Key, removals: set<Write>)
    requires s1.open == Pending(s) == Pending(s1) && s1.target == s.target && removals == (set x | x in s1.open && x.doc.None?)
    requires Landed(s1, k, removals, s2) && Withstood(s2, k, {}, s3) && k in s3.target && s3.target[k].doc.Some?
    ensures Shield(s, k, s3.target[k])
  {
    hide Pending;
    assert forall x | x in s2.open && x.key == k :: x.doc.None?;
    var x := s3.target[k];
    assert k in s2.target && x == s2.target[k];
    assert x in Pool(s, k);
    forall y | y in Pending(s) && y.key == k && y.doc.None? ensures y.version < x.version {
      assert y in removals;
      assert y in s2.open;
    }
  }

  // ------------------------------------------------------- taking one row in

  /** What the loader and its channel hold is fit to go on. */
  ghost predicate CanGoOn(s: Load) {
    && s.copied <= |s.copy| && Single(s) && s.eng.superseded == map[]
    && (forall w | ToCome(s, w) :: w.doc.Some?)
    && (s.phase.InWave? ==> s.done + |s.phase.wave| <= |s.bounds| + 1)
  }

  lemma SendIt(rule: Rule, s: Load, w: Write) returns (s': Load)
    requires Modest(rule) && CanGoOn(s) && ToCome(s, w)
    ensures Leads(rule, s, s') && CanGoOn(s') && s' == s.(phase := s'.phase, copy := s'.copy)
    ensures Row(w) in s'.copy[s'.copied..]
  {
    if Row(w) in s.copy[s.copied..] {
      s' := s;
      LeadsNowhere(rule, s);
    } else {
      var i: nat :| i < |s.phase.wave| && s.phase.wave[i].Copying? && w in s.phase.wave[i].left;
      hide Leads;
      LeadsByOne(rule, s, SendsRow(i, w));
      s' := Make(s, SendsRow(i, w));
      assert s'.copy[s'.copied..] == s.copy[s.copied..] + [Row(w)];
      assert ToCome(s, w);
      assert forall x | ToCome(s', x) :: ToCome(s, x);
      hide ToCome;
    }
  }

  ghost predicate OnlyOf(s: Load, k: Key, w: Write) {
    forall x | x in Pending(s) && x.key == k :: x == w
  }

  lemma TakeIsReady(s: Load, s': Load)
    requires CanGoOn(s) && s.copied < |s.copy| && s' == TakeNextCopy(s)
    ensures CanGoOn(s') && s' == s.(eng := s'.eng, copied := s.copied + 1)
    ensures s.copy[s.copied].Row? ==> !Dropped(s.eng, s.copy[s.copied].w) && s'.eng == TakeRow(s.eng, s.copy[s.copied].w)
    ensures !s.copy[s.copied].Row? ==> s'.eng.buffer == s.eng.buffer
  {
    if s.copy[s.copied].Row? { assert ToCome(s, s.copy[s.copied].w) by { assert s.copy[s.copied] in s.copy[s.copied..]; } }
    forall x | ToCome(s', x) ensures ToCome(s, x) { CopiedToCome(s, s', x); }
    hide ToCome;
  }

  lemma TakeOne(rule: Rule, s: Load, w: Write) returns (s': Load)
    requires Modest(rule) && CanGoOn(s) && s.copied < |s.copy| && ToCome(s, w) && OnlyOf(s, w.key, w)
    ensures Leads(rule, s, s') && CanGoOn(s') && s' == s.(eng := s'.eng, copied := s.copied + 1) && OnlyOf(s', w.key, w)
    ensures s.copy[s.copied] == Row(w) ==> w in Pending(s')
    ensures forall x | x in s.copy[s'.copied..] :: x in s.copy[s.copied..]
  {
    LeadsByOne(rule, s, TakesCopy);
    s' := Make(s, TakesCopy);
    TakeIsReady(s, s');
    assert s.copy[s.copied..] == [s.copy[s.copied]] + s.copy[s'.copied..];
    hide Leads, TakeNextCopy, Make;
    if s.copy[s.copied].Row? {
      var x := s.copy[s.copied].w;
      assert ToCome(s, x);
      hide ToCome, TakeRow;
      assert Single(s);
      PendingGrows(s, s', x);
      hide Pending;
    } else {
      SamePending(s, s');
      hide Pending, ToCome;
    }
  }

  lemma {:induction false} TakeUpTo(rule: Rule, s: Load, w: Write) returns (s': Load)
    requires Modest(rule) && CanGoOn(s) && Row(w) in s.copy[s.copied..] && OnlyOf(s, w.key, w)
    ensures Leads(rule, s, s') && s' == s.(eng := s'.eng, copied := s'.copied) && OnlyOf(s', w.key, w) && w in Pending(s')
    decreases |s.copy| - s.copied
  {
    assert ToCome(s, w);
    hide Leads, CanGoOn;
    assert s.copied < |s.copy| by { assert |s.copy[s.copied..]| > 0; }
    assert s.copy[s.copied..] == [s.copy[s.copied]] + s.copy[s.copied + 1..];
    var s1 := TakeOne(rule, s, w);
    hide ToCome, OnlyOf, Pending;
    if s.copy[s.copied] == Row(w) {
      s' := s1;
    } else {
      s' := TakeUpTo(rule, s1, w);
      LeadsOn(rule, s, s1, s');
    }
  }

  // -------------------------------------------------------- the failing case

  /** A row that would undo a delete of its key, were nothing remembered. */
  ghost predicate Harms(s: Load, w: Write, e: Write) {
    && LastTaken(s, w.key, e) && w.version < e.version && !TrueAt(s.hist, s.clock, w, e.version)
    && !Shielded(s, w.key, w.version)
  }

  /** A document taken last would have been the shield. */
  lemma HarmIsToADelete(s: Load, w: Write, e: Write)
    requires Good(s) && Harms(s, w, e)
    ensures e.doc.None?
  {
    hide Good, Shielded, Calm, Stale, WindowOk, RowsOk, ChannelOk, WaveOk;
    GoodHas(s);
    var k := w.key;
    assert KeyOk(s, k);
    hide KeyOk;
    if e.doc.Some? {
      DocumentIsShield(s, k, e);
      ShieldedLower(s, k, e.version, w.version);
    }
  }

  lemma DocumentIsShield(s: Load, k: Key, e: Write)
    requires Basics(s) && StreamOk(s) && PoolOk(s) && KeyOk(s, k) && LastTaken(s, k, e) && e.doc.Some?
    ensures exists x :: Shield(s, k, x) && x.version >= e.version
  {
    assert Covered(Pool(s, k), e.version) by { hide Calm, Pool; }
    var y :| y in Pool(s, k) && y.version >= e.version;
    forall x | x in Pool(s, k) && x.doc.None? ensures x.version < e.version {
      PoolIsTold(s, k, x);
      DeleteIsOlder(s, k, e, x);
    }
    hide LastTaken, PoolOk, StreamOk, KeyOk, Pending, Increasing;
    assert y.doc.Some?;
    assert forall x | x in Pending(s) && x.key == k :: x in Pool(s, k);
    assert k in s.target ==> s.target[k] in Pool(s, k);
    assert Shield(s, k, y);
  }

  lemma ShieldedLower(s: Load, k: Key, v: nat, u: nat)
    requires u < v && exists x :: Shield(s, k, x) && x.version >= v
    ensures Shielded(s, k, u)
  {
    hide Shield;
  }

  /** What a mark or a finish of another loader makes of the state. */
  ghost predicate Clears(s: Load, s0: Load) {
    && ClearsNext(s)
    && s0 == s.(eng := s.eng.(superseded := map[], loadRunning := s0.eng.loadRunning), copied := s.copied + 1)
  }

  lemma ReadyBehindTheMark(s: Load, s0: Load, w: Write)
    requires Basics(s) && RowsOk(s) && WaveOk(s) && Single(s) && ToCome(s, w) && Clears(s, s0)
    ensures CanGoOn(s0) && ToCome(s0, w)
  {
    hide RowsOk, Increasing, KeyRead, ReadOk;
    forall x | ToCome(s0, x) ensures ToCome(s, x) { CopiedToCome(s, s0, x); }
    assert s.copy[s.copied..] == [s.copy[s.copied]] + s.copy[s0.copied..];
    assert ToCome(s0, w);
    hide ToCome;
    forall x | ToCome(s, x) ensures x.doc.Some? { ToComeIsADocument(s, x); }
    assert Single(s0);
  }

  lemma ToComeIsADocument(s: Load, w: Write)
    requires Basics(s) && RowsOk(s) && WaveOk(s) && ToCome(s, w)
    ensures w.doc.Some?
  {
    if Row(w) in s.copy[s.copied..] {
      var i :| s.copied <= i < |s.copy| && s.copy[i] == Row(w);
    } else {
      var i :| 0 <= i < |s.phase.wave| && s.phase.wave[i].Copying? && w in s.phase.wave[i].left;
      assert ReadOk(s, Range(s, i), s.phase.wave[i]);
    }
  }

  lemma SomeRowHarms(s: Load) returns (w: Write, e: Write)
    requires !MarkOk(s)
    ensures ToCome(s, w) && Harms(s, w, e)
  {
    hide ToCome, LastTaken, TrueAt, Shielded;
    w :| ToCome(s, w) && !Harmless(s, w);
    e :| LastTaken(s, w.key, e)
      && !(w.version >= e.version || TrueAt(s.hist, s.clock, w, e.version) || Shielded(s, w.key, w.version));
  }

  lemma UnfairMarkUndoes(rule: Rule, s: Load, s0: Load) returns (s': Load, k: Key)
    requires Modest(rule) && Clears(s, s0)
    requires Good(s) && Single(s) && !MarkOk(s)
    ensures Leads(rule, s0, s') && Undone(s', k)
  {
    hide Good, MarkOk, Harms, ToCome, CanGoOn, Keyed, Leads, Undone, Single;
    var w, e := SomeRowHarms(s);
    k := w.key;
    HarmIsToADelete(s, w, e);
    GoodIsKeyed(s);
    GoodHas(s);
    hide Basics, StreamOk, WindowOk, PoolOk, RowsOk, WaveOk, KeyOk, ChannelOk;
    ReadyBehindTheMark(s, s0, w);
    s' := RowComesOut(rule, s, s0, w, e);
  }

  lemma RowComesOut(rule: Rule, s: Load, s0: Load, w: Write, e: Write) returns (s': Load)
    requires Modest(rule) && Keyed(s) && Harms(s, w, e) && e.doc.None? && CanGoOn(s0) && ToCome(s0, w)
    requires s0 == s.(eng := s0.eng, copied := s0.copied) && s0.eng.buffer == s.eng.buffer
    ensures Leads(rule, s0, s') && Undone(s', w.key)
  {
    var k := w.key;
    hide Leads, TrueAt;
    var s1 := SettleKey(rule, s0, k);
    assert CanGoOn(s1) && ToCome(s1, w) by { assert forall x :: ToCome(s1, x) == ToCome(s0, x); }
    assert OnlyOf(s1, k, w) by { assert Pending(s1) == s1.open; }
    assert k in s1.target ==> s1.target[k].version <= w.version by { SameShield(s, s0, k); }
    assert w.doc.Some? by { assert ToCome(s0, w); }
    hide Shield, Shielded, ToCome;
    var s2 := SendIt(rule, s1, w);
    assert Pending(s2) == Pending(s1);
    var s3 := TakeUpTo(rule, s2, w);
    var s4 := OpenAll(rule, s3);
    s' := LandLast(rule, s4, k, w);
    LeadsOn(rule, s0, s1, s2);
    LeadsOn(rule, s0, s2, s3);
    LeadsOn(rule, s0, s3, s4);
    LeadsOn(rule, s0, s4, s');
    assert s'.target[k] == w && Taken(s', k, e);
  }

  lemma SameShield(s: Load, s0: Load, k: Key)
    requires s0.open == s.open && s0.eng.buffer == s.eng.buffer && s0.target == s.target
    ensures forall x :: Shield(s0, k, x) == Shield(s, k, x)
  {
    SamePending(s, s0);
    assert Pool(s0, k) == Pool(s, k);
    hide Pending, Pool;
  }

  // ------------------------------------------------------------ the exact guard

  /** With nothing remembered every row to come is harmless. */
  lemma EmptyMayMark(s: Load)
    requires RowsOk(s) && s.eng.superseded == map[]
    ensures MarkOk(s)
  {
    hide ToCome, Harmless;
  }

  lemma CopyStaysEmpty(s: Load)
    requires RowsOk(s) && s.eng.superseded == map[] && s.copied < |s.copy|
    ensures TakeNextCopy(s).eng.superseded == map[]
  {
    if s.copy[s.copied].Row? { NextIsSafe(s, s.copy[s.copied].w); }
    hide Harmless, Told, RowSafe;
  }

  /** With nothing remembered and every row harmless, quiet moves stay fair. */
  lemma QuietIsFair(s: Load, m: Move)
    requires Good(s) && s.eng.superseded == map[] && May(s, m) && Allowed(Quietly, s, m)
    ensures Fair(s, m) && Make(s, m).eng.superseded == map[]
  {
    hide Good, ForgetOk, MarkOk, TakeNextCopy;
    GoodHas(s);
    hide Basics, StreamOk, WindowOk, PoolOk, RowsOk, KeyOk, ChannelOk, WaveOk;
    EmptyMayMark(s);
    if m.TakesCopy? { CopyStaysEmpty(s); }
  }

  lemma {:induction false} QuietKeeps(s: Load, moves: seq<Move>, s': Load)
    requires Good(s) && s.eng.superseded == map[] && Plays(Quietly, s, moves, s')
    ensures Good(s')
    decreases |moves|
  {
    hide Good, May, Make, Fair, Allowed;
    if moves != [] {
      QuietIsFair(s, moves[0]);
      MakeKeeps(s, moves[0]);
      QuietKeeps(Make(s, moves[0]), moves[1..], s');
    }
  }

  lemma QuietNeverUndoes(s: Load, s': Load, k: Key)
    requires Good(s) && s.eng.superseded == map[] && Leads(Quietly, s, s')
    ensures !Undone(s', k)
  {
    hide Good, Undone;
    var moves :| Plays(Quietly, s, moves, s');
    QuietKeeps(s, moves, s');
    NeverUndone(s', k);
  }

  /** With no more taken off the stream and tombstones forgotten fairly, another
      loader's mark or finish lets no delete be undone exactly when every row of
      ours still to come is harmless. */
  lemma MarkExactly(s: Load)
    requires ClearsNext(s) && Good(s) && Paced(s)
    ensures MarkOk(s) <==> forall s', k | Leads(Quietly, Make(s, TakesCopy), s') :: !Undone(s', k)
  {
    hide Good, Undone, Leads, MarkOk;
    var s0 := TakeNextCopy(s);
    assert Make(s, TakesCopy) == s0 && Clears(s, s0);
    if MarkOk(s) {
      MakeKeeps(s, TakesCopy);
      forall s', k | Leads(Quietly, s0, s') ensures !Undone(s', k) { QuietNeverUndoes(s0, s', k); }
    } else {
      var s', k := UnfairMarkUndoes(Quietly, s, s0);
    }
  }

  // ----------------------------------------------------- a delete not remembered

  lemma UnfairTakeHarms(s: Load, s0: Load) returns (x: Write)
    requires Good(s) && s.taken < |s.events| && !s.eng.loadRunning && s0 == Make(s, Takes) && !TakeOk(s)
    ensures ToCome(s, x) && Harms(s0, x, s.events[s.taken]) && s.events[s.taken].doc.None?
  {
    var d := s.events[s.taken];
    GoodHas(s);
    hide Good, WindowOk, PoolOk, RowsOk, ChannelOk, WaveOk, KeyOk, Shielded, TrueAt, ToCome;
    assert s0.events == s.events && s0.taken == s.taken + 1;
    x :| ToCome(s, x) && x.key == d.key && !Harmless(s0, x);
    var e :| LastTaken(s0, x.key, e)
      && !(x.version >= e.version || TrueAt(s0.hist, s0.clock, x, e.version) || Shielded(s0, x.key, x.version));
    LastTakenNow(s, s0, x.key, e);
    TakenIsLast(s, s0, e);
  }

  lemma TakenIsLast(s: Load, s0: Load, e: Write)
    requires Basics(s) && StreamOk(s) && s.taken < |s.events| && s0.events == s.events && s0.taken == s.taken + 1
    requires Taken(s0, s.events[s.taken].key, e) && e.version == s.events[s.taken].version
    ensures e == s.events[s.taken]
  {
    var d := s.events[s.taken];
    TakenMore(s, s0, d.key, e);
    ChangeIsUnique(s.hist, s.clock, e, d);
  }

  lemma ReadyBehindTheTake(s: Load, s0: Load, x: Write)
    requires Good(s) && Single(s) && s.taken < |s.events| && !s.eng.loadRunning && ToCome(s, x) && s0 == Make(s, Takes)
    ensures CanGoOn(s0) && ToCome(s0, x) && Keyed(s0)
  {
    GoodIsKeyed(s);
    hide Good;
    GoodHas(s);
    hide StreamOk, WindowOk, PoolOk, KeyOk, ChannelOk;
    forall y | ToCome(s, y) ensures y.doc.Some? { ToComeIsADocument(s, y); }
    assert forall y :: ToCome(s0, y) == ToCome(s, y);
    hide ToCome, RowsOk, Increasing, KeyRead, ReadOk;
  }

  lemma PacedIsSingle(s: Load)
    requires Paced(s)
    ensures Single(s)
  {
    hide Single;
  }

  lemma TakenStaysEmpty(s: Load)
    requires Good(s) && s.taken < |s.events| && !s.eng.loadRunning
    ensures Make(s, Takes).eng.superseded == map[]
  {
    hide Good;
    GoodHas(s);
  }

  /** With the window closed, taking a change off the stream lets no delete be
      undone exactly when, if it is a delete, every row of its key still to come is
      harmless after it. */
  lemma TakeExactly(s: Load)
    requires s.taken < |s.events| && !s.eng.loadRunning && Good(s) && Paced(s)
    ensures TakeOk(s) <==> forall s', k | Leads(Quietly, Make(s, Takes), s') :: !Undone(s', k)
  {
    var s0 := Make(s, Takes);
    hide Undone, Leads, TakeOk, Good, Paced;
    if TakeOk(s) {
      TakenStaysEmpty(s);
      MakeKeeps(s, Takes);
      hide Make;
      forall s', k | Leads(Quietly, s0, s') ensures !Undone(s', k) { QuietNeverUndoes(s0, s', k); }
    } else {
      PacedIsSingle(s);
      hide Single, Make, Harms, CanGoOn, Keyed, ToCome;
      var x := UnfairTakeHarms(s, s0);
      ReadyBehindTheTake(s, s0, x);
      var s' := RowComesOut(Quietly, s0, s0, x, s.events[s.taken]);
    }
  }

  /** What the engine could check: no delete it remembers outranks a row of ours
      still to come. */
  lemma NothingRememberedMayMark(s: Load)
    requires Good(s) && forall w | ToCome(s, w) && w.key in s.eng.superseded :: s.eng.superseded[w.key] <= w.version
    ensures MarkOk(s)
  {
    hide Good;
    GoodHas(s);
    hide ToCome, Harmless;
  }
}
