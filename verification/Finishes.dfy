/** Another load's end closes the window: no delete is remembered from then on.
    What it leaves open is everything of our load that is still to be read or to
    arrive. */
module Finishes {
  import opened Wrappers
  import opened Source
  import opened Target
  import opened Ranges
  import opened Engine
  import opened Protocol
  import opened Tombstones
  import opened Undoing
  import opened Marks

  /** No row of ours is on its way and no range of ours is left to read. */
  ghost predicate NothingLeft(s: Load) {
    && (forall w :: !ToCome(s, w))
    && match s.phase
       case Over => true
       case InWave(wave) => s.done + |wave| > |s.bounds| && forall i | 0 <= i < |wave| :: wave[i].Copying?
       case _ => s.done > |s.bounds|
  }

  // ----------------------------------------------------- nothing left is enough

  lemma LeftIsToCome(s: Load, i: nat, w: Write)
    requires s.phase.InWave? && i < |s.phase.wave| && s.phase.wave[i].Copying? && w in s.phase.wave[i].left
    ensures ToCome(s, w)
  {
  }

  /** With no row to come, nothing read is left to send. */
  lemma NothingToSend(s: Load)
    requires (forall w :: !ToCome(s, w)) && s.phase.InWave?
    ensures forall i | 0 <= i < |s.phase.wave| && s.phase.wave[i].Copying? :: s.phase.wave[i].left == {}
  {
    hide ToCome;
    forall i | 0 <= i < |s.phase.wave| && s.phase.wave[i].Copying? ensures s.phase.wave[i].left == {} {
      if w :| w in s.phase.wave[i].left { LeftIsToCome(s, i, w); }
    }
  }

  lemma NothingLeftStays(s: Load, m: Move)
    requires Good(s) && NothingLeft(s) && May(s, m)
    ensures NothingLeft(Make(s, m))
  {
    hide Good;
    GoodHas(s);
    hide StreamOk, WindowOk, PoolOk, RowsOk, WaveOk, KeyOk;
    var s' := Make(s, m);
    if s.phase.InWave? { NothingToSend(s); }
    if m.TakesCopy? {
      forall w ensures !ToCome(s', w) { if ToCome(s', w) { CopiedToCome(s, s', w); } }
    } else if m.SendsMark? {
      MarkToCome(s, s');
    } else if m.OtherLoaderMarks? || m.OtherLoaderStarts? || m.OtherLoaderFinishes? {
      IdleToCome(s, s');
    } else if !m.SendsRow? {
      assert forall w | ToCome(s', w) :: ToCome(s, w);
    }
    hide ToCome;
  }

  lemma NothingLeftIsFair(s: Load, m: Move)
    requires NothingLeft(s) && May(s, m) && Allowed(Silently, s, m)
    ensures Fair(s, m)
  {
    hide ToCome, Harmless;
  }

  lemma {:induction false} NothingLeftKeeps(s: Load, moves: seq<Move>, s': Load)
    requires Good(s) && NothingLeft(s) && Plays(Silently, s, moves, s')
    ensures Good(s')
    decreases |moves|
  {
    hide Good, NothingLeft, May, Make, Fair, Allowed;
    if moves != [] {
      NothingLeftIsFair(s, moves[0]);
      NothingLeftStays(s, moves[0]);
      MakeKeeps(s, moves[0]);
      NothingLeftKeeps(Make(s, moves[0]), moves[1..], s');
    }
  }

  // ------------------------------------------------------- the whole stream taken

  lemma {:induction false} AsSequence(keys: set<Key>) returns (order: seq<Key>)
    ensures Elems(order) == keys
  {
    order := [];
    if keys != {} {
      var k :| k in keys;
      var rest := AsSequence(keys - {k});
      order := [k] + rest;
      assert forall x | x in keys :: x == k || x in Elems(rest);
    }
  }

  /** With the window closed and a row to come, what going on needs to know. */
  ghost predicate Lite(s: Load, w: Write) {
    Basics(s) && StreamOk(s) && PoolOk(s) && CanGoOn(s) && ToCome(s, w) && !s.eng.loadRunning
  }

  /** The first transaction not yet sent. */
  lemma {:induction false} NextUnsent(hist: seq<Txn>, cursor: nat, n: nat) returns (i: nat)
    requires n < |hist| && hist[n].pos > cursor
    ensures i <= n && hist[i].pos > cursor && (i > 0 ==> hist[i - 1].pos <= cursor)
  {
    i := n;
    if n > 0 && hist[n - 1].pos > cursor { i := NextUnsent(hist, cursor, n - 1); }
  }

  lemma SendsLite(s: Load, i: nat, order: seq<Key>, w: Write)
    requires Lite(s, w) && May(s, Sends(i, order))
    ensures Lite(Make(s, Sends(i, order)), w)
  {
    hide StreamOk, PoolOk, CanGoOn, ToCome;
    var s' := Make(s, Sends(i, order));
    SendsRows(s, s', i, order);
    hide Make, ChangesOf;
    SendsStream(s, s', i);
    hide May;
    assert Basics(s');
    SamePending(s, s');
    hide Increasing, Pending;
    PoolsStay(s, s');
    StillReady(s, s', w);
  }

  /** Neither the loader nor its channel moved. */
  lemma StillReady(s: Load, s': Load, w: Write)
    requires CanGoOn(s) && ToCome(s, w) && s'.copy == s.copy && s'.copied == s.copied && s'.phase == s.phase
    requires s'.done == s.done && s'.bounds == s.bounds && s'.eng.superseded == map[]
    ensures CanGoOn(s') && ToCome(s', w)
  {
    assert forall x :: ToCome(s', x) == ToCome(s, x);
    hide ToCome;
  }

  lemma {:induction false} SendAll(s: Load, w: Write) returns (s': Load)
    requires Lite(s, w) && s.hist != [] && s.hist[|s.hist| - 1].pos == s.clock
    ensures Leads(Silently, s, s') && Lite(s', w) && s'.cursor == s.clock && s.events <= s'.events
    ensures s' == s.(events := s'.events, cursor := s'.cursor)
    decreases s.clock - s.cursor
  {
    hide Leads, StreamOk, PoolOk, CanGoOn, ToCome;
    if s.cursor == s.clock {
      s' := s;
      LeadsNowhere(Silently, s);
    } else {
      var i := NextUnsent(s.hist, s.cursor, |s.hist| - 1);
      var order := AsSequence(s.hist[i].changes.Keys);
      SendsLite(s, i, order, w);
      LeadsByOne(Silently, s, Sends(i, order));
      var s1 := Make(s, Sends(i, order));
      assert s1 == s.(events := s1.events, cursor := s1.cursor) && s.events <= s1.events && s1.cursor == s.hist[i].pos;
      hide Make, May, Allowed, Lite;
      s' := SendAll(s1, w);
      LeadsOn(Silently, s, s1, s');
    }
  }

  lemma TakesLite(s: Load, w: Write) returns (s': Load)
    requires Lite(s, w) && s.taken < |s.events|
    ensures Leads(Silently, s, s') && Lite(s', w) && s' == s.(eng := s'.eng, taken := s.taken + 1)
    ensures Pending(s') == Pending(s) + [s.events[s.taken]]
  {
    LeadsByOne(Silently, s, Takes);
    s' := Make(s, Takes);
    var x := s.events[s.taken];
    assert !Dropped(s.eng, x);
    hide Leads;
    PendingGrows(s, s', x);
    hide CanGoOn, ToCome, StreamOk, PoolOk, Pending;
    TakesFit(s, s', x);
    StreamStays(s, s');
    StillReady(s, s', w);
  }

  lemma {:induction false} TakeAll(s: Load, w: Write) returns (s': Load)
    requires Lite(s, w)
    ensures Leads(Silently, s, s') && Lite(s', w) && s'.taken == |s.events|
    ensures s' == s.(eng := s'.eng, taken := s'.taken)
    ensures forall x | x in Pending(s) :: x in Pending(s')
    ensures forall j | s.taken <= j < |s.events| :: s.events[j] in Pending(s')
    decreases |s.events| - s.taken
  {
    assert s.taken <= |s.events|;
    hide *;
    if s.taken == |s.events| {
      s' := s;
      LeadsNowhere(Silently, s);
    } else {
      var s1 := TakesLite(s, w);
      assert s.events[s.taken] in Pending(s1);
      s' := TakeAll(s1, w);
      LeadsOn(Silently, s, s1, s');
    }
  }

  // ------------------------------------------------ a delete nobody remembers

  /** The engine's window is closed and no start is on its way to open it. */
  ghost predicate Shut(s: Load) {
    && Good(s) && Paced(s) && !s.eng.loadRunning && s.copied <= |s.copy| && OtherStart !in s.copy[s.copied..]
  }

  lemma ShutIsLite(s: Load, w: Write)
    requires Shut(s) && ToCome(s, w)
    ensures Lite(s, w)
  {
    hide Good;
    GoodHas(s);
    hide StreamOk, WindowOk, PoolOk, KeyOk, ChannelOk;
    forall y | ToCome(s, y) ensures y.doc.Some? { ToComeIsADocument(s, y); }
    hide ToCome, RowsOk, Increasing, KeyRead, ReadOk;
  }

  /** Taken last and still on its way, the delete leaves the row no shield. */
  lemma UnseenDeleteHarms(s: Load, w: Write, d: Write)
    requires Basics(s) && StreamOk(s) && PoolOk(s) && w.doc.Some? && w.version < d.version
    requires d.key == w.key && d.doc.None? && d.version == s.clock && d in Changes(s.hist) && Taken(s, w.key, d) && d in Pending(s)
    ensures Harms(s, w, d)
  {
    forall c | c in Changes(s.hist) ensures c.version <= s.clock { ChangeWithinClock(s.hist, s.clock, c); }
    DocAtChange(s.hist, s.clock, d);
    forall x | Taken(s, w.key, x) ensures x.version <= d.version {
      var i :| 0 <= i < s.taken && s.events[i] == x;
    }
    assert !TrueAt(s.hist, s.clock, w, d.version);
    forall x | Shield(s, w.key, x) ensures false { ShieldIsOlder(s, w.key, x, d); }
    hide Shield;
  }

  lemma ShieldIsOlder(s: Load, k: Key, x: Write, d: Write)
    requires PoolOk(s) && Shield(s, k, x) && d in Pending(s) && d.key == k && d.doc.None?
    ensures d.version < x.version <= s.clock
  {
    PoolIsTold(s, k, x);
    hide Pending, Pool;
  }

  lemma ToComeIsOld(s: Load, w: Write)
    requires Basics(s) && RowsOk(s) && WaveOk(s) && ToCome(s, w)
    ensures w.version <= s.clock
  {
    hide RowSafe;
    if Row(w) in s.copy[s.copied..] {
      var i :| s.copied <= i < |s.copy| && s.copy[i] == Row(w);
    } else {
      var i :| 0 <= i < |s.phase.wave| && s.phase.wave[i].Copying? && w in s.phase.wave[i].left;
      assert ReadOk(s, Range(s, i), s.phase.wave[i]);
    }
  }

  lemma ShutIsOld(s: Load, w: Write)
    requires Shut(s) && ToCome(s, w)
    ensures w.version <= s.clock
  {
    hide Good;
    GoodHas(s);
    hide StreamOk, WindowOk, PoolOk, KeyOk, ChannelOk, ToCome;
    ToComeIsOld(s, w);
  }

  /** The row of a document still to come is deleted, and nobody remembers. */
  lemma DeleteComesOut(s: Load, w: Write) returns (s': Load)
    requires Shut(s) && ToCome(s, w)
    ensures Leads(Silently, s, s') && Undone(s', w.key)
  {
    hide Leads, Undone;
    var pos, gone := s.clock + 1, map[w.key := None];
    var x := Txn(pos, gone);
    var s1 := s.(hist := s.hist + [x], clock := pos);
    LeadsByOne(Silently, s, Commits(pos, gone));
    hide *;
    ShutIsLite(s, w);
    ShutIsOld(s, w);
    CommitsLite(s, s1, x, w);
    s' := DeleteIsSent(s, s1, w);
    LeadsOn(Silently, s, s1, s');
  }

  lemma CommitsLite(s: Load, s1: Load, x: Txn, w: Write)
    requires Lite(s, w) && x.pos > s.clock && s1 == s.(hist := s.hist + [x], clock := x.pos)
    ensures Lite(s1, w)
  {
    hide StreamOk, PoolOk, CanGoOn, ToCome;
    assert Basics(s1);
    CommitsFit(s, s1, x);
    CommitsStream(s, s1, x);
    StillReady(s, s1, w);
  }

  lemma CommittedDelete(s: Load, s1: Load, k: Key)
    requires s1.clock == s.clock + 1 && s1.hist == s.hist + [Txn(s1.clock, map[k := None])]
    ensures Write(k, s1.clock, None) in Changes(s1.hist)
  {
    var x := Txn(s1.clock, map[k := None]);
    CommitKeepsThePast(s.hist, x, s.clock, k);
    assert k in x.changes && Write(k, s1.clock, None) in ChangesOf(x);
  }

  /** A change above all sent so far is sent, and behind all taken so far. */
  lemma SentIsUntaken(s: Load, s2: Load, d: Write) returns (j: nat)
    requires StreamOk(s) && StreamOk(s2) && s.taken <= |s.events| && s.events <= s2.events
    requires d in Changes(s2.hist) && s2.start < d.version <= s2.cursor && d.version > s.cursor
    ensures s.taken <= j < |s2.events| && s2.events[j] == d
  {
    hide Changes;
    assert d in s2.events;
    j :| 0 <= j < |s2.events| && s2.events[j] == d;
  }

  lemma LiteHas(s: Load, w: Write)
    requires Lite(s, w)
    ensures Basics(s) && StreamOk(s) && PoolOk(s) && CanGoOn(s) && ToCome(s, w) && w.doc.Some?
  {
    hide Basics, StreamOk, PoolOk, ToCome, Single;
  }

  lemma DeleteIsSent(s: Load, s1: Load, w: Write) returns (s': Load)
    requires Lite(s, w) && Lite(s1, w) && w.version <= s.clock
    requires s1 == s.(hist := s.hist + [Txn(s.clock + 1, map[w.key := None])], clock := s.clock + 1)
    ensures Leads(Silently, s1, s') && Undone(s', w.key)
  {
    LiteHas(s, w);
    assert s.start <= s.cursor <= s.clock && s.taken <= |s.events|;
    hide *;
    var d := Write(w.key, s1.clock, None);
    CommittedDelete(s, s1, w.key);
    var s2 := SendAll(s1, w);
    LiteHas(s2, w);
    var j := SentIsUntaken(s, s2, d);
    var s3 := TakeAll(s2, w);
    LiteHas(s3, w);
    AllTaken(s3, j);
    UnseenDeleteHarms(s3, w, d);
    PoolIsKeyed(s3);
    s' := RowComesOut(Silently, s3, s3, w, d);
    LeadsOn(Silently, s1, s2, s3);
    LeadsOn(Silently, s1, s3, s');
  }

  lemma AllTaken(s: Load, j: nat)
    requires j < |s.events| && s.taken == |s.events|
    ensures Taken(s, s.events[j].key, s.events[j])
  {
    assert s.events[..s.taken] == s.events;
  }

  lemma PoolIsKeyed(s: Load)
    requires PoolOk(s)
    ensures Keyed(s)
  {
    hide Fit;
  }

  // ------------------------------------------------------- another row to come

  predicate Reading(m: Move) {
    m.Commits? || m.Locates? || m.Snapshots? || m.SendsMark? || m.SeesMark? || m.StartsWave? || m.TakesCopy?
  }

  lemma ReadingIsFair(s: Load, m: Move)
    requires (forall w :: !ToCome(s, w)) && May(s, m) && Reading(m)
    ensures Fair(s, m) && Allowed(Silently, s, m)
  {
    hide ToCome, Harmless, May;
  }

  lemma ReadingStaysShut(s: Load, m: Move)
    requires s.copied <= |s.copy| && OtherStart !in s.copy[s.copied..] && !s.eng.loadRunning && May(s, m) && Reading(m)
    ensures var s' := Make(s, m); !s'.eng.loadRunning && s'.copied <= |s'.copy| && OtherStart !in s'.copy[s'.copied..]
  {
    var s' := Make(s, m);
    if m.TakesCopy? {
      assert s.copy[s.copied..] == [s.copy[s.copied]] + s'.copy[s'.copied..];
    } else {
      assert s'.copy == s.copy || s'.copy[s'.copied..] == s.copy[s.copied..] + [OwnMark];
    }
  }

  /** With no row of ours to come, every move of our own loader is fair. */
  lemma ShutStep(s: Load, m: Move) returns (s': Load)
    requires Shut(s) && (forall w :: !ToCome(s, w)) && May(s, m) && Reading(m)
    ensures Leads(Silently, s, s') && s' == Make(s, m) && Shut(s')
  {
    hide Good, Paced, Leads, ToCome, May, Make, Fair, Allowed, Reading;
    ReadingIsFair(s, m);
    LeadsByOne(Silently, s, m);
    s' := Make(s, m);
    MakeKeeps(s, m);
    MakePaced(s, m);
    ReadingStaysShut(s, m);
  }

  /** A key of the range at hand is written at the source, so the read finds it. */
  lemma ReadOne(s: Load, i: nat) returns (s': Load, w: Write)
    requires Shut(s) && (forall x :: !ToCome(s, x)) && InWaveAt(s, i) && !s.phase.wave[i].Copying?
    ensures Leads(Silently, s, s') && Shut(s') && ToCome(s', w)
  {
    var id := InRange(s, i);
    var k := Key(s.table, id);
    hide Shut, Leads;
    var s1 := ShutStep(s, Commits(s.clock + 1, map[k := Some("row")]));
    assert s1 == s.(hist := s1.hist, clock := s1.clock);
    assert DocAt(s1.hist, s1.clock, k) == Some("row") by { CommittedIsThere(s, s1, k); }
    assert forall x :: ToCome(s1, x) == ToCome(s, x);
    hide DocAt, Make;
    var s2 := LocateIt(s1, i);
    s', w := SnapshotIt(s2, i, k);
    LeadsOn(Silently, s, s1, s2);
    LeadsOn(Silently, s, s2, s');
  }

  lemma CommittedIsThere(s: Load, s1: Load, k: Key)
    requires s1.clock == s.clock + 1 && s1.hist == s.hist + [Txn(s1.clock, map[k := Some("row")])]
    ensures DocAt(s1.hist, s1.clock, k) == Some("row")
  {
    assert s1.hist[..|s1.hist| - 1] == s.hist;
  }

  lemma InRange(s: Load, i: nat) returns (id: int)
    requires Shut(s) && InWaveAt(s, i)
    ensures Range(s, i).Contains(id)
  {
    GoodHas(s);
    assert StrictlyIncreasing(s.bounds);
    var r := s.done + i;
    id := if r > 0 then s.bounds[r - 1] else if |s.bounds| > 0 then s.bounds[0] - 1 else 0;
  }

  lemma LocateIt(s: Load, i: nat) returns (s': Load)
    requires Shut(s) && (forall x :: !ToCome(s, x)) && InWaveAt(s, i) && !s.phase.wave[i].Copying?
    ensures Leads(Silently, s, s') && Shut(s') && (forall x :: !ToCome(s', x)) && InWaveAt(s', i) && s'.phase.wave[i].Located?
    ensures s' == s.(phase := s'.phase)
  {
    hide Shut, Leads;
    if s.phase.wave[i].Located? {
      s' := s;
      LeadsNowhere(Silently, s);
    } else {
      s' := ShutStep(s, Locates(i));
      assert forall x | ToCome(s', x) :: ToCome(s, x);
    }
  }

  lemma SnapshotIt(s: Load, i: nat, k: Key) returns (s': Load, w: Write)
    requires Shut(s) && (forall x :: !ToCome(s, x)) && InWaveAt(s, i) && s.phase.wave[i].Located?
    requires k.table == s.table && Range(s, i).Contains(k.id) && DocAt(s.hist, s.clock, k).Some?
    ensures Leads(Silently, s, s') && Shut(s') && ToCome(s', w)
  {
    var v := s.phase.wave[i].v;
    w := Write(k, v, DocAt(s.hist, s.clock, k));
    RowIsThere(s.hist, s.clock, s.clock, Range(s, i), v, k) by { GoodHas(s); }
    hide Shut, Leads, RowsOf;
    s' := ShutStep(s, Snapshots(i));
    assert s'.phase.wave[i].Copying? && w in s'.phase.wave[i].left;
  }

  /** Between waves: the next one starts. */
  lemma ReadBetween(s: Load) returns (s': Load, w: Write)
    requires Shut(s) && (forall x :: !ToCome(s, x)) && s.phase.Between? && s.done <= |s.bounds|
    ensures Leads(Silently, s, s') && Shut(s') && ToCome(s', w)
  {
    hide Shut, Leads;
    var s1 := ShutStep(s, StartsWave(1));
    assert forall x | ToCome(s1, x) :: ToCome(s, x);
    assert InWaveAt(s1, 0) && s1.phase.wave[0].Unread?;
    hide ToCome, InWaveAt;
    s', w := ReadOne(s1, 0);
    LeadsOn(Silently, s, s1, s');
  }

  lemma DrainOne(s: Load) returns (s': Load)
    requires Shut(s) && (forall x :: !ToCome(s, x)) && s.copied < |s.copy|
    ensures Leads(Silently, s, s') && Shut(s') && (forall x :: !ToCome(s', x))
    ensures s' == s.(eng := s'.eng, copied := s.copied + 1)
  {
    hide Shut, Leads;
    s' := ShutStep(s, TakesCopy);
    forall x ensures !ToCome(s', x) { if ToCome(s', x) { CopiedToCome(s, s', x); } }
  }

  /** The channel is taken to its end, our mark with it. */
  lemma {:induction false} Drain(s: Load) returns (s': Load)
    requires Shut(s) && (forall x :: !ToCome(s, x))
    ensures Leads(Silently, s, s') && Shut(s') && (forall x :: !ToCome(s', x)) && s'.copied == |s'.copy|
    ensures s' == s.(eng := s'.eng, copied := s'.copied)
    decreases |s.copy| - s.copied
  {
    CopiedInBounds(s);
    hide Shut, Leads, ToCome;
    if s.copied == |s.copy| {
      s' := s;
      LeadsNowhere(Silently, s);
    } else {
      var s1 := DrainOne(s);
      s' := Drain(s1);
      LeadsOn(Silently, s, s1, s');
    }
  }

  lemma ReadMarked(s: Load) returns (s': Load, w: Write)
    requires Shut(s) && (forall x :: !ToCome(s, x)) && s.phase.Marked? && s.done <= |s.bounds|
    ensures Leads(Silently, s, s') && Shut(s') && ToCome(s', w)
  {
    hide Shut, Leads;
    var s1 := Drain(s);
    var s2 := ShutStep(s1, SeesMark);
    assert forall x | ToCome(s2, x) :: ToCome(s1, x);
    hide ToCome;
    s', w := ReadBetween(s2);
    LeadsOn(Silently, s, s1, s2);
    LeadsOn(Silently, s, s2, s');
  }

  /** Whatever of ours is left ends in a row on its way. */
  lemma AnotherRow(s: Load) returns (s': Load, w: Write)
    requires Shut(s) && !NothingLeft(s)
    ensures Leads(Silently, s, s') && Shut(s') && ToCome(s', w)
  {
    hide Shut, Leads;
    if x :| ToCome(s, x) {
      s', w := s, x;
      LeadsNowhere(Silently, s);
    } else if s.phase.Between? {
      s', w := ReadBetween(s);
    } else if s.phase.Marked? {
      s', w := ReadMarked(s);
    } else {
      s', w := ReadInWave(s);
    }
  }

  lemma ReadInWave(s: Load) returns (s': Load, w: Write)
    requires Shut(s) && (forall x :: !ToCome(s, x)) && !NothingLeft(s) && s.phase.InWave?
    ensures Leads(Silently, s, s') && Shut(s') && ToCome(s', w)
  {
    WaveIsInBounds(s);
    hide Shut, Leads;
    var wave := s.phase.wave;
    if i: nat :| i < |wave| && !wave[i].Copying? {
      s', w := ReadOne(s, i);
    } else {
      NothingToSend(s);
      var s1 := ShutStep(s, SendsMark);
      assert s1.copy[s1.copied..] == s.copy[s.copied..] + [OwnMark] by { CopiedInBounds(s); }
      assert forall x | ToCome(s1, x) :: ToCome(s, x);
      hide ToCome;
      s', w := ReadMarked(s1);
      LeadsOn(Silently, s, s1, s');
    }
  }

  lemma CopiedInBounds(s: Load)
    requires Shut(s)
    ensures s.copied <= |s.copy|
  {
    hide Good, Paced;
  }

  lemma WaveIsInBounds(s: Load)
    requires Shut(s) && s.phase.InWave?
    ensures s.done + |s.phase.wave| <= |s.bounds| + 1
  {
    GoodHas(s);
  }

  // ------------------------------------------------------------ the exact guard

  /** Tombstones forgotten fairly and nothing more heard from other loaders, the
      end of another load lets no delete be undone exactly when nothing of ours is
      left to read or to arrive. */
  lemma FinishExactly(s: Load)
    requires s.copied < |s.copy| && s.copy[s.copied].OtherFinish? && OtherStart !in s.copy[s.copied..]
    requires Good(s) && Paced(s)
    ensures NothingLeft(s) <==> forall s', k | Leads(Silently, Make(s, TakesCopy), s') :: !Undone(s', k)
  {
    hide Good, Paced, Undone, Leads, NothingLeft, MarkOk;
    var s0 := TakeNextCopy(s);
    assert Make(s, TakesCopy) == s0 && Clears(s, s0);
    if NothingLeft(s) {
      NothingLeftIsFair(s, TakesCopy);
      MakeKeeps(s, TakesCopy);
      NothingLeftStays(s, TakesCopy);
      forall s', k | Leads(Silently, s0, s') ensures !Undone(s', k) { NothingLeftNeverUndoes(s0, s', k); }
    } else if MarkOk(s) {
      var s', k := UnfairFinishUndoes(s, s0);
    } else {
      PacedIsSingle(s);
      var s', k := UnfairMarkUndoes(Silently, s, s0);
    }
  }

  lemma NothingLeftNeverUndoes(s: Load, s': Load, k: Key)
    requires Good(s) && NothingLeft(s) && Leads(Silently, s, s')
    ensures !Undone(s', k)
  {
    hide Good, Undone, NothingLeft;
    var moves :| Plays(Silently, s, moves, s');
    NothingLeftKeeps(s, moves, s');
    NeverUndone(s', k);
  }

  lemma UnfairFinishUndoes(s: Load, s0: Load) returns (s': Load, k: Key)
    requires s.copied < |s.copy| && s.copy[s.copied].OtherFinish? && OtherStart !in s.copy[s.copied..] && s0 == TakeNextCopy(s)
    requires Good(s) && Paced(s) && MarkOk(s) && !NothingLeft(s)
    ensures Leads(Silently, s0, s') && Undone(s', k)
  {
    hide Good, Paced, NothingLeft, MarkOk, Undone, Leads;
    assert s0 == Make(s, TakesCopy) && Fair(s, TakesCopy);
    FinishShuts(s, s0);
    StillLeft(s, s0);
    hide *;
    var s1, w := AnotherRow(s0);
    s' := DeleteComesOut(s1, w);
    k := w.key;
    LeadsOn(Silently, s0, s1, s');
  }

  lemma FinishShuts(s: Load, s0: Load)
    requires s.copied < |s.copy| && s.copy[s.copied].OtherFinish? && OtherStart !in s.copy[s.copied..] && s0 == Make(s, TakesCopy)
    requires Good(s) && Paced(s) && Fair(s, TakesCopy)
    ensures Shut(s0)
  {
    hide Good, Paced, Fair;
    MakeKeeps(s, TakesCopy);
    MakePaced(s, TakesCopy);
    assert s.copy[s.copied..] == [s.copy[s.copied]] + s0.copy[s0.copied..];
  }

  lemma StillLeft(s: Load, s0: Load)
    requires s.copied < |s.copy| && !s.copy[s.copied].Row? && s0.copy == s.copy && s0.copied == s.copied + 1
    requires s0.phase == s.phase && s0.done == s.done && s0.bounds == s.bounds && !NothingLeft(s)
    ensures !NothingLeft(s0)
  {
    assert s.copy[s.copied..] == [s.copy[s.copied]] + s0.copy[s0.copied..];
    assert forall w :: ToCome(s0, w) == ToCome(s, w);
    hide ToCome;
  }
}
