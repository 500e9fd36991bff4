/** A load beside the stream at a target that forgets what it deleted.

    A deleted document leaves a tombstone only for a while; once it is gone any
    version is accepted. The engine remembers the stream's deletes itself while a
    load is running, and forgets them at every load mark and when any load ends. Any number of write requests are open at a
    time and land in any order; one refused in part is sent again whole. */
module Tombstones {
  import opened Wrappers
  import opened Source
  import opened Target
  import opened Ranges
  import opened Engine
  import opened Protocol

  datatype CopyItem = Row(w: Write) | OwnMark | OtherMark | OtherStart | OtherFinish

  datatype Phase = Between | InWave(wave: seq<RangeRead>) | Marked | Over

  /** `open` holds the writes of open requests; the engine's buffer holds what is
      accepted and not yet in a request. */
  datatype Load = Load(
    hist: seq<Txn>, clock: nat, start: nat, table: nat,
    bounds: seq<int>, done: nat, phase: Phase,
    events: seq<Write>, taken: nat, cursor: nat,
    copy: seq<CopyItem>, copied: nat,
    eng: Engine, open: seq<Write>, target: Index)

  datatype Move =
    | Commits(pos: nat, changes: map<Key, Option<Doc>>)
    | Sends(i: nat, order: seq<Key>)
    | Takes
    | TakesCopy
    | Opens(n: nat)
    | Lands(i: nat)
    | Retries(i: nat)
    | Forgets(k: Key)
    | StartsWave(width: nat)
    | Locates(i: nat)
    | Snapshots(i: nat)
    | SendsRow(i: nat, w: Write)
    | SendsMark
    | SeesMark
    | OtherLoaderMarks
    | OtherLoaderStarts
    | OtherLoaderFinishes

  // ------------------------------------------------------------------- moves

  function Writes(ops: seq<LsnOp>): seq<Write> {
    seq(|ops|, i requires 0 <= i < |ops| => ops[i].w)
  }

  ghost predicate InWaveAt(s: Load, i: nat) {
    s.phase.InWave? && i < |s.phase.wave| && s.done + i <= |s.bounds|
  }

  ghost predicate May(s: Load, m: Move) {
    match m
    case Commits(pos, changes) => pos > s.clock
    case Sends(i, order) =>
      && i < |s.hist| && s.hist[i].pos > s.cursor && (i > 0 ==> s.hist[i - 1].pos <= s.cursor)
      && Elems(order) == s.hist[i].changes.Keys
    case Takes => s.taken < |s.events|
    case TakesCopy => s.copied < |s.copy|
    case Opens(n) => n <= |s.eng.buffer|
    case Lands(i) => i < |s.open|
    case Retries(i) => i < |s.open|
    case Forgets(k) => k in s.target && s.target[k].doc.None?
    case StartsWave(width) => s.phase.Between? && width > 0
    case Locates(i) => InWaveAt(s, i) && s.phase.wave[i].Unread?
    case Snapshots(i) => InWaveAt(s, i) && s.phase.wave[i].Located?
    case SendsRow(i, w) => InWaveAt(s, i) && s.phase.wave[i].Copying? && w in s.phase.wave[i].left
    case SendsMark => s.phase.InWave? && AllCopied(s.phase.wave)
    case SeesMark => s.phase.Marked? && s.copied <= |s.copy| && OwnMark !in s.copy[s.copied..]
    case _ => true
  }

  function TakeNextCopy(s: Load): Load
    requires s.copied < |s.copy|
  {
    match s.copy[s.copied]
    case Row(w) => s.(eng := TakeRow(s.eng, w), copied := s.copied + 1)
    case OtherStart => s.(eng := TakeStarted(s.eng), copied := s.copied + 1)
    case OtherFinish => s.(eng := TakeFinished(s.eng), copied := s.copied + 1)
    case _ => s.(eng := s.eng.(superseded := map[]), copied := s.copied + 1)
  }

  function SetWave(s: Load, i: nat, r: RangeRead): Load
    requires s.phase.InWave? && i < |s.phase.wave|
  {
    s.(phase := InWave(s.phase.wave[i := r]))
  }

  function Range(s: Load, i: nat): KeyRange
    requires s.done + i <= |s.bounds|
  {
    RangeAt(s.bounds, s.done + i)
  }

  ghost function Make(s: Load, m: Move): Load
    requires May(s, m)
  {
    match m
    case Commits(pos, changes) => s.(hist := s.hist + [Txn(pos, changes)], clock := pos)
    case Sends(i, order) =>
      assert forall k | k in order :: k in Elems(order);
      var t := s.hist[i];
      var rows := seq(|order|, j requires 0 <= j < |order| => Write(order[j], t.pos, t.changes[order[j]]));
      s.(events := s.events + rows, cursor := t.pos)
    case Takes => s.(eng := TakeRow(s.eng, s.events[s.taken]), taken := s.taken + 1)
    case TakesCopy => TakeNextCopy(s)
    case Opens(n) => s.(open := s.open + Writes(s.eng.buffer[..n]), eng := s.eng.(buffer := s.eng.buffer[n..]))
    case Lands(i) => s.(target := Land(s.target, s.open[i]), open := s.open[..i] + s.open[i + 1..])
    case Retries(i) => s.(target := Land(s.target, s.open[i]))
    case Forgets(k) => s.(target := s.target - {k})
    case StartsWave(width) =>
      if s.done > |s.bounds| then s.(phase := Over)
      else s.(phase := InWave(seq(Min(width, |s.bounds| + 1 - s.done), _ => Unread)))
    case Locates(i) => SetWave(s, i, Located(s.clock))
    case Snapshots(i) =>
      var v := s.phase.wave[i].v;
      SetWave(s, i, Copying(v, s.clock, RowsOf(s.hist, s.clock, s.table, Range(s, i), v)))
    case SendsRow(i, w) =>
      var r := s.phase.wave[i];
      SetWave(s, i, r.(left := r.left - {w})).(copy := s.copy + [Row(w)])
    case SendsMark => s.(phase := Marked, done := s.done + |s.phase.wave|, copy := s.copy + [OwnMark])
    case SeesMark => s.(phase := Between)
    case OtherLoaderMarks => s.(copy := s.copy + [OtherMark])
    case OtherLoaderStarts => s.(copy := s.copy + [OtherStart])
    case OtherLoaderFinishes => s.(copy := s.copy + [OtherFinish])
  }

  /** The stream starts where the log ends; what is already in the table is the
      loader's to read. */
  ghost predicate Begins(s: Load) {
    && Increasing(s.hist, s.clock) && s.start == s.cursor == s.clock
    && StrictlyIncreasing(s.bounds) && s.done == 0 && s.phase.Between?
    && s.events == [] && s.taken == 0 && s.copy == [] && s.copied == 0
    && s.eng == Fresh && s.open == [] && s.target == map[]
  }

  // ---------------------------------------------------- what has been accepted

  /** Accepted and not yet landed. */
  function Pending(s: Load): seq<Write> {
    s.open + Writes(s.eng.buffer)
  }

  /** Everything of `k` that is on the target or on its way there. */
  function Pool(s: Load, k: Key): set<Write> {
    (if k in s.target then {s.target[k]} else {}) + set x | x in Pending(s) && x.key == k
  }

  ghost predicate Taken(s: Load, k: Key, e: Write) {
    s.taken <= |s.events| && e in s.events[..s.taken] && e.key == k
  }

  /** The last change of `k` the engine has taken off the stream. */
  ghost predicate LastTaken(s: Load, k: Key, e: Write) {
    Taken(s, k, e) && forall x | Taken(s, k, x) :: x.version <= e.version
  }

  /** A document the source held at or after `p`, and after the position that
      versions it. */
  ghost predicate TrueAt(hist: seq<Txn>, clock: nat, w: Write, p: nat) {
    w.doc.Some? && exists at: nat :: p <= at <= clock && w.version <= at && DocAt(hist, at, w.key) == w.doc
  }

  ghost predicate Stale(hist: seq<Txn>, clock: nat, w: Write, p: nat) {
    w.doc.Some? && !TrueAt(hist, clock, w, p)
  }

  ghost predicate Covered(a: set<Write>, v: nat) {
    exists x :: x in a && x.version >= v
  }

  /** Something that outranks `z` and is not itself stale. */
  ghost predicate Outranked(hist: seq<Txn>, clock: nat, a: set<Write>, z: Write, p: nat) {
    exists x :: x in a && x.version > z.version && !Stale(hist, clock, x, p)
  }

  /** No document from before `p` can come out on top. */
  ghost predicate Calm(hist: seq<Txn>, clock: nat, a: set<Write>, p: nat) {
    forall z | z in a && Stale(hist, clock, z, p) :: Outranked(hist, clock, a, z, p)
  }

  /** A document no removal of its key can displace: those on their way are
      older, and one on the target is no newer. Whatever is forgotten, it stays. */
  ghost predicate Shield(s: Load, k: Key, x: Write) {
    && x in Pool(s, k) && x.doc.Some?
    && (forall y | y in Pending(s) && y.key == k && y.doc.None? :: y.version < x.version)
    && (k in s.target && s.target[k].doc.None? ==> s.target[k].version <= x.version)
  }

  ghost predicate Shielded(s: Load, k: Key, v: nat) {
    exists x :: Shield(s, k, x) && x.version > v
  }

  // ------------------------------------------------------------- fair moves

  /** A row of our load between its snapshot and the engine. */
  ghost predicate ToCome(s: Load, w: Write) {
    || (s.copied <= |s.copy| && Row(w) in s.copy[s.copied..])
    || (s.phase.InWave? && exists i :: 0 <= i < |s.phase.wave| && s.phase.wave[i].Copying? && w in s.phase.wave[i].left)
  }

  /** Taken in now, with nothing remembered, the row could undo no delete. */
  ghost predicate Harmless(s: Load, w: Write) {
    forall e | LastTaken(s, w.key, e) ::
      w.version >= e.version || TrueAt(s.hist, s.clock, w, e.version) || Shielded(s, w.key, w.version)
  }

  /** A tombstone may be forgotten when no document from before the key's last
      change is left to come out on top. */
  ghost predicate ForgetOk(s: Load, k: Key) {
    forall e | LastTaken(s, k, e) :: Calm(s.hist, s.clock, Pool(s.(target := s.target - {k}), k), e.version)
  }

  /** Another loader's mark or finish may empty the record when every row of ours
      still to come is harmless. */
  ghost predicate MarkOk(s: Load) {
    forall w | ToCome(s, w) :: Harmless(s, w)
  }

  /** With the window closed a delete is not remembered: every row of its key still
      to come has to be harmless once it is taken. */
  ghost predicate TakeOk(s: Load)
    requires s.taken < |s.events|
  {
    s.events[s.taken].doc.None? && !s.eng.loadRunning ==>
      forall w | ToCome(s, w) && w.key == s.events[s.taken].key :: Harmless(Make(s, Takes), w)
  }

  /** The engine is about to empty its record for another loader. */
  predicate ClearsNext(s: Load) {
    s.copied < |s.copy| && (s.copy[s.copied].OtherMark? || s.copy[s.copied].OtherFinish?)
  }

  ghost predicate Fair(s: Load, m: Move) {
    && (m.Forgets? ==> ForgetOk(s, m.k))
    && (m.TakesCopy? && ClearsNext(s) ==> MarkOk(s))
    && (m.Takes? && s.taken < |s.events| ==> TakeOk(s))
  }

  /** What a run may do: anything, only fair moves, or, forgetting only fairly,
      take nothing more off the stream, or hear nothing more from other loaders. */
  datatype Rule = Anyhow | Fairly | Quietly | Silently

  ghost predicate Allowed(rule: Rule, s: Load, m: Move) {
    match rule
    case Anyhow => true
    case Fairly => Fair(s, m)
    case Quietly => !m.Takes? && (m.Forgets? ==> ForgetOk(s, m.k))
    case Silently =>
      && !m.OtherLoaderMarks? && !m.OtherLoaderStarts? && !m.OtherLoaderFinishes?
      && (m.Forgets? ==> ForgetOk(s, m.k))
  }

  ghost predicate Plays(rule: Rule, s: Load, moves: seq<Move>, s': Load)
    decreases |moves|
  {
    if moves == [] then s' == s
    else May(s, moves[0]) && Allowed(rule, s, moves[0]) && Plays(rule, Make(s, moves[0]), moves[1..], s')
  }

  ghost predicate Leads(rule: Rule, s: Load, s': Load) {
    exists moves :: Plays(rule, s, moves, s')
  }

  ghost predicate Played(rule: Rule, s: Load) {
    exists s0 :: Begins(s0) && Leads(rule, s0, s)
  }

  /** A delete is undone: the target shows a document of `k` from before a delete
      the stream has made, and nothing on its way outranks it. */
  ghost predicate Undone(s: Load, k: Key) {
    && k in s.target
    && (exists e :: Taken(s, k, e) && e.doc.None? && Stale(s.hist, s.clock, s.target[k], e.version))
    && (forall x | x in Pending(s) && x.key == k :: x.version < s.target[k].version || x == s.target[k])
  }

  /** Every range is written, every change taken, nothing is on its way. */
  predicate Complete(s: Load) {
    && s.phase.Over? && s.copied == |s.copy| && s.open == [] && s.eng.buffer == []
    && s.cursor == s.clock && s.taken == |s.events|
  }

  // --------------------------------------------------------------- invariant

  /** A document read from the source at or after the position versioning it. */
  ghost predicate Told(s: Load, w: Write) {
    s.start <= w.version && TrueAt(s.hist, s.clock, w, w.version)
  }

  ghost predicate Basics(s: Load) {
    && Increasing(s.hist, s.clock) && s.start <= s.cursor <= s.clock
    && s.taken <= |s.events| && s.copied <= |s.copy|
    && StrictlyIncreasing(s.bounds) && s.done <= |s.bounds| + 1
    && (s.phase.Over? ==> s.done == |s.bounds| + 1)
    && (!s.eng.loadRunning ==> s.eng.superseded == map[])
  }

  ghost predicate StreamOk(s: Load) {
    && (forall i | 0 <= i < |s.events| :: s.events[i] in Changes(s.hist) && s.start < s.events[i].version <= s.cursor)
    && (forall i, j | 0 <= i < j < |s.events| :: s.events[i].version <= s.events[j].version)
    && (forall c | c in Changes(s.hist) && s.start < c.version <= s.cursor :: c in s.events)
  }

  /** What is remembered of a key is one of its deletes taken so far. */
  ghost predicate WindowOk(s: Load) {
    forall k | k in s.eng.superseded :: exists e :: Taken(s, k, e) && e.doc.None? && e.version == s.eng.superseded[k]
  }

  /** A removal on its way is one the stream made; a document is a true one. */
  ghost predicate Fit(s: Load, w: Write) {
    if w.doc.None? then Taken(s, w.key, w) else Told(s, w)
  }

  ghost predicate PoolOk(s: Load) {
    && (forall k | k in s.target :: s.target[k].key == k && Fit(s, s.target[k]))
    && (forall w | w in Pending(s) :: Fit(s, w))
  }

  ghost predicate RowSafe(s: Load, w: Write) {
    (w.key in s.eng.superseded && s.eng.superseded[w.key] > w.version) || Harmless(s, w)
  }

  ghost predicate RowsOk(s: Load) {
    && (forall w | ToCome(s, w) :: RowSafe(s, w))
    && (forall i | 0 <= i < |s.copy| && s.copy[i].Row? :: Told(s, s.copy[i].w))
  }

  /** Our rows stand before our mark, and a wave has no mark of ours behind it. */
  ghost predicate ChannelOk(s: Load) {
    && s.copied <= |s.copy|
    && (forall i, j | s.copied <= i < j < |s.copy| && s.copy[i].OwnMark? :: !s.copy[j].Row?)
    && (!s.phase.Marked? ==> OwnMark !in s.copy[s.copied..])
  }

  ghost predicate ReadOk(s: Load, range: KeyRange, r: RangeRead) {
    match r
    case Unread => true
    case Located(v) => s.start <= v <= s.clock
    case Copying(v, at, left) =>
      && s.start <= v <= at <= s.clock
      && left <= RowsOf(s.hist, at, s.table, range, v)
      && (forall w | w in RowsOf(s.hist, at, s.table, range, v) :: w in left || Row(w) in s.copy)
  }

  ghost predicate SentAt(s: Load, k: Key, v: nat, at: nat) {
    s.start <= v <= at <= s.clock && (DocAt(s.hist, at, k).Some? ==> Row(Write(k, v, DocAt(s.hist, at, k))) in s.copy)
  }

  ghost predicate KeyRead(s: Load, k: Key) {
    exists v: nat, at: nat :: SentAt(s, k, v, at)
  }

  ghost predicate WaveOk(s: Load)
    requires Basics(s)
  {
    && (forall k: Key | k.table == s.table && RangeOf(s.bounds, k.id) < s.done :: KeyRead(s, k))
    && (s.phase.InWave? ==>
          && s.done + |s.phase.wave| <= |s.bounds| + 1
          && (forall i | 0 <= i < |s.phase.wave| :: s.done + i <= |s.bounds| && ReadOk(s, Range(s, i), s.phase.wave[i])))
  }

  /** Once everything accepted has landed, the key shows nothing from before its
      last change taken; if that change wrote a document, one at least as new; and
      a key of no change taken shows what was copied of it. */
  ghost predicate KeyOk(s: Load, k: Key) {
    && (forall e | LastTaken(s, k, e) ::
          && Calm(s.hist, s.clock, Pool(s, k), e.version)
          && (e.doc.Some? ==> Covered(Pool(s, k), e.version)))
    && ((forall e :: !Taken(s, k, e)) && s.copied <= |s.copy| ==>
          forall i | 0 <= i < s.copied && s.copy[i].Row? && s.copy[i].w.key == k :: Covered(Pool(s, k), s.copy[i].w.version))
  }

  ghost predicate Good(s: Load) {
    && Basics(s) && StreamOk(s) && WindowOk(s) && PoolOk(s) && RowsOk(s) && ChannelOk(s) && WaveOk(s)
    && (forall k: Key :: KeyOk(s, k))
  }

  // --------------------------------------------------------- sets of writes

  /** One write has given way to another of its key at least as high. */
  ghost predicate GaveWay(a: set<Write>, b: set<Write>) {
    a == b || exists z, y :: b == a - {z} && y in b && y.version >= z.version
  }

  lemma CoveredGaveWay(a: set<Write>, b: set<Write>, v: nat)
    requires GaveWay(a, b) && Covered(a, v)
    ensures Covered(b, v)
  {
    var x :| x in a && x.version >= v;
    if a != b {
      var z, y :| b == a - {z} && y in b && y.version >= z.version;
      if x !in b { assert y in b && y.version >= v; }
    }
  }

  lemma CalmGaveWay(hist: seq<Txn>, clock: nat, a: set<Write>, b: set<Write>, p: nat)
    requires GaveWay(a, b) && Calm(hist, clock, a, p)
    ensures Calm(hist, clock, b, p)
  {
    hide Stale;
    if a != b {
      var z, y :| b == a - {z} && y in b && y.version >= z.version;
      forall w | w in b && Stale(hist, clock, w, p) ensures Outranked(hist, clock, b, w, p) {
        var x :| x in a && x.version > w.version && !Stale(hist, clock, x, p);
        if x !in b && Stale(hist, clock, y, p) {
          var x2 :| x2 in a && x2.version > y.version && !Stale(hist, clock, x2, p);
          assert x2 in b;
        }
      }
    }
  }

  /** A document joins: calm stays if it is true, or another document outranks it. */
  lemma CalmWithDocument(hist: seq<Txn>, clock: nat, a: set<Write>, w: Write, p: nat)
    requires Calm(hist, clock, a, p) && w.doc.Some?
    requires !Stale(hist, clock, w, p) || exists x :: x in a && x.version > w.version
    ensures Calm(hist, clock, a + {w}, p)
  {
    hide TrueAt;
    var b := a + {w};
    forall z | z in b && Stale(hist, clock, z, p) ensures Outranked(hist, clock, b, z, p) {
      if z in a {
        var x :| x in a && x.version > z.version && !Stale(hist, clock, x, p);
        assert x in b;
      } else {
        var x :| x in a && x.version > w.version;
        if Stale(hist, clock, x, p) {
          var x2 :| x2 in a && x2.version > x.version && !Stale(hist, clock, x2, p);
          assert x2 in b;
        } else {
          assert x in b;
        }
      }
    }
  }

  /** Covered at its last change, a key has nothing stale on top. */
  lemma CoveredIsCalm(hist: seq<Txn>, clock: nat, a: set<Write>, p: nat)
    requires Covered(a, p) && forall x | x in a && x.doc.Some? :: TrueAt(hist, clock, x, x.version)
    ensures Calm(hist, clock, a, p)
  {
    var x :| x in a && x.version >= p;
    assert !Stale(hist, clock, x, p);
    forall z | z in a && Stale(hist, clock, z, p) ensures Outranked(hist, clock, a, z, p) {
      assert z.version < p;
    }
  }

  // ------------------------------------------------------------- what stays

  /** The same changes have been taken off the stream. */
  ghost predicate SameTaken(s: Load, s': Load) {
    s.taken <= |s.events| && s'.taken <= |s'.events| && s'.events[..s'.taken] == s.events[..s.taken]
  }

  ghost predicate SameSource(s: Load, s': Load) {
    s'.hist == s.hist && s'.clock == s.clock && s'.start == s.start
  }

  lemma KeyStays(s: Load, s': Load, k: Key)
    requires KeyOk(s, k) && SameSource(s, s') && SameTaken(s, s') && Pool(s', k) == Pool(s, k)
    requires s'.copied == s.copied <= |s.copy| && s.copy <= s'.copy
    ensures KeyOk(s', k)
  {
    assert forall e :: Taken(s', k, e) == Taken(s, k, e);
    hide Calm, Covered, Pool, Taken;
  }

  lemma HarmlessStays(s: Load, s': Load, w: Write)
    requires Harmless(s, w) && SameSource(s, s') && SameTaken(s, s') && Pending(s') == Pending(s) && s'.target == s.target
    ensures Harmless(s', w)
  {
    assert forall e :: Taken(s', w.key, e) == Taken(s, w.key, e);
    assert Pool(s', w.key) == Pool(s, w.key);
    hide Pool, Taken, TrueAt, Pending;
    if Shielded(s, w.key, w.version) {
      var x :| Shield(s, w.key, x) && x.version > w.version;
      assert Shield(s', w.key, x);
    }
    hide Shielded;
  }

  lemma FitStays(s: Load, s': Load, w: Write)
    requires Fit(s, w) && s'.hist == s.hist && s.clock <= s'.clock && s'.start == s.start
    requires s.taken <= |s.events| && s.taken <= s'.taken <= |s'.events| && s.events[..s.taken] <= s'.events
    ensures Fit(s', w)
  {
    if w.doc.None? {
      var i :| 0 <= i < s.taken && s.events[i] == w;
      assert s'.events[i] == s.events[..s.taken][i] && s'.events[..s'.taken][i] == w;
    }
  }

  lemma PoolsStay(s: Load, s': Load)
    requires PoolOk(s) && s'.hist == s.hist && s.clock <= s'.clock && s'.start == s.start
    requires s.taken <= |s.events| && s.taken <= s'.taken <= |s'.events| && s.events[..s.taken] <= s'.events
    requires s'.target == s.target && forall w | w in Pending(s') :: w in Pending(s) || Fit(s', w)
    ensures PoolOk(s')
  {
    forall w | Fit(s, w) ensures Fit(s', w) { FitStays(s, s', w); }
    hide Fit, Pending;
  }

  lemma WindowStays(s: Load, s': Load)
    requires WindowOk(s) && SameTaken(s, s') && forall k | k in s'.eng.superseded :: k in s.eng.superseded && s'.eng.superseded[k] == s.eng.superseded[k]
    ensures WindowOk(s')
  {
    assert forall k, e :: Taken(s', k, e) == Taken(s, k, e);
    hide Taken;
  }

  lemma StreamStays(s: Load, s': Load)
    requires StreamOk(s) && s'.hist == s.hist && s'.events == s.events && s'.start == s.start && s'.cursor == s.cursor
    ensures StreamOk(s')
  {
    hide Changes;
  }

  lemma WaveStays(s: Load, s': Load)
    requires Basics(s) && Basics(s') && WaveOk(s) && SameSource(s, s')
    requires s'.table == s.table && s'.bounds == s.bounds && s'.done == s.done && s'.phase == s.phase && s.copy <= s'.copy
    ensures WaveOk(s')
  {
    assert forall x | x in s.copy :: x in s'.copy;
    forall k: Key | KeyRead(s, k) ensures KeyRead(s', k) {
      var v: nat, at: nat :| SentAt(s, k, v, at);
      assert SentAt(s', k, v, at);
    }
    forall range, r | ReadOk(s, range, r) ensures ReadOk(s', range, r) { hide RowsOf; }
    hide KeyRead, ReadOk, Increasing;
  }

  lemma GoodHas(s: Load)
    requires Good(s)
    ensures Basics(s) && StreamOk(s) && WindowOk(s) && PoolOk(s) && RowsOk(s) && ChannelOk(s) && WaveOk(s)
    ensures forall k: Key :: KeyOk(s, k)
  {
    hide Basics, StreamOk, WindowOk, PoolOk, RowsOk, ChannelOk, WaveOk, KeyOk;
  }

  lemma GoodFrom(s: Load)
    requires Basics(s) && StreamOk(s) && WindowOk(s) && PoolOk(s) && RowsOk(s) && ChannelOk(s) && WaveOk(s)
    requires forall k: Key :: KeyOk(s, k)
    ensures Good(s)
  {
    hide Basics, StreamOk, WindowOk, PoolOk, RowsOk, ChannelOk, WaveOk, KeyOk;
  }

  // ------------------------------------------------- taking a row off the stream

  lemma PoolGrows(s: Load, s': Load, w: Write, k: Key)
    requires s'.target == s.target && Pending(s') == Pending(s) + [w]
    ensures Pool(s', k) == if w.key == k then Pool(s, k) + {w} else Pool(s, k)
  {
    hide Pending;
  }

  lemma WritesAppend(ops: seq<LsnOp>, op: LsnOp)
    ensures Writes(ops + [op]) == Writes(ops) + [op.w]
  {
  }

  lemma PendingGrows(s: Load, s': Load, w: Write)
    requires !Dropped(s.eng, w) && s'.eng == TakeRow(s.eng, w) && s'.open == s.open
    ensures Pending(s') == Pending(s) + [w]
  {
    WritesAppend(s.eng.buffer, LsnOp(w, 0));
    assert s.open + (Writes(s.eng.buffer) + [w]) == s.open + Writes(s.eng.buffer) + [w];
  }

  lemma TakenBefore(s: Load, e: Write, k: Key)
    requires StreamOk(s) && s.taken < |s.events| && Taken(s, k, e)
    ensures e.version <= s.events[s.taken].version
  {
    hide Changes;
    var i :| 0 <= i < s.taken && s.events[i] == e;
  }

  /** The stream's own rows are never dropped: what is remembered is no later. */
  lemma StreamRowKept(s: Load)
    requires Basics(s) && StreamOk(s) && WindowOk(s) && s.taken < |s.events|
    ensures !Dropped(s.eng, s.events[s.taken])
  {
    var w := s.events[s.taken];
    hide Taken, Changes, Increasing;
    if w.key in s.eng.superseded {
      var e :| Taken(s, w.key, e) && e.doc.None? && e.version == s.eng.superseded[w.key];
      TakenBefore(s, e, w.key);
    }
  }

  /** The changes taken are those before and this one. */
  lemma TakenMore(s: Load, s': Load, k: Key, e: Write)
    requires s.taken < |s.events| && s'.events == s.events && s'.taken == s.taken + 1
    ensures Taken(s', k, e) <==> Taken(s, k, e) || (e == s.events[s.taken] && e.key == k)
  {
    assert s.events[..s.taken + 1] == s.events[..s.taken] + [s.events[s.taken]];
  }

  lemma LastTakenNow(s: Load, s': Load, k: Key, e: Write)
    requires StreamOk(s) && s.taken < |s.events| && s'.events == s.events && s'.taken == s.taken + 1
    requires LastTaken(s', k, e)
    ensures s.events[s.taken].key == k ==> e.version == s.events[s.taken].version
    ensures s.events[s.taken].key != k ==> LastTaken(s, k, e)
  {
    var w := s.events[s.taken];
    forall x ensures Taken(s', k, x) <==> Taken(s, k, x) || (x == w && x.key == k) { TakenMore(s, s', k, x); }
    if Taken(s, k, e) { TakenBefore(s, e, k); }
    hide Taken, StreamOk;
  }

  lemma PoolIsTold(s: Load, k: Key, x: Write)
    requires PoolOk(s) && x in Pool(s, k)
    ensures x.key == k && (x.doc.Some? ==> Told(s, x)) && (x.doc.None? ==> Taken(s, k, x))
  {
    hide Told, Taken, Pending;
    assert Fit(s, x);
  }

  lemma CalmWhenCovered(s: Load, k: Key, p: nat)
    requires PoolOk(s) && Covered(Pool(s, k), p)
    ensures Calm(s.hist, s.clock, Pool(s, k), p)
  {
    forall x | x in Pool(s, k) && x.doc.Some? ensures TrueAt(s.hist, s.clock, x, x.version) { PoolIsTold(s, k, x); }
    CoveredIsCalm(s.hist, s.clock, Pool(s, k), p);
  }

  lemma TakesKey(s: Load, s': Load, w: Write, k: Key)
    requires StreamOk(s) && KeyOk(s, k) && PoolOk(s') && s.taken < |s.events| && s.events[s.taken] == w
    requires s' == s.(eng := s'.eng, taken := s.taken + 1) && Pool(s', k) == if w.key == k then Pool(s, k) + {w} else Pool(s, k)
    ensures KeyOk(s', k)
  {
    forall e | LastTaken(s', k, e)
      ensures Calm(s'.hist, s'.clock, Pool(s', k), e.version) && (e.doc.Some? ==> Covered(Pool(s', k), e.version))
    {
      LastTakenNow(s, s', k, e);
      if w.key == k {
        assert w in Pool(s', k);
        CalmWhenCovered(s', k, e.version);
      }
    }
    forall e ensures Taken(s, k, e) ==> Taken(s', k, e) { TakenMore(s, s', k, e); }
    TakenMore(s, s', k, w);
    hide LastTaken, Calm, Pool;
  }

  /** The write just taken is above every removal of its key. */
  lemma TakenIsShield(s: Load, s': Load, w: Write)
    requires Basics(s) && StreamOk(s) && PoolOk(s) && s.taken < |s.events| && s.events[s.taken] == w && w.doc.Some?
    requires s'.target == s.target && Pending(s') == Pending(s) + [w]
    ensures Shield(s', w.key, w)
  {
    assert forall y | y in Pending(s') :: y in Pending(s) || y == w;
    assert w in Pending(s');
    hide Pending;
    forall y | Fit(s, y) && y.key == w.key && y.doc.None? ensures y.version < w.version {
      TakenBefore(s, y, w.key);
      if y.version == w.version { ChangeIsUnique(s.hist, s.clock, y, w); }
    }
    hide Fit, StreamOk, Increasing;
  }

  lemma TakesRow(s: Load, s': Load, w: Write, x: Write)
    requires Basics(s) && StreamOk(s) && PoolOk(s) && RowSafe(s, x) && s.taken < |s.events| && s.events[s.taken] == w
    requires s' == s.(eng := s'.eng, taken := s.taken + 1) && s'.eng.superseded == Remember(s.eng, w)
    requires Pending(s') == Pending(s) + [w]
    requires w.doc.None? && w.key == x.key && !s.eng.loadRunning ==> Harmless(s', x)
    ensures RowSafe(s', x)
  {
    forall e | LastTaken(s', x.key, e)
      ensures w.key == x.key ==> e.version == w.version
      ensures w.key != x.key ==> LastTaken(s, x.key, e)
    {
      LastTakenNow(s, s', x.key, e);
    }
    if w.key == x.key && w.doc.Some? {
      TakenIsShield(s, s', w);
      assert x.version < w.version ==> Shielded(s', x.key, x.version);
    }
    if w.key != x.key && Shielded(s, x.key, x.version) { OtherShielded(s, s', w, x.key, x.version); }
    hide LastTaken, Shielded, TrueAt, PoolOk, Pending, StreamOk, Increasing;
  }

  /** Nothing of the key joined. */
  lemma OtherShielded(s: Load, s': Load, w: Write, k: Key, v: nat)
    requires Shielded(s, k, v) && w.key != k && s'.target == s.target && Pending(s') == Pending(s) + [w]
    ensures Shielded(s', k, v)
  {
    var x :| Shield(s, k, x) && x.version > v;
    PoolGrows(s, s', w, k);
    assert forall y | y in Pending(s') && y.key == k :: y in Pending(s);
    hide Pending, Pool;
    assert Shield(s', k, x);
  }

  lemma TakesKeeps(s: Load, s': Load)
    requires Good(s) && s.taken < |s.events| && s' == s.(eng := TakeRow(s.eng, s.events[s.taken]), taken := s.taken + 1) && TakeOk(s)
    ensures Good(s')
  {
    hide Good, StreamOk, WindowOk, PoolOk, RowsOk, ChannelOk, WaveOk, KeyOk;
    GoodHas(s);
    var w := s.events[s.taken];
    StreamRowKept(s);
    assert Basics(s') && s'.eng.superseded == Remember(s.eng, w);
    PendingGrows(s, s', w);
    forall k ensures Pool(s', k) == if w.key == k then Pool(s, k) + {w} else Pool(s, k) { PoolGrows(s, s', w, k); }
    hide TakeRow, Pool, Dropped, Pending;
    TakesFit(s, s', w);
    forall k: Key ensures KeyOk(s', k) { TakesKey(s, s', w, k); }
    TakesRows(s, s', w);
    TakesWindow(s, s', w);
    StreamStays(s, s');
    WaveStays(s, s');
    assert ChannelOk(s') by { SameChannel(s, s'); }
    GoodFrom(s');
  }

  lemma TakesFit(s: Load, s': Load, w: Write)
    requires Basics(s) && StreamOk(s) && PoolOk(s) && s.taken < |s.events| && s.events[s.taken] == w
    requires s' == s.(eng := s'.eng, taken := s.taken + 1) && Pending(s') == Pending(s) + [w]
    ensures PoolOk(s')
  {
    TakenMore(s, s', w.key, w);
    if w.doc.Some? { DocAtChange(s.hist, s.clock, w); }
    assert Fit(s', w);
    hide Fit, Pending, StreamOk, Increasing;
    PoolsStay(s, s');
  }

  lemma TakesRows(s: Load, s': Load, w: Write)
    requires Basics(s) && StreamOk(s) && PoolOk(s) && RowsOk(s) && s.taken < |s.events| && s.events[s.taken] == w
    requires s' == s.(eng := s'.eng, taken := s.taken + 1) && s'.eng.superseded == Remember(s.eng, w)
    requires Pending(s') == Pending(s) + [w]
    requires w.doc.None? && !s.eng.loadRunning ==> forall x | ToCome(s, x) && x.key == w.key :: Harmless(s', x)
    ensures RowsOk(s')
  {
    forall x | Told(s, x) ensures Told(s', x) {}
    hide Pending, RowSafe, Told, Harmless, StreamOk, PoolOk, Increasing;
    forall x | ToCome(s', x) ensures RowSafe(s', x) { TakesRow(s, s', w, x); }
    hide ToCome;
  }

  lemma TakesWindow(s: Load, s': Load, w: Write)
    requires Basics(s) && WindowOk(s) && s.taken < |s.events| && s.events[s.taken] == w
    requires s' == s.(eng := s'.eng, taken := s.taken + 1) && s'.eng.superseded == Remember(s.eng, w)
    ensures WindowOk(s')
  {
    forall k, e ensures Taken(s, k, e) ==> Taken(s', k, e) { TakenMore(s, s', k, e); }
    TakenMore(s, s', w.key, w);
    hide Taken, Increasing;
  }

  lemma SameChannel(s: Load, s': Load)
    requires ChannelOk(s) && s'.copy == s.copy && s'.copied == s.copied && s'.phase == s.phase
    ensures ChannelOk(s')
  {
  }

  // ------------------------------------------------- taking a row off the channel

  lemma CopiedToCome(s: Load, s': Load, x: Write)
    requires s.copied < |s.copy| && s'.copy == s.copy && s'.copied == s.copied + 1 && s'.phase == s.phase && ToCome(s', x)
    ensures ToCome(s, x)
  {
    assert s.copy[s.copied..] == [s.copy[s.copied]] + s'.copy[s'.copied..];
  }

  lemma ChannelMoves(s: Load, s': Load)
    requires ChannelOk(s) && s.copied < |s.copy| && s'.copy == s.copy && s'.copied == s.copied + 1 && s'.phase == s.phase
    ensures ChannelOk(s')
  {
    assert s.copy[s.copied..] == [s.copy[s.copied]] + s'.copy[s'.copied..];
  }

  lemma AcceptedKey(s: Load, s': Load, w: Write, k: Key)
    requires KeyOk(s, k) && PoolOk(s') && Harmless(s, w) && w.doc.Some?
    requires s.copied < |s.copy| && s.copy[s.copied] == Row(w) && s' == s.(eng := s'.eng, copied := s.copied + 1)
    requires Pool(s', k) == if w.key == k then Pool(s, k) + {w} else Pool(s, k)
    ensures KeyOk(s', k)
  {
    assert forall e :: Taken(s', k, e) == Taken(s, k, e);
    assert forall v | Covered(Pool(s, k), v) :: Covered(Pool(s', k), v);
    assert w.key == k ==> Covered(Pool(s', k), w.version);
    hide Pool, Taken, Covered;
    forall e | LastTaken(s, k, e) ensures Calm(s.hist, s.clock, Pool(s', k), e.version) {
      if w.key == k {
        if w.version >= e.version {
          assert Covered(Pool(s', k), e.version) by { CoveredLower(Pool(s', k), w.version, e.version); }
          CalmWhenCovered(s', k, e.version);
        } else {
          if Shielded(s, k, w.version) { ShieldIsThere(s, k, w.version); }
          CalmWithDocument(s.hist, s.clock, Pool(s, k), w, e.version);
        }
      }
    }
    hide Calm, Harmless;
  }

  lemma ShieldIsThere(s: Load, k: Key, v: nat)
    requires Shielded(s, k, v)
    ensures exists x :: x in Pool(s, k) && x.version > v
  {
  }

  lemma CoveredLower(a: set<Write>, v: nat, u: nat)
    requires Covered(a, v) && u <= v
    ensures Covered(a, u)
  {
  }

  lemma AcceptedRow(s: Load, s': Load, w: Write, x: Write)
    requires RowSafe(s, x) && w.doc.Some? && s' == s.(eng := s'.eng, copied := s.copied + 1)
    requires s'.eng.superseded == s.eng.superseded && s.taken <= |s.events| && Pending(s') == Pending(s) + [w]
    ensures RowSafe(s', x)
  {
    assert forall e :: Taken(s', x.key, e) == Taken(s, x.key, e);
    hide Taken, TrueAt;
    if Shielded(s, x.key, x.version) { ShieldedWithDocument(s, s', w, x.key, x.version); }
    hide Shielded, Pending;
  }

  lemma ShieldedWithDocument(s: Load, s': Load, w: Write, k: Key, v: nat)
    requires Shielded(s, k, v) && w.doc.Some? && s'.target == s.target && Pending(s') == Pending(s) + [w]
    ensures Shielded(s', k, v)
  {
    var x :| Shield(s, k, x) && x.version > v;
    PoolGrows(s, s', w, k);
    assert forall y | y in Pending(s') :: y in Pending(s) || y == w;
    hide Pending, Pool;
    assert Shield(s', k, x);
  }

  lemma AcceptsKeeps(s: Load, s': Load, w: Write)
    requires Good(s) && s.copied < |s.copy| && s.copy[s.copied] == Row(w) && !Dropped(s.eng, w)
    requires s' == s.(eng := TakeRow(s.eng, w), copied := s.copied + 1)
    ensures Good(s')
  {
    hide Good, StreamOk, WindowOk, PoolOk, RowsOk, ChannelOk, WaveOk, KeyOk;
    GoodHas(s);
    NextIsSafe(s, w);
    assert Basics(s') && s'.eng.superseded == s.eng.superseded by { hide Harmless; }
    PendingGrows(s, s', w);
    forall k ensures Pool(s', k) == if w.key == k then Pool(s, k) + {w} else Pool(s, k) { PoolGrows(s, s', w, k); }
    hide TakeRow, Pool, Dropped, Harmless, Told, Pending;
    AcceptsFit(s, s', w);
    forall k: Key ensures KeyOk(s', k) { AcceptedKey(s, s', w, k); }
    AcceptsRows(s, s', w);
    WindowStays(s, s');
    StreamStays(s, s');
    WaveStays(s, s');
    ChannelMoves(s, s');
    GoodFrom(s');
  }

  lemma NextIsSafe(s: Load, w: Write)
    requires RowsOk(s) && s.copied < |s.copy| && s.copy[s.copied] == Row(w)
    ensures RowSafe(s, w) && Told(s, w) && w.doc.Some?
    ensures !Dropped(s.eng, w) ==> Harmless(s, w)
  {
    assert s.copy[s.copied] in s.copy[s.copied..];
    assert ToCome(s, w);
    hide Harmless, ToCome;
  }

  lemma AcceptsFit(s: Load, s': Load, w: Write)
    requires Basics(s) && PoolOk(s) && Told(s, w) && w.doc.Some?
    requires s' == s.(eng := s'.eng, copied := s.copied + 1) && Pending(s') == Pending(s) + [w]
    ensures PoolOk(s')
  {
    assert Fit(s', w);
    hide Fit, Pending, Increasing;
    PoolsStay(s, s');
  }

  lemma AcceptsRows(s: Load, s': Load, w: Write)
    requires Basics(s) && RowsOk(s) && w.doc.Some? && s.copied < |s.copy| && s' == s.(eng := s'.eng, copied := s.copied + 1)
    requires s'.eng.superseded == s.eng.superseded && Pending(s') == Pending(s) + [w]
    ensures RowsOk(s')
  {
    forall x | Told(s, x) ensures Told(s', x) {}
    hide Pending, RowSafe, Told, Increasing;
    forall x | ToCome(s', x) ensures RowSafe(s', x) {
      CopiedToCome(s, s', x);
      AcceptedRow(s, s', w, x);
    }
    hide ToCome;
  }

  /** A dropped row has a delete of its key behind it. */
  lemma DropsKeeps(s: Load, s': Load, w: Write)
    requires Good(s) && s.copied < |s.copy| && s.copy[s.copied] == Row(w) && Dropped(s.eng, w) && s' == s.(copied := s.copied + 1)
    ensures Good(s')
  {
    hide Good, StreamOk, PoolOk, RowsOk, ChannelOk, WaveOk, KeyOk;
    GoodHas(s);
    assert Basics(s');
    var d :| Taken(s, w.key, d) && d.doc.None? && d.version == s.eng.superseded[w.key];
    hide WindowOk;
    forall k: Key ensures KeyOk(s', k) { DroppedKey(s, s', w, d, k); }
    SamePending(s, s');
    PoolsStay(s, s');
    RowsFewer(s, s');
    WindowStays(s, s');
    StreamStays(s, s');
    WaveStays(s, s');
    ChannelMoves(s, s');
    GoodFrom(s');
  }

  lemma SamePending(s: Load, s': Load)
    requires s'.open == s.open && s'.eng.buffer == s.eng.buffer
    ensures Pending(s') == Pending(s)
  {
  }

  lemma DroppedKey(s: Load, s': Load, w: Write, d: Write, k: Key)
    requires KeyOk(s, k) && Taken(s, w.key, d) && s.copied < |s.copy| && s.copy[s.copied] == Row(w) && s' == s.(copied := s.copied + 1)
    ensures KeyOk(s', k)
  {
    assert forall e :: Taken(s', k, e) == Taken(s, k, e);
    assert Pool(s', k) == Pool(s, k);
    hide Pool, Taken, Covered, Calm;
  }

  /** Fewer rows to come, and as much remembered. */
  lemma RowsFewer(s: Load, s': Load)
    requires RowsOk(s) && s.taken <= |s.events| && s.copied < |s.copy| && s' == s.(copied := s.copied + 1)
    ensures RowsOk(s')
  {
    forall x | Told(s, x) ensures Told(s', x) {}
    hide Told;
    forall x | ToCome(s', x) ensures RowSafe(s', x) {
      CopiedToCome(s, s', x);
      SamePending(s, s');
      hide Pending, ToCome;
      if Harmless(s, x) { HarmlessStays(s, s', x); }
      hide Harmless;
    }
    hide ToCome, RowSafe;
  }

  // -------------------------------------------------------------------- marks

  /** The record is emptied, or another load starts and it is as it was. */
  ghost predicate Signals(s: Load, s': Load) {
    && s.copied < |s.copy| && !s.copy[s.copied].Row?
    && s' == s.(eng := s.eng.(superseded := s'.eng.superseded, loadRunning := s'.eng.loadRunning), copied := s.copied + 1)
    && (if s.copy[s.copied].OtherStart? then s'.eng == TakeStarted(s.eng) else s'.eng.superseded == map[])
  }

  lemma MarkKeeps(s: Load, s': Load)
    requires Good(s) && Signals(s, s') && (ClearsNext(s) ==> MarkOk(s))
    ensures Good(s')
  {
    hide Good, StreamOk, WindowOk, PoolOk, RowsOk, ChannelOk, WaveOk, KeyOk, MarkOk;
    GoodHas(s);
    assert Basics(s');
    SamePending(s, s');
    forall k: Key ensures KeyOk(s', k) { MarkedKey(s, s', k); }
    MarkedRows(s, s');
    PoolsStay(s, s');
    WindowStays(s, s');
    StreamStays(s, s');
    WaveStays(s, s');
    ChannelMoves(s, s');
    GoodFrom(s');
  }

  lemma MarkedKey(s: Load, s': Load, k: Key)
    requires KeyOk(s, k) && Signals(s, s')
    ensures KeyOk(s', k)
  {
    assert forall e :: Taken(s', k, e) == Taken(s, k, e);
    assert Pool(s', k) == Pool(s, k);
    hide Pool, Taken, Covered, Calm;
  }

  /** Behind our own mark there are no rows; behind another's they are harmless. */
  lemma MarkedRows(s: Load, s': Load)
    requires RowsOk(s) && ChannelOk(s) && s.taken <= |s.events| && Signals(s, s') && (ClearsNext(s) ==> MarkOk(s))
    ensures RowsOk(s')
  {
    forall x | Told(s, x) ensures Told(s', x) {}
    hide Told, Harmless;
    forall x | ToCome(s', x) ensures RowSafe(s', x) {
      CopiedToCome(s, s', x);
      if s.copy[s.copied].OwnMark? { NoneBehind(s, s', x); }
      SamePending(s, s');
      hide Pending, ToCome;
      if Harmless(s, x) { HarmlessStays(s, s', x); }
    }
    hide ToCome, RowSafe;
  }

  lemma NoneBehind(s: Load, s': Load, x: Write)
    requires ChannelOk(s) && s.copied < |s.copy| && s.copy[s.copied].OwnMark?
    requires s'.copy == s.copy && s'.copied == s.copied + 1 && s'.phase == s.phase
    ensures !ToCome(s', x)
  {
    assert s.copy[s.copied] in s.copy[s.copied..];
  }

  // ------------------------------------------------------ requests

  /** Only the engine's buffer, the open requests and the target moved, and every
      key's pool gave way at most. */
  lemma PoolMoves(s: Load, s': Load)
    requires Good(s) && PoolOk(s')
    requires s' == s.(eng := s.eng.(buffer := s'.eng.buffer), open := s'.open, target := s'.target)
    requires forall k :: GaveWay(Pool(s, k), Pool(s', k))
    requires forall k, v: nat | Shielded(s, k, v) :: Shielded(s', k, v)
    ensures Good(s')
  {
    hide Good, StreamOk, WindowOk, PoolOk, RowsOk, ChannelOk, WaveOk, KeyOk, GaveWay, Shielded;
    GoodHas(s);
    assert Basics(s');
    hide Pool;
    forall k: Key ensures KeyOk(s', k) { GaveWayKey(s, s', k); }
    GaveWayRows(s, s');
    WindowStays(s, s');
    StreamStays(s, s');
    WaveStays(s, s');
    SameChannel(s, s');
    GoodFrom(s');
  }

  lemma GaveWayKey(s: Load, s': Load, k: Key)
    requires KeyOk(s, k) && GaveWay(Pool(s, k), Pool(s', k))
    requires s' == s.(eng := s'.eng, open := s'.open, target := s'.target)
    ensures KeyOk(s', k)
  {
    assert forall e :: Taken(s', k, e) == Taken(s, k, e);
    hide Pool, Taken, GaveWay;
    forall p: nat | Calm(s.hist, s.clock, Pool(s, k), p) ensures Calm(s.hist, s.clock, Pool(s', k), p) {
      CalmGaveWay(s.hist, s.clock, Pool(s, k), Pool(s', k), p);
    }
    forall v: nat | Covered(Pool(s, k), v) ensures Covered(Pool(s', k), v) { CoveredGaveWay(Pool(s, k), Pool(s', k), v); }
    hide Calm, Covered;
  }

  lemma GaveWayRows(s: Load, s': Load)
    requires RowsOk(s) && (forall k, v: nat | Shielded(s, k, v) :: Shielded(s', k, v))
    requires s' == s.(eng := s.eng.(buffer := s'.eng.buffer), open := s'.open, target := s'.target)
    ensures RowsOk(s')
  {
    forall x | Told(s, x) ensures Told(s', x) {}
    forall x | RowSafe(s, x) ensures RowSafe(s', x) {
      assert forall e :: Taken(s', x.key, e) == Taken(s, x.key, e);
      hide Taken, TrueAt, Shielded;
    }
    assert forall x :: ToCome(s', x) == ToCome(s, x);
    hide Told, RowSafe, ToCome;
  }

  lemma OpensKeeps(s: Load, n: nat)
    requires Good(s) && May(s, Opens(n))
    ensures Good(Make(s, Opens(n)))
  {
    var s' := Make(s, Opens(n));
    hide Good, PoolOk;
    GoodHas(s);
    OpensPending(s, n);
    hide Pending;
    forall k ensures Pool(s', k) == Pool(s, k) {}
    hide Pool;
    forall k, v: nat | Shielded(s, k, v) ensures Shielded(s', k, v) {
      var x :| Shield(s, k, x) && x.version > v;
      assert Shield(s', k, x);
    }
    hide Shielded;
    PoolsStay(s, s');
    PoolMoves(s, s');
  }

  lemma OpensPending(s: Load, n: nat)
    requires May(s, Opens(n))
    ensures Pending(Make(s, Opens(n))) == Pending(s)
  {
    var b := s.eng.buffer;
    assert Writes(b) == Writes(b[..n]) + Writes(b[n..]);
    assert s.open + (Writes(b[..n]) + Writes(b[n..])) == s.open + Writes(b[..n]) + Writes(b[n..]);
  }

  lemma LandsPool(s: Load, i: nat, k: Key)
    requires i < |s.open| && (forall x | x in s.target :: s.target[x].key == x)
    ensures GaveWay(Pool(s, k), Pool(Make(s, Lands(i)), k))
  {
    var s' := Make(s, Lands(i));
    var x := s.open[i];
    var rest := s'.open + Writes(s.eng.buffer);
    assert forall w :: w in Pending(s) <==> w == x || w in rest by { OpenWithout(s, i); }
    assert Pending(s') == rest;
    hide Pending, Writes;
    if k == x.key {
      if k in s.target {
        var h := s.target[k];
        var z, y := if h.version > x.version then x else h, if h.version > x.version then h else x;
        assert y in Pool(s', k) && y.version >= z.version;
        assert Pool(s', k) == Pool(s, k) || Pool(s', k) == Pool(s, k) - {z};
      } else {
        assert Pool(s', k) == Pool(s, k);
      }
    } else {
      assert Pool(s', k) == Pool(s, k);
    }
  }

  lemma LandsShield(s: Load, i: nat, k: Key, v: nat)
    requires i < |s.open| && Shielded(s, k, v) && (forall x | x in s.target :: s.target[x].key == x)
    ensures Shielded(Make(s, Lands(i)), k, v)
  {
    var s' := Make(s, Lands(i));
    var u := s.open[i];
    var x :| Shield(s, k, x) && x.version > v;
    OpenWithout(s, i);
    assert u in Pending(s) && forall w | w in Pending(s') :: w in Pending(s);
    assert forall w | w in Pending(s) :: w == u || w in Pending(s');
    hide Pending;
    if x in Pool(s', k) {
      assert Shield(s', k, x);
    } else {
      assert u.key == k && k in s'.target;
      assert Shield(s', k, s'.target[k]);
    }
  }

  lemma OpenWithout(s: Load, i: nat)
    requires i < |s.open|
    ensures forall w :: w in Pending(s) <==> w == s.open[i] || w in s.open[..i] + s.open[i + 1..] + Writes(s.eng.buffer)
  {
    assert s.open == s.open[..i] + [s.open[i]] + s.open[i + 1..];
  }

  lemma LandsFit(s: Load, i: nat)
    requires Basics(s) && PoolOk(s) && May(s, Lands(i))
    ensures PoolOk(Make(s, Lands(i)))
  {
    var s' := Make(s, Lands(i));
    OpenWithout(s, i);
    forall w | Fit(s, w) ensures Fit(s', w) { FitStays(s, s', w); }
    assert s.open[i] in Pending(s);
    hide Fit, Increasing, Writes;
  }

  lemma LandsKeeps(s: Load, i: nat)
    requires Good(s) && May(s, Lands(i))
    ensures Good(Make(s, Lands(i)))
  {
    hide Good, StreamOk, WindowOk, RowsOk, ChannelOk, WaveOk, KeyOk;
    GoodHas(s);
    LandsFit(s, i);
    forall k ensures GaveWay(Pool(s, k), Pool(Make(s, Lands(i)), k)) { LandsPool(s, i, k); }
    forall k, v: nat | Shielded(s, k, v) ensures Shielded(Make(s, Lands(i)), k, v) { LandsShield(s, i, k, v); }
    hide GaveWay, Pool, PoolOk, Shielded;
    PoolMoves(s, Make(s, Lands(i)));
  }

  /** Landed, and still open: the request is sent again. */
  lemma RetriesKeeps(s: Load, i: nat)
    requires Good(s) && May(s, Retries(i))
    ensures Good(Make(s, Retries(i)))
  {
    var s' := Make(s, Retries(i));
    hide Good, StreamOk, WindowOk, RowsOk, ChannelOk, WaveOk, KeyOk;
    GoodHas(s);
    SamePending(s, s');
    assert s.open[i] in Pending(s);
    hide Pending, Increasing;
    RetriesFit(s, s', s.open[i]);
    forall k ensures GaveWay(Pool(s, k), Pool(s', k)) { RetriesPool(s, s', s.open[i], k); }
    forall k, v: nat | Shielded(s, k, v) ensures Shielded(s', k, v) { RetriesShield(s, s', s.open[i], k, v); }
    hide GaveWay, Pool, PoolOk, Shielded;
    PoolMoves(s, s');
  }

  lemma RetriesFit(s: Load, s': Load, x: Write)
    requires Basics(s) && PoolOk(s) && x in Pending(s) && s' == s.(target := Land(s.target, x)) && Pending(s') == Pending(s)
    ensures PoolOk(s')
  {
    hide Pending;
    forall w | Fit(s, w) ensures Fit(s', w) { FitStays(s, s', w); }
    hide Fit, Increasing;
  }

  lemma RetriesPool(s: Load, s': Load, x: Write, k: Key)
    requires x in Pending(s) && (forall y | y in s.target :: s.target[y].key == y)
    requires s' == s.(target := Land(s.target, x)) && Pending(s') == Pending(s)
    ensures GaveWay(Pool(s, k), Pool(s', k))
  {
    hide Pending;
    if k == x.key && k in s.target && s.target[k].version <= x.version {
      var h := s.target[k];
      assert x in Pool(s', k);
      assert Pool(s', k) == Pool(s, k) || Pool(s', k) == Pool(s, k) - {h};
    } else {
      assert Pool(s', k) == Pool(s, k);
    }
  }

  lemma RetriesShield(s: Load, s': Load, u: Write, k: Key, v: nat)
    requires Shielded(s, k, v) && u in Pending(s) && s' == s.(target := Land(s.target, u)) && Pending(s') == Pending(s)
    ensures Shielded(s', k, v)
  {
    hide Pending;
    var x :| Shield(s, k, x) && x.version > v;
    if x in Pool(s', k) {
      assert Shield(s', k, x);
    } else {
      assert u.key == k && k in s'.target;
      assert Shield(s', k, s'.target[k]);
    }
  }

  // --------------------------------------------------------------- forgetting

  lemma ForgetsPool(s: Load, k: Key, x: Key)
    requires k in s.target
    ensures x != k ==> Pool(s.(target := s.target - {k}), x) == Pool(s, x)
    ensures Pool(s.(target := s.target - {k}), k) <= Pool(s, k) && Pool(s, k) == Pool(s.(target := s.target - {k}), k) + {s.target[k]}
  {
    assert Pending(s.(target := s.target - {k})) == Pending(s);
    hide Pending;
  }

  lemma ForgetsKey(s: Load, s': Load, k: Key, x: Key)
    requires Basics(s) && StreamOk(s) && PoolOk(s) && KeyOk(s, x) && ForgetOk(s, k)
    requires k in s.target && s.target[k].doc.None? && s' == s.(target := s.target - {k})
    ensures KeyOk(s', x)
  {
    ForgetsPool(s, k, x);
    assert forall e :: Taken(s', x, e) == Taken(s, x, e);
    var d := s.target[k];
    PoolIsTold(s, k, d) by { assert d in Pool(s, k); }
    if x == k {
      hide Pool, Calm, Stale;
      forall e | LastTaken(s, k, e) && e.doc.Some? ensures Covered(Pool(s', k), e.version) {
        DeleteIsOlder(s, k, e, d);
        var y :| y in Pool(s, k) && y.version >= e.version;
        assert y in Pool(s', k);
      }
    } else {
      hide Pool, Calm, Covered;
    }
    hide Taken, StreamOk, Increasing;
  }

  /** Below a change that wrote a document, every delete is strictly older. */
  lemma DeleteIsOlder(s: Load, k: Key, e: Write, d: Write)
    requires Basics(s) && StreamOk(s) && LastTaken(s, k, e) && e.doc.Some? && Taken(s, k, d) && d.doc.None?
    ensures d.version < e.version
  {
    if d.version == e.version { ChangeIsUnique(s.hist, s.clock, d, e); }
  }

  lemma ForgetsRow(s: Load, s': Load, k: Key, x: Write)
    requires RowSafe(s, x) && k in s.target && s.target[k].doc.None? && s' == s.(target := s.target - {k})
    ensures RowSafe(s', x)
  {
    assert forall e :: Taken(s', x.key, e) == Taken(s, x.key, e);
    ForgetsPool(s, k, x.key);
    SamePending(s, s');
    hide Pool, Taken, TrueAt, Pending;
    if Shielded(s, x.key, x.version) {
      var y :| Shield(s, x.key, y) && y.version > x.version;
      assert Shield(s', x.key, y);
    }
    hide Shielded;
  }

  lemma ForgetsKeeps(s: Load, s': Load, k: Key)
    requires Good(s) && ForgetOk(s, k) && k in s.target && s.target[k].doc.None? && s' == s.(target := s.target - {k})
    ensures Good(s')
  {
    hide Good, StreamOk, WindowOk, PoolOk, RowsOk, ChannelOk, WaveOk, KeyOk, ForgetOk;
    GoodHas(s);
    assert Basics(s');
    forall x: Key ensures KeyOk(s', x) { ForgetsKey(s, s', k, x); }
    ForgetsRows(s, s', k);
    ForgetsFit(s, s', k);
    WindowStays(s, s');
    StreamStays(s, s');
    WaveStays(s, s');
    SameChannel(s, s');
    GoodFrom(s');
  }

  lemma ForgetsRows(s: Load, s': Load, k: Key)
    requires RowsOk(s) && k in s.target && s.target[k].doc.None? && s' == s.(target := s.target - {k})
    ensures RowsOk(s')
  {
    forall x | Told(s, x) ensures Told(s', x) {}
    forall x | RowSafe(s, x) ensures RowSafe(s', x) { ForgetsRow(s, s', k, x); }
    assert forall x :: ToCome(s', x) == ToCome(s, x);
    hide Told, RowSafe, ToCome;
  }

  lemma ForgetsFit(s: Load, s': Load, k: Key)
    requires Basics(s) && PoolOk(s) && s' == s.(target := s.target - {k})
    ensures PoolOk(s')
  {
    SamePending(s, s');
    forall w | Fit(s, w) ensures Fit(s', w) { FitStays(s, s', w); }
    hide Fit, Pending, Increasing;
  }

  // ------------------------------------------------------ the source and the stream

  lemma TrueStays(hist: seq<Txn>, clock: nat, x: Txn, w: Write, p: nat)
    requires TrueAt(hist, clock, w, p) && x.pos > clock
    ensures TrueAt(hist + [x], x.pos, w, p)
  {
    var at: nat :| p <= at <= clock && w.version <= at && DocAt(hist, at, w.key) == w.doc;
    CommitKeepsThePast(hist, x, at, w.key);
  }

  lemma CalmStays(hist: seq<Txn>, clock: nat, x: Txn, a: set<Write>, p: nat)
    requires Calm(hist, clock, a, p) && x.pos > clock
    ensures Calm(hist + [x], x.pos, a, p)
  {
    forall w | TrueAt(hist, clock, w, p) ensures TrueAt(hist + [x], x.pos, w, p) { TrueStays(hist, clock, x, w, p); }
    hide TrueAt;
    forall z | z in a && Stale(hist + [x], x.pos, z, p) ensures Outranked(hist + [x], x.pos, a, z, p) {
      var y :| y in a && y.version > z.version && !Stale(hist, clock, y, p);
      assert !Stale(hist + [x], x.pos, y, p);
    }
  }

  lemma CommitsKey(s: Load, s': Load, x: Txn, k: Key)
    requires KeyOk(s, k) && x.pos > s.clock && s' == s.(hist := s.hist + [x], clock := x.pos)
    ensures KeyOk(s', k)
  {
    assert forall e :: Taken(s', k, e) == Taken(s, k, e);
    assert Pool(s', k) == Pool(s, k);
    forall p: nat | Calm(s.hist, s.clock, Pool(s, k), p) ensures Calm(s'.hist, s'.clock, Pool(s', k), p) {
      CalmStays(s.hist, s.clock, x, Pool(s, k), p);
    }
    hide Pool, Calm, Covered, Taken;
  }

  lemma CommitsRows(s: Load, s': Load, x: Txn)
    requires RowsOk(s) && x.pos > s.clock && s' == s.(hist := s.hist + [x], clock := x.pos)
    ensures RowsOk(s')
  {
    forall w, p: nat | TrueAt(s.hist, s.clock, w, p) ensures TrueAt(s'.hist, s'.clock, w, p) { TrueStays(s.hist, s.clock, x, w, p); }
    hide TrueAt;
    forall w | RowSafe(s, w) ensures RowSafe(s', w) {
      assert forall e :: Taken(s', w.key, e) == Taken(s, w.key, e);
      assert forall y :: Shield(s', w.key, y) == Shield(s, w.key, y);
      hide Taken, Shield;
    }
    assert forall w :: ToCome(s', w) == ToCome(s, w);
    hide RowSafe, ToCome;
  }

  lemma CommitsFit(s: Load, s': Load, x: Txn)
    requires PoolOk(s) && x.pos > s.clock && s' == s.(hist := s.hist + [x], clock := x.pos)
    ensures PoolOk(s')
  {
    forall w, p: nat | TrueAt(s.hist, s.clock, w, p) ensures TrueAt(s'.hist, s'.clock, w, p) { TrueStays(s.hist, s.clock, x, w, p); }
    hide TrueAt;
    forall w | Fit(s, w) ensures Fit(s', w) {}
    SamePending(s, s');
    hide Fit, Pending;
  }

  lemma CommitsStream(s: Load, s': Load, x: Txn)
    requires Basics(s) && StreamOk(s) && x.pos > s.clock && s' == s.(hist := s.hist + [x], clock := x.pos)
    ensures StreamOk(s')
  {
    forall w ensures w in Changes(s.hist) ==> w in Changes(s'.hist)
             ensures w in Changes(s'.hist) && w.version <= s.clock ==> w in Changes(s.hist)
    {
      CommitKeepsThePast(s.hist, x, s.clock, w.key);
    }
    hide Changes, Increasing;
  }

  lemma RowsBefore(hist: seq<Txn>, x: Txn, clock: nat, at: nat, t: nat, range: KeyRange, v: nat)
    requires Increasing(hist, clock) && at <= clock < x.pos
    ensures RowsOf(hist + [x], at, t, range, v) == RowsOf(hist, at, t, range, v)
  {
    var h := hist + [x];
    assert Increasing(h, x.pos);
    forall k ensures DocAt(h, at, k) == DocAt(hist, at, k) { CommitKeepsThePast(hist, x, at, k); }
    forall k | DocAt(hist, at, k).Some? ensures k in KeysOf(hist) && k in KeysOf(h) {
      LastChangeIsLast(hist, clock, at, k);
      var w := LastChange(hist, at, k).value;
      CommitKeepsThePast(hist, x, at, k);
      assert w in Changes(hist) && w in Changes(h);
    }
  }

  lemma CommitsWave(s: Load, s': Load, x: Txn)
    requires Basics(s) && Basics(s') && WaveOk(s) && x.pos > s.clock && s' == s.(hist := s.hist + [x], clock := x.pos)
    ensures WaveOk(s')
  {
    forall k: Key | KeyRead(s, k) ensures KeyRead(s', k) {
      var v: nat, at: nat :| SentAt(s, k, v, at);
      CommitKeepsThePast(s.hist, x, at, k);
      assert SentAt(s', k, v, at);
    }
    forall at: nat, range, v: nat | at <= s.clock
      ensures RowsOf(s'.hist, at, s.table, range, v) == RowsOf(s.hist, at, s.table, range, v)
    {
      RowsBefore(s.hist, x, s.clock, at, s.table, range, v);
    }
    hide KeyRead, RowsOf;
  }

  lemma CommitsKeeps(s: Load, s': Load, x: Txn)
    requires Good(s) && x.pos > s.clock && s' == s.(hist := s.hist + [x], clock := x.pos)
    ensures Good(s')
  {
    hide Good, StreamOk, WindowOk, PoolOk, RowsOk, ChannelOk, WaveOk, KeyOk;
    GoodHas(s);
    assert Basics(s');
    forall k: Key ensures KeyOk(s', k) { CommitsKey(s, s', x, k); }
    CommitsRows(s, s', x);
    CommitsFit(s, s', x);
    CommitsStream(s, s', x);
    CommitsWave(s, s', x);
    WindowStays(s, s');
    SameChannel(s, s');
    GoodFrom(s');
  }

  lemma SendsRows(s: Load, s': Load, i: nat, order: seq<Key>)
    requires May(s, Sends(i, order)) && s' == Make(s, Sends(i, order))
    ensures s' == s.(events := s'.events, cursor := s.hist[i].pos) && s.events <= s'.events
    ensures forall j | |s.events| <= j < |s'.events| :: s'.events[j] in ChangesOf(s.hist[i])
    ensures forall k | k in s.hist[i].changes :: Write(k, s.hist[i].pos, s.hist[i].changes[k]) in s'.events
  {
    var t := s.hist[i];
    assert forall k | k in order :: k in Elems(order);
    forall k | k in t.changes ensures Write(k, t.pos, t.changes[k]) in s'.events {
      assert k in Elems(order);
      var j :| 0 <= j < |order| && order[j] == k;
      assert s'.events[|s.events| + j] == Write(k, t.pos, t.changes[k]);
    }
  }

  lemma SendsStream(s: Load, s': Load, i: nat)
    requires Basics(s) && StreamOk(s) && i < |s.hist| && s.hist[i].pos > s.cursor && (i > 0 ==> s.hist[i - 1].pos <= s.cursor)
    requires s' == s.(events := s'.events, cursor := s.hist[i].pos) && s.events <= s'.events
    requires forall j | |s.events| <= j < |s'.events| :: s'.events[j] in ChangesOf(s.hist[i])
    requires forall k | k in s.hist[i].changes :: Write(k, s.hist[i].pos, s.hist[i].changes[k]) in s'.events
    ensures StreamOk(s')
  {
    hide StreamOk;
    var t := s.hist[i];
    forall w | w in ChangesOf(t) ensures w in Changes(s.hist) && w.version == t.pos { ChangesAreIndexed(s.hist, w); }
    forall c | c in Changes(s.hist) && s.cursor < c.version <= t.pos ensures c in s'.events { SendsAll(s, s', i, c); }
    hide Changes, Increasing, ChangesOf;
    SendsMore(s, s', t.pos);
  }

  lemma SendsMore(s: Load, s': Load, pos: nat)
    requires StreamOk(s) && s.start <= s.cursor < pos && s' == s.(events := s'.events, cursor := pos) && s.events <= s'.events
    requires forall j | |s.events| <= j < |s'.events| :: s'.events[j] in Changes(s.hist) && s'.events[j].version == pos
    requires forall c | c in Changes(s.hist) && s.cursor < c.version <= pos :: c in s'.events
    ensures StreamOk(s')
  {
    hide Changes;
    assert forall x | x in s.events :: x in s'.events;
    assert forall j | 0 <= j < |s.events| :: s'.events[j] == s.events[j];
  }

  lemma SendsAll(s: Load, s': Load, i: nat, c: Write)
    requires Basics(s) && i < |s.hist| && (i > 0 ==> s.hist[i - 1].pos <= s.cursor)
    requires forall k | k in s.hist[i].changes :: Write(k, s.hist[i].pos, s.hist[i].changes[k]) in s'.events
    requires c in Changes(s.hist) && s.cursor < c.version <= s.hist[i].pos
    ensures c in s'.events
  {
    ChangesAreIndexed(s.hist, c);
    var j :| 0 <= j < |s.hist| && c in ChangesOf(s.hist[j]);
    assert j == i;
  }

  lemma SendsKeeps(s: Load, i: nat, order: seq<Key>)
    requires Good(s) && May(s, Sends(i, order))
    ensures Good(Make(s, Sends(i, order)))
  {
    hide Good, StreamOk, WindowOk, PoolOk, RowsOk, ChannelOk, WaveOk, KeyOk;
    GoodHas(s);
    var s' := Make(s, Sends(i, order));
    SendsRows(s, s', i, order);
    hide Make, ChangesOf;
    assert Basics(s');
    SendsStream(s, s', i);
    hide May, Increasing;
    assert SameTaken(s, s');
    forall k: Key ensures KeyOk(s', k) {
      assert Pool(s', k) == Pool(s, k);
      KeyStays(s, s', k);
    }
    SamePending(s, s');
    PoolsStay(s, s');
    SameRows(s, s');
    WindowStays(s, s');
    WaveStays(s, s');
    SameChannel(s, s');
    GoodFrom(s');
  }

  /** Nothing rows depend on moved. */
  lemma SameRows(s: Load, s': Load)
    requires RowsOk(s) && SameSource(s, s') && SameTaken(s, s') && Pending(s') == Pending(s) && s'.target == s.target
    requires s'.eng.superseded == s.eng.superseded && s'.copy == s.copy
    requires forall w | ToCome(s', w) :: ToCome(s, w)
    ensures RowsOk(s')
  {
    forall x | Told(s, x) ensures Told(s', x) {}
    forall x | RowSafe(s, x) ensures RowSafe(s', x) {
      if Harmless(s, x) { HarmlessStays(s, s', x); }
      hide Harmless;
    }
    hide Told, RowSafe, ToCome;
  }

  // --------------------------------------------------------------- the loader

  /** Only the loader's phase, its count and the end of the channel moved. */
  lemma LoaderMoves(s: Load, s': Load)
    requires Good(s) && Basics(s') && s' == s.(phase := s'.phase, done := s'.done, copy := s'.copy) && s.copy <= s'.copy
    requires RowsOk(s') && ChannelOk(s') && WaveOk(s')
    ensures Good(s')
  {
    hide Good, StreamOk, WindowOk, PoolOk, RowsOk, ChannelOk, WaveOk, KeyOk;
    GoodHas(s);
    forall k: Key ensures KeyOk(s', k) {
      assert Pool(s', k) == Pool(s, k);
      KeyStays(s, s', k);
    }
    SamePending(s, s');
    PoolsStay(s, s');
    WindowStays(s, s');
    StreamStays(s, s');
    GoodFrom(s');
  }

  /** Each row to come was one already, or is a true one read just now. */
  lemma RowsMove(s: Load, s': Load)
    requires Basics(s) && StreamOk(s) && RowsOk(s) && s' == s.(phase := s'.phase, done := s'.done, copy := s'.copy)
    requires forall w | ToCome(s', w) :: ToCome(s, w) || TrueAt(s.hist, s.clock, w, s.clock)
    requires forall i | 0 <= i < |s'.copy| && s'.copy[i].Row? :: s'.copy[i] in s.copy || Told(s, s'.copy[i].w)
    ensures RowsOk(s')
  {
    forall x | Told(s, x) ensures Told(s', x) {}
    forall w | RowSafe(s, w) ensures RowSafe(s', w) {
      SamePending(s, s');
      if Harmless(s, w) { HarmlessStays(s, s', w); }
      hide Harmless;
    }
    forall w | TrueAt(s.hist, s.clock, w, s.clock) ensures Harmless(s', w) { TrueIsHarmless(s, s', w); }
    hide Told, ToCome, Harmless, StreamOk, Increasing;
  }

  lemma TrueIsHarmless(s: Load, s': Load, w: Write)
    requires Basics(s) && StreamOk(s) && TrueAt(s.hist, s.clock, w, s.clock) && s' == s.(phase := s'.phase, done := s'.done, copy := s'.copy)
    ensures Harmless(s', w)
  {
    forall e | LastTaken(s', w.key, e) ensures TrueAt(s.hist, s.clock, w, e.version) {
      var i :| 0 <= i < s.taken && s.events[i] == e;
      assert e.version <= s.clock;
    }
  }

  lemma SetWaveWave(s: Load, i: nat, r: RangeRead)
    requires Basics(s) && WaveOk(s) && InWaveAt(s, i) && ReadOk(s, Range(s, i), r)
    ensures Basics(SetWave(s, i, r)) && WaveOk(SetWave(s, i, r))
  {
    var s' := SetWave(s, i, r);
    forall k: Key | KeyRead(s, k) ensures KeyRead(s', k) {
      var v: nat, at: nat :| SentAt(s, k, v, at);
      assert SentAt(s', k, v, at);
    }
    forall range, x | ReadOk(s, range, x) ensures ReadOk(s', range, x) { hide RowsOf; }
    hide KeyRead, ReadOk, Increasing;
  }

  lemma SetWaveChannel(s: Load, i: nat, r: RangeRead)
    requires ChannelOk(s) && s.phase.InWave? && i < |s.phase.wave|
    ensures ChannelOk(SetWave(s, i, r))
  {
  }

  lemma LocatesKeeps(s: Load, i: nat)
    requires Good(s) && May(s, Locates(i))
    ensures Good(Make(s, Locates(i)))
  {
    var s' := Make(s, Locates(i));
    hide Good;
    GoodHas(s);
    SetWaveWave(s, i, Located(s.clock));
    SetWaveChannel(s, i, Located(s.clock));
    hide StreamOk, WindowOk, PoolOk, RowsOk, ChannelOk, WaveOk, KeyOk;
    assert forall w | ToCome(s', w) :: ToCome(s, w);
    hide ToCome;
    RowsMove(s, s');
    LoaderMoves(s, s');
  }

  lemma SnapshotsKeeps(s: Load, i: nat)
    requires Good(s) && May(s, Snapshots(i))
    ensures Good(Make(s, Snapshots(i)))
  {
    var s' := Make(s, Snapshots(i));
    hide Good;
    GoodHas(s);
    var v := s.phase.wave[i].v;
    var rows := RowsOf(s.hist, s.clock, s.table, Range(s, i), v);
    assert ReadOk(s, Range(s, i), s.phase.wave[i]) && s.start <= v <= s.clock;
    hide StreamOk, WindowOk, PoolOk, RowsOk, KeyOk;
    assert ReadOk(s, Range(s, i), Copying(v, s.clock, rows));
    SetWaveWave(s, i, Copying(v, s.clock, rows));
    SetWaveChannel(s, i, Copying(v, s.clock, rows));
    hide ChannelOk, WaveOk;
    forall w | w in rows ensures TrueAt(s.hist, s.clock, w, s.clock) { assert DocAt(s.hist, s.clock, w.key) == w.doc; }
    assert forall w | ToCome(s', w) :: ToCome(s, w) || w in rows by { hide RowsOf; }
    hide ToCome, RowsOf;
    RowsMove(s, s');
    LoaderMoves(s, s');
  }

  lemma SendsRowWave(s: Load, s': Load, i: nat, w: Write)
    requires Basics(s) && WaveOk(s) && InWaveAt(s, i) && s.phase.wave[i].Copying? && w in s.phase.wave[i].left
    requires s' == SetWave(s, i, s.phase.wave[i].(left := s.phase.wave[i].left - {w})).(copy := s.copy + [Row(w)])
    ensures Basics(s') && WaveOk(s') && Told(s, w)
  {
    var r := s.phase.wave[i];
    assert ReadOk(s, Range(s, i), r);
    assert Told(s, w) by { assert DocAt(s.hist, r.s, w.key) == w.doc; }
    assert Row(w) in s'.copy by { assert s'.copy[|s.copy|] == Row(w); }
    assert forall x | x in s.copy :: x in s'.copy;
    forall k: Key | KeyRead(s, k) ensures KeyRead(s', k) {
      var v: nat, at: nat :| SentAt(s, k, v, at);
      assert SentAt(s', k, v, at);
    }
    hide RowsOf;
    forall g, x | ReadOk(s, g, x) ensures ReadOk(s', g, x) {}
    assert ReadOk(s', Range(s, i), r.(left := r.left - {w}));
    hide KeyRead, ReadOk, Told, Increasing;
  }

  lemma SendsRowToCome(s: Load, s': Load, i: nat, w: Write)
    requires ChannelOk(s) && s.phase.InWave? && i < |s.phase.wave| && s.phase.wave[i].Copying? && w in s.phase.wave[i].left
    requires s' == SetWave(s, i, s.phase.wave[i].(left := s.phase.wave[i].left - {w})).(copy := s.copy + [Row(w)])
    ensures ChannelOk(s') && forall x | ToCome(s', x) :: ToCome(s, x)
  {
    assert s'.copy[s'.copied..] == s.copy[s.copied..] + [Row(w)];
    assert ToCome(s, w);
    assert forall j | s.copied <= j < |s.copy| :: s.copy[j] in s.copy[s.copied..];
  }

  lemma SendsRowKeeps(s: Load, i: nat, w: Write)
    requires Good(s) && May(s, SendsRow(i, w))
    ensures Good(Make(s, SendsRow(i, w)))
  {
    var s' := Make(s, SendsRow(i, w));
    hide Good;
    GoodHas(s);
    hide StreamOk, WindowOk, PoolOk, RowsOk, ChannelOk, WaveOk, KeyOk;
    SendsRowWave(s, s', i, w);
    SendsRowToCome(s, s', i, w);
    assert forall j | 0 <= j < |s'.copy| && s'.copy[j].Row? :: s'.copy[j] in s.copy || s'.copy[j].w == w;
    hide ToCome, Told;
    RowsMove(s, s');
    LoaderMoves(s, s');
  }

  lemma WaveKeyRead(s: Load, s': Load, k: Key)
    requires Basics(s) && WaveOk(s) && s.phase.InWave? && AllCopied(s.phase.wave)
    requires k.table == s.table && RangeOf(s.bounds, k.id) < s.done + |s.phase.wave|
    requires s'.hist == s.hist && s'.clock == s.clock && s'.start == s.start && s.copy <= s'.copy
    ensures KeyRead(s', k)
  {
    assert forall x | x in s.copy :: x in s'.copy;
    var r := RangeOf(s.bounds, k.id);
    if r < s.done {
      var v: nat, at: nat :| SentAt(s, k, v, at);
      assert SentAt(s', k, v, at);
    } else {
      var i := r - s.done;
      ExactlyOneRange(s.bounds, k.id, r);
      var x := s.phase.wave[i];
      assert ReadOk(s, Range(s, i), x);
      if DocAt(s.hist, x.s, k).Some? { RowIsThere(s.hist, s.clock, x.s, Range(s, i), x.v, k); }
      assert SentAt(s', k, x.v, x.s);
    }
  }

  lemma RowIsThere(hist: seq<Txn>, clock: nat, at: nat, range: KeyRange, v: nat, k: Key)
    requires Increasing(hist, clock) && range.Contains(k.id) && DocAt(hist, at, k).Some?
    ensures Write(k, v, DocAt(hist, at, k)) in RowsOf(hist, at, k.table, range, v)
  {
    LastChangeIsLast(hist, clock, at, k);
    assert LastChange(hist, at, k).value in Changes(hist);
  }

  lemma SendsMarkKeeps(s: Load)
    requires Good(s) && May(s, SendsMark)
    ensures Good(Make(s, SendsMark))
  {
    var s' := Make(s, SendsMark);
    hide Good;
    GoodHas(s);
    hide StreamOk, WindowOk, PoolOk, RowsOk, KeyOk;
    assert Basics(s');
    forall k: Key | k.table == s.table && RangeOf(s.bounds, k.id) < s'.done ensures KeyRead(s', k) { WaveKeyRead(s, s', k); }
    assert WaveOk(s') by { hide KeyRead, ReadOk; }
    hide WaveOk;
    MarkToCome(s, s');
    hide ToCome, Told, ChannelOk;
    RowsMove(s, s');
    LoaderMoves(s, s');
  }

  lemma MarkToCome(s: Load, s': Load)
    requires ChannelOk(s) && s.phase.InWave? && s'.phase.Marked? && s'.copied == s.copied && s'.copy == s.copy + [OwnMark]
    ensures ChannelOk(s') && forall x | ToCome(s', x) :: ToCome(s, x)
  {
    assert s'.copy[s'.copied..] == s.copy[s.copied..] + [OwnMark];
    assert forall j | s.copied <= j < |s.copy| :: s.copy[j] in s.copy[s.copied..];
  }

  /** The channel is as it was, or holds one thing more from another loader. */
  ghost predicate Hears(s: Load, s': Load) {
    s'.copy == s.copy
    || (|s'.copy| == |s.copy| + 1 && s'.copy == s.copy + [s'.copy[|s.copy|]]
        && !s'.copy[|s.copy|].Row? && !s'.copy[|s.copy|].OwnMark?)
  }

  /** A phase that starts no read, or a word from someone else. */
  lemma IdleMoves(s: Load, s': Load)
    requires Good(s) && Basics(s')
    requires s' == s.(phase := s'.phase, copy := s'.copy) && Hears(s, s')
    requires s'.phase == s.phase || s'.phase.Between? || s'.phase.Over?
             || (s'.phase.InWave? && s.done + |s'.phase.wave| <= |s.bounds| + 1
                 && forall i | 0 <= i < |s'.phase.wave| :: s'.phase.wave[i].Unread?)
    requires OwnMark in s.copy[s.copied..] ==> s'.phase.Marked?
    ensures Good(s')
  {
    hide Good;
    GoodHas(s);
    hide StreamOk, WindowOk, PoolOk, RowsOk, KeyOk;
    IdleWave(s, s');
    hide WaveOk;
    IdleToCome(s, s');
    hide ToCome, Told, ChannelOk;
    RowsMove(s, s');
    LoaderMoves(s, s');
  }

  lemma IdleToCome(s: Load, s': Load)
    requires ChannelOk(s) && s'.copied == s.copied && Hears(s, s')
    requires s'.phase == s.phase || s'.phase.Between? || s'.phase.Over?
             || (s'.phase.InWave? && forall i | 0 <= i < |s'.phase.wave| :: s'.phase.wave[i].Unread?)
    requires OwnMark in s.copy[s.copied..] ==> s'.phase.Marked?
    ensures ChannelOk(s') && forall x | ToCome(s', x) :: ToCome(s, x)
  {
    assert s'.copy[s'.copied..] == s.copy[s.copied..] || s'.copy[s'.copied..] == s.copy[s.copied..] + [s'.copy[|s.copy|]];
  }

  lemma IdleWave(s: Load, s': Load)
    requires Basics(s) && Basics(s') && WaveOk(s)
    requires s' == s.(phase := s'.phase, copy := s'.copy) && Hears(s, s')
    requires s'.phase == s.phase || s'.phase.Between? || s'.phase.Over?
             || (s'.phase.InWave? && s.done + |s'.phase.wave| <= |s.bounds| + 1
                 && forall i | 0 <= i < |s'.phase.wave| :: s'.phase.wave[i].Unread?)
    ensures WaveOk(s')
  {
    assert forall x | x in s.copy :: x in s'.copy;
    forall k: Key | KeyRead(s, k) ensures KeyRead(s', k) {
      var v: nat, at: nat :| SentAt(s, k, v, at);
      assert SentAt(s', k, v, at);
    }
    hide RowsOf;
    forall g, x | ReadOk(s, g, x) ensures ReadOk(s', g, x) {}
    hide KeyRead, Increasing;
  }

  // ------------------------------------------------------------- every move

  lemma BeginsGood(s: Load)
    requires Begins(s)
    ensures Good(s)
  {
    forall c | c in Changes(s.hist) ensures c.version <= s.clock { ChangeWithinClock(s.hist, s.clock, c); }
    assert Pending(s) == [];
    hide Changes;
  }

  lemma TakesCopyKeeps(s: Load)
    requires Good(s) && s.copied < |s.copy| && (ClearsNext(s) ==> MarkOk(s))
    ensures Good(TakeNextCopy(s))
  {
    hide Good, MarkOk;
    var s' := TakeNextCopy(s);
    match s.copy[s.copied]
    case Row(w) => if Dropped(s.eng, w) { DropsKeeps(s, s', w); } else { AcceptsKeeps(s, s', w); }
    case _ => MarkKeeps(s, s');
  }

  lemma MakeKeeps(s: Load, m: Move)
    requires Good(s) && May(s, m) && Fair(s, m)
    ensures Good(Make(s, m))
  {
    var s' := Make(s, m);
    GoodHas(s);
    hide Good, ForgetOk, MarkOk, TakeOk, StreamOk, WindowOk, PoolOk, RowsOk, WaveOk, KeyOk, TakeNextCopy, TakeRow, Land;
    match m
    case Commits(pos, changes) => CommitsKeeps(s, s', Txn(pos, changes));
    case Sends(i, order) => SendsKeeps(s, i, order);
    case Takes => TakesKeeps(s, s');
    case TakesCopy => TakesCopyKeeps(s);
    case Opens(n) => OpensKeeps(s, n);
    case Lands(i) => LandsKeeps(s, i);
    case Retries(i) => RetriesKeeps(s, i);
    case Forgets(k) => ForgetsKeeps(s, s', k);
    case StartsWave(width) => IdleMoves(s, s');
    case Locates(i) => LocatesKeeps(s, i);
    case Snapshots(i) => SnapshotsKeeps(s, i);
    case SendsRow(i, w) => SendsRowKeeps(s, i, w);
    case SendsMark => SendsMarkKeeps(s);
    case SeesMark => IdleMoves(s, s');
    case OtherLoaderMarks => IdleMoves(s, s');
    case OtherLoaderStarts => IdleMoves(s, s');
    case OtherLoaderFinishes => IdleMoves(s, s');
  }

  lemma {:induction false} PlaysKeep(s: Load, moves: seq<Move>, s': Load)
    requires Good(s) && Plays(Fairly, s, moves, s')
    ensures Good(s')
    decreases |moves|
  {
    hide Good, May, Make, Fair;
    if moves != [] {
      MakeKeeps(s, moves[0]);
      PlaysKeep(Make(s, moves[0]), moves[1..], s');
    }
  }

  lemma LeadsKeeps(s: Load, s': Load)
    requires Good(s) && Leads(Fairly, s, s')
    ensures Good(s')
  {
    hide Good;
    var moves :| Plays(Fairly, s, moves, s');
    PlaysKeep(s, moves, s');
  }

  lemma PlayedIsGood(s: Load)
    requires Played(Fairly, s)
    ensures Good(s)
  {
    hide Good;
    var s0 :| Begins(s0) && Leads(Fairly, s0, s);
    BeginsGood(s0);
    LeadsKeeps(s0, s);
  }

  // ------------------------------------------------------------ main theorems

  lemma {:induction false} LastOf(events: seq<Write>, k: Key) returns (i: nat)
    requires exists e :: e in events && e.key == k
    ensures i < |events| && events[i].key == k && forall j | i < j < |events| :: events[j].key != k
  {
    var n := |events| - 1;
    if events[n].key == k {
      i := n;
    } else {
      assert events == events[..n] + [events[n]];
      i := LastOf(events[..n], k);
    }
  }

  lemma TakenRises(s: Load, i: nat, j: nat)
    requires StreamOk(s) && i <= j < s.taken <= |s.events|
    ensures s.events[i].version <= s.events[j].version
  {
    hide Changes;
  }

  lemma SomeLast(s: Load, k: Key, e0: Write) returns (e: Write)
    requires StreamOk(s) && Taken(s, k, e0)
    ensures LastTaken(s, k, e)
  {
    hide StreamOk;
    var events := s.events[..s.taken];
    var i := LastOf(events, k);
    e := events[i];
    forall x | Taken(s, k, x) ensures x.version <= e.version {
      var j :| 0 <= j < |events| && events[j] == x;
      TakenRises(s, j, i);
    }
  }

  lemma {:induction false} StaleLater(hist: seq<Txn>, clock: nat, w: Write, p: nat, q: nat)
    requires Stale(hist, clock, w, p) && p <= q
    ensures Stale(hist, clock, w, q)
  {
  }

  /** In every fair run no delete is ever undone. */
  lemma NeverUndone(s: Load, k: Key)
    requires Good(s)
    ensures !Undone(s, k)
  {
    hide Good, Basics, StreamOk, WindowOk, PoolOk, RowsOk, ChannelOk, WaveOk, Stale, Pending;
    GoodHas(s);
    assert KeyOk(s, k);
    if Undone(s, k) {
      var e :| Taken(s, k, e) && e.doc.None? && Stale(s.hist, s.clock, s.target[k], e.version);
      var last := SomeLast(s, k, e);
      var z := s.target[k];
      StaleLater(s.hist, s.clock, z, e.version, last.version);
    }
  }

  lemma NoDeleteIsUndone(s: Load, k: Key)
    requires Played(Fairly, s)
    ensures !Undone(s, k)
  {
    PlayedIsGood(s);
    NeverUndone(s, k);
  }

  /** With nothing on its way, a document shown is one the source held at or
      after every change of the key the stream has made. */
  lemma ShownIsTrue(s: Load, k: Key, e: Write)
    requires Played(Fairly, s) && s.open == [] && s.eng.buffer == [] && View(s.target, k).Some? && Taken(s, k, e)
    ensures exists at: nat :: e.version <= at <= s.clock && DocAt(s.hist, at, k) == View(s.target, k)
  {
    hide Good, Basics, StreamOk, WindowOk, RowsOk, ChannelOk, WaveOk, Stale, Played, LastTaken;
    PlayedIsGood(s);
    GoodHas(s);
    var last := SomeLast(s, k, e);
    assert last.version >= e.version by { assert LastTaken(s, k, last); LastIsLast(s, k, last, e); }
    assert Pending(s) == [];
    assert Pool(s, k) == {s.target[k]} && s.target[k].key == k;
    hide PoolOk, Pool, Taken;
    OneIsTrue(s, k, last, s.target[k]);
  }

  lemma LastIsLast(s: Load, k: Key, last: Write, e: Write)
    requires LastTaken(s, k, last) && Taken(s, k, e)
    ensures e.version <= last.version
  {
  }

  lemma OneIsTrue(s: Load, k: Key, last: Write, z: Write)
    requires KeyOk(s, k) && LastTaken(s, k, last) && Pool(s, k) == {z} && z.doc.Some?
    ensures TrueAt(s.hist, s.clock, z, last.version)
  {
    hide Pool, LastTaken, TrueAt;
  }

  /** Load over, stream taken in, everything landed: the source's rows, at a
      target that forgot any of its tombstones at any fair time. */
  lemma LoadedIsTheSource(s: Load, k: Key)
    requires Played(Fairly, s) && Complete(s) && k.table == s.table
    ensures View(s.target, k) == DocAt(s.hist, s.clock, k)
  {
    PlayedIsGood(s);
    hide Good;
    GoodHas(s);
    CompleteIsTheSource(s, k);
  }

  lemma CompleteIsTheSource(s: Load, k: Key)
    requires Basics(s) && StreamOk(s) && PoolOk(s) && WaveOk(s) && KeyOk(s, k) && Complete(s) && k.table == s.table
    ensures View(s.target, k) == DocAt(s.hist, s.clock, k)
  {
    forall c | c in Changes(s.hist) ensures c.version <= s.clock { ChangeWithinClock(s.hist, s.clock, c); }
    assert Pending(s) == [];
    assert s.events[..s.taken] == s.events;
    assert Pool(s, k) == if k in s.target then {s.target[k]} else {};
    if e0 :| Taken(s, k, e0) {
      var e := SomeLast(s, k, e0);
      hide WaveOk;
      LastTakenShows(s, k, e);
    } else {
      assert PoolFits(s, k);
      hide PoolOk;
      UntakenShows(s, k);
    }
  }

  lemma LastTakenShows(s: Load, k: Key, e: Write)
    requires Basics(s) && StreamOk(s) && PoolOk(s) && KeyOk(s, k) && LastTaken(s, k, e)
    requires s.events[..s.taken] == s.events && s.cursor == s.clock && forall c | c in Changes(s.hist) :: c.version <= s.clock
    requires Pool(s, k) == if k in s.target then {s.target[k]} else {}
    ensures View(s.target, k) == DocAt(s.hist, s.clock, k)
  {
    assert e in Changes(s.hist);
    DocAtChange(s.hist, s.clock, e);
    forall c | c in Changes(s.hist) && c.key == k ensures c.version <= e.version {
      if c.version > s.start { assert Taken(s, k, c); }
    }
    assert Calm(s.hist, s.clock, Pool(s, k), e.version) && (e.doc.Some? ==> Covered(Pool(s, k), e.version));
    DocUnchanged(s.hist, s.clock, e.version, s.clock, k);
    if k in s.target {
      var z := s.target[k];
      PoolIsTold(s, k, z);
      hide Pool, PoolOk, KeyOk, StreamOk, Taken, Changes;
      if z.doc.Some? {
        assert !Stale(s.hist, s.clock, z, e.version);
        var at: nat :| e.version <= at <= s.clock && z.version <= at && DocAt(s.hist, at, k) == z.doc;
        DocUnchanged(s.hist, s.clock, at, s.clock, k);
      } else if e.doc.Some? {
        assert z.version >= e.version;
        assert z.version == e.version;
        SameChange(s, k, z, e);
      }
    }
  }

  lemma SameChange(s: Load, k: Key, a: Write, b: Write)
    requires Basics(s) && StreamOk(s) && Taken(s, k, a) && Taken(s, k, b) && a.version == b.version
    ensures a == b
  {
    ChangeIsUnique(s.hist, s.clock, a, b);
  }

  lemma UntakenShows(s: Load, k: Key)
    requires Basics(s) && StreamOk(s) && PoolFits(s, k) && WaveOk(s) && KeyOk(s, k) && Complete(s) && k.table == s.table
    requires (forall e :: !Taken(s, k, e)) && s.events[..s.taken] == s.events
    requires Pool(s, k) == if k in s.target then {s.target[k]} else {}
    requires forall c | c in Changes(s.hist) :: c.version <= s.clock
    ensures View(s.target, k) == DocAt(s.hist, s.clock, k)
  {
    assert KeyRead(s, k);
    var v: nat, at: nat :| SentAt(s, k, v, at);
    assert forall c | c in Changes(s.hist) && c.version > s.start :: c in s.events[..s.taken];
    assert forall c | c in Changes(s.hist) && c.key == k && c.version > s.start :: Taken(s, k, c);
    DocUnchanged(s.hist, s.clock, at, s.clock, k);
    hide WaveOk, StreamOk, Changes;
    if DocAt(s.hist, at, k).Some? {
      var i :| 0 <= i < |s.copy| && s.copy[i] == Row(Write(k, v, DocAt(s.hist, at, k)));
      assert Covered(Pool(s, k), v);
    }
    if k in s.target {
      var z := s.target[k];
      var at2: nat :| z.version <= at2 <= s.clock && DocAt(s.hist, at2, k) == z.doc;
      DocUnchanged(s.hist, s.clock, at2, s.clock, k);
    }
  }

  ghost predicate PoolFits(s: Load, k: Key) {
    k in s.target ==> s.target[k].key == k && Told(s, s.target[k])
  }
}
