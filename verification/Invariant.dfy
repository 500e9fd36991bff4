/** What every step of the protocol keeps. */
module Invariant {
  import opened Wrappers
  import opened Source
  import opened Target
  import opened Ranges
  import opened Engine
  import opened Protocol

  ghost predicate SourceOk(s: State) {
    && Increasing(s.hist, s.clock)
    && s.start <= s.slot <= s.cursor <= s.clock
    && s.durable <= s.clock && s.persisted <= s.clock
    && s.rules <= s.admitted && s.rules <= s.config
    && s.admitted <= s.published.Keys && s.admitted <= s.admittedAt.Keys && s.rules <= s.joined.Keys
    && (forall t | t in s.published :: s.published[t] <= s.clock)
    && (forall t | t in s.admitted ::
          && s.start <= s.admittedAt[t] && s.published[t] <= s.admittedAt[t]
          && s.admittedAt[t] <= Max(s.cursor, s.published[t]))
    && (forall t | t in s.rules :: s.joined[t] <= s.clock)
    && s.taken <= |s.events| && s.copied <= |s.copy|
  }

  /** A key's base lies between its table's publication and its joining, and no
      later than the admission unless the attempt itself started there. */
  ghost predicate BaseOk(s: State)
    requires SourceOk(s)
  {
    forall k: Key | k.table in s.rules ::
      && s.published[k.table] <= s.base(k) <= s.joined[k.table]
      && s.base(k) <= Max(s.cursor, s.published[k.table])
      && s.admittedAt[k.table] <= Max(s.base(k), s.start)
  }

  ghost predicate WriteOk(s: State, w: Write) {
    w.key.table in s.rules && s.base(w.key) <= w.version && Genuine(s.hist, s.clock, w)
  }

  ghost predicate WritesOk(s: State) {
    && (forall w | w in s.landed :: WriteOk(s, w))
    && (forall w | w in s.stray :: WriteOk(s, w))
    && (forall w | w in Flow(s.eng) :: WriteOk(s, w))
  }

  ghost predicate EventOk(s: State, w: Write)
    requires SourceOk(s)
  {
    && w in Changes(s.hist) && w.key.table in s.admitted
    && s.admittedAt[w.key.table] < w.version <= s.cursor
  }

  /** The event channel holds, in order, every change of an admitted table since
      its admission. */
  ghost predicate EventsOk(s: State)
    requires SourceOk(s)
  {
    && (forall i | 0 <= i < |s.events| && s.events[i].Change? :: EventOk(s, s.events[i].w))
    && (forall i, j | 0 <= i < j < |s.events| && s.events[i].Change? && s.events[j].Change? ::
          s.events[i].w.version <= s.events[j].w.version)
    && (forall i, j | 0 <= i < j < |s.events| && s.events[i].Commit? && s.events[j].Change? ::
          s.events[i].pos < s.events[j].w.version)
    && (forall i | 0 <= i < |s.events| && s.events[i].Commit? :: s.events[i].pos <= s.cursor)
    && (forall i | s.taken <= i < |s.events| && s.events[i].Change? && s.events[i].w.key.table in s.rules ::
          s.base(s.events[i].w.key) <= s.events[i].w.version)
    && (forall w | w in Changes(s.hist) && w.key.table in s.admitted
                   && s.admittedAt[w.key.table] < w.version <= s.cursor :: Change(w) in s.events)
  }

  ghost predicate FlowCovers(e: Engine, n: nat, w: Write) {
    n <= |Flow(e)| && Covers(Elems(Flow(e)[..n]), w.key, w.version)
  }

  /** What the engine took off the event channel it still holds, ahead of the
      commit that stands for it. */
  ghost predicate TakenOk(s: State) {
    && s.taken <= |s.events|
    && (forall i | 0 <= i < s.taken && s.events[i].Change? && Owed(s, s.events[i].w) ::
          FlowCovers(s.eng, |Flow(s.eng)|, s.events[i].w))
    && (forall c, i | c in s.eng.commitAt && 0 <= i < s.taken && s.events[i].Change?
                      && Owed(s, s.events[i].w) && s.events[i].w.version <= c ::
          FlowCovers(s.eng, s.eng.commitAt[c], s.events[i].w))
    && (forall c | c in s.eng.commitAt :: c <= s.cursor)
    && (forall c, i | c in s.eng.commitAt && s.taken <= i < |s.events| && s.events[i].Change? ::
          c < s.events[i].w.version)
  }

  /** What the copy channel holds, and how its marks were drawn. */
  ghost predicate SentOk(s: State) {
    && s.copied <= |s.copy|
    && (forall i | 0 <= i < |s.copy| && s.copy[i].CopyRow? :: WriteOk(s, s.copy[i].w))
    && (forall i | 0 <= i < |s.drawn| :: s.drawn[i] <= |s.copy|)
    && (forall i, j | 0 <= i < j < |s.drawn| :: s.drawn[i] <= s.drawn[j])
    && (forall i | 0 <= i < |s.copy| && s.copy[i].LoadMark? ::
          1 <= s.copy[i].mark <= |s.drawn| && s.drawn[s.copy[i].mark - 1] <= i)
  }

  /** A mark stands for every row sent before the mark was drawn, whichever
      loader sent it. */
  ghost predicate MarksOk(s: State)
    requires SentOk(s)
  {
    && (forall m | m in s.eng.markAt :: 1 <= m <= |s.drawn| && s.drawn[m - 1] <= s.copied)
    && (forall m, i | m in s.eng.markAt && 0 <= i < s.drawn[m - 1] && s.copy[i].CopyRow? ::
          FlowCovers(s.eng, s.eng.markAt[m], s.copy[i].w))
  }

  /** What the engine took off the copy channel it still holds, ahead of the
      mark that stands for it. */
  ghost predicate CopyOk(s: State) {
    && SentOk(s)
    && (forall i | 0 <= i < s.copied && s.copy[i].CopyRow? :: FlowCovers(s.eng, |Flow(s.eng)|, s.copy[i].w))
    && MarksOk(s)
  }

  /** Some range read of `k` at or above its base either found no row or had it
      land. */
  ghost predicate ReadAt(s: State, k: Key, v: nat, at: nat) {
    s.base(k) <= v <= at <= s.clock && (DocAt(s.hist, at, k).Some? ==> Covers(s.landed, k, v))
  }

  ghost predicate KeyLoaded(s: State, k: Key) {
    exists v, at :: ReadAt(s, k, v, at)
  }

  /** Every key in the first `done` ranges of the table is loaded. */
  ghost predicate LoadedBelow(s: State, t: nat, bounds: seq<int>, done: nat) {
    && StrictlyIncreasing(bounds) && done <= |bounds| + 1
    && (forall k: Key | k.table == t && RangeOf(bounds, k.id) < done :: KeyLoaded(s, k))
  }

  ghost predicate ProgressOk(s: State) {
    forall t | t in s.progress ::
      && t in s.rules
      && LoadedBelow(s, t, s.progress[t].bounds, s.progress[t].done)
      && (s.progress[t].finished ==> s.progress[t].done == |s.progress[t].bounds| + 1)
  }

  ghost predicate RangeReadOk(s: State, t: nat, range: KeyRange, r: RangeRead)
    requires SourceOk(s) && t in s.rules
  {
    match r
    case Unread => true
    case Located(v) => s.joined[t] <= v <= s.clock
    case Copying(v, at, left) =>
      && s.joined[t] <= v <= at <= s.clock
      && left <= RowsOf(s.hist, at, t, range, v)
      && (forall w | w in RowsOf(s.hist, at, t, range, v) :: w in left || CopyRow(w) in s.copy)
  }

  /** All rows of the wave were sent before the mark was drawn. */
  ghost predicate WaveSent(s: State, t: nat, l: Loader)
    requires SourceOk(s) && t in s.rules
    requires l.Drawn? || l.Waiting?
  {
    && 1 <= l.mark <= |s.drawn| && s.drawn[l.mark - 1] <= |s.copy|
    && (forall i | 0 <= i < |l.wave| ::
          && l.wave[i].Copying?
          && s.joined[t] <= l.wave[i].v <= l.wave[i].s <= s.clock
          && l.done + i <= |l.bounds|
          && (forall w | w in RowsOf(s.hist, l.wave[i].s, t, RangeAt(l.bounds, l.done + i), l.wave[i].v) ::
                CopyRow(w) in s.copy[..s.drawn[l.mark - 1]]))
  }

  ghost predicate LoaderOk(s: State, t: nat, l: Loader)
    requires SourceOk(s) && t in s.rules
  {
    && LoadedBelow(s, t, l.bounds, l.done)
    && (l.Reading? || l.Drawn? || l.Waiting? ==> l.done + |l.wave| <= |l.bounds| + 1)
    && (l.Reading? ==> forall i | 0 <= i < |l.wave| ::
          l.done + i <= |l.bounds| && RangeReadOk(s, t, RangeAt(l.bounds, l.done + i), l.wave[i]))
    && (l.Drawn? || l.Waiting? ==> WaveSent(s, t, l))
    && (l.Loaded? ==> l.done == |l.bounds| + 1)
  }

  ghost predicate LoadersOk(s: State)
    requires SourceOk(s)
  {
    forall t | t in s.loaders :: t in s.rules && LoaderOk(s, t, s.loaders[t])
  }

  /** Everything still waiting in the event channel is past `p`. */
  ghost predicate Behind(s: State, p: nat) {
    && s.taken <= |s.events| && p <= s.cursor
    && (forall i | s.taken <= i < |s.events| && s.events[i].Change? :: p < s.events[i].w.version)
  }

  /** Once a joining table's barrier has been acknowledged, the positions the
      source may have been told about are behind everything still waiting. */
  ghost predicate JoinOk(s: State) {
    && (s.persisted > 0 ==> s.persisted in s.eng.commitAt)
    && (s.cleared != {} ==> Behind(s, s.slot) && Behind(s, s.durable))
    && (forall t | t in s.barriers ::
          && (s.slot <= s.barriers[t] || Behind(s, s.slot))
          && (s.durable <= s.barriers[t] || Behind(s, s.durable)))
  }

  ghost predicate Inv(s: State) {
    && SourceOk(s)
    && BaseOk(s)
    && WritesOk(s)
    && KeepsHighest(s.target, s.landed)
    && Sound(s.eng, s.landed) && Remembered(s.eng)
    && EventsOk(s)
    && TakenOk(s)
    && CopyOk(s)
    && SafeTo(s, s.slot) && SafeTo(s, s.durable) && SafeTo(s, s.persisted)
    && JoinOk(s)
    && ProgressOk(s)
    && LoadersOk(s)
  }

  /** The parts of the invariant, for a proof that needs one or two of them. */
  lemma PartsOf(s: State)
    requires Inv(s)
    ensures SourceOk(s) && BaseOk(s) && WritesOk(s) && KeepsHighest(s.target, s.landed)
    ensures Sound(s.eng, s.landed) && Remembered(s.eng) && EventsOk(s) && TakenOk(s) && CopyOk(s)
    ensures SafeTo(s, s.slot) && SafeTo(s, s.durable) && SafeTo(s, s.persisted)
    ensures JoinOk(s) && ProgressOk(s) && LoadersOk(s)
  {
    hide SourceOk, BaseOk, WritesOk, KeepsHighest, Sound, Remembered, EventsOk, TakenOk, CopyOk, SafeTo, JoinOk, ProgressOk, LoadersOk;
  }

  lemma Assembled(s: State)
    requires SourceOk(s) && BaseOk(s) && WritesOk(s) && KeepsHighest(s.target, s.landed)
    requires Sound(s.eng, s.landed) && Remembered(s.eng) && EventsOk(s) && TakenOk(s) && CopyOk(s)
    requires SafeTo(s, s.slot) && SafeTo(s, s.durable) && SafeTo(s, s.persisted)
    requires JoinOk(s) && ProgressOk(s) && LoadersOk(s)
    ensures Inv(s)
  {
    hide SourceOk, BaseOk, WritesOk, KeepsHighest, Sound, Remembered, EventsOk, TakenOk, CopyOk, SafeTo, JoinOk, ProgressOk, LoadersOk;
  }

  // -------------------------------------------------------------- small facts

  /** What a longer flow covers. */
  lemma FlowCoversStays(e: Engine, e': Engine, n: nat, w: Write)
    requires FlowCovers(e, n, w)
    requires |Flow(e)| <= |Flow(e')| && Flow(e')[..|Flow(e)|] == Flow(e)
    ensures FlowCovers(e', n, w)
    ensures FlowCovers(e', |Flow(e')|, w)
  {
    var a, b := Flow(e), Flow(e');
    assert b[..n] == a[..n];
    assert b[..|b|] == b;
    assert forall x | x in b[..n] :: x in b;
  }

  /** A key whose snapshot shows a row is among its range's rows. */
  lemma RowIsRead(hist: seq<Txn>, clock: nat, at: nat, range: KeyRange, v: nat, k: Key)
    requires Increasing(hist, clock) && range.Contains(k.id) && DocAt(hist, at, k).Some?
    ensures Write(k, v, DocAt(hist, at, k)) in RowsOf(hist, at, k.table, range, v)
  {
    LastChangeIsLast(hist, clock, at, k);
    assert LastChange(hist, at, k).value in Changes(hist);
  }

  lemma RowsAreGenuine(hist: seq<Txn>, at: nat, t: nat, range: KeyRange, v: nat, clock: nat, w: Write)
    requires w in RowsOf(hist, at, t, range, v) && v <= at <= clock
    ensures w.key.table == t && w.version == v && Genuine(hist, clock, w)
  {
    assert DocAt(hist, at, w.key) == w.doc;
  }

  lemma RowsStay(hist: seq<Txn>, x: Txn, clock: nat, at: nat, t: nat, range: KeyRange, v: nat)
    requires Increasing(hist, clock) && at <= clock < x.pos
    ensures RowsOf(hist + [x], at, t, range, v) == RowsOf(hist, at, t, range, v)
  {
    var h := hist + [x];
    assert Increasing(h, x.pos);
    forall k ensures DocAt(h, at, k) == DocAt(hist, at, k) {
      CommitKeepsThePast(hist, x, at, k);
    }
    forall k | DocAt(hist, at, k).Some? ensures k in KeysOf(hist) && k in KeysOf(h) {
      LastChangeIsLast(hist, clock, at, k);
      var w := LastChange(hist, at, k).value;
      CommitKeepsThePast(hist, x, at, k);
      assert w in Changes(hist) && w in Changes(h);
    }
  }
}
