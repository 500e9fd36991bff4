/** The parts of the invariant a step does not touch stay true. */
module Frames {
  import opened Wrappers
  import opened Source
  import opened Target
  import opened Ranges
  import opened Engine
  import opened Protocol
  import opened Invariant

  /** The same tables, bases and log; the log's end may have moved on. */
  ghost predicate SameWorld(s: State, s': State) {
    s'.hist == s.hist && s'.rules == s.rules && s'.base == s.base && s.clock <= s'.clock
  }

  lemma WriteStays(s: State, s': State, w: Write)
    requires SameWorld(s, s') && WriteOk(s, w)
    ensures WriteOk(s', w)
  {
  }

  lemma WritesStay(s: State, s': State)
    requires SameWorld(s, s') && WritesOk(s)
    requires s'.landed == s.landed && s'.stray == s.stray && Flow(s'.eng) == Flow(s.eng)
    ensures WritesOk(s')
  {
    forall w | WriteOk(s, w) ensures WriteOk(s', w) { WriteStays(s, s', w); }
  }

  lemma EventsStay(s: State, s': State)
    requires SameWorld(s, s') && SourceOk(s) && SourceOk(s') && EventsOk(s)
    requires s'.events == s.events && s'.taken == s.taken && s'.cursor == s.cursor
    requires s'.admitted == s.admitted && s'.admittedAt == s.admittedAt
    ensures EventsOk(s')
  {
  }

  lemma TakenStays(s: State, s': State)
    requires SameWorld(s, s') && TakenOk(s)
    requires s'.events == s.events && s'.taken == s.taken && s.cursor == s'.cursor
    requires Flow(s'.eng) == Flow(s.eng) && s'.eng.commitAt == s.eng.commitAt
    ensures TakenOk(s')
  {
    forall w, n: nat | FlowCovers(s.eng, n, w) ensures FlowCovers(s'.eng, n, w) {}
    hide FlowCovers, Flow;
  }

  lemma CopyStays(s: State, s': State)
    requires SameWorld(s, s') && CopyOk(s)
    requires s'.copy == s.copy && s'.copied == s.copied && s'.drawn == s.drawn
    requires Flow(s'.eng) == Flow(s.eng) && s'.eng.markAt == s.eng.markAt
    ensures CopyOk(s')
  {
    forall w | WriteOk(s, w) ensures WriteOk(s', w) { WriteStays(s, s', w); }
    forall w, n: nat | FlowCovers(s.eng, n, w) ensures FlowCovers(s'.eng, n, w) {}
    hide WriteOk, FlowCovers, Flow;
  }

  lemma KeyLoadedStays(s: State, s': State, k: Key)
    requires KeyLoaded(s, k)
    requires s'.hist == s.hist && s.clock <= s'.clock && s.landed <= s'.landed && s'.base(k) <= s.base(k)
    ensures KeyLoaded(s', k)
  {
    var v, at :| ReadAt(s, k, v, at);
    assert ReadAt(s', k, v, at);
  }

  lemma LoadedBelowStays(s: State, s': State, t: nat, bounds: seq<int>, done: nat)
    requires LoadedBelow(s, t, bounds, done)
    requires s'.hist == s.hist && s.clock <= s'.clock && s.landed <= s'.landed
    requires forall k: Key | k.table == t :: s'.base(k) <= s.base(k)
    ensures LoadedBelow(s', t, bounds, done)
  {
    forall k: Key | k.table == t && RangeOf(bounds, k.id) < done ensures KeyLoaded(s', k) {
      KeyLoadedStays(s, s', k);
    }
  }

  lemma ProgressStays(s: State, s': State)
    requires SameWorld(s, s') && ProgressOk(s) && s'.progress == s.progress && s.landed <= s'.landed
    ensures ProgressOk(s')
  {
    forall t | t in s.progress ensures LoadedBelow(s', t, s.progress[t].bounds, s.progress[t].done) {
      LoadedBelowStays(s, s', t, s.progress[t].bounds, s.progress[t].done);
    }
  }

  /** A loader is undisturbed by rows others send and marks others draw. */
  lemma LoaderStays(s: State, s': State, t: nat, l: Loader)
    requires SameWorld(s, s') && SourceOk(s) && SourceOk(s') && s'.joined == s.joined
    requires t in s.rules && LoaderOk(s, t, l)
    requires s.landed <= s'.landed && s.copy <= s'.copy && s.drawn <= s'.drawn
    ensures LoaderOk(s', t, l)
  {
    LoadedBelowStays(s, s', t, l.bounds, l.done);
    assert forall w | CopyRow(w) in s.copy :: CopyRow(w) in s'.copy;
    if l.Drawn? || l.Waiting? {
      assert s'.copy[..s.drawn[l.mark - 1]] == s.copy[..s.drawn[l.mark - 1]];
    }
  }

  lemma LoadersStay(s: State, s': State)
    requires SameWorld(s, s') && SourceOk(s) && SourceOk(s') && s'.joined == s.joined && LoadersOk(s)
    requires s'.loaders == s.loaders
    requires s.landed <= s'.landed && s.copy <= s'.copy && s.drawn <= s'.drawn
    ensures LoadersOk(s')
  {
    forall t | t in s.loaders ensures LoaderOk(s', t, s.loaders[t]) {
      LoaderStays(s, s', t, s.loaders[t]);
    }
  }

  /** Source, publication and tables as they were; the channels still hold what
      was taken of them. */
  lemma SourceStays(s: State, s': State)
    requires SameWorld(s, s') && SourceOk(s) && BaseOk(s)
    requires s'.start == s.start && s'.slot == s.slot && s'.cursor == s.cursor
    requires s'.durable == s.durable && s'.persisted == s.persisted
    requires s'.admitted == s.admitted && s'.config == s.config && s'.published == s.published
    requires s'.admittedAt == s.admittedAt && s'.joined == s.joined
    requires s.clock == s'.clock || Increasing(s'.hist, s'.clock)
    requires s'.taken <= |s'.events| && s'.copied <= |s'.copy|
    ensures SourceOk(s') && BaseOk(s')
  {
  }

  lemma SafetyStays(s: State, s': State)
    requires SameWorld(s, s') && s.landed <= s'.landed
    requires s'.slot == s.slot && s'.durable == s.durable && s'.persisted == s.persisted
    requires SafeTo(s, s.slot) && SafeTo(s, s.durable) && SafeTo(s, s.persisted)
    ensures SafeTo(s', s'.slot) && SafeTo(s', s'.durable) && SafeTo(s', s'.persisted)
  {
  }

  /** Rows taken off the channel, rows added behind the cursor, notes added. */
  lemma JoinStays(s: State, s': State)
    requires JoinOk(s) && s'.barriers == s.barriers && s'.cleared == s.cleared
    requires s'.slot == s.slot && s'.durable == s.durable && s'.persisted == s.persisted
    requires s'.eng.commitAt.Keys >= s.eng.commitAt.Keys
    requires s.events <= s'.events && s.taken <= s'.taken <= |s'.events| && s.cursor <= s'.cursor
    requires forall i | |s.events| <= i < |s'.events| && s'.events[i].Change? :: s'.events[i].w.version > s.cursor
    ensures JoinOk(s')
  {
  }

  /** What the flow covers up to a finished operation has landed. */
  lemma DoneCovers(e: Engine, landed: set<Write>, n: nat, w: Write)
    requires Sound(e, landed) && FlowCovers(e, n, w) && n <= |e.done|
    ensures Covers(landed, w.key, w.version)
  {
    assert Flow(e)[..n] == e.done[..n];
    var x :| x in Elems(Flow(e)[..n]) && x.key == w.key && x.version >= w.version;
    assert x in e.done;
  }
}
