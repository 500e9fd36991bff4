/** A table joining the running pipeline keeps the invariant: publish, barrier,
    admit, adopt. */
module JoinSteps {
  import opened Wrappers
  import opened Source
  import opened Target
  import opened Ranges
  import opened Engine
  import opened Protocol
  import opened Invariant
  import opened Frames

  /** A step that moves only the configuration, the publication, the barriers
      and the end of the log. */
  lemma AdminKeeps(s: State, s': State)
    requires Inv(s)
    requires s' == s.(config := s'.config, published := s'.published, clock := s'.clock, barriers := s'.barriers)
    requires s.clock <= s'.clock && SourceOk(s') && BaseOk(s') && JoinOk(s')
    ensures Inv(s')
  {
    hide SourceOk, BaseOk, WritesOk, EventsOk, TakenOk, CopyOk, SafeTo, JoinOk, ProgressOk, LoadersOk, Sound, Remembered, Flow;
    WritesStay(s, s');
    EventsStay(s, s');
    TakenStays(s, s');
    CopyStays(s, s');
    SafetyStays(s, s');
    ProgressStays(s, s');
    LoadersStay(s, s');
  }

  lemma EditFileKeeps(s: State, t: nat)
    requires Inv(s)
    ensures Inv(s.(config := s.config + {t}))
  {
    hide Inv, WritesOk, KeepsHighest, Sound, Remembered, EventsOk, TakenOk, CopyOk, SafeTo, ProgressOk, LoadersOk;
    PartsOf(s);
    var s' := s.(config := s.config + {t});
    assert SourceOk(s') && BaseOk(s') && JoinOk(s');
    AdminKeeps(s, s');
  }

  lemma AlterPublicationKeeps(s: State, t: nat, pos: nat)
    requires Inv(s) && t !in s.published && pos > s.clock
    ensures Inv(s.(published := s.published[t := pos], clock := pos))
  {
    hide Inv, WritesOk, KeepsHighest, Sound, Remembered, EventsOk, TakenOk, CopyOk, SafeTo, ProgressOk, LoadersOk;
    PartsOf(s);
    var s' := s.(published := s.published[t := pos], clock := pos);
    assert t !in s.admitted && t !in s.rules;
    assert SourceOk(s') && BaseOk(s') && JoinOk(s');
    AdminKeeps(s, s');
  }

  lemma ReadBarrierKeeps(s: State, t: nat, pos: nat)
    requires Inv(s) && pos > s.clock
    ensures Inv(s.(clock := pos, barriers := s.barriers[t := pos]))
  {
    hide Inv, WritesOk, KeepsHighest, Sound, Remembered, EventsOk, TakenOk, CopyOk, SafeTo, ProgressOk, LoadersOk;
    PartsOf(s);
    var s' := s.(clock := pos, barriers := s.barriers[t := pos]);
    assert SourceOk(s') && BaseOk(s') && JoinOk(s');
    AdminKeeps(s, s');
  }

  // --------------------------------------------------------------- admission

  /** The acknowledged barrier puts every position the source may have been told
      about behind what is still waiting. */
  lemma AdmitJoin(s: State, t: nat)
    requires Inv(s) && t in s.barriers && s.eng.acked >= s.barriers[t] && s.eng.acked > 0
    ensures JoinOk(AdmitTable(s, t))
  {
    hide Inv, BaseOk, WritesOk, KeepsHighest, Remembered, EventsOk, CopyOk, SafeTo, ProgressOk, LoadersOk, Flow, Queue;
    PartsOf(s);
    assert Behind(s, s.eng.acked);
    assert s.slot <= s.barriers[t] ==> Behind(s, s.slot);
    assert s.durable <= s.barriers[t] ==> Behind(s, s.durable);
  }

  /** Nothing of a table reaches the channel before it is admitted. */
  lemma AdmitEvents(s: State, t: nat)
    requires SourceOk(s) && EventsOk(s) && t in s.published && SourceOk(AdmitTable(s, t))
    ensures EventsOk(AdmitTable(s, t))
  {
    var s' := AdmitTable(s, t);
    forall i | 0 <= i < |s.events| && s.events[i].Change? ensures EventOk(s', s.events[i].w) {
      assert EventOk(s, s.events[i].w);
    }
  }

  lemma AdmitKeeps(s: State, t: nat)
    requires Inv(s) && t in s.barriers && t in s.published && s.eng.acked >= s.barriers[t] && s.eng.acked > 0
    ensures Inv(AdmitTable(s, t))
  {
    hide Inv, KeepsHighest, WritesOk, EventsOk, TakenOk, CopyOk, SafeTo, JoinOk, ProgressOk, LoadersOk, Sound, Remembered, Flow;
    PartsOf(s);
    var s' := AdmitTable(s, t);
    AdmitJoin(s, t);
    assert SourceOk(s') && BaseOk(s');
    hide SourceOk, BaseOk, WritesOk, EventsOk, TakenOk, CopyOk, SafeTo, JoinOk, ProgressOk, LoadersOk, Sound, Remembered, Flow;
    AdmitEvents(s, t);
    WritesStay(s, s');
    TakenStays(s, s');
    CopyStays(s, s');
    SafetyStays(s, s');
    ProgressStays(s, s');
    LoadersStay(s, s');
    Assembled(s');
  }

  // ---------------------------------------------------------------- adoption

  /** The first waiting row of `k` is the least version of it still waiting. */
  lemma {:induction false} FirstWaitingIsFirst(events: seq<StreamEvent>, k: Key, otherwise: nat)
    requires forall i, j | 0 <= i < j < |events| && events[i].Change? && events[j].Change? ::
               events[i].w.version <= events[j].w.version
    ensures var v := FirstWaiting(events, k, otherwise);
            && (v == otherwise || exists i :: 0 <= i < |events| && events[i].Change? && events[i].w.key == k && events[i].w.version == v)
            && (forall i | 0 <= i < |events| && events[i].Change? && events[i].w.key == k :: v <= events[i].w.version)
            && ((forall i | 0 <= i < |events| && events[i].Change? :: events[i].w.key != k) ==> v == otherwise)
  {
    if events != [] && !(events[0].Change? && events[0].w.key == k) {
      var rest := events[1..];
      FirstWaitingIsFirst(rest, k, otherwise);
      if i :| 0 <= i < |rest| && rest[i].Change? && rest[i].w.key == k
             && rest[i].w.version == FirstWaiting(rest, k, otherwise) {
        assert events[i + 1] == rest[i];
      }
      forall i | 0 <= i < |events| && events[i].Change? && events[i].w.key == k
        ensures FirstWaiting(events, k, otherwise) <= events[i].w.version
      {
        assert events[i] == rest[i - 1];
      }
      if forall i | 0 <= i < |events| && events[i].Change? :: events[i].w.key != k {
        forall i | 0 <= i < |rest| && rest[i].Change? ensures rest[i].w.key != k {
          assert rest[i] == events[i + 1];
        }
      }
    }
  }

  /** The base a joining table's key gets: at or below what still waits, at or
      above what was already dropped. */
  lemma EventVersions(s: State)
    requires SourceOk(s) && EventsOk(s)
    ensures forall i | 0 <= i < |s.events| && s.events[i].Change? ::
              && s.events[i].w.key.table in s.admittedAt
              && s.admittedAt[s.events[i].w.key.table] < s.events[i].w.version <= s.cursor
  {
    hide Changes, Increasing;
    forall i | 0 <= i < |s.events| && s.events[i].Change?
      ensures s.events[i].w.key.table in s.admittedAt
      ensures s.admittedAt[s.events[i].w.key.table] < s.events[i].w.version <= s.cursor
    {
      assert EventOk(s, s.events[i].w);
    }
  }

  lemma JoiningBase(s: State, t: nat, k: Key)
    requires SourceOk(s) && EventsOk(s) && t in s.admitted && t !in s.rules && k.table == t
    ensures var b := AdoptTable(s, t).base(k);
            && s.admittedAt[t] <= b <= Max(s.cursor, s.published[t])
            && (forall i | s.taken <= i < |s.events| && s.events[i].Change? && s.events[i].w.key == k :: b <= s.events[i].w.version)
            && (forall i | 0 <= i < s.taken && s.events[i].Change? && s.events[i].w.key == k :: s.events[i].w.version <= b)
  {
    var waiting := s.events[s.taken..];
    var top := Max(s.cursor, s.published[t]);
    var b := FirstWaiting(waiting, k, top);
    assert AdoptTable(s, t).base(k) == b;
    hide FirstWaiting, AdoptTable, Changes, Increasing;
    EventVersions(s);
    hide EventOk;
    forall i | 0 <= i < |waiting| ensures waiting[i] == s.events[s.taken + i] {}
    FirstWaitingIsFirst(waiting, k, top);
    hide EventOk;
    if b != top {
      var i :| 0 <= i < |waiting| && waiting[i].Change? && waiting[i].w.key == k && waiting[i].w.version == b;
      assert s.events[s.taken + i].Change?;
    }
    forall i | s.taken <= i < |s.events| && s.events[i].Change? && s.events[i].w.key == k
      ensures b <= s.events[i].w.version
    {
      assert waiting[i - s.taken] == s.events[i];
    }
  }

  lemma AdoptSource(s: State, t: nat)
    requires SourceOk(s) && BaseOk(s) && EventsOk(s) && t in s.admitted && t in s.config && t !in s.rules
    ensures SourceOk(AdoptTable(s, t)) && BaseOk(AdoptTable(s, t))
  {
    var s' := AdoptTable(s, t);
    assert SourceOk(s');
    forall k: Key | k.table == t
      ensures s'.published[t] <= s'.base(k) <= s'.joined[t] && s'.base(k) <= Max(s'.cursor, s'.published[t])
      ensures s'.admittedAt[t] <= Max(s'.base(k), s'.start)
    {
      JoiningBase(s, t, k);
    }
    forall k: Key | k.table in s.rules ensures s'.base(k) == s.base(k) && s'.joined[k.table] == s.joined[k.table] {}
  }

  /** Rules and bases of the tables already there are as they were. */
  ghost predicate Adopted(s: State, s': State, t: nat) {
    && t !in s.rules
    && s' == s.(rules := s.rules + {t}, joined := s'.joined, base := s'.base)
    && (forall k: Key | k.table != t :: s'.base(k) == s.base(k))
    && (forall x | x in s.joined && x != t :: x in s'.joined && s'.joined[x] == s.joined[x])
  }

  lemma AdoptWrites(s: State, s': State, t: nat)
    requires Adopted(s, s', t) && WritesOk(s) && CopyOk(s)
    ensures WritesOk(s') && CopyOk(s')
  {
    forall w | WriteOk(s, w) ensures WriteOk(s', w) {}
    hide WriteOk, Flow;
  }

  lemma AdoptEvents(s: State, s': State, t: nat)
    requires s' == AdoptTable(s, t) && SourceOk(s) && SourceOk(s') && EventsOk(s) && t in s.admitted && t !in s.rules
    ensures EventsOk(s')
  {
    forall i | s.taken <= i < |s.events| && s.events[i].Change? && s.events[i].w.key.table in s'.rules
      ensures s'.base(s.events[i].w.key) <= s.events[i].w.version
    {
      var k := s.events[i].w.key;
      if k.table == t { JoiningBase(s, t, k); } else { assert s'.base(k) == s.base(k); }
    }
    forall i | 0 <= i < |s.events| && s.events[i].Change? ensures EventOk(s', s.events[i].w) {
      assert EventOk(s, s.events[i].w);
    }
    hide Changes, EventOk, AdoptTable, SourceOk, FirstWaiting;
  }

  /** The rows dropped before the rules knew the table are below its base. */
  lemma AdoptTaken(s: State, s': State, t: nat)
    requires s' == AdoptTable(s, t) && Adopted(s, s', t) && SourceOk(s) && EventsOk(s) && TakenOk(s) && t in s.admitted
    ensures TakenOk(s')
  {
    forall i | 0 <= i < s.taken && s.events[i].Change? && Owed(s', s.events[i].w) ensures Owed(s, s.events[i].w) {
      var k := s.events[i].w.key;
      if k.table == t { JoiningBase(s, t, k); }
    }
    hide Owed, AdoptTable, Flow, SourceOk, EventsOk, FlowCovers;
  }

  lemma AdoptSafe(s: State, s': State, t: nat, p: nat)
    requires s' == AdoptTable(s, t) && Adopted(s, s', t) && SourceOk(s) && EventsOk(s) && t in s.admitted
    requires SafeTo(s, p) && Behind(s, p)
    ensures SafeTo(s', p)
  {
    forall w | w in Changes(s.hist) && w.key.table == t && w.version <= p ensures w.version <= s'.base(w.key) {
      JoiningBase(s, t, w.key);
      if w.version > s.admittedAt[t] {
        var i :| 0 <= i < |s.events| && s.events[i] == Change(w);
        assert i < s.taken;
      }
    }
  }

  lemma AdoptLoads(s: State, s': State, t: nat)
    requires Adopted(s, s', t) && SourceOk(s) && SourceOk(s') && ProgressOk(s) && LoadersOk(s)
    ensures ProgressOk(s') && LoadersOk(s')
  {
    forall x | x in s.progress ensures LoadedBelow(s', x, s.progress[x].bounds, s.progress[x].done) {
      LoadedBelowStays(s, s', x, s.progress[x].bounds, s.progress[x].done);
    }
    forall x | x in s.loaders ensures LoaderOk(s', x, s.loaders[x]) {
      assert LoaderOk(s, x, s.loaders[x]) && s'.joined[x] == s.joined[x];
      LoadedBelowStays(s, s', x, s.loaders[x].bounds, s.loaders[x].done);
      hide LoadedBelow, RowsOf;
    }
  }

  lemma AdoptKeeps(s: State, t: nat)
    requires Inv(s) && t in s.cleared && t in s.admitted && t in s.config && t !in s.rules
    ensures Inv(AdoptTable(s, t))
  {
    var s' := AdoptTable(s, t);
    assert Adopted(s, s', t) by { hide Inv, FirstWaiting; }
    assert Behind(s, s.slot) && Behind(s, s.durable) && Behind(s, s.persisted);
    assert JoinOk(s');
    hide SourceOk, BaseOk, WritesOk, EventsOk, TakenOk, CopyOk, SafeTo, JoinOk, ProgressOk, LoadersOk, Sound, Remembered,
         Flow, Behind, Adopted, FirstWaiting;
    AdoptSource(s, t);
    AdoptWrites(s, s', t);
    AdoptEvents(s, s', t);
    AdoptTaken(s, s', t);
    AdoptSafe(s, s', t, s.slot);
    AdoptSafe(s, s', t, s.durable);
    AdoptSafe(s, s', t, s.persisted);
    AdoptLoads(s, s', t);
  }
}
