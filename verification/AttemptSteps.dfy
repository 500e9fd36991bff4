/** The first start, a reconnect and a restart keep the invariant. */
module AttemptSteps {
  import opened Wrappers
  import opened Source
  import opened Target
  import opened Ranges
  import opened Engine
  import opened Protocol
  import opened Invariant
  import opened Frames
  import opened StreamSteps

  lemma FreshIsSound(landed: set<Write>)
    ensures Sound(Fresh, landed) && Remembered(Fresh) && Flow(Fresh) == []
  {
    assert Queue(Fresh) == [];
  }

  lemma InitKeeps(s: State)
    requires Init(s)
    ensures Inv(s)
  {
    FreshIsSound(s.landed);
    forall w | w in Changes(s.hist) ensures w.version <= s.clock {
      ChangeWithinClock(s.hist, s.clock, w);
    }
    assert SourceOk(s) && BaseOk(s);
  }

  /** A new attempt from the slot: empty channels, a fresh engine, the tables
      and bases it starts with. */
  ghost predicate NewAttempt(s: State, s': State) {
    && s'.hist == s.hist && s.clock <= s'.clock && s.slot <= s'.slot
    && s'.target == s.target && s'.landed == s.landed && s'.progress == s.progress
    && s'.stray == s.stray + OpenWrites(s.eng)
    && s'.start == s'.slot && s'.cursor == s'.slot && s'.persisted == 0
    && s'.events == [] && s'.taken == 0 && s'.copy == [] && s'.copied == 0 && s'.drawn == []
    && s'.eng == Fresh && s'.loaders == map[] && s'.barriers == map[] && s'.cleared == {}
    && s.rules <= s'.rules
    && (forall k: Key | k.table in s.rules :: s'.base(k) <= s.base(k))
  }

  lemma NewAttemptWrites(s: State, s': State)
    requires NewAttempt(s, s') && WritesOk(s)
    ensures WritesOk(s')
  {
    forall w | WriteOk(s, w) ensures WriteOk(s', w) {}
    forall w | w in OpenWrites(s.eng) ensures w in Flow(s.eng) { OpenWritesFlow(s.eng, w); }
    FreshIsSound(s.landed);
    hide WriteOk, Flow, OpenWrites;
  }

  lemma NewAttemptProgress(s: State, s': State)
    requires NewAttempt(s, s') && ProgressOk(s)
    ensures ProgressOk(s')
  {
    forall t | t in s.progress ensures LoadedBelow(s', t, s.progress[t].bounds, s.progress[t].done) {
      LoadedBelowStays(s, s', t, s.progress[t].bounds, s.progress[t].done);
    }
  }

  /** Nothing owed below the slot is missing, and the bases above the slot are
      where the stream starts. */
  lemma NewAttemptSafe(s: State, s': State, p: nat)
    requires NewAttempt(s, s') && SafeTo(s, p)
    requires forall k: Key | k.table in s'.rules && s'.base(k) < p :: k.table in s.rules && s.base(k) == s'.base(k)
    ensures SafeTo(s', p)
  {
  }

  lemma NewAttemptKeeps(s: State, s': State)
    requires Inv(s) && NewAttempt(s, s') && SourceOk(s') && BaseOk(s')
    requires SafeTo(s', s'.slot) && SafeTo(s', s'.durable)
    requires forall t | t in s'.admitted :: s'.admittedAt[t] >= s'.slot
    ensures Inv(s')
  {
    hide Inv, SourceOk, BaseOk, WritesOk, EventsOk, TakenOk, CopyOk, SafeTo, JoinOk, ProgressOk, LoadersOk, Sound, Remembered, Flow;
    PartsOf(s);
    NewAttemptIsEmpty(s, s');
    NewAttemptWrites(s, s');
    NewAttemptProgress(s, s');
    Assembled(s');
  }

  lemma NewAttemptIsEmpty(s: State, s': State)
    requires SourceOk(s) && NewAttempt(s, s') && SourceOk(s')
    requires forall t | t in s'.admitted :: s'.admittedAt[t] >= s'.slot
    ensures Sound(s'.eng, s'.landed) && Remembered(s'.eng)
    ensures EventsOk(s') && TakenOk(s') && CopyOk(s') && JoinOk(s') && LoadersOk(s') && SafeTo(s', s'.persisted)
  {
    FreshIsSound(s.landed);
    hide Flow, Sound, Remembered;
    assert TakenOk(s') && CopyOk(s') && JoinOk(s') && LoadersOk(s');
    hide TakenOk, CopyOk, JoinOk, LoadersOk;
    forall w | w in Changes(s.hist) ensures w.version > 0 {
      ChangeWithinClock(s.hist, s.clock, w);
    }
    hide Changes;
    assert EventsOk(s');
  }

  lemma RestartIsSource(s: State)
    requires SourceOk(s)
    ensures SourceOk(RestartProcess(s))
  {
  }

  lemma RestartIsNew(s: State)
    requires SourceOk(s)
    ensures var s' := RestartProcess(s);
            NewAttempt(s, s') && (forall t | t in s'.admitted :: t in s'.admittedAt && s'.admittedAt[t] >= s.slot)
  {
    hide Increasing;
    var s' := RestartProcess(s);
    forall k: Key | k.table in s.rules ensures s'.base(k) <= s.base(k) {}
  }

  lemma RestartSource(s: State)
    requires SourceOk(s) && BaseOk(s)
    ensures var s' := RestartProcess(s);
            && NewAttempt(s, s') && SourceOk(s') && BaseOk(s')
            && (forall t | t in s'.admitted :: s'.admittedAt[t] >= s.slot)
  {
    RestartIsSource(s);
    RestartIsNew(s);
    hide NewAttempt, Increasing;
  }

  lemma RestartKeeps(s: State)
    requires Inv(s)
    ensures Inv(RestartProcess(s))
  {
    hide Inv, BaseOk, WritesOk, KeepsHighest, Sound, Remembered, EventsOk, TakenOk, CopyOk, JoinOk, ProgressOk, LoadersOk;
    PartsOf(s);
    var s' := RestartProcess(s);
    RestartSource(s);
    assert SafeTo(s', s'.durable) by {
      forall w | w in Changes(s.hist) ensures w.version > 0 { ChangeWithinClock(s.hist, s.clock, w); }
    }
    NewAttemptSafe(s, s', s.slot);
    hide SourceOk, SafeTo, NewAttempt;
    NewAttemptKeeps(s, s');
  }

  lemma ReconnectIsSource(s: State)
    requires SourceOk(s)
    ensures SourceOk(ReconnectAttempt(s))
  {
  }

  lemma ReconnectIsNew(s: State)
    requires SourceOk(s)
    ensures var s' := ReconnectAttempt(s);
            NewAttempt(s, s') && (forall t | t in s'.admitted :: t in s'.admittedAt && s'.admittedAt[t] >= s.slot)
  {
    hide Increasing;
    var s' := ReconnectAttempt(s);
    forall k: Key | k.table in s.rules ensures s'.base(k) <= s.base(k) {}
  }

  lemma ReconnectSource(s: State)
    requires SourceOk(s) && BaseOk(s)
    ensures var s' := ReconnectAttempt(s);
            && NewAttempt(s, s') && SourceOk(s') && BaseOk(s')
            && (forall t | t in s'.admitted :: s'.admittedAt[t] >= s.slot)
  {
    ReconnectIsSource(s);
    ReconnectIsNew(s);
    hide NewAttempt, Increasing;
  }

  /** Careful is exact: a reconnect keeps the invariant if and only if nothing the
      new attempt owes at or below the durable position is missing. */
  lemma ReconnectKeeps(s: State)
    requires Inv(s)
    ensures Inv(ReconnectAttempt(s)) <==> ReconnectOk(s)
  {
    hide Inv, WritesOk, KeepsHighest, Sound, Remembered, EventsOk, TakenOk, CopyOk, JoinOk, ProgressOk, LoadersOk;
    PartsOf(s);
    var s' := ReconnectAttempt(s);
    ReconnectSource(s);
    NewAttemptSafe(s, s', s.slot);
    assert SafeTo(s', s'.durable) <==> ReconnectOk(s) by { hide SourceOk, BaseOk, NewAttempt; }
    hide SourceOk, BaseOk, SafeTo, NewAttempt, ReconnectOk;
    if ReconnectOk(s) { NewAttemptKeeps(s, s'); }
    if Inv(s') { PartsOf(s'); }
  }

  /** Enough for it: the slot has caught up with the durable position, or no table
      joined above the slot. */
  lemma SettledReconnect(s: State)
    requires Inv(s) && (s.durable <= s.slot || forall t | t in s.joined :: s.joined[t] <= s.slot)
    ensures ReconnectOk(s)
  {
    hide Inv, WritesOk, KeepsHighest, Sound, Remembered, EventsOk, TakenOk, CopyOk, JoinOk, ProgressOk, LoadersOk;
    PartsOf(s);
    hide Changes, Increasing;
  }

  lemma RecreateIsSource(s: State, pos: nat)
    requires SourceOk(s) && pos > s.clock
    ensures SourceOk(RestartProcess(s.(slot := pos, clock := pos)))
  {
  }

  lemma RecreateIsNew(s: State, pos: nat)
    requires SourceOk(s) && pos > s.clock
    ensures var s' := RestartProcess(s.(slot := pos, clock := pos));
            NewAttempt(s, s') && (forall t | t in s'.admitted :: t in s'.admittedAt && s'.admittedAt[t] >= s'.slot)
  {
    hide Increasing;
    var s' := RestartProcess(s.(slot := pos, clock := pos));
    forall k: Key | k.table in s.rules ensures s'.base(k) <= s.base(k) {}
  }

  lemma RecreateBase(s: State, pos: nat)
    requires SourceOk(s) && BaseOk(s) && pos > s.clock && SourceOk(RestartProcess(s.(slot := pos, clock := pos)))
    ensures var s' := RestartProcess(s.(slot := pos, clock := pos));
            && BaseOk(s')
            && (forall k: Key | k.table in s.rules :: s'.base(k) == s.base(k))
            && (forall k: Key | k.table in s'.rules && k.table !in s.rules :: s'.base(k) == pos)
  {
    hide Increasing;
  }

  lemma RecreateSafe(s: State, pos: nat)
    requires SourceOk(s) && BaseOk(s) && pos > s.clock
    ensures var s' := RestartProcess(s.(slot := pos, clock := pos));
            (SafeTo(s', s'.slot) <==> RecreateOk(s)) && SafeTo(s', s'.durable)
  {
    var s' := RestartProcess(s.(slot := pos, clock := pos));
    RecreateIsSource(s, pos);
    RecreateBase(s, pos);
    forall w | w in Changes(s.hist) ensures 0 < w.version <= s.clock { ChangeWithinClock(s.hist, s.clock, w); }
    assert s'.rules >= s.rules && s'.hist == s.hist && s'.landed == s.landed && s'.slot == pos && s'.durable == 0;
    hide SourceOk, BaseOk, Changes, RestartProcess;
  }

  /** Careful is exact here too: creating the slot again keeps the invariant if
      and only if everything owed is on the target. */
  lemma RecreateSlotKeeps(s: State, pos: nat)
    requires Inv(s) && pos > s.clock
    ensures Inv(RestartProcess(s.(slot := pos, clock := pos))) <==> RecreateOk(s)
  {
    hide Inv, WritesOk, KeepsHighest, Sound, Remembered, EventsOk, TakenOk, CopyOk, JoinOk, ProgressOk, LoadersOk;
    PartsOf(s);
    var s' := RestartProcess(s.(slot := pos, clock := pos));
    RecreateIsSource(s, pos);
    RecreateIsNew(s, pos);
    RecreateBase(s, pos);
    RecreateSafe(s, pos);
    hide SourceOk, BaseOk, NewAttempt, SafeTo, RecreateOk, RestartProcess;
    if RecreateOk(s) { NewAttemptKeeps(s, s'); }
    if Inv(s') { PartsOf(s'); }
  }

  /** Enough for it: the stream is acknowledged through the end of the log. */
  lemma CaughtUpRecreate(s: State)
    requires Inv(s) && s.eng.acked > 0 && s.eng.acked >= s.clock
    ensures RecreateOk(s)
  {
    AckedIsSafe(s);
  }
}
