/** The two careful steps, exactly: without the care, some run from there
    confirms to the source a change the target never got. */
module Losses {
  import opened Wrappers
  import opened Source
  import opened Target
  import opened Engine
  import opened Protocol
  import opened Invariant
  import opened AttemptSteps
  import opened Safety

  lemma {:induction false} InSomeOrder(keys: set<Key>) returns (order: seq<Key>)
    ensures Elems(order) == keys
    decreases |keys|
  {
    if keys == {} {
      order := [];
    } else {
      var k :| k in keys;
      var rest := InSomeOrder(keys - {k});
      order := rest + [k];
      assert Elems(rest + [k]) == Elems(rest) + {k};
    }
  }

  /** Only the stream has moved on. */
  ghost predicate Ahead(s: State, s': State) {
    s' == s.(events := s'.events, cursor := s'.cursor)
  }

  lemma AheadOfAhead(s: State, s1: State, s2: State)
    requires Ahead(s, s1) && Ahead(s1, s2)
    ensures Ahead(s, s2) && s1.hist == s.hist && s1.clock == s.clock
  {
  }

  /** The stream can be sent on through transaction `j` with nothing taken. */
  lemma {:induction false} SendThrough(s: State, j: nat) returns (steps: seq<Step>, s': State)
    requires Increasing(s.hist, s.clock) && j < |s.hist|
    ensures Runs(true, s, steps, s') && s'.cursor >= s.hist[j].pos && Ahead(s, s')
  {
    steps, s' := [], s;
    assert Runs(true, s, [], s) && Ahead(s, s);
    hide Runs, Enabled, Careful, Do, Ahead;
    if s.hist[j].pos > s.cursor {
      if j > 0 { steps, s' := SendThrough(s, j - 1); }
      AheadOfAhead(s, s, s');
      if s'.cursor < s.hist[j].pos {
        var s1 := s';
        AheadOfAhead(s, s1, s1) by { assert Ahead(s1, s1) by { AheadIsReflexive(s1); } }
        hide Increasing;
        var step;
        step, s' := SendOne(s1, j);
        RunThen(true, s, steps, s1, step);
        steps := steps + [step];
        AheadOfAhead(s, s1, s');
      }
    }
  }

  lemma AheadIsReflexive(s: State)
    ensures Ahead(s, s)
  {
  }

  lemma {:induction false} SendOne(s: State, j: nat) returns (step: Step, s': State)
    requires j < |s.hist| && s.hist[j].pos > s.cursor && (j > 0 ==> s.hist[j - 1].pos <= s.cursor)
    ensures Enabled(s, step) && Careful(s, step) && s' == Do(s, step)
    ensures Ahead(s, s') && s'.cursor == s.hist[j].pos
  {
    var order := InSomeOrder(Sendable(s, s.hist[j]));
    assert forall k | k in order :: k in Elems(order);
    step := StreamDoes(Emit(j, order));
    s' := Do(s, step);
  }

  /** Nothing at or below the slot is ever missing in a run from `s`. */
  ghost predicate NeverMissing(s: State) {
    forall steps, s' | Runs(true, s, steps, s') :: SafeTo(s', s'.slot)
  }

  lemma {:induction false} InvNeverMisses(s: State)
    requires Inv(s)
    ensures NeverMissing(s)
  {
    forall steps, s' | Runs(true, s, steps, s') ensures SafeTo(s', s'.slot) { RunKeeps(s, steps, s'); }
  }

  /** A reconnect is safe exactly when nothing the new attempt owes at or below
      the durable position is missing: otherwise the stream runs ahead, the
      feedback confirms up to that position, and a change is gone. */
  lemma {:induction false} ReconnectExactly(s: State)
    requires Inv(s)
    ensures NeverMissing(ReconnectAttempt(s)) <==> ReconnectOk(s)
  {
    var r := ReconnectAttempt(s);
    ReconnectKeeps(s);
    if ReconnectOk(s) {
      InvNeverMisses(r);
    } else {
      var w :| w in Changes(s.hist) && w.key.table in s.rules && LoweredBaseOf(s, w.key) < w.version <= s.durable
               && !Covers(s.landed, w.key, w.version);
      assert r.base(w.key) == LoweredBaseOf(s, w.key) && SourceOk(s);
      hide Inv, ReconnectOk, SourceOk;
      ConfirmedMissing(r, w);
    }
  }

  lemma {:induction false} ConfirmedMissing(r: State, w: Write)
    requires Increasing(r.hist, r.clock) && w in Changes(r.hist) && Owed(r, w)
    requires w.version <= r.durable && !Covers(r.landed, w.key, w.version)
    ensures !NeverMissing(r)
  {
    ChangesAreIndexed(r.hist, w);
    var j :| 0 <= j < |r.hist| && w in ChangesOf(r.hist[j]);
    var steps, s := SendThrough(r, j);
    var step := StreamDoes(Feedback(s.cursor));
    RunThen(true, r, steps, s, step);
    var s' := Do(s, step);
    assert Runs(true, r, steps + [step], s') && Owed(s', w) && w.version <= s'.slot;
  }

  /** A slot created again is safe exactly when everything owed is on the
      target. */
  lemma {:induction false} RecreateExactly(s: State, pos: nat)
    requires Inv(s) && pos > s.clock
    ensures NeverMissing(Do(s, RecreateSlot(pos))) <==> RecreateOk(s)
  {
    hide Inv, RestartProcess, SafeTo, RecreateOk;
    var r := Do(s, RecreateSlot(pos));
    RecreateSlotKeeps(s, pos);
    PartsOf(s);
    hide SourceOk, BaseOk;
    RecreateSafe(s, pos);
    if RecreateOk(s) {
      InvNeverMisses(r);
    } else {
      MissingAtOnce(r);
    }
  }

  lemma {:induction false} MissingAtOnce(r: State)
    requires !SafeTo(r, r.slot)
    ensures !NeverMissing(r)
  {
    hide SafeTo;
    assert Runs(true, r, [], r);
  }
}
