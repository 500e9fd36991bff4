/** Document versions of a MySQL pipeline across failovers: a version is a
    generation's base plus a binlog coordinate, and the target only takes
    versions that go up. */
module Versions {
  import opened Wrappers

  const MaxU64: nat := 0xffff_ffff_ffff_ffff
  const Margin: nat := 0x100_0000_0000

  /** Addition that stops at 2^64 - 1. */
  function Plus(a: nat, b: nat): nat {
    if a + b <= MaxU64 then a + b else MaxU64
  }

  datatype VersionBase = Kept(base: nat) | NewGeneration(base: nat)

  function VersionBaseFor(base: nat, storedToken: nat, coordinate: nat): VersionBase {
    if Plus(base, coordinate) >= storedToken then Kept(base)
    else NewGeneration(Plus(storedToken, Margin))
  }

  /** A checkpoint, with how many openings its base stands on and which
      generation it was written in. */
  datatype Stored = Stored(base: nat, coordinate: nat, openings: nat, generation: nat) {
    function Token(): nat { Plus(base, coordinate) }
  }

  /** A document version sent to the target. */
  datatype Sent = Sent(generation: nat, coordinate: nat, version: nat)

  /** `written` is everything sent so far, `latest` the last generation opened
      and `bases` each generation's base. */
  datatype State = State(base: nat, openings: nat, generation: nat, latest: nat, stored: Stored,
                         written: set<Sent>, bases: map<nat, nat>)

  datatype Step =
    | Write(coordinate: nat)
    | Checkpoint(coordinate: nat)
    | Start(coordinate: nat)

  function Send(s: State, c: nat): Sent {
    Sent(s.generation, c, Plus(s.base, c))
  }

  predicate Enabled(s: State, step: Step) {
    match step
    case Write(c) => c <= MaxU64
    case Checkpoint(c) => Send(s, c) in s.written
    case Start(c) => c <= MaxU64
  }

  /** A start reads base and token from the checkpoint. */
  function Do(s: State, step: Step): State
    requires Enabled(s, step)
  {
    match step
    case Write(c) => s.(written := s.written + {Send(s, c)})
    case Checkpoint(c) => s.(stored := Stored(s.base, c, s.openings, s.generation))
    case Start(c) =>
      match VersionBaseFor(s.stored.base, s.stored.Token(), c)
      case Kept(b) => s.(base := b, openings := s.stored.openings, generation := s.stored.generation)
      case NewGeneration(b) =>
        s.(base := b, openings := s.stored.openings + 1, generation := s.latest + 1, latest := s.latest + 1,
           bases := s.bases[s.latest + 1 := b])
  }

  /** What an opening rests on: nothing written reaches the stored token plus the
      margin, and that sum fits. */
  ghost predicate RoomToOpen(s: State) {
    s.stored.Token() + Margin <= MaxU64 && forall w | w in s.written :: w.version < s.stored.Token() + Margin
  }

  /** What keeping the base rests on: nothing has been written in a generation
      later than the checkpoint's. */
  ghost predicate NothingLater(s: State) {
    forall w | w in s.written :: w.generation <= s.stored.generation
  }

  ghost predicate Fair(s: State, step: Step) {
    step.Start? ==>
      if VersionBaseFor(s.stored.base, s.stored.Token(), step.coordinate).Kept? then NothingLater(s) else RoomToOpen(s)
  }

  ghost predicate Init(s: State) {
    s == State(0, 0, 0, 0, Stored(0, 0, 0, 0), {}, map[0 := 0])
  }

  ghost predicate Runs(fair: bool, s: State, steps: seq<Step>, s': State)
    decreases |steps|
  {
    if steps == [] then s' == s
    else Enabled(s, steps[0]) && (fair ==> Fair(s, steps[0])) && Runs(fair, Do(s, steps[0]), steps[1..], s')
  }

  // --------------------------------------------------- which start does which

  /** Sums are exact as long as they fit in 64 bits, and stay at the top beyond. */
  lemma PlusIsExactWhileItFits(a: nat, b: nat)
    requires a <= 18446744073709551615
    ensures Plus(a, b) == a + b <==> a + b <= 18446744073709551615
    ensures a + b > 18446744073709551615 ==> Plus(a, b) == 18446744073709551615
  {
  }

  /** A start keeps the base it finds exactly when no version it can give from the
      source's coordinate on falls below the stored token; otherwise it opens a
      new generation 2^40 above that token. */
  lemma StartKeepsExactlyWhen(s: State, c: nat)
    requires Enabled(s, Start(c)) && s.stored.base + s.stored.coordinate + 1099511627776 <= 18446744073709551615
    ensures var s', token := Do(s, Start(c)), s.stored.base + s.stored.coordinate;
            var above := forall x: nat | c <= x :: token <= Plus(s.stored.base, x);
            && (above ==> s' == s.(base := s.stored.base, openings := s.stored.openings, generation := s.stored.generation))
            && (!above ==> s'.base == token + 1099511627776 && s'.generation == s'.latest == s.latest + 1
                           && s'.openings == s.stored.openings + 1 && s'.bases == s.bases[s.latest + 1 := s'.base])
            && (s'.base == s.stored.base <==> above)
  {
    var token := s.stored.base + s.stored.coordinate;
    if Plus(s.stored.base, c) < token {
      assert !(token <= Plus(s.stored.base, c));
    }
  }

  // ---------------------------------------------------- within one generation

  /** A generation has one base, whatever the run. */
  ghost predicate Based(s: State) {
    && s.generation <= s.latest && s.stored.generation <= s.latest
    && (forall g | g in s.bases :: g <= s.latest)
    && s.generation in s.bases && s.bases[s.generation] == s.base
    && s.stored.generation in s.bases && s.bases[s.stored.generation] == s.stored.base
    && (forall w | w in s.written :: w.generation in s.bases && w.version == Plus(s.bases[w.generation], w.coordinate))
  }

  lemma {:induction false} RunIsBased(fair: bool, s: State, steps: seq<Step>, s': State)
    requires Based(s) && Runs(fair, s, steps, s')
    ensures Based(s')
    decreases |steps|
  {
    if steps != [] {
      assert Based(Do(s, steps[0]));
      RunIsBased(fair, Do(s, steps[0]), steps[1..], s');
    }
  }

  /** In every run, kept starts, crashes and replays included, versions of one
      generation follow its log: a later coordinate never has a lower version, and
      a coordinate read again has the version it had. */
  lemma VersionsFollowTheLog(s0: State, steps: seq<Step>, s: State, a: Sent, b: Sent)
    requires Init(s0) && Runs(false, s0, steps, s)
    requires a in s.written && b in s.written && a.generation == b.generation && a.coordinate <= b.coordinate
    ensures a.version <= b.version && (a.coordinate == b.coordinate ==> a == b)
  {
    RunIsBased(false, s0, steps, s);
  }

  // ---------------------------------------------------- from one to the next

  ghost predicate Inv(s: State) {
    && s.stored.generation <= s.generation <= s.latest
    && s.base <= MaxU64 && s.stored.base <= MaxU64
    && s.openings * Margin <= s.base && s.stored.openings * Margin <= s.stored.base
    && (forall w | w in s.written :: w.generation <= s.generation && w.version <= MaxU64)
    && (forall w | w in s.written && w.generation < s.generation :: w.version < s.base)
    && (forall w | w in s.written && w.generation < s.stored.generation :: w.version < s.stored.base)
    && (forall a, b | a in s.written && b in s.written && a.generation < b.generation :: a.version < b.version)
    && (s.stored.generation < s.generation ==> s.stored.Token() < s.base)
    && (forall w | w in s.written && s.stored.generation < w.generation :: s.stored.Token() < w.version)
  }

  lemma StartKeeps(s: State, c: nat)
    requires Inv(s) && Enabled(s, Start(c)) && Fair(s, Start(c))
    ensures Inv(Do(s, Start(c)))
  {
    var s' := Do(s, Start(c));
    assert s.stored.base <= s.stored.Token();
    if VersionBaseFor(s.stored.base, s.stored.Token(), c).NewGeneration? {
      assert s'.openings * Margin == s.stored.openings * Margin + Margin;
    }
  }

  lemma StepKeeps(s: State, step: Step)
    requires Inv(s) && Enabled(s, step) && Fair(s, step)
    ensures Inv(Do(s, step))
  {
    match step
    case Start(c) => StartKeeps(s, c);
    case Write(c) =>
    case Checkpoint(c) =>
  }

  lemma {:induction false} RunKeeps(s: State, steps: seq<Step>, s': State)
    requires Inv(s) && Runs(true, s, steps, s')
    ensures Inv(s')
    decreases |steps|
  {
    if steps != [] {
      StepKeeps(s, steps[0]);
      RunKeeps(Do(s, steps[0]), steps[1..], s');
    }
  }

  /** Over any sequence of failovers: everything written in a later generation is
      strictly above everything written in an earlier one, and a base that stands
      on `n` openings is at least `n` margins. */
  lemma GenerationsGoUp(s0: State, steps: seq<Step>, s: State)
    requires Init(s0) && Runs(true, s0, steps, s)
    ensures forall a, b | a in s.written && b in s.written && a.generation < b.generation :: a.version < b.version
    ensures s.openings * Margin <= s.base
  {
    RunKeeps(s0, steps, s);
  }

  // -------------------------------------------------------- the two conditions

  /** Opening: every version the new generation can hold is above all written
      before exactly when nothing written has reached its base. */
  lemma OpeningIsAboveExactlyWhen(s: State, c: nat)
    requires Enabled(s, Start(c)) && VersionBaseFor(s.stored.base, s.stored.Token(), c).NewGeneration?
    ensures (forall w, x: nat | w in s.written :: w.version < Plus(Do(s, Start(c)).base, x)) <==>
            (forall w | w in s.written :: w.version < Plus(s.stored.Token(), Margin))
  {
    var base := Plus(s.stored.Token(), Margin);
    assert Do(s, Start(c)).base == base;
    assert forall x: nat :: base <= Plus(base, x);
    if forall w, x: nat | w in s.written :: w.version < Plus(base, x) {
      forall w | w in s.written ensures w.version < base { assert w.version < Plus(base, 0); }
    }
  }

  /** Keeping: nothing sent from the checkpoint on is below something another
      generation already sent, exactly when no later generation has sent
      anything. */
  lemma KeepingIsAboveExactlyWhen(s: State, c: nat)
    requires Inv(s) && Enabled(s, Start(c)) && VersionBaseFor(s.stored.base, s.stored.Token(), c).Kept?
    ensures (forall w, x: nat | w in s.written && w.generation != s.stored.generation && s.stored.coordinate <= x ::
               w.version <= Plus(Do(s, Start(c)).base, x)) <==>
            NothingLater(s)
  {
    var base := s.stored.base;
    if !NothingLater(s) {
      var w :| w in s.written && w.generation > s.stored.generation;
      assert Plus(Do(s, Start(c)).base, s.stored.coordinate) < w.version;
    } else {
      forall w, x: nat | w in s.written && w.generation != s.stored.generation && s.stored.coordinate <= x
        ensures w.version <= Plus(base, x)
      {
        assert w.generation < s.stored.generation;
      }
    }
  }

  // ------------------------------------------------- a generation never stored

  const started := State(0, 0, 0, 0, Stored(0, 0, 0, 0), {}, map[0 := 0])
  const unstored := State(9 + Margin, 1, 1, 1, Stored(0, 9, 0, 0), {Sent(0, 9, 9), Sent(1, 3, 12 + Margin)},
                          map[0 := 0, 1 := 9 + Margin])

  lemma {:induction false} UnstoredIsRun()
    ensures Init(started) && Runs(false, started, [Write(9), Checkpoint(9), Start(1), Write(3)], unstored)
  {
    var steps := [Write(9), Checkpoint(9), Start(1), Write(3)];
    var s1 := Do(started, Write(9));
    var s2 := Do(s1, Checkpoint(9));
    var s3 := Do(s2, Start(1));
    assert steps[1..] == [Checkpoint(9), Start(1), Write(3)] && steps[1..][1..] == [Start(1), Write(3)];
    assert steps[1..][1..][1..] == [Write(3)] && steps[1..][1..][1..][1..] == [];
    assert Do(s3, Write(3)) == unstored;
    assert Runs(false, s3, [Write(3)], unstored);
    assert Runs(false, s2, [Start(1), Write(3)], unstored);
    assert Runs(false, s1, [Checkpoint(9), Start(1), Write(3)], unstored);
  }

  /** An opening is remembered only by a checkpoint written in it. Before that, a
      start on the new server opens the same base again, over versions already
      written; a start back on the old one keeps a base below them. */
  lemma UnstoredGenerationIsForgotten()
    ensures Runs(false, started, [Write(9), Checkpoint(9), Start(1), Write(3)], unstored)
    ensures Do(unstored, Start(1)).base == unstored.base && !RoomToOpen(unstored)
    ensures Do(unstored, Start(9)).base == 0 && !NothingLater(unstored)
    ensures exists w :: w in unstored.written && w.version > Plus(Do(unstored, Start(9)).base, 10)
  {
    UnstoredIsRun();
    var w := Sent(1, 3, 12 + Margin);
    assert w in unstored.written;
  }
}
