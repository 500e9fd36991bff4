/** Index patterns: `*` stands for any run of characters. */
module Glob {
  import opened Wrappers

  // ------------------------------------------------- what a pattern stands for

  function Stars(pattern: string): nat {
    if pattern == "" then 0 else (if pattern[0] == '*' then 1 else 0) + Stars(pattern[1..])
  }

  /** The pattern with its stars replaced, left to right. */
  function Fill(pattern: string, runs: seq<string>): string
    requires |runs| == Stars(pattern)
  {
    if pattern == "" then ""
    else if pattern[0] == '*' then runs[0] + Fill(pattern[1..], runs[1..])
    else [pattern[0]] + Fill(pattern[1..], runs)
  }

  ghost predicate Matches(pattern: string, name: string) {
    exists runs: seq<string> :: |runs| == Stars(pattern) && Fill(pattern, runs) == name
  }

  // ------------------------------------------------------ strings, as the matcher reads them

  function FirstStar(s: string): (at: nat)
    ensures at <= |s| && '*' !in s[..at] && (at < |s| ==> s[at] == '*')
  {
    if s == "" || s[0] == '*' then 0 else
      assert s[..1 + FirstStar(s[1..])] == [s[0]] + s[1..][..FirstStar(s[1..])];
      1 + FirstStar(s[1..])
  }

  /** The literals between the stars: one more than there are stars. */
  function SplitStars(s: string): (parts: seq<string>)
    ensures parts != []
    decreases |s|
  {
    var at := FirstStar(s);
    if at == |s| then [s] else [s[..at]] + SplitStars(s[at + 1..])
  }

  predicate OccursAt(s: string, t: string, at: nat) {
    at + |t| <= |s| && s[at..at + |t|] == t
  }

  /** The leftmost occurrence of `t` in `s`. */
  method Find(s: string, t: string) returns (at: Option<nat>)
    ensures at.Some? ==> OccursAt(s, t, at.value) && forall i | 0 <= i < at.value :: !OccursAt(s, t, i)
    ensures at.None? ==> forall i: nat :: !OccursAt(s, t, i)
  {
    var i := 0;
    while i + |t| <= |s|
      invariant forall j | 0 <= j < i :: !OccursAt(s, t, j)
    {
      if s[i..i + |t|] == t { return Some(i); }
      i := i + 1;
    }
    return None;
  }

  // ------------------------------------------------------------- the matcher

  /** One pass: each literal between two stars is taken at its leftmost
      occurrence, and the last has to end the name. */
  method IndexMatchesPattern(pattern: string, name: string) returns (matches: bool)
    ensures matches <==> Matches(pattern, name)
  {
    var star := FirstStar(pattern);
    MatchesHead(pattern, name);
    if star == |pattern| { return pattern == name; }
    var head, tail := pattern[..star], pattern[star + 1..];
    if !(head <= name) { return false; }
    var rest := name[|head|..];
    var literals := SplitStars(tail);
    FloatsIsMatches(tail, rest);
    matches := FloatsLeftmost(literals, rest);
  }

  method FloatsLeftmost(literals: seq<string>, name: string) returns (matches: bool)
    ensures matches <==> Floats(literals, name)
  {
    var rest, next := name, 0;
    assert literals[0..] == literals;
    while next < |literals|
      invariant next <= |literals|
      invariant Floats(literals, name) <==> Floats(literals[next..], rest)
    {
      var literal := literals[next];
      ghost var left := literals[next..];
      next := next + 1;
      assert left[0] == literal && left[1..] == literals[next..];
      FloatsEnd(left, rest);
      hide Floats, OccursAt;
      if next == |literals| {
        return |literal| <= |rest| && rest[|rest| - |literal|..] == literal;
      }
      var at := Find(rest, literal);
      if at.None? {
        FloatsNowhere(left, rest);
        return false;
      }
      LeftmostIsEnough(left, rest, at.value);
      OccursFits(rest, literal, at.value);
      rest := rest[at.value + |literal|..];
    }
    FloatsEnd([], rest);
    return true;
  }

  lemma OccursFits(s: string, t: string, at: nat)
    requires OccursAt(s, t, at)
    ensures at + |t| <= |s|
  {
  }

  /** The literals occur in `rest` one after another, the last at its end. */
  ghost predicate Floats(literals: seq<string>, rest: string) {
    if literals == [] then true
    else if |literals| == 1 then |literals[0]| <= |rest| && rest[|rest| - |literals[0]|..] == literals[0]
    else exists i: nat :: OccursAt(rest, literals[0], i) && Floats(literals[1..], rest[i + |literals[0]|..])
  }

  ghost predicate FloatsFrom(literals: seq<string>, rest: string, i: nat)
    requires |literals| > 1
  {
    OccursAt(rest, literals[0], i) && Floats(literals[1..], rest[i + |literals[0]|..])
  }

  lemma {:induction false} FloatsEnd(literals: seq<string>, rest: string)
    ensures Floats([], rest)
    ensures |literals| == 1 ==>
              (Floats(literals, rest) <==> |literals[0]| <= |rest| && rest[|rest| - |literals[0]|..] == literals[0])
  {
  }

  lemma {:induction false} FloatsNowhere(literals: seq<string>, rest: string)
    requires |literals| > 1 && forall i: nat :: !OccursAt(rest, literals[0], i)
    ensures !Floats(literals, rest)
  {
  }

  lemma {:induction false} FloatsSomewhere(literals: seq<string>, rest: string)
    requires |literals| > 1
    ensures Floats(literals, rest) <==> exists i: nat :: FloatsFrom(literals, rest, i)
  {
    if Floats(literals, rest) {
      var i: nat :| OccursAt(rest, literals[0], i) && Floats(literals[1..], rest[i + |literals[0]|..]);
      assert FloatsFrom(literals, rest, i);
    }
  }

  // ------------------------------------------------ greedy against declarative

  ghost predicate MatchesFrom(pattern: string, name: string, i: nat) {
    i <= |name| && Matches(pattern, name[i..])
  }

  /** Some end of `name` matches. */
  ghost predicate MatchesAnEnd(pattern: string, name: string) {
    exists i: nat :: MatchesFrom(pattern, name, i)
  }

  lemma MatchesOneCharacter(p: string, n: string)
    requires p != ""
    ensures p[0] != '*' ==> (Matches(p, n) <==> n != "" && n[0] == p[0] && Matches(p[1..], n[1..]))
    ensures p[0] == '*' ==> (Matches(p, n) <==> MatchesAnEnd(p[1..], n))
  {
    if Matches(p, n) {
      var runs :| |runs| == Stars(p) && Fill(p, runs) == n;
      if p[0] == '*' {
        assert n[|runs[0]|..] == Fill(p[1..], runs[1..]);
        assert MatchesFrom(p[1..], n, |runs[0]|);
      } else {
        assert n[1..] == Fill(p[1..], runs);
      }
    }
    if p[0] == '*' && MatchesAnEnd(p[1..], n) {
      var i: nat :| MatchesFrom(p[1..], n, i);
      var runs :| |runs| == Stars(p[1..]) && Fill(p[1..], runs) == n[i..];
      var more := [n[..i]] + runs;
      assert more[1..] == runs && Fill(p, more) == n;
    }
    if p[0] != '*' && n != "" && n[0] == p[0] && Matches(p[1..], n[1..]) {
      var runs :| |runs| == Stars(p[1..]) && Fill(p[1..], runs) == n[1..];
      assert Fill(p, runs) == n;
    }
  }

  /** Up to its first star a pattern is a prefix; without one it is the name. */
  lemma {:induction false} MatchesHead(p: string, n: string)
    ensures var at := FirstStar(p);
            if at == |p| then Matches(p, n) <==> p == n
            else Matches(p, n) <==> p[..at] <= n && MatchesAnEnd(p[at + 1..], n[at..])
  {
    if p == "" {
      assert Matches(p, n) <==> Fill(p, []) == n;
    } else {
      MatchesOneCharacter(p, n);
      hide Matches, MatchesAnEnd;
      if p[0] == '*' {
        assert n[0..] == n && p[..0] == "";
      } else if n != "" && n[0] == p[0] {
        MatchesHead(p[1..], n[1..]);
        HeadLonger(p, n);
      }
    }
  }

  lemma {:induction false} HeadLonger(p: string, n: string)
    requires p != "" && n != "" && n[0] == p[0] != '*'
    ensures var at := FirstStar(p);
            && (p == n <==> p[1..] == n[1..]) && FirstStar(p[1..]) == at - 1
            && (p[..at] <= n <==> p[1..][..at - 1] <= n[1..])
            && (at < |p| ==> p[1..][at..] == p[at + 1..])
            && (at <= |n| ==> n[1..][at - 1..] == n[at..])
  {
    var at := FirstStar(p);
    assert p == [p[0]] + p[1..] && n == [n[0]] + n[1..];
    assert p[..at] == [p[0]] + p[1..][..at - 1];
    if p[..at] <= n {
      assert p[1..][..at - 1] == p[..at][1..] == n[..at][1..] == n[1..][..at - 1];
    }
    if p[1..][..at - 1] <= n[1..] {
      assert n[..at] == [n[0]] + n[1..][..at - 1];
    }
  }

  lemma {:induction false} MatchesFromHead(tail: string, rest: string, i: nat)
    requires i <= |rest|
    ensures var at := FirstStar(tail);
            MatchesFrom(tail, rest, i) <==>
              if at == |tail| then rest[i..] == tail
              else OccursAt(rest, tail[..at], i) && MatchesAnEnd(tail[at + 1..], rest[i + at..])
  {
    hide Matches, MatchesAnEnd;
    var at := FirstStar(tail);
    MatchesHead(tail, rest[i..]);
    if at < |tail| && i + at <= |rest| {
      assert rest[i..][at..] == rest[i + at..] && rest[i..][..at] == rest[i..i + at];
    }
  }

  lemma {:induction false} FloatsIsMatches(tail: string, rest: string)
    ensures Floats(SplitStars(tail), rest) <==> MatchesAnEnd(tail, rest)
    decreases |tail|
  {
    hide Matches, Floats;
    if FirstStar(tail) == |tail| {
      LastFloats(tail, rest);
    } else {
      forall i: nat | i <= |rest|
        ensures MatchesFrom(tail, rest, i) <==> FloatsFrom(SplitStars(tail), rest, i)
      {
        var next := i + FirstStar(tail);
        MatchesFromHead(tail, rest, i);
        if next <= |rest| { FloatsIsMatches(tail[FirstStar(tail) + 1..], rest[next..]); }
      }
      hide MatchesAnEnd, MatchesFrom, FloatsFrom;
      FloatsAtAll(tail, rest);
    }
  }

  lemma {:induction false} LastFloats(tail: string, rest: string)
    requires FirstStar(tail) == |tail|
    ensures Floats(SplitStars(tail), rest) <==> MatchesAnEnd(tail, rest)
  {
    hide Matches;
    forall i: nat | i <= |rest| ensures MatchesFrom(tail, rest, i) <==> rest[i..] == tail {
      MatchesFromHead(tail, rest, i);
    }
    if Floats([tail], rest) { assert MatchesFrom(tail, rest, |rest| - |tail|); }
  }

  lemma {:induction false} FloatsAtAll(tail: string, rest: string)
    requires FirstStar(tail) < |tail|
    requires forall i: nat | i <= |rest| :: MatchesFrom(tail, rest, i) <==> FloatsFrom(SplitStars(tail), rest, i)
    ensures Floats(SplitStars(tail), rest) <==> MatchesAnEnd(tail, rest)
  {
    hide Matches;
    var literals := SplitStars(tail);
    FloatsSomewhere(literals, rest);
    hide Floats;
    if MatchesAnEnd(tail, rest) {
      var i: nat :| MatchesFrom(tail, rest, i);
      assert FloatsFrom(literals, rest, i);
    }
    if Floats(literals, rest) {
      var i: nat :| FloatsFrom(literals, rest, i);
      assert MatchesFrom(tail, rest, i);
    }
  }

  /** More room on the left loses nothing: the star before absorbs it. */
  lemma {:induction false} FloatsWider(literals: seq<string>, rest: string, i: nat)
    requires i <= |rest| && Floats(literals, rest[i..])
    ensures Floats(literals, rest)
  {
    if |literals| > 1 {
      var l := literals[0];
      FloatsSomewhere(literals, rest);
      FloatsSomewhere(literals, rest[i..]);
      var j: nat :| FloatsFrom(literals, rest[i..], j);
      assert rest[i..][j + |l|..] == rest[i + j + |l|..];
      assert FloatsFrom(literals, rest, i + j);
    }
  }

  /** The leftmost occurrence leaves the most for what follows. */
  lemma {:induction false} LeftmostIsEnough(literals: seq<string>, rest: string, at: nat)
    requires |literals| > 1 && OccursAt(rest, literals[0], at)
    requires forall i | 0 <= i < at :: !OccursAt(rest, literals[0], i)
    ensures Floats(literals, rest) <==> Floats(literals[1..], rest[at + |literals[0]|..])
  {
    var l := literals[0];
    FloatsSomewhere(literals, rest);
    if Floats(literals, rest) {
      var i: nat :| FloatsFrom(literals, rest, i);
      assert rest[at + |l|..][i - at..] == rest[i + |l|..];
      FloatsWider(literals[1..], rest[at + |l|..], i - at);
    }
    if Floats(literals[1..], rest[at + |l|..]) { assert FloatsFrom(literals, rest, at); }
  }

  // ------------------------------------------------- one pattern against another

  /** Every name `inner` matches, `outer` matches. */
  ghost predicate Within(inner: string, outer: string) {
    forall name :: Matches(inner, name) ==> Matches(outer, name)
  }

  lemma {:induction false} StarsConcat(a: string, b: string)
    ensures Stars(a + b) == Stars(a) + Stars(b)
  {
    if a == "" { assert a + b == b; }
    else {
      assert (a + b)[1..] == a[1..] + b;
      StarsConcat(a[1..], b);
    }
  }

  lemma {:induction false} FillConcat(a: string, b: string, runs: seq<string>)
    requires |runs| == Stars(a) + Stars(b)
    ensures Stars(a + b) == |runs|
    ensures Fill(a + b, runs) == Fill(a, runs[..Stars(a)]) + Fill(b, runs[Stars(a)..])
  {
    StarsConcat(a, b);
    if a == "" {
      assert a + b == b && runs[0..] == runs;
    } else {
      assert (a + b)[1..] == a[1..] + b;
      if a[0] == '*' {
        FillConcat(a[1..], b, runs[1..]);
        assert runs[..Stars(a)][1..] == runs[1..][..Stars(a[1..])];
        assert runs[1..][Stars(a[1..])..] == runs[Stars(a)..];
      } else {
        FillConcat(a[1..], b, runs);
      }
    }
  }

  /** Filling what was filled: each run of the outer pattern is itself filled. */
  lemma {:induction false} FillTwice(p: string, runs: seq<string>, more: seq<string>) returns (both: seq<string>)
    requires |runs| == Stars(p) && |more| == Stars(Fill(p, runs))
    ensures |both| == Stars(p) && Fill(p, both) == Fill(Fill(p, runs), more)
  {
    if p == "" {
      both := [];
    } else if p[0] == '*' {
      var rest := Fill(p[1..], runs[1..]);
      StarsConcat(runs[0], rest);
      FillConcat(runs[0], rest, more);
      var tail := FillTwice(p[1..], runs[1..], more[Stars(runs[0])..]);
      both := [Fill(runs[0], more[..Stars(runs[0])])] + tail;
      assert both[1..] == tail;
    } else {
      var rest := Fill(p[1..], runs);
      assert Fill(p, runs)[1..] == rest;
      both := FillTwice(p[1..], runs, more);
    }
  }

  /** A pattern read as text is one of the names it matches. */
  lemma {:induction false} MatchesItself(p: string)
    ensures Matches(p, p)
  {
    if p == "" {
      assert Fill(p, []) == p;
    } else {
      MatchesItself(p[1..]);
      MatchesOneCharacter(p, p);
      if p[0] == '*' {
        assert MatchesFrom(p[1..], p, 1);
      }
    }
  }

  /** Matching a pattern's text decides containment, exactly. */
  lemma ContainmentIsMatching(outer: string, inner: string)
    ensures Within(inner, outer) <==> Matches(outer, inner)
  {
    MatchesItself(inner);
    if Matches(outer, inner) {
      var runs :| |runs| == Stars(outer) && Fill(outer, runs) == inner;
      forall name | Matches(inner, name) ensures Matches(outer, name) {
        var more :| |more| == Stars(inner) && Fill(inner, more) == name;
        var both := FillTwice(outer, runs, more);
      }
    }
  }

  lemma MatchesConcat(a: string, m: string, b: string, n: string)
    requires Matches(a, m) && Matches(b, n)
    ensures Matches(a + b, m + n)
  {
    var xs :| |xs| == Stars(a) && Fill(a, xs) == m;
    var ys :| |ys| == Stars(b) && Fill(b, ys) == n;
    FillConcat(a, b, xs + ys);
    assert (xs + ys)[..|xs|] == xs && (xs + ys)[|xs|..] == ys;
  }

  lemma StarMatches(n: string)
    ensures Matches("*", n)
  {
    assert Fill("*", [n]) == n;
  }
}
