/** When two patterns have a name in common. */
module Overlap {
  import opened Wrappers
  import opened Glob

  predicate HasStar(p: string) {
    FirstStar(p) < |p|
  }

  function LastStar(p: string): (at: nat)
    requires HasStar(p)
    ensures FirstStar(p) <= at < |p| && p[at] == '*'
  {
    if p[|p| - 1] == '*' then |p| - 1
    else
      ShorterStar(p);
      LastStar(p[..|p| - 1])
  }

  lemma {:induction false} ShorterStar(p: string)
    requires HasStar(p) && p[|p| - 1] != '*'
    ensures HasStar(p[..|p| - 1]) && FirstStar(p[..|p| - 1]) == FirstStar(p)
  {
    if p[0] != '*' {
      ShorterStar(p[1..]);
      assert p[1..][..|p| - 2] == p[..|p| - 1][1..];
    }
  }

  /** What every name begins with, and what it ends with. */
  function Head(p: string): string
    requires HasStar(p)
  {
    p[..FirstStar(p)]
  }

  function Tail(p: string): string
    requires HasStar(p)
  {
    p[LastStar(p) + 1..]
  }

  /** The text without its stars. */
  function Bare(p: string): string {
    if p == "" then "" else (if p[0] == '*' then "" else [p[0]]) + Bare(p[1..])
  }

  /** What stands between the first star and the last. */
  function Core(p: string): string
    requires HasStar(p)
  {
    if FirstStar(p) == LastStar(p) then "" else Bare(p[FirstStar(p) + 1..LastStar(p)])
  }

  lemma {:induction false} BareMatches(p: string)
    ensures Matches(p, Bare(p))
  {
    if p == "" {
      MatchesItself(p);
    } else {
      BareMatches(p[1..]);
      assert p == p[..1] + p[1..];
      if p[0] == '*' {
        StarMatches("");
        assert p[..1] == "*";
        MatchesConcat("*", "", p[1..], Bare(p[1..]));
      } else {
        MatchesItself(p[..1]);
        MatchesConcat(p[..1], p[..1], p[1..], Bare(p[1..]));
      }
    }
  }

  lemma {:induction false} Starless(p: string)
    requires '*' !in p
    ensures Stars(p) == 0 && Fill(p, []) == p
  {
    if p != "" { Starless(p[1..]); }
  }

  /** Every name has the head first and the tail last. */
  lemma {:induction false} EndsStay(p: string, name: string)
    requires HasStar(p) && Matches(p, name)
    ensures Head(p) <= name && EndsWith(name, Tail(p))
  {
    var runs :| |runs| == Stars(p) && Fill(p, runs) == name;
    var l := LastStar(p);
    NoStarAfterLast(p);
    MatchesHead(p, name);
    LastStays(p[..l + 1], p[l + 1..], runs, p);
  }

  lemma {:induction false} LastStays(front: string, t: string, runs: seq<string>, p: string)
    requires '*' !in t && p == front + t && |runs| == Stars(p)
    ensures EndsWith(Fill(p, runs), t)
  {
    Starless(t);
    StarsConcat(front, t);
    FillConcat(front, t, runs);
    assert runs[|runs|..] == [];
  }

  predicate EndsWith(s: string, end: string) {
    |end| <= |s| && s[|s| - |end|..] == end
  }

  ghost predicate OneStar(p: string, h: string, t: string) {
    p == h + ("*" + t)
  }

  ghost predicate MoreStars(p: string, h: string, m: string, t: string) {
    p == h + ("*" + (m + ("*" + t)))
  }

  lemma {:induction false} AroundOneStar(p: string, h: string, t: string, x: string)
    requires OneStar(p, h, t)
    ensures Matches(p, h + (x + t))
  {
    MatchesItself(h);
    MatchesItself(t);
    StarMatches(x);
    hide Matches;
    MatchesConcat("*", x, t, t);
    MatchesConcat(h, h, "*" + t, x + t);
  }

  lemma {:induction false} AroundMoreStars(p: string, h: string, m: string, t: string, x: string, y: string)
    requires MoreStars(p, h, m, t)
    ensures Matches(p, h + (x + (Bare(m) + (y + t))))
  {
    BareMatches(m);
    hide Matches, Bare;
    StarMatches(y);
    MatchesItself(t);
    MatchesConcat("*", y, t, t);
    MatchesConcat(m, Bare(m), "*" + t, y + t);
    var rest, name := m + ("*" + t), Bare(m) + (y + t);
    StarMatches(x);
    MatchesConcat("*", x, rest, name);
    MatchesItself(h);
    MatchesConcat(h, h, "*" + rest, x + name);
  }

  lemma {:induction false} OnePiece(p: string)
    requires HasStar(p) && FirstStar(p) == LastStar(p)
    ensures OneStar(p, Head(p), Tail(p))
  {
    CutAt(p, FirstStar(p));
  }

  lemma {:induction false} TwoPieces(p: string)
    requires HasStar(p) && FirstStar(p) < LastStar(p)
    ensures MoreStars(p, Head(p), p[FirstStar(p) + 1..LastStar(p)], Tail(p))
  {
    TwoCuts(p, FirstStar(p), LastStar(p));
  }

  lemma {:induction false} TwoCuts(s: string, i: nat, j: nat)
    requires i < j < |s| && s[i] == '*' && s[j] == '*'
    ensures MoreStars(s, s[..i], s[i + 1..j], s[j + 1..])
  {
    CutAt(s, i);
    CutTwice(s, i, j);
  }

  lemma {:induction false} CutTwice(s: string, i: nat, j: nat)
    requires i < j < |s|
    ensures s[i + 1..] == s[i + 1..j] + ([s[j]] + s[j + 1..])
  {
  }

  lemma {:induction false} CutAt(s: string, i: nat)
    requires i < |s|
    ensures s == s[..i] + ([s[i]] + s[i + 1..])
  {
  }

  /** Any text may stand around the core. */
  lemma {:induction false} RoomAround(p: string, x: string, y: string)
    requires HasStar(p)
    ensures Matches(p, Head(p) + (x + (Core(p) + (y + Tail(p)))))
  {
    var f, l := FirstStar(p), LastStar(p);
    if f == l {
      OnePiece(p);
      hide Matches, Head, Tail, HasStar, OneStar;
      AroundOneStar(p, Head(p), Tail(p), x + y);
      Flat(x, y, Tail(p));
    } else {
      TwoPieces(p);
      hide Matches, Head, Tail, HasStar, Bare, MoreStars;
      AroundMoreStars(p, Head(p), p[f + 1..l], Tail(p), x, y);
    }
  }

  lemma {:induction false} Flat(x: string, y: string, t: string)
    ensures x + ("" + (y + t)) == x + y + t
  {
  }

  /** One text begins with the other; one ends with the other. */
  predicate BeginAlike(a: string, b: string) {
    a <= b || b <= a
  }

  predicate EndAlike(a: string, b: string) {
    EndsWith(a, b) || EndsWith(b, a)
  }

  predicate Compatible(p: string, q: string)
    requires HasStar(p) && HasStar(q)
  {
    BeginAlike(Head(p), Head(q)) && EndAlike(Tail(p), Tail(q))
  }

  function Longer(a: string, b: string): string {
    if |a| >= |b| then a else b
  }

  lemma {:induction false} LongerBegins(a: string, b: string)
    requires BeginAlike(a, b)
    ensures var c := Longer(a, b); |a| <= |c| && |b| <= |c| && c == a + c[|a|..] && c == b + c[|b|..]
  {
  }

  lemma {:induction false} LongerEnds(a: string, b: string)
    requires EndAlike(a, b)
    ensures var c := Longer(a, b);
            |a| <= |c| && |b| <= |c| && c == c[..|c| - |a|] + a && c == c[..|c| - |b|] + b
  {
  }

  /** The longer head, any text, both cores, the longer tail. */
  function Common(p: string, q: string, z: string): string
    requires HasStar(p) && HasStar(q)
  {
    Longer(Head(p), Head(q)) + (z + Core(p) + (Core(q) + Longer(Tail(p), Tail(q))))
  }

  lemma {:induction false} CommonMatches(p: string, q: string, z: string)
    requires HasStar(p) && HasStar(q) && Compatible(p, q)
    ensures Matches(p, Common(p, q, z)) && Matches(q, Common(p, q, z))
    ensures '*' !in z ==> '*' !in Common(p, q, z)
  {
    var h, t := Longer(Head(p), Head(q)), Longer(Tail(p), Tail(q));
    LongerBegins(Head(p), Head(q));
    LongerEnds(Tail(p), Tail(q));
    PartsAreStarless(p);
    PartsAreStarless(q);
    hide Matches, Head, Tail, Core, HasStar, Compatible, BeginAlike, EndAlike;
    RoomAround(p, h[|Head(p)|..] + z, Core(q) + t[..|t| - |Tail(p)|]);
    RoomAround(q, h[|Head(q)|..] + (z + Core(p)), t[..|t| - |Tail(q)|]);
    FirstFits(Head(p), h[|Head(p)|..], z, Core(p), Core(q), t[..|t| - |Tail(p)|], Tail(p));
    SecondFits(Head(q), h[|Head(q)|..], z + Core(p), Core(q), t[..|t| - |Tail(q)|], Tail(q));
  }

  lemma {:induction false} FirstFits(a: string, b: string, z: string, c: string, d: string, e: string, f: string)
    ensures a + (b + z + (c + (d + e + f))) == a + b + (z + c + (d + (e + f)))
  {
  }

  lemma {:induction false} SecondFits(a: string, b: string, c: string, d: string, e: string, f: string)
    ensures a + (b + c + (d + (e + f))) == a + b + (c + (d + (e + f)))
  {
  }

  lemma {:induction false} NoStarAfterLast(p: string)
    requires HasStar(p)
    ensures '*' !in p[LastStar(p) + 1..]
  {
    var n := |p| - 1;
    if p[n] != '*' {
      ShorterStar(p);
      NoStarAfterLast(p[..n]);
      var at := LastStar(p[..n]);
      assert p[at + 1..] == p[..n][at + 1..] + [p[n]];
    }
  }

  lemma {:induction false} BareIsBare(p: string)
    ensures '*' !in Bare(p)
  {
    if p != "" { BareIsBare(p[1..]); }
  }

  lemma {:induction false} PartsAreStarless(p: string)
    requires HasStar(p)
    ensures '*' !in Head(p) && '*' !in Tail(p) && '*' !in Core(p)
  {
    NoStarAfterLast(p);
    if FirstStar(p) < LastStar(p) { BareIsBare(p[FirstStar(p) + 1..LastStar(p)]); }
  }

  /** Two patterns with stars have a name in common exactly when their heads
      begin alike and their tails end alike; the name can be one without stars. */
  lemma {:induction false} OverlapExactly(p: string, q: string)
    requires HasStar(p) && HasStar(q)
    ensures (exists name :: Matches(p, name) && Matches(q, name)) <==> Compatible(p, q)
    ensures Compatible(p, q) ==> exists name :: Matches(p, name) && Matches(q, name) && '*' !in name
  {
    if name :| Matches(p, name) && Matches(q, name) {
      EndsStay(p, name);
      EndsStay(q, name);
      TwoBeginnings(name, Head(p), Head(q));
      TwoEndings(name, Tail(p), Tail(q));
    }
    if Compatible(p, q) { CommonMatches(p, q, ""); }
  }

  lemma {:induction false} TwoBeginnings(name: string, a: string, b: string)
    requires a <= name && b <= name
    ensures BeginAlike(a, b)
  {
    assert a == name[..|a|] && b == name[..|b|];
    if |a| <= |b| { assert name[..|b|][..|a|] == name[..|a|]; }
    else { assert name[..|a|][..|b|] == name[..|b|]; }
  }

  lemma {:induction false} TwoEndings(name: string, a: string, b: string)
    requires EndsWith(name, a) && EndsWith(name, b)
    ensures EndAlike(a, b)
  {
    if |a| <= |b| { assert b[|b| - |a|..] == name[|name| - |b|..][|b| - |a|..] == name[|name| - |a|..]; }
    else { assert a[|a| - |b|..] == name[|name| - |a|..][|a| - |b|..] == name[|name| - |b|..]; }
  }
}
