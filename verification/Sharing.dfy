/** When two index templates render one index, and when a row of one is written
    where the TRUNCATE of the other clears. */
module Sharing {
  import opened Wrappers
  import opened Glob
  import opened Overlap
  import opened Claims

  predicate HasColumn(parts: seq<Part>) {
    exists i :: 0 <= i < |parts| && parts[i].Column?
  }

  predicate DifferentColumns(parts: seq<Part>) {
    forall i, j | 0 <= i < j < |parts| && parts[i].Column? && parts[j].Column? :: parts[i].name != parts[j].name
  }

  predicate LegalText(s: string) {
    forall i | 0 <= i < |s| :: LegalCharacter(s[i])
  }

  predicate LegalParts(parts: seq<Part>) {
    forall i | 0 <= i < |parts| && parts[i].Literal? :: LegalText(parts[i].text)
  }

  lemma {:induction false} SampleIsLegal(parts: seq<Part>)
    requires LegalText(Sample(parts))
    ensures LegalParts(parts)
  {
    if parts != [] {
      var first := match parts[0] case Literal(text) => text case Column(_) => "x";
      var s := Sample(parts);
      assert forall i | 0 <= i < |first| :: first[i] == s[i];
      assert forall i | 0 <= i < |Sample(parts[1..])| :: Sample(parts[1..])[i] == s[|first| + i];
      SampleIsLegal(parts[1..]);
      assert forall i | 1 <= i < |parts| :: parts[i] == parts[1..][i - 1];
    }
  }

  /** Characters of the pattern are legal or stars. */
  predicate LegalOrStar(s: string) {
    forall i | 0 <= i < |s| :: LegalCharacter(s[i]) || s[i] == '*'
  }

  lemma {:induction false} PatternIsLegal(out: string, parts: seq<Part>)
    requires LegalParts(parts) && LegalOrStar(out)
    ensures LegalOrStar(PatternFrom(out, parts))
    ensures '*' in out || HasColumn(parts) ==> '*' in PatternFrom(out, parts)
    ensures out <= PatternFrom(out, parts)
    decreases |parts|
  {
    if parts != [] {
      assert forall i | 0 <= i < |parts[1..]| :: parts[1..][i] == parts[i + 1];
      var next := match parts[0]
                  case Literal(text) => out + text
                  case Column(_) => if EndsWithStar(out) then out else out + "*";
      PatternIsLegal(next, parts[1..]);
    }
  }

  lemma {:induction false} FirstStarAt(out: string, p: string)
    requires '*' !in out && out + "*" <= p
    ensures FirstStar(p) == |out|
  {
    assert p[|out|] == (out + "*")[|out|] == '*';
    if out != "" {
      assert p[0] == (out + "*")[0] == out[0];
      var rest := (out + "*")[1..];
      assert rest == out[1..] + "*" && p[1..][..|rest|] == rest;
      FirstStarAt(out[1..], p[1..]);
    }
  }

  /** Up to its first placeholder a template is its own sample. */
  lemma {:induction false} HeadIsSampled(out: string, parts: seq<Part>)
    requires LegalParts(parts) && LegalText(out) && HasColumn(parts)
    ensures HasStar(PatternFrom(out, parts)) && Head(PatternFrom(out, parts)) <= out + Sample(parts)
    decreases |parts|
  {
    var rest := parts[1..];
    assert forall i | 0 <= i < |rest| :: rest[i] == parts[i + 1];
    match parts[0]
    case Literal(text) =>
      assert HasColumn(rest) by {
        var i :| 0 <= i < |parts| && parts[i].Column?;
        assert rest[i - 1].Column?;
      }
      HeadIsSampled(out + text, rest);
      assert out + text + Sample(rest) == out + (text + Sample(rest));
    case Column(_) =>
      assert '*' !in out by { assert forall i | 0 <= i < |out| :: LegalCharacter(out[i]); }
      PatternIsLegal(out + "*", rest);
      FirstStarAt(out, PatternFrom(out + "*", rest));
      assert Head(PatternFrom(out, parts)) == (out + "*")[..|out|] == out;
  }

  // ---------------------------------------------------- every claimed name is rendered

  lemma {:induction false} LiteralFront(text: string, e: string, name: string)
    requires '*' !in text && Matches(text + e, name)
    ensures text <= name && Matches(e, name[|text|..])
  {
    StarsConcat(text, e);
    Starless(text);
    var runs :| |runs| == Stars(text + e) && Fill(text + e, runs) == name;
    FillConcat(text, e, runs);
    assert runs[..0] == [] && runs[0..] == runs;
    assert name[|text|..] == Fill(e, runs);
  }

  lemma {:induction false} OtherColumn(parts: seq<Part>, row: Row, c: string, v: string)
    requires Renders(parts, row) && forall i | 0 <= i < |parts| && parts[i].Column? :: parts[i].name != c
    ensures Renders(parts, row[c := Some(v)]) && Rendered(parts, row[c := Some(v)]) == Rendered(parts, row)
  {
    if parts != [] {
      assert forall i | 0 <= i < |parts[1..]| :: parts[1..][i] == parts[i + 1];
      OtherColumn(parts[1..], row, c, v);
    }
  }

  /** With each column named once, any name the template claims is one some row
      renders. */
  lemma {:induction false} RowFor(parts: seq<Part>, name: string) returns (row: Row)
    requires LegalParts(parts) && DifferentColumns(parts) && Matches(Expand(parts), name)
    ensures Renders(parts, row) && Rendered(parts, row) == name
    decreases |parts|, 1
  {
    hide Matches;
    if parts == [] {
      row := map[];
      MatchesHead("", name);
    } else {
      var rest := parts[1..];
      assert forall i | 0 <= i < |rest| :: rest[i] == parts[i + 1];
      match parts[0] {
        case Literal(text) =>
          assert LegalText(text);
          LiteralFront(text, Expand(rest), name);
          row := RowFor(rest, name[|text|..]);
        case Column(c) =>
          MatchesOneCharacter(Expand(parts), name);
          assert Expand(parts)[1..] == Expand(rest);
          var i: nat :| MatchesFrom(Expand(rest), name, i);
          row := RowWith(parts, name, i);
      }
    }
  }

  lemma {:induction false} RowWith(parts: seq<Part>, name: string, i: nat) returns (row: Row)
    requires LegalParts(parts) && DifferentColumns(parts) && parts != [] && parts[0].Column?
    requires i <= |name| && Matches(Expand(parts[1..]), name[i..])
    ensures Renders(parts, row) && Rendered(parts, row) == name
    decreases |parts|, 0
  {
    hide Matches, Expand;
    var rest, c := parts[1..], parts[0].name;
    assert forall j | 0 <= j < |rest| :: rest[j] == parts[j + 1];
    var less := RowFor(rest, name[i..]);
    row := less[c := Some(name[..i])];
    OtherColumn(rest, less, c, name[..i]);
    assert name[..i] + name[i..] == name;
  }

  /** An index both templates may write: legal, and rendered by a row of each. */
  ghost predicate Shared(a: seq<Part>, b: seq<Part>, name: string) {
    && LegalName(name)
    && (exists row :: Renders(a, row) && Rendered(a, row) == name)
    && (exists row :: Renders(b, row) && Rendered(b, row) == name)
  }

  lemma {:induction false} RenderedMatches(spec: string, parts: seq<Part>, name: string)
    requires LegalParts(parts) && DifferentColumns(parts)
    ensures Matches(Template(spec, parts).Pattern(), name) <==> exists row :: Renders(parts, row) && Rendered(parts, row) == name
  {
    if row :| Renders(parts, row) && Rendered(parts, row) == name {
      RenderedIsClaimed(spec, parts, row);
    }
    if Matches(Template(spec, parts).Pattern(), name) {
      PatternFromMeans("", parts, name);
      assert "" + Expand(parts) == Expand(parts);
      var row := RowFor(parts, name);
    }
  }

  lemma {:induction false} LegalPieces(p: string)
    requires HasStar(p) && LegalOrStar(p)
    ensures LegalText(Head(p)) && LegalText(Tail(p)) && LegalText(Core(p))
  {
    PartsAreStarless(p);
    LegalSlice(p, 0, FirstStar(p));
    LegalSlice(p, LastStar(p) + 1, |p|);
    if FirstStar(p) < LastStar(p) {
      LegalSlice(p, FirstStar(p) + 1, LastStar(p));
      LegalBare(p[FirstStar(p) + 1..LastStar(p)]);
    }
  }

  lemma {:induction false} LegalSlice(p: string, i: nat, j: nat)
    requires LegalOrStar(p) && i <= j <= |p|
    ensures LegalOrStar(p[i..j]) && ('*' !in p[i..j] ==> LegalText(p[i..j]))
  {
    var s := p[i..j];
    forall k | 0 <= k < |s| ensures LegalCharacter(s[k]) || s[k] == '*' { assert s[k] == p[i + k]; }
  }

  lemma {:induction false} LegalBare(m: string)
    requires LegalOrStar(m)
    ensures LegalText(Bare(m))
  {
    if m != "" {
      assert forall i | 0 <= i < |m[1..]| :: m[1..][i] == m[i + 1];
      LegalBare(m[1..]);
    }
  }

  // ------------------------------------------- one value in every placeholder

  /** The template with one text for every placeholder. */
  function Filled(parts: seq<Part>, v: string): string {
    if parts == [] then ""
    else (match parts[0] case Literal(text) => text case Column(_) => v) + Filled(parts[1..], v)
  }

  function Columns(parts: seq<Part>): set<string> {
    set i | 0 <= i < |parts| && parts[i].Column? :: parts[i].name
  }

  lemma {:induction false} FilledIsRendered(parts: seq<Part>, row: Row, v: string)
    requires forall i | 0 <= i < |parts| && parts[i].Column? :: parts[i].name in row && row[parts[i].name] == Some(v)
    ensures Renders(parts, row) && Rendered(parts, row) == Filled(parts, v)
  {
    if parts != [] {
      assert forall i | 0 <= i < |parts[1..]| :: parts[1..][i] == parts[i + 1];
      FilledIsRendered(parts[1..], row, v);
    }
  }

  lemma {:induction false} FilledIsLegal(parts: seq<Part>, v: string)
    requires LegalParts(parts) && LegalText(v)
    ensures LegalText(Filled(parts, v))
  {
    if parts != [] {
      assert forall i | 0 <= i < |parts[1..]| :: parts[1..][i] == parts[i + 1];
      FilledIsLegal(parts[1..], v);
    }
  }

  lemma {:induction false} SampleIsFilled(parts: seq<Part>)
    ensures Sample(parts) == Filled(parts, "x")
  {
    if parts != [] { SampleIsFilled(parts[1..]); }
  }

  /** A text ends behind its last star. */
  lemma {:induction false} LastStarAt(front: string, t: string)
    requires '*' !in t
    ensures HasStar(front + ("*" + t)) && Tail(front + ("*" + t)) == t
  {
    var p := front + ("*" + t);
    StarWithin(p, |front|);
    if t != "" {
      var short := t[..|t| - 1];
      LastStarAt(front, short);
      assert p[..|p| - 1] == front + ("*" + short) && p[|p| - 1] == t[|t| - 1];
      ShorterStar(p);
    }
  }

  lemma {:induction false} StarWithin(p: string, i: nat)
    requires i < |p| && p[i] == '*'
    ensures HasStar(p)
  {
    if p[0] != '*' { StarWithin(p[1..], i - 1); }
  }

  /** Text put before a pattern. */
  lemma {:induction false} TailBehind(x: string, p: string)
    requires HasStar(p)
    ensures HasStar(x + p) && Tail(x + p) == Tail(p)
  {
    var l := LastStar(p);
    NoStarAfterLast(p);
    CutAt(p, l);
    var front, t := p[..l], Tail(p);
    assert p == front + ("*" + t) && '*' !in t;
    hide *;
    LastStarAt(x + front, t);
    ConcatThrough(x, front, "*" + t);
  }

  lemma {:induction false} ConcatThrough(a: string, b: string, c: string)
    ensures a + (b + c) == (a + b) + c
  {
  }

  lemma {:induction false} FirstStarIs(front: string, rest: string)
    requires '*' !in front
    ensures var p := front + ("*" + rest); HasStar(p) && Head(p) == front
  {
    var p := front + ("*" + rest);
    StarWithin(p, |front|);
    assert front + "*" <= p;
    FirstStarAt(front, p);
  }

  lemma {:induction false} HeadBehind(x: string, p: string)
    requires HasStar(p) && HasStar(x + p) && '*' !in x
    ensures Head(x + p) == x + Head(p)
  {
    var f := FirstStar(p);
    CutAt(p, f);
    PartsAreStarless(p);
    var h, rest := Head(p), p[f + 1..];
    assert p == h + ("*" + rest) && '*' !in h;
    hide *;
    FirstStarIs(x + h, rest);
    ConcatThrough(x, h, "*" + rest);
  }

  lemma {:induction false} LegalIsStarless(s: string)
    requires LegalText(s)
    ensures '*' !in s
  {
    assert forall i | 0 <= i < |s| :: LegalCharacter(s[i]);
  }

  lemma {:induction false} LiteralsOnly(parts: seq<Part>, v: string)
    requires LegalParts(parts) && !HasColumn(parts)
    ensures Expand(parts) == Filled(parts, v) && '*' !in Expand(parts)
  {
    if parts != [] {
      assert forall i | 0 <= i < |parts[1..]| :: parts[1..][i] == parts[i + 1];
      assert parts[0].Literal?;
      LegalIsStarless(parts[0].text);
      LiteralsOnly(parts[1..], v);
    }
  }

  /** It begins as the pattern does and goes on with the value, and ends with the
      value and as the pattern does. */
  ghost predicate Framed(e: string, v: string, name: string)
    requires HasStar(e)
  {
    Head(e) + v <= name && EndsWith(name, v + Tail(e)) && |name| >= |Head(e)| + |v| + |Tail(e)|
  }

  lemma {:induction false} FilledIsFramed(parts: seq<Part>, v: string)
    requires LegalParts(parts) && HasColumn(parts)
    ensures HasStar(Expand(parts)) && Framed(Expand(parts), v, Filled(parts, v))
  {
    var rest, e, name := parts[1..], Expand(parts[1..]), Filled(parts[1..], v);
    assert forall i | 0 <= i < |rest| :: rest[i] == parts[i + 1];
    match parts[0]
    case Literal(text) =>
      assert HasColumn(rest) by {
        var i :| 0 <= i < |parts| && parts[i].Column?;
        assert rest[i - 1].Column?;
      }
      LegalIsStarless(text);
      FilledIsFramed(rest, v);
      TailBehind(text, e);
      HeadBehind(text, e);
      FramedBehind(text, e, v, name);
    case Column(_) =>
      assert Filled(parts, v) == v + name && Expand(parts) == "*" + e;
      if HasColumn(rest) {
        FilledIsFramed(rest, v);
        TailBehind("*", e);
        FramedFirst(e, v, name);
      } else {
        LiteralsOnly(rest, v);
        LastStarAt("", e);
        assert "" + ("*" + e) == "*" + e && Head("*" + e) == "" && Tail("*" + e) == e;
        assert (v + name)[0..] == v + name;
      }
  }

  lemma {:induction false} FramedBehind(x: string, e: string, v: string, name: string)
    requires HasStar(e) && HasStar(x + e) && Framed(e, v, name) && Head(x + e) == x + Head(e) && Tail(x + e) == Tail(e)
    ensures Framed(x + e, v, x + name)
  {
    hide Head, Tail, HasStar;
    assert x + Head(e) + v == x + (Head(e) + v);
    assert (x + name)[|x| + |name| - |v + Tail(e)|..] == name[|name| - |v + Tail(e)|..];
  }

  lemma {:induction false} FramedFirst(e: string, v: string, name: string)
    requires HasStar(e) && HasStar("*" + e) && Framed(e, v, name) && Tail("*" + e) == Tail(e)
    ensures Framed("*" + e, v, v + name)
  {
    assert Head("*" + e) == "";
    hide Head, Tail, HasStar;
    assert "" + v == v;
    assert (v + name)[|v| + |name| - |v + Tail(e)|..] == name[|name| - |v + Tail(e)|..];
  }

  // ----------------------------------------------- a row in another's claim

  /** What `p` begins with and the other does not, a letter, the core of `p`, and
      what `p` ends with and the other does not. */
  function Chosen(p: string, h: string, t: string): string
    requires HasStar(p)
  {
    Head(p)[Least(|h|, |Head(p)|)..] + "a" + Core(p) + Tail(p)[..|Tail(p)| - Least(|t|, |Tail(p)|)]
  }

  function Least(a: nat, b: nat): nat {
    if a < b then a else b
  }

  lemma {:induction false} ChosenMatches(p: string, e: string, name: string)
    requires HasStar(p) && HasStar(e) && Compatible(p, e) && Framed(e, Chosen(p, Head(e), Tail(e)), name)
    ensures Matches(p, name)
  {
    var h, t, c := Head(p), Tail(p), Core(p);
    var g, u := Head(e), Tail(e);
    var r, l, v := h[Least(|g|, |h|)..], t[..|t| - Least(|u|, |t|)], Chosen(p, g, u);
    hide Matches, Head, Tail, Core, HasStar;
    assert BeginAlike(h, g) && EndAlike(t, u);
    assert v == r + "a" + c + l;
    RunsThrough(h, t, c, g, u, r, l, v, name);
    hide *;
    var i := |g| + |r| + 1;
    RoomAround(p, name[|h|..i], name[i + |c|..|name| - |t|]);
  }

  lemma {:induction false} RunsThrough(h: string, t: string, c: string, g: string, u: string, r: string, l: string, v: string, name: string)
    requires BeginAlike(h, g) && EndAlike(t, u) && r == h[Least(|g|, |h|)..] && l == t[..|t| - Least(|u|, |t|)]
    requires v == r + "a" + c + l && g + v <= name && EndsWith(name, v + u) && |name| >= |g| + |v| + |u|
    ensures var i := |g| + |r| + 1;
            && |h| <= i && i + |c| <= |name| - |t| && |t| <= |name|
            && name == h + (name[|h|..i] + (c + (name[i + |c|..|name| - |t|] + t)))
  {
    hide *;
    MiddleFits(r, c, l);
    FrontFits(h, g, r, name, v);
    BackFits(t, u, l, name, v);
    CoreStands(g, r, c, l, name);
    PiecesAre(name, h, |g| + |r| + 1, c, t);
  }

  lemma {:induction false} PiecesAre(name: string, h: string, i: nat, c: string, t: string)
    requires |h| <= i && i + |c| <= |name| - |t| && name[..|h|] == h && name[i..i + |c|] == c && name[|name| - |t|..] == t
    ensures name == h + (name[|h|..i] + (c + (name[i + |c|..|name| - |t|] + t)))
  {
    Pieces(name, |h|, i, i + |c|, |t|);
  }

  lemma {:induction false} MiddleFits(r: string, c: string, l: string)
    ensures var v := r + "a" + c + l; r <= v && EndsWith(v, l) && |v| == |r| + 1 + |c| + |l|
  {
  }

  lemma {:induction false} FrontFits(h: string, g: string, r: string, name: string, v: string)
    requires BeginAlike(h, g) && r == h[Least(|g|, |h|)..] && r <= v && g + v <= name
    ensures |h| <= |g| + |r| && |h| <= |name| && name[..|h|] == h
  {
    assert |g| <= |h| ==> h == g + r;
    assert g + r <= g + v;
    if |g| > |h| { assert h == g[..|h|] && g == name[..|g|]; }
  }

  lemma {:induction false} BackFits(t: string, u: string, l: string, name: string, v: string)
    requires EndAlike(t, u) && l == t[..|t| - Least(|u|, |t|)] && EndsWith(v, l) && EndsWith(name, v + u)
    ensures |t| <= |l| + |u| && |t| <= |name| && name[|name| - |t|..] == t
  {
    var n, w := |name|, v + u;
    if |u| <= |t| {
      assert t == l + u;
      assert w[|v| - |l|..] == l + u;
      assert name[n - |t|..] == name[n - |w|..][|w| - |t|..] == w[|w| - |t|..];
    } else {
      assert t == u[|u| - |t|..];
      assert name[n - |t|..] == name[n - |w|..][|w| - |t|..] == w[|w| - |t|..];
      assert w[|w| - |t|..] == u[|u| - |t|..];
    }
  }

  lemma {:induction false} CoreStands(g: string, r: string, c: string, l: string, name: string)
    requires g + (r + "a" + c + l) <= name
    ensures var i := |g| + |r| + 1; i + |c| <= |name| && name[i..i + |c|] == c
  {
    var w := g + (r + "a" + c + l);
    assert name[..|w|] == w;
    assert w[|g| + |r| + 1..|g| + |r| + 1 + |c|] == c;
  }

  lemma {:induction false} Pieces(name: string, i: nat, j: nat, k: nat, n: nat)
    requires i <= j <= k && n <= |name| && k <= |name| - n
    ensures name == name[..i] + (name[i..j] + (name[j..k] + (name[k..|name| - n] + name[|name| - n..])))
  {
  }

  /** Some row of the template is written to an index the pattern claims. */
  ghost predicate Lands(p: string, parts: seq<Part>, name: string) {
    LegalName(name) && Matches(p, name) && exists row :: Renders(parts, row) && Rendered(parts, row) == name
  }

  lemma {:induction false} LegalConcat(a: string, b: string)
    requires LegalText(a) && LegalText(b)
    ensures LegalText(a + b)
  {
  }

  lemma {:induction false} ChosenIsText(p: string, h: string, t: string)
    requires HasStar(p) && LegalOrStar(p)
    ensures LegalText(Chosen(p, h, t))
  {
    LegalPieces(p);
    var r, l := Head(p)[Least(|h|, |Head(p)|)..], Tail(p)[..|Tail(p)| - Least(|t|, |Tail(p)|)];
    assert LegalText(r) && LegalText(l) && LegalText("a");
    hide LegalText;
    LegalConcat(r, "a");
    LegalConcat(r + "a", Core(p));
    LegalConcat(r + "a" + Core(p), l);
  }

  lemma {:induction false} ChosenBegins(p: string, sample: string, t: string)
    requires HasStar(p) && LegalName(sample) && Head(p) <= sample
    ensures var v := Chosen(p, "", t); v != "" && 'a' <= v[0] <= 'z'
  {
    if Head(p) != "" { assert Head(p)[0] == sample[0]; }
  }

  lemma {:induction false} ChosenIsLegal(p: string, sample: string, parts: seq<Part>)
    requires HasStar(p) && LegalOrStar(p) && LegalName(sample) && Head(p) <= sample
    requires LegalParts(parts) && HasColumn(parts) && HasStar(Expand(parts)) && LegalName(Sample(parts))
    ensures var e := Expand(parts); LegalName(Filled(parts, Chosen(p, Head(e), Tail(e))))
  {
    var e := Expand(parts);
    var v := Chosen(p, Head(e), Tail(e));
    SampleIsFilled(parts);
    FilledIsFramed(parts, "x");
    FilledIsFramed(parts, v);
    ChosenIsText(p, Head(e), Tail(e));
    FilledIsLegal(parts, v);
    ChosenBegins(p, sample, Tail(e));
    var name, sampled := Filled(parts, v), Filled(parts, "x");
    hide Expand, Chosen, Head, Tail, HasStar, Filled, LegalOrStar, LegalParts, HasColumn, Sample;
    assert Head(e) + v <= name && Head(e) + "x" <= sampled;
    assert name[0] == (Head(e) + v)[0] && sampled[0] == (Head(e) + "x")[0];
  }

  lemma {:induction false} SamePattern(parts: seq<Part>, p: string)
    requires HasStar(p) && HasStar(Expand(parts)) && HasStar(PatternFrom("", parts))
    ensures Compatible(p, Expand(parts)) <==> Compatible(p, PatternFrom("", parts))
  {
    var e, q := Expand(parts), PatternFrom("", parts);
    forall name ensures Matches(q, name) <==> Matches(e, name) {
      PatternFromMeans("", parts, name);
      assert "" + e == e;
    }
    OverlapExactly(p, e);
    OverlapExactly(p, q);
    hide Matches, Compatible;
  }

  /** Some row of `b` is written to an index the TRUNCATE of `a` clears exactly when
      what one pattern begins with begins what the other does, and likewise at
      their ends; whether or not a column is named twice. */
  lemma {:induction false} RowLandsExactlyWhen(a: IndexTarget, b: IndexTarget)
    requires a.Template? && b.Template? && Usable(a) && Usable(b) && HasColumn(a.parts) && HasColumn(b.parts)
    ensures HasStar(a.Pattern()) && HasStar(b.Pattern())
    ensures (exists name :: Lands(a.Pattern(), b.parts, name)) <==> Compatible(a.Pattern(), b.Pattern())
  {
    var p, q, e := a.Pattern(), b.Pattern(), Expand(b.parts);
    SampleIsLegal(a.parts);
    SampleIsLegal(b.parts);
    HeadIsSampled("", a.parts);
    HeadIsSampled("", b.parts);
    PatternIsLegal("", a.parts);
    assert "" + Sample(a.parts) == Sample(a.parts);
    if name :| Lands(p, b.parts, name) {
      var row :| Renders(b.parts, row) && Rendered(b.parts, row) == name;
      RenderedIsClaimed(b.spec, b.parts, row);
      OverlapExactly(p, q);
    }
    if Compatible(p, q) { RowLands(p, Sample(a.parts), b.parts); }
  }

  lemma {:induction false} RowLands(p: string, sample: string, parts: seq<Part>)
    requires HasStar(p) && LegalOrStar(p) && LegalName(sample) && Head(p) <= sample
    requires LegalParts(parts) && HasColumn(parts) && LegalName(Sample(parts))
    requires HasStar(PatternFrom("", parts)) && Compatible(p, PatternFrom("", parts))
    ensures exists name :: Lands(p, parts, name)
  {
    var e := Expand(parts);
    FilledIsFramed(parts, "x");
    var v := Chosen(p, Head(e), Tail(e));
    SamePattern(parts, p);
    FilledIsFramed(parts, v);
    ChosenMatches(p, e, Filled(parts, v));
    ChosenIsLegal(p, sample, parts);
    var row: Row := map c | c in Columns(parts) :: Some(v);
    FilledIsRendered(parts, row, v);
    assert Lands(p, parts, Filled(parts, v));
  }

  /** Two usable templates may write one index exactly when what one begins with
      begins what the other does, and likewise at their ends, if one of them names
      no column twice. */
  lemma {:induction false} TemplatesShareExactlyWhen(a: IndexTarget, b: IndexTarget)
    requires a.Template? && b.Template? && Usable(a) && Usable(b)
    requires HasColumn(a.parts) && HasColumn(b.parts) && (DifferentColumns(a.parts) || DifferentColumns(b.parts))
    ensures HasStar(a.Pattern()) && HasStar(b.Pattern())
    ensures (exists name :: Shared(a.parts, b.parts, name)) <==> Compatible(a.Pattern(), b.Pattern())
  {
    SampleIsLegal(a.parts);
    SampleIsLegal(b.parts);
    RowLandsExactlyWhen(a, b);
    RowLandsExactlyWhen(b, a);
    var p, q := a.Pattern(), b.Pattern();
    assert Compatible(p, q) <==> Compatible(q, p);
    hide *;
    if name :| Shared(a.parts, b.parts, name) { SharedLands(a, b.parts, name); }
    if Compatible(p, q) {
      if DifferentColumns(a.parts) {
        var name :| Lands(p, b.parts, name);
        LandsIsShared(a, b.parts, name);
        assert Shared(a.parts, b.parts, name);
      } else {
        var name :| Lands(q, a.parts, name);
        LandsIsShared(b, a.parts, name);
        assert Shared(a.parts, b.parts, name);
      }
    }
  }

  lemma {:induction false} SharedLands(a: IndexTarget, b: seq<Part>, name: string)
    requires a.Template? && Shared(a.parts, b, name)
    ensures Lands(a.Pattern(), b, name)
  {
    var row :| Renders(a.parts, row) && Rendered(a.parts, row) == name;
    RenderedIsClaimed(a.spec, a.parts, row);
  }

  /** What the pattern claims of a template naming no column twice it renders. */
  lemma {:induction false} LandsIsShared(a: IndexTarget, b: seq<Part>, name: string)
    requires a.Template? && LegalParts(a.parts) && DifferentColumns(a.parts) && Lands(a.Pattern(), b, name)
    ensures Shared(a.parts, b, name) && Shared(b, a.parts, name)
  {
    RenderedMatches(a.spec, a.parts, name);
  }

  /** With a column named twice in both, compatible templates may share none. */
  lemma {:induction false} RepeatedColumnsMayShareNothing(a: IndexTarget, b: IndexTarget)
    requires a == Template("{x}-{x}", [Column("x"), Literal("-"), Column("x")])
    requires b == Template("{y}_{y}", [Column("y"), Literal("_"), Column("y")])
    ensures Usable(a) && Usable(b) && HasStar(a.Pattern()) && HasStar(b.Pattern()) && Compatible(a.Pattern(), b.Pattern())
    ensures forall name :: !Shared(a.parts, b.parts, name)
  {
    RepeatedTwice("x", "-");
    RepeatedTwice("y", "_");
    hide Usable, PatternFrom, Head, Tail, HasStar;
    forall name ensures !Shared(a.parts, b.parts, name) {
      if Shared(a.parts, b.parts, name) {
        var r: Row :| Renders(a.parts, r) && Rendered(a.parts, r) == name;
        var t: Row :| Renders(b.parts, t) && Rendered(b.parts, t) == name;
        var u := TwiceRendered("x", "-", r);
        var w := TwiceRendered("y", "_", t);
        NotBoth(u, w);
      }
    }
  }

  lemma {:induction false} NotBoth(u: string, w: string)
    ensures u + ("-" + u) != w + ("_" + w)
  {
    assert (u + ("-" + u))[|u|] == '-' && |u + ("-" + u)| == 2 * |u| + 1;
    assert (w + ("_" + w))[|w|] == '_' && |w + ("_" + w)| == 2 * |w| + 1;
  }

  function Twice(c: string, text: string): seq<Part> {
    [Column(c), Literal(text), Column(c)]
  }

  lemma {:induction false} TwiceRendered(c: string, text: string, row: Row) returns (v: string)
    requires Renders(Twice(c, text), row)
    ensures Rendered(Twice(c, text), row) == v + (text + v)
  {
    var parts := Twice(c, text);
    assert parts[0] == Column(c) && parts[1..] == [Literal(text), Column(c)] && parts[1..][1..] == [Column(c)];
    assert [Column(c)][1..] == [];
    v := row[c].value;
    assert Rendered([Column(c)], row) == v + "" == v;
  }

  lemma {:induction false} RepeatedTwice(c: string, text: string)
    requires text == "-" || text == "_"
    ensures var a := Template("{" + c + "}" + text + "{" + c + "}", Twice(c, text));
            Usable(a) && HasStar(a.Pattern()) && Head(a.Pattern()) == "" && Tail(a.Pattern()) == ""
  {
    var parts := Twice(c, text);
    assert parts[1..] == [Literal(text), Column(c)] && parts[1..][1..] == [Column(c)] && [Column(c)][1..] == [];
    assert Sample([Column(c)]) == "x" + Sample([]) == "x";
    assert Sample(parts) == "x" + (text + "x");
    assert parts[1].Literal?;
    assert "" + "*" == "*" && !EndsWithStar("") && !EndsWithStar("*" + text);
    assert PatternFrom("", parts) == PatternFrom("*", parts[1..]);
    assert PatternFrom("*", parts[1..]) == PatternFrom("*" + text, [Column(c)]);
    assert PatternFrom("*" + text, [Column(c)]) == PatternFrom("*" + text + "*", []);
    LastStarAt("*" + text, "");
    assert ("*" + text) + ("*" + "") == "*" + text + "*";
  }

  /** The two conditions are apart: a pair the check accepts that is compatible. */
  lemma {:induction false} AcceptedTemplatesMayOverlap(a: IndexTarget, b: IndexTarget)
    requires a == Template("a-{x}", [Literal("a-"), Column("x")])
    requires b == Template("{y}-b", [Column("y"), Literal("-b")])
    ensures Usable(a) && Usable(b)
    ensures forall i, j | 0 <= i < 2 && 0 <= j < 2 :: Apart([Section("one", a), Section("two", b)], i, j)
    ensures exists name :: Shared(a.parts, b.parts, name)
  {
    OverlapPatterns(a, b);
    TemplatesShareExactlyWhen(a, b);
    EndsDiffer(a.Pattern(), b.Pattern());
    ContainmentIsMatching(a.Pattern(), b.Pattern());
    ContainmentIsMatching(b.Pattern(), a.Pattern());
    assert a.spec[0] != b.spec[0];
    hide Matches, Within, Usable, PatternFrom, IndexTarget.Pattern, Shared;
    TwoApart(a, b);
  }

  /** A pattern whose text is matched has its head and its tail in it. */
  lemma {:induction false} EndsDiffer(p: string, q: string)
    requires p == "a-*" && q == "*-b"
    ensures HasStar(p) && HasStar(q) && Compatible(p, q) && !Matches(p, q) && !Matches(q, p)
  {
    assert FirstStar("a-*") == 2 && FirstStar("*-b") == 0;
    assert LastStar("a-*") == 2 && LastStar("*-b") == 0;
    assert Head(p) == "a-" && Tail(p) == "" && Head(q) == "" && Tail(q) == "-b";
    assert q[0] != 'a' && p[2] != 'b';
    if Matches(p, q) { EndsStay(p, q); }
    if Matches(q, p) { EndsStay(q, p); }
  }

  lemma {:induction false} TwoApart(a: IndexTarget, b: IndexTarget)
    requires a.Spec() != b.Spec() && !Within(a.Pattern(), b.Pattern()) && !Within(b.Pattern(), a.Pattern())
    ensures forall i, j | 0 <= i < 2 && 0 <= j < 2 :: Apart([Section("one", a), Section("two", b)], i, j)
  {
    hide Within;
    var both := [Section("one", a), Section("two", b)];
    forall i, j | 0 <= i < 2 && 0 <= j < 2 ensures Apart(both, i, j) {
      assert both[0] == Section("one", a) && both[1] == Section("two", b);
    }
  }

  lemma {:induction false} OverlapPatterns(a: IndexTarget, b: IndexTarget)
    requires a == Template("a-{x}", [Literal("a-"), Column("x")])
    requires b == Template("{y}-b", [Column("y"), Literal("-b")])
    ensures a.Pattern() == "a-*" && b.Pattern() == "*-b" && Usable(a) && Usable(b)
    ensures HasColumn(a.parts) && HasColumn(b.parts)
  {
    assert a.parts[1..] == [Column("x")] && b.parts[1..] == [Literal("-b")];
    assert [Column("x")][1..] == [] && [Literal("-b")][1..] == [];
    assert "" + "a-" == "a-" && "" + "*" == "*" && "-b" + "" == "-b" && "x" + "" == "x";
    assert Sample(a.parts) == "a-x" && Sample(b.parts) == "x-b";
    assert a.parts[0].Literal? && b.parts[1].Literal? && a.parts[1].Column? && b.parts[0].Column?;
  }
}
