/** The printed form leaves nothing to precedence: in the grammar where nothing
    binds tighter than anything, its tokens can be read in one way only. */
module FilterDerivation {
  import opened Wrappers
  import opened FilterSyntax
  import opened FilterGrammar

  // ------------------------------------------------------------------- depth

  function Delta(t: Tok): int {
    if t == LParen then 1 else if t == RParen then -1 else 0
  }

  /** How many parentheses are open after `ts`. */
  function Depth(ts: seq<Tok>): int {
    if ts == [] then 0 else Depth(ts[..|ts| - 1]) + Delta(ts[|ts| - 1])
  }

  predicate Connective(t: Tok) {
    Spells(t, "AND") || Spells(t, "OR")
  }

  ghost predicate Even(ts: seq<Tok>) {
    Depth(ts) == 0 && forall i | 0 <= i <= |ts| :: Depth(ts[..i]) >= 0
  }

  /** Every AND and OR stands inside a parenthesis. */
  ghost predicate NoneLoose(ts: seq<Tok>) {
    forall i | 0 <= i < |ts| && Connective(ts[i]) :: Depth(ts[..i]) > 0
  }

  /** The parenthesis opened first is closed last. */
  ghost predicate Enclosed(ts: seq<Tok>) {
    |ts| >= 2 && ts[0] == LParen && forall i | 0 < i < |ts| :: Depth(ts[..i]) > 0
  }

  lemma {:induction false} DepthConcat(a: seq<Tok>, b: seq<Tok>)
    ensures Depth(a + b) == Depth(a) + Depth(b)
    decreases |b|
  {
    if b == [] {
      assert a + b == a;
    } else {
      assert (a + b)[..|a + b| - 1] == a + b[..|b| - 1];
      DepthConcat(a, b[..|b| - 1]);
    }
  }

  lemma {:induction false} DepthFlat(ts: seq<Tok>)
    requires forall i | 0 <= i < |ts| :: Delta(ts[i]) == 0
    ensures Depth(ts) == 0
  {
    if ts != [] { DepthFlat(ts[..|ts| - 1]); }
  }

  lemma {:induction false} EvenFlat(ts: seq<Tok>)
    requires forall i | 0 <= i < |ts| :: Delta(ts[i]) == 0
    ensures Even(ts)
  {
    forall i | 0 <= i <= |ts| ensures Depth(ts[..i]) == 0 { DepthFlat(ts[..i]); }
    assert ts[..|ts|] == ts;
  }

  lemma {:induction false} EvenConcat(a: seq<Tok>, b: seq<Tok>)
    requires Even(a) && Even(b)
    ensures Even(a + b)
  {
    DepthConcat(a, b);
    forall i | 0 <= i <= |a + b| ensures Depth((a + b)[..i]) >= 0 {
      if i <= |a| {
        assert (a + b)[..i] == a[..i];
      } else {
        assert (a + b)[..i] == a + b[..i - |a|];
        DepthConcat(a, b[..i - |a|]);
      }
    }
  }

  lemma {:induction false} EvenWord(t: Tok)
    requires Delta(t) == 0
    ensures Even([t])
  {
    EvenFlat([t]);
  }

  lemma {:induction false} ParenDepth(ts: seq<Tok>, i: nat)
    requires 0 < i <= |ts| + 1
    ensures Depth(([LParen] + ts + [RParen])[..i]) == 1 + Depth(ts[..i - 1])
  {
    assert ([LParen] + ts + [RParen])[..i] == [LParen] + ts[..i - 1];
    DepthConcat([LParen], ts[..i - 1]);
    assert [LParen][..0] == [];
  }

  lemma {:induction false} EvenParen(ts: seq<Tok>)
    requires Even(ts)
    ensures Even([LParen] + ts + [RParen]) && Enclosed([LParen] + ts + [RParen])
  {
    var all := [LParen] + ts + [RParen];
    forall i | 0 < i < |all| ensures Depth(all[..i]) > 0 { ParenDepth(ts, i); }
    assert all[..|all| - 1] == [LParen] + ts;
    ParenDepth(ts, |ts| + 1);
    assert ts[..|ts|] == ts && all[..0] == [] && all[..|all|] == all;
  }

  // --------------------------------------------------------- what derivations read

  lemma {:induction false} LiteralIsFlat(t: Tok)
    requires LiteralOf(t).Some?
    ensures Delta(t) == 0 && !Connective(t)
  {
    assert |"TRUE"| == 4 && |"FALSE"| == 5 && |"AND"| == 3 && |"OR"| == 2;
  }

  lemma {:induction false} ListIsFlat(ts: seq<Tok>, list: seq<Literal>)
    requires ListSpells(ts, list)
    ensures forall i | 0 <= i < |ts| :: Delta(ts[i]) == 0 && !Connective(ts[i])
  {
    LiteralIsFlat(ts[0]);
    if |list| > 1 {
      ListIsFlat(ts[2..], list[1..]);
      forall i | 0 <= i < |ts| ensures Delta(ts[i]) == 0 && !Connective(ts[i]) {
        if i >= 2 { assert ts[i] == ts[2..][i - 2]; }
      }
    }
  }

  lemma {:induction false} ColumnIsNoConnective(ts: seq<Tok>, c: string)
    requires ColumnSpells(ts, c)
    ensures !Connective(ts[0]) && !Spells(ts[0], "NOT")
  {
    if Spells(ts[0], "AND") { KeywordIsNoColumn(ts[0], 0); }
    if Spells(ts[0], "OR") { KeywordIsNoColumn(ts[0], 1); }
    if Spells(ts[0], "NOT") { KeywordIsNoColumn(ts[0], 2); }
  }

  lemma {:induction false} OtherWords(t: Tok)
    requires Spells(t, "IS") || Spells(t, "IN") || Spells(t, "NOT") || Spells(t, "NULL")
    ensures Delta(t) == 0 && !Connective(t)
  {
    assert |"AND"| == 3 && |"OR"| == 2 && |"NOT"| == 3 && |"NULL"| == 4 && |"IS"| == 2 && |"IN"| == 2;
    assert "AND"[0] == 'A' && "NOT"[0] == 'N' && "OR"[0] == 'O' && "IS"[0] == 'I' && "IN"[0] == 'I';
  }

  /** A comparison is even and holds no connective. */
  lemma {:induction false} AtomShape(ts: seq<Tok>, e: Expr)
    requires AtomSpells(ts, e)
    ensures Even(ts) && ts != [] && ts[0].Ident? && !Spells(ts[0], "NOT")
    ensures forall i | 0 <= i < |ts| :: !Connective(ts[i])
  {
    ColumnIsNoConnective(ts, e.column);
    match e
    case Cmp(c, op, l) =>
      LiteralIsFlat(ts[2]);
      hide Spells, LiteralOf, Even;
      EvenFlat(ts);
    case IsNull(c, negated) =>
      OtherWords(ts[1]);
      OtherWords(ts[2]);
      OtherWords(ts[|ts| - 1]);
      hide Spells, Even;
      EvenFlat(ts);
    case In(c, list, negated) =>
      var n := if negated then 2 else 1;
      OtherWords(ts[1]);
      OtherWords(ts[n]);
      var items := ts[n + 2..|ts| - 1];
      ListIsFlat(items, list);
      hide Even, ListSpells, Spells;
      InShape(ts[..n + 1], items);
      assert ts == ts[..n + 1] + ([LParen] + items + [RParen]);
  }

  lemma {:induction false} InShape(front: seq<Tok>, items: seq<Tok>)
    requires forall i | 0 <= i < |front| :: Delta(front[i]) == 0 && !Connective(front[i])
    requires forall i | 0 <= i < |items| :: Delta(items[i]) == 0 && !Connective(items[i])
    ensures var ts := front + ([LParen] + items + [RParen]);
            Even(ts) && forall i | 0 <= i < |ts| :: !Connective(ts[i])
  {
    hide Even;
    EvenFlat(items);
    EvenParen(items);
    EvenFlat(front);
    EvenConcat(front, [LParen] + items + [RParen]);
  }

  lemma {:induction false} YieldShape(d: Derivation)
    requires Proper(d)
    ensures Even(Yield(d)) && Yield(d) != []
    ensures d.Paren? ==> Enclosed(Yield(d))
  {
    match d
    case Atom(ts, e) => AtomShape(ts, e);
    case Paren(x) =>
      YieldShape(x);
      EvenParen(Yield(x));
    case AndOf(x, w, y) =>
      YieldShape(x);
      YieldShape(y);
      EvenWord(w);
      EvenConcat(Yield(x), [w]);
      EvenConcat(Yield(x) + [w], Yield(y));
    case OrOf(x, w, y) =>
      YieldShape(x);
      YieldShape(y);
      EvenWord(w);
      EvenConcat(Yield(x), [w]);
      EvenConcat(Yield(x) + [w], Yield(y));
    case NotOf(w, x) =>
      YieldShape(x);
      EvenWord(w);
      EvenConcat([w], Yield(x));
  }

  // ------------------------------------------------------------ the printed form

  /** A filter the parser can have returned: columns are not keywords and no
      list is empty. */
  predicate Readable(e: Expr) {
    match e
    case Cmp(c, _, _) => !IsKeyword(c)
    case IsNull(c, _) => !IsKeyword(c)
    case In(c, list, _) => !IsKeyword(c) && list != []
    case And(a, b) => Readable(a) && Readable(b)
    case Or(a, b) => Readable(a) && Readable(b)
    case Not(a) => Readable(a)
  }

  predicate IsAtom(e: Expr) {
    e.Cmp? || e.IsNull? || e.In?
  }

  /** How the printed form is meant to be read. */
  function Canon(e: Expr): Derivation {
    match e
    case And(a, b) => Paren(AndOf(Canon(a), Ident("AND"), Canon(b)))
    case Or(a, b) => Paren(OrOf(Canon(a), Ident("OR"), Canon(b)))
    case Not(a) => Paren(NotOf(Ident("NOT"), Canon(a)))
    case _ => Atom(AtomToks(e), e)
  }

  lemma {:induction false} LiteralTokReads(l: Literal)
    ensures LiteralOf(LiteralTok(l)) == Some(l)
  {
    assert "FALSE"[0] == 'F' && |"FALSE"| == 5 && |"TRUE"| == 4;
  }

  lemma {:induction false} ListToksSpell(list: seq<Literal>)
    requires list != []
    ensures ListSpells(ListToks(list), list)
  {
    LiteralTokReads(list[0]);
    if |list| > 1 {
      ListToksSpell(list[1..]);
      assert ListToks(list)[2..] == ListToks(list[1..]);
    }
  }

  lemma {:induction false} AtomToksSpell(e: Expr)
    requires Readable(e) && IsAtom(e)
    ensures AtomSpells(AtomToks(e), e)
  {
    var ts := AtomToks(e);
    match e
    case Cmp(_, _, l) => LiteralTokReads(l);
    case IsNull(_, _) =>
    case In(_, list, negated) =>
      ListToksSpell(list);
      var n := if negated then 1 else 0;
      assert ts[n + 3..|ts| - 1] == ListToks(list);
  }

  lemma {:induction false} CanonProper(e: Expr)
    requires Readable(e)
    ensures Proper(Canon(e))
  {
    assert Spells(Ident("AND"), "AND") && Spells(Ident("OR"), "OR") && Spells(Ident("NOT"), "NOT");
    hide Spells, AtomToks, AtomSpells, IsKeyword;
    match e
    case And(a, b) =>
      CanonProper(a);
      CanonProper(b);
    case Or(a, b) =>
      CanonProper(a);
      CanonProper(b);
    case Not(a) => CanonProper(a);
    case _ => AtomToksSpell(e);
  }

  lemma {:induction false} CanonYields(e: Expr)
    requires Readable(e)
    ensures Yield(Canon(e)) == Toks(e)
  {
    hide AtomToks, IsKeyword;
    match e
    case And(a, b) =>
      CanonYields(a);
      CanonYields(b);
    case Or(a, b) =>
      CanonYields(a);
      CanonYields(b);
    case Not(a) => CanonYields(a);
    case _ =>
  }

  lemma {:induction false} CanonTree(e: Expr)
    requires Readable(e)
    ensures Tree(Canon(e)) == e && Binds(Canon(e)) && !Canon(e).OrOf? && !Canon(e).AndOf?
  {
    hide AtomToks, IsKeyword;
    match e
    case And(a, b) =>
      CanonTree(a);
      CanonTree(b);
    case Or(a, b) =>
      CanonTree(a);
      CanonTree(b);
    case Not(a) => CanonTree(a);
    case _ =>
  }

  /** The printed form has its intended reading, and that reading is the tree. */
  lemma {:induction false} CanonReads(e: Expr)
    requires Readable(e)
    ensures Proper(Canon(e)) && Binds(Canon(e)) && Yield(Canon(e)) == Toks(e) && Tree(Canon(e)) == e
    ensures !Canon(e).OrOf? && !Canon(e).AndOf?
  {
    hide Proper, Toks, Yield, Tree, Binds, Readable;
    CanonProper(e);
    CanonYields(e);
    CanonTree(e);
  }

  /** Printed, a connective is enclosed and a comparison starts with its column. */
  lemma {:induction false} ToksShape(e: Expr)
    requires Readable(e)
    ensures Even(Toks(e)) && NoneLoose(Toks(e)) && Toks(e) != []
    ensures IsAtom(e) ==> Toks(e)[0].Ident?
    ensures !IsAtom(e) ==> Toks(e)[0] == LParen && Enclosed(Toks(e))
    ensures !KeywordAt(Toks(e), "NOT")
  {
    CanonReads(e);
    YieldShape(Canon(e));
    if IsAtom(e) { AtomShape(Toks(e), e); }
  }

  // --------------------------------------------------------- exactly one reading

  lemma {:induction false} ListUnique(ts: seq<Tok>, a: seq<Literal>, b: seq<Literal>)
    requires ListSpells(ts, a) && ListSpells(ts, b)
    ensures a == b
  {
    if |a| > 1 {
      ListUnique(ts[2..], a[1..], b[1..]);
      assert a == [a[0]] + a[1..] && b == [b[0]] + b[1..];
    }
  }

  lemma {:induction false} AtomUnique(ts: seq<Tok>, a: Expr, b: Expr)
    requires AtomSpells(ts, a) && AtomSpells(ts, b)
    ensures a == b
  {
    ComparisonComplete(ts, a, []);
    ComparisonComplete(ts, b, []);
  }

  /** The word between two derivations stands at depth zero. */
  lemma {:induction false} WordIsLoose(x: Derivation, w: Tok, y: Derivation)
    requires Proper(x) && Proper(y)
    ensures var ts := Yield(x) + [w] + Yield(y);
            0 < |Yield(x)| < |ts| && ts[|Yield(x)|] == w && Depth(ts[..|Yield(x)|]) == 0
  {
    YieldShape(x);
    assert (Yield(x) + [w] + Yield(y))[..|Yield(x)|] == Yield(x);
  }

  /** Between two printed filters there is one loose word only. */
  lemma {:induction false} OneLooseWord(a: seq<Tok>, w: Tok, b: seq<Tok>, i: nat)
    requires Even(a) && NoneLoose(a) && NoneLoose(b) && Delta(w) == 0
    requires var ts := a + [w] + b; i < |ts| && Connective(ts[i]) && Depth(ts[..i]) == 0
    ensures i == |a|
  {
    var ts := a + [w] + b;
    var k := if i < |a| then i else 0;
    assert ts[..k] == a[..k];
    if i > |a| {
      var j := i - |a| - 1;
      assert ts[..i] == a + [w] + b[..j] && ts[i] == b[j];
      DepthConcat(a + [w], b[..j]);
      DepthConcat(a, [w]);
      DepthFlat([w]);
    }
  }

  /** The printed form has no other derivation. */
  lemma {:induction false} OneDerivation(d: Derivation, e: Expr)
    requires Readable(e) && Proper(d) && Yield(d) == Toks(e)
    ensures d == Canon(e)
    decreases e, 1
  {
    ToksShape(e);
    match d
    case Atom(ts, x) =>
      AtomShape(ts, x);
      AtomToksSpell(e);
      AtomUnique(ts, x, e);
    case Paren(x) =>
      assert !IsAtom(e);
      var ts := Toks(e);
      assert Yield(x) == ts[1..|ts| - 1];
      InsideOne(x, e);
    case AndOf(x, w, y) => WordIsLoose(x, w, y);
    case OrOf(x, w, y) => WordIsLoose(x, w, y);
    case NotOf(w, x) =>
  }

  function Inside(e: Expr): seq<Tok>
    requires !IsAtom(e)
  {
    match e
    case And(a, b) => Toks(a) + [Ident("AND")] + Toks(b)
    case Or(a, b) => Toks(a) + [Ident("OR")] + Toks(b)
    case Not(a) => [Ident("NOT")] + Toks(a)
  }

  lemma {:induction false} InsideOne(x: Derivation, e: Expr)
    requires Readable(e) && !IsAtom(e) && Proper(x) && Yield(x) == Inside(e)
    ensures Paren(x) == Canon(e)
    decreases e, 0
  {
    assert "AND"[0] == 'A' && "OR"[0] == 'O' && |"AND"| == 3 && |"OR"| == 2;
    match e
    case And(a, b) =>
      PairShape(x, a, Ident("AND"), b);
      OneDerivation(x.left, a);
      OneDerivation(x.right, b);
    case Or(a, b) =>
      PairShape(x, a, Ident("OR"), b);
      OneDerivation(x.left, a);
      OneDerivation(x.right, b);
    case Not(a) =>
      NegationShape(x, a);
      OneDerivation(x.d, a);
  }

  lemma {:induction false} PairShape(x: Derivation, a: Expr, w: Tok, b: Expr)
    requires Readable(a) && Readable(b) && Connective(w) && Proper(x) && Yield(x) == Toks(a) + [w] + Toks(b)
    ensures (x.AndOf? || x.OrOf?) && Yield(x.left) == Toks(a) && x.word == w && Yield(x.right) == Toks(b)
  {
    var ts := Yield(x);
    var n := |Toks(a)|;
    ToksShape(a);
    ToksShape(b);
    assert ts[n] == w && ts[..n] == Toks(a);
    assert ts[0] == Toks(a)[0];
    hide Toks, Readable, AtomSpells, Even, NoneLoose, Connective, IsAtom;
    match x
    case Atom(_, y) => AtomShape(ts, y);
    case Paren(_) => YieldShape(x);
    case NotOf(_, _) =>
    case AndOf(l, v, r) => PairParts(l, v, r, Toks(a), w, Toks(b));
    case OrOf(l, v, r) => PairParts(l, v, r, Toks(a), w, Toks(b));
  }

  lemma {:induction false} PairParts(l: Derivation, v: Tok, r: Derivation, a: seq<Tok>, w: Tok, b: seq<Tok>)
    requires Proper(l) && Connective(v) && Proper(r) && Connective(w) && Yield(l) + [v] + Yield(r) == a + [w] + b
    requires Even(a) && NoneLoose(a) && NoneLoose(b)
    ensures Yield(l) == a && v == w && Yield(r) == b
  {
    var ts := a + [w] + b;
    WordIsLoose(l, v, r);
    OneLooseWord(a, w, b, |Yield(l)|);
    hide Even, NoneLoose, Connective, Yield;
    assert Yield(l) == ts[..|a|] == a;
    assert ts[|a| + 1..] == b && (Yield(l) + [v] + Yield(r))[|a| + 1..] == Yield(r);
  }

  lemma {:induction false} NegationShape(x: Derivation, a: Expr)
    requires Readable(a) && Proper(x) && Yield(x) == [Ident("NOT")] + Toks(a)
    ensures x.NotOf? && x.word == Ident("NOT") && Yield(x.d) == Toks(a)
  {
    var ts := Yield(x);
    var word := Ident("NOT");
    ToksShape(a);
    assert ts[0] == word && ts[1..] == Toks(a);
    assert Spells(word, "NOT");
    hide Toks;
    match x
    case Atom(_, y) => AtomShape(ts, y);
    case Paren(_) =>
    case NotOf(_, _) =>
    case AndOf(l, v, r) => NoLooseWordAfter(l, v, r, word, Toks(a));
    case OrOf(l, v, r) => NoLooseWordAfter(l, v, r, word, Toks(a));
  }

  lemma {:induction false} NoLooseWordAfter(l: Derivation, v: Tok, r: Derivation, w: Tok, a: seq<Tok>)
    requires Proper(l) && Connective(v) && Proper(r) && Delta(w) == 0 && NoneLoose(a)
    ensures Yield(l) + [v] + Yield(r) != [w] + a
  {
    var ts := [w] + a;
    if Yield(l) + [v] + Yield(r) == ts {
      WordIsLoose(l, v, r);
      var i := |Yield(l)|;
      assert ts[..i] == [w] + a[..i - 1];
      DepthConcat([w], a[..i - 1]);
      DepthFlat([w]);
    }
  }

  /** Exactly one derivation, with or without precedence, and it is the tree. */
  lemma {:induction false} PrintedFormIsUnambiguous(e: Expr, d: Derivation)
    requires Readable(e)
    ensures (Proper(d) && Yield(d) == Toks(e)) <==> d == Canon(e)
    ensures Tree(Canon(e)) == e && Binds(Canon(e))
  {
    CanonReads(e);
    if Proper(d) && Yield(d) == Toks(e) { OneDerivation(d, e); }
  }
}
