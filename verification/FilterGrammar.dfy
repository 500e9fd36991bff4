/** What a filter's tokens mean: OR below AND below NOT, both connectives
    associating to the left, parentheses anywhere a comparison may stand. */
module FilterGrammar {
  import opened Wrappers
  import opened FilterSyntax

  // -------------------------------------------------------------- the grammar

  ghost predicate ListSpells(ts: seq<Tok>, list: seq<Literal>) {
    && list != [] && ts != [] && LiteralOf(ts[0]) == Some(list[0])
    && if |list| == 1 then |ts| == 1 else |ts| >= 2 && ts[1] == Comma && ListSpells(ts[2..], list[1..])
  }

  ghost predicate ColumnSpells(ts: seq<Tok>, c: string) {
    ts != [] && ts[0] == Ident(c) && !IsKeyword(c)
  }

  ghost predicate AtomSpells(ts: seq<Tok>, e: Expr) {
    match e
    case Cmp(c, op, l) => ColumnSpells(ts, c) && |ts| == 3 && ts[1] == OpTok(op) && LiteralOf(ts[2]) == Some(l)
    case IsNull(c, negated) =>
      && ColumnSpells(ts, c) && |ts| == (if negated then 4 else 3) && Spells(ts[1], "IS")
      && (negated ==> Spells(ts[2], "NOT")) && Spells(ts[|ts| - 1], "NULL")
    case In(c, list, negated) =>
      var n := if negated then 1 else 0;
      && ColumnSpells(ts, c) && |ts| >= n + 4 && (negated ==> Spells(ts[1], "NOT"))
      && Spells(ts[n + 1], "IN") && ts[n + 2] == LParen && ts[|ts| - 1] == RParen
      && ListSpells(ts[n + 3..|ts| - 1], list)
    case _ => false
  }

  /** A way to read tokens as a filter, in the grammar where any two filters
      stand around AND or OR and any follows NOT: comparisons are atoms,
      parentheses may enclose anything, nothing binds tighter than anything. */
  datatype Derivation =
    | Atom(toks: seq<Tok>, e: Expr)
    | Paren(d: Derivation)
    | AndOf(left: Derivation, word: Tok, right: Derivation)
    | OrOf(left: Derivation, word: Tok, right: Derivation)
    | NotOf(word: Tok, d: Derivation)

  ghost predicate Proper(d: Derivation) {
    match d
    case Atom(toks, e) => AtomSpells(toks, e)
    case Paren(x) => Proper(x)
    case AndOf(x, w, y) => Proper(x) && Spells(w, "AND") && Proper(y)
    case OrOf(x, w, y) => Proper(x) && Spells(w, "OR") && Proper(y)
    case NotOf(w, x) => Spells(w, "NOT") && Proper(x)
  }

  /** The tokens read. */
  function Yield(d: Derivation): seq<Tok> {
    match d
    case Atom(toks, _) => toks
    case Paren(x) => [LParen] + Yield(x) + [RParen]
    case AndOf(x, w, y) => Yield(x) + [w] + Yield(y)
    case OrOf(x, w, y) => Yield(x) + [w] + Yield(y)
    case NotOf(w, x) => [w] + Yield(x)
  }

  /** The tree it reads them as. */
  function Tree(d: Derivation): Expr {
    match d
    case Atom(_, e) => e
    case Paren(x) => Tree(x)
    case AndOf(x, _, y) => And(Tree(x), Tree(y))
    case OrOf(x, _, y) => Or(Tree(x), Tree(y))
    case NotOf(_, x) => Not(Tree(x))
  }

  /** OR binds loosest, then AND, both to the left; NOT binds tightest. */
  predicate Binds(d: Derivation) {
    match d
    case Atom(_, _) => true
    case Paren(x) => Binds(x)
    case OrOf(x, _, y) => Binds(x) && Binds(y) && !y.OrOf?
    case AndOf(x, _, y) => Binds(x) && Binds(y) && !x.OrOf? && !y.OrOf? && !y.AndOf?
    case NotOf(_, x) => Binds(x) && !x.OrOf? && !x.AndOf?
  }

  // --------------------------------------------------- the parser, on tokens left

  datatype ParseError =
    | Empty
    | ExpectedRParen
    | FunctionCall
    | ExpectedColumn
    | ExpectedOperator
    | UnsupportedOperator
    | IsWithoutNull
    | NotWithoutIn
    | AlwaysUnknown
    | ExpectedLiteral
    | InWithoutList
    | EmptyList
    | LiteralsOnly
    | Trailing

  /** What was read and the tokens left. */
  type Parsed<T> = Result<(T, seq<Tok>), ParseError>

  function ParseOr(ts: seq<Tok>): (r: Parsed<Expr>)
    ensures r.Ok? ==> |r.value.1| < |ts|
    decreases |ts|, 6
  {
    match ParseAnd(ts)
    case Err(x) => Err(x)
    case Ok((left, rest)) => OrLoop(left, rest)
  }

  function OrLoop(left: Expr, ts: seq<Tok>): (r: Parsed<Expr>)
    ensures r.Ok? ==> |r.value.1| <= |ts|
    decreases |ts|, 5
  {
    if KeywordAt(ts, "OR") then
      match ParseAnd(ts[1..])
      case Err(x) => Err(x)
      case Ok((right, rest)) => OrLoop(Or(left, right), rest)
    else Ok((left, ts))
  }

  function ParseAnd(ts: seq<Tok>): (r: Parsed<Expr>)
    ensures r.Ok? ==> |r.value.1| < |ts|
    decreases |ts|, 4
  {
    match ParseNot(ts)
    case Err(x) => Err(x)
    case Ok((left, rest)) => AndLoop(left, rest)
  }

  function AndLoop(left: Expr, ts: seq<Tok>): (r: Parsed<Expr>)
    ensures r.Ok? ==> |r.value.1| <= |ts|
    decreases |ts|, 3
  {
    if KeywordAt(ts, "AND") then
      match ParseNot(ts[1..])
      case Err(x) => Err(x)
      case Ok((right, rest)) => AndLoop(And(left, right), rest)
    else Ok((left, ts))
  }

  function ParseNot(ts: seq<Tok>): (r: Parsed<Expr>)
    ensures r.Ok? ==> |r.value.1| < |ts|
    decreases |ts|, 2
  {
    if KeywordAt(ts, "NOT") then
      match ParseNot(ts[1..])
      case Err(x) => Err(x)
      case Ok((inner, rest)) => Ok((Not(inner), rest))
    else ParsePrimary(ts)
  }

  function ParsePrimary(ts: seq<Tok>): (r: Parsed<Expr>)
    ensures r.Ok? ==> |r.value.1| < |ts|
    decreases |ts|, 1
  {
    if TokenAt(ts, LParen) then
      match ParseOr(ts[1..])
      case Err(x) => Err(x)
      case Ok((inner, rest)) => if TokenAt(rest, RParen) then Ok((inner, rest[1..])) else Err(ExpectedRParen)
    else ParseComparison(ts)
  }

  function ParseComparison(ts: seq<Tok>): (r: Parsed<Expr>)
    ensures r.Ok? ==> |r.value.1| < |ts|
  {
    if ts == [] || !ts[0].Ident? || IsKeyword(ts[0].name) then Err(ExpectedColumn)
    else if TokenAt(ts[1..], LParen) then Err(FunctionCall)
    else if |ts| == 1 then Err(ExpectedOperator)
    else
      var column, operator, rest := ts[0].name, ts[1], ts[2..];
      if operator.OpTok? then ParseRhs(column, operator.op, rest)
      else if Spells(operator, "IS") then
        var negated := KeywordAt(rest, "NOT");
        var after := if negated then rest[1..] else rest;
        if KeywordAt(after, "NULL") then Ok((IsNull(column, negated), after[1..])) else Err(IsWithoutNull)
      else if Spells(operator, "IN") then ParseIn(column, false, rest)
      else if Spells(operator, "NOT") then
        if KeywordAt(rest, "IN") then ParseIn(column, true, rest[1..])
        else if rest != [] && rest[0].Ident? && IsWordOperator(rest[0].name) then Err(UnsupportedOperator)
        else Err(NotWithoutIn)
      else if operator.Ident? && IsWordOperator(operator.name) then Err(UnsupportedOperator)
      else Err(ExpectedOperator)
  }

  function ParseRhs(column: string, op: CmpOp, ts: seq<Tok>): (r: Parsed<Expr>)
    ensures r.Ok? ==> |r.value.1| < |ts| && ColumnsIn(r.value.0) == [column]
  {
    if (op.Eq? || op.Ne?) && KeywordAt(ts, "NULL") then Err(AlwaysUnknown)
    else if ts == [] || LiteralOf(ts[0]).None? then Err(ExpectedLiteral)
    else Ok((Cmp(column, op, LiteralOf(ts[0]).value), ts[1..]))
  }

  function ParseIn(column: string, negated: bool, ts: seq<Tok>): (r: Parsed<Expr>)
    ensures r.Ok? ==> |r.value.1| < |ts| && ColumnsIn(r.value.0) == [column]
  {
    if !TokenAt(ts, LParen) then Err(InWithoutList)
    else if TokenAt(ts[1..], RParen) then Err(EmptyList)
    else
      match ParseItems([], ts[1..])
      case Err(x) => Err(x)
      case Ok((list, rest)) => Ok((In(column, list, negated), rest))
  }

  function ParseItems(list: seq<Literal>, ts: seq<Tok>): (r: Parsed<seq<Literal>>)
    ensures r.Ok? ==> |r.value.1| < |ts|
    decreases |ts|
  {
    if ts == [] then Err(ExpectedRParen)
    else if LiteralOf(ts[0]).None? then Err(LiteralsOnly)
    else
      var longer := list + [LiteralOf(ts[0]).value];
      if TokenAt(ts[1..], Comma) then ParseItems(longer, ts[2..])
      else if TokenAt(ts[1..], RParen) then Ok((longer, ts[2..]))
      else Err(ExpectedRParen)
  }

  /** The whole predicate, with nothing after it. */
  function ParseAll(ts: seq<Tok>): Result<Expr, ParseError> {
    match ParseOr(ts)
    case Err(x) => Err(x)
    case Ok((e, rest)) => if rest == [] then Ok(e) else Err(Trailing)
  }

  // -------------------------------------------------- a filter read is a derivation

  lemma KeywordsApart(t: Tok)
    ensures !(Spells(t, "AND") && Spells(t, "OR")) && !(Spells(t, "NOT") && Spells(t, "OR"))
    ensures !(Spells(t, "NOT") && Spells(t, "AND")) && !(Spells(t, "IS") && Spells(t, "IN"))
    ensures !(Spells(t, "NOT") && Spells(t, "IS")) && !(Spells(t, "NOT") && Spells(t, "IN"))
    ensures !(Spells(t, "NULL") && Spells(t, "NOT"))
  {
    assert "AND"[0] != "NOT"[0] && "IS"[1] != "IN"[1] && "NULL"[1] != "NOT"[1];
    if t.Ident? && |t.name| == 2 {
      assert Spells(t, "IS") ==> Upper(t.name[1]) == 'S';
      assert Spells(t, "IN") ==> Upper(t.name[1]) == 'N';
    }
  }

  lemma {:induction false} KeywordIsNoColumn(t: Tok, i: nat)
    requires t.Ident? && i < |Keywords| && Spells(t, Keywords[i])
    ensures IsKeyword(t.name)
  {
  }

  lemma {:induction false} ItemsSound(list: seq<Literal>, ts: seq<Tok>)
    requires ParseItems(list, ts).Ok?
    ensures var (all, rest) := ParseItems(list, ts).value;
            && |list| < |all| && all[..|list|] == list
            && |ts| - |rest| >= 2 && ts[|ts| - |rest| - 1] == RParen && ts[|ts| - |rest|..] == rest
            && ListSpells(ts[..|ts| - |rest| - 1], all[|list|..])
    decreases |ts|
  {
    var longer := list + [LiteralOf(ts[0]).value];
    var (all, rest) := ParseItems(list, ts).value;
    var n := |ts| - |rest| - 1;
    if TokenAt(ts[1..], Comma) {
      ItemsSound(longer, ts[2..]);
      assert all[|list|..] == [longer[|list|]] + all[|longer|..];
      assert all[..|list|] == all[..|longer|][..|list|];
      assert ts[..n][2..] == ts[2..][..n - 2];
      assert all[|list|..][1..] == all[|longer|..];
    } else {
      assert all[|list|..] == [longer[|list|]];
    }
  }

  lemma {:induction false} InSound(c: string, negated: bool, ts: seq<Tok>)
    requires ParseIn(c, negated, ts).Ok?
    ensures var (e, rest) := ParseIn(c, negated, ts).value;
            var n := |ts| - |rest|;
            && e.In? && e.column == c && e.negated == negated && n >= 3
            && ts[n..] == rest && ts[0] == LParen && ts[n - 1] == RParen && ListSpells(ts[1..n - 1], e.list)
  {
    hide LiteralOf, ListSpells, ParseItems;
    ItemsSound([], ts[1..]);
    var (e, rest) := ParseIn(c, negated, ts).value;
    assert e.list[0..] == e.list;
    assert ts[1..][..|ts| - 1 - |rest| - 1] == ts[1..|ts| - |rest| - 1];
  }

  lemma {:induction false} InReads(ts: seq<Tok>, c: string, negated: bool)
    requires |ts| >= 3 && ColumnSpells(ts, c)
    requires if negated then Spells(ts[1], "NOT") && Spells(ts[2], "IN") else Spells(ts[1], "IN")
    requires ParseIn(c, negated, ts[if negated then 3 else 2..]).Ok?
    ensures var (e, rest) := ParseIn(c, negated, ts[if negated then 3 else 2..]).value;
            |rest| < |ts| && ts[|ts| - |rest|..] == rest && AtomSpells(ts[..|ts| - |rest|], e)
  {
    hide Spells, IsKeyword, ListSpells, ParseIn;
    var at := if negated then 3 else 2;
    InSound(c, negated, ts[at..]);
    var rest := ParseIn(c, negated, ts[at..]).value.1;
    var n := |ts| - |rest|;
    assert ts[at..][1..n - at - 1] == ts[..n][at + 1..n - 1];
    assert ts[at..][n - at..] == ts[n..];
  }

  /** What is read as a comparison spells it. */
  lemma {:induction false} ComparisonSpells(ts: seq<Tok>)
    requires ParseComparison(ts).Ok?
    ensures var (e, rest) := ParseComparison(ts).value;
            |rest| < |ts| && ts[|ts| - |rest|..] == rest && AtomSpells(ts[..|ts| - |rest|], e)
  {
    hide Spells, IsKeyword, IsWordOperator, LiteralOf, ListSpells, ParseIn;
    var operator, more := ts[1], ts[2..];
    if operator.OpTok? {
    } else if Spells(operator, "IS") {
    } else if Spells(operator, "IN") {
      hide AtomSpells;
      InReads(ts, ts[0].name, false);
    } else {
      hide AtomSpells;
      assert more[1..] == ts[3..];
      InReads(ts, ts[0].name, true);
    }
  }

  lemma {:induction false} ComparisonSound(ts: seq<Tok>) returns (d: Derivation)
    requires ParseComparison(ts).Ok?
    ensures var (e, rest) := ParseComparison(ts).value;
            Proper(d) && d.Atom? && Tree(d) == e && Yield(d) + rest == ts
  {
    ComparisonSpells(ts);
    hide ParseComparison, AtomSpells;
    var (e, rest) := ParseComparison(ts).value;
    d := Atom(ts[..|ts| - |rest|], e);
  }

  /** `d` reads the front of `ts` and leaves `rest`. */
  ghost predicate Reads(d: Derivation, e: Expr, ts: seq<Tok>, rest: seq<Tok>) {
    Proper(d) && Binds(d) && Tree(d) == e && Yield(d) + rest == ts
  }

  lemma {:induction false} PrimarySound(ts: seq<Tok>) returns (d: Derivation)
    requires ParsePrimary(ts).Ok?
    ensures var (e, rest) := ParsePrimary(ts).value; Reads(d, e, ts, rest) && !d.OrOf? && !d.AndOf?
    decreases |ts|, 1
  {
    hide Spells, ParseComparison, AtomSpells;
    if TokenAt(ts, LParen) {
      var x := OrSound(ts[1..]);
      d := Paren(x);
      var (e, rest) := ParseOr(ts[1..]).value;
      assert rest == [RParen] + rest[1..];
      assert Yield(d) + rest[1..] == [LParen] + (Yield(x) + rest);
    } else {
      d := ComparisonSound(ts);
    }
  }

  lemma {:induction false} NotSound(ts: seq<Tok>) returns (d: Derivation)
    requires ParseNot(ts).Ok?
    ensures var (e, rest) := ParseNot(ts).value; Reads(d, e, ts, rest) && !d.OrOf? && !d.AndOf?
    decreases |ts|, 2
  {
    hide Spells, AtomSpells, ParsePrimary;
    if KeywordAt(ts, "NOT") {
      var x := NotSound(ts[1..]);
      d := NotOf(ts[0], x);
      assert Yield(d) + ParseNot(ts).value.1 == [ts[0]] + (Yield(x) + ParseNot(ts).value.1);
    } else {
      d := PrimarySound(ts);
    }
  }

  lemma {:induction false} AndSound(ts: seq<Tok>) returns (d: Derivation)
    requires ParseAnd(ts).Ok?
    ensures var (e, rest) := ParseAnd(ts).value; Reads(d, e, ts, rest) && !d.OrOf?
    decreases |ts|, 4
  {
    hide Spells, AtomSpells, ParseNot;
    var x := NotSound(ts);
    d := AndLoopSound(x, ParseNot(ts).value.1);
  }

  lemma {:induction false} AndLoopSound(x: Derivation, ts: seq<Tok>) returns (d: Derivation)
    requires Proper(x) && Binds(x) && !x.OrOf? && AndLoop(Tree(x), ts).Ok?
    ensures var (e, rest) := AndLoop(Tree(x), ts).value; Reads(d, e, Yield(x) + ts, rest) && !d.OrOf?
    decreases |ts|, 3
  {
    hide Spells, AtomSpells, ParseNot;
    d := x;
    if KeywordAt(ts, "AND") {
      var y := NotSound(ts[1..]);
      var z := AndOf(x, ts[0], y);
      var rest := ParseNot(ts[1..]).value.1;
      assert Yield(z) + rest == Yield(x) + ([ts[0]] + (Yield(y) + rest));
      d := AndLoopSound(z, rest);
    }
  }

  lemma {:induction false} OrSound(ts: seq<Tok>) returns (d: Derivation)
    requires ParseOr(ts).Ok?
    ensures var (e, rest) := ParseOr(ts).value; Reads(d, e, ts, rest)
    decreases |ts|, 6
  {
    hide Spells, AtomSpells, ParseAnd;
    var x := AndSound(ts);
    d := OrLoopSound(x, ParseAnd(ts).value.1);
  }

  lemma {:induction false} OrLoopSound(x: Derivation, ts: seq<Tok>) returns (d: Derivation)
    requires Proper(x) && Binds(x) && OrLoop(Tree(x), ts).Ok?
    ensures var (e, rest) := OrLoop(Tree(x), ts).value; Reads(d, e, Yield(x) + ts, rest)
    decreases |ts|, 5
  {
    hide Spells, AtomSpells, ParseAnd;
    d := x;
    if KeywordAt(ts, "OR") {
      var y := AndSound(ts[1..]);
      var z := OrOf(x, ts[0], y);
      var rest := ParseAnd(ts[1..]).value.1;
      assert Yield(z) + rest == Yield(x) + ([ts[0]] + (Yield(y) + rest));
      d := OrLoopSound(z, rest);
    }
  }

  // ------------------------------------------------- every derivation is found

  lemma {:induction false} ItemsComplete(done: seq<Literal>, list: seq<Literal>, ts: seq<Tok>, rest: seq<Tok>)
    requires ListSpells(ts, list)
    ensures ParseItems(done, ts + [RParen] + rest) == Ok((done + list, rest))
    decreases |ts|
  {
    var all := ts + [RParen] + rest;
    if |list| == 1 {
      assert all[2..] == rest && list == [list[0]];
    } else {
      assert all[2..] == ts[2..] + [RParen] + rest;
      ItemsComplete(done + [list[0]], list[1..], ts[2..], rest);
      assert done + [list[0]] + list[1..] == done + list;
    }
  }

  lemma {:induction false} InComplete(c: string, negated: bool, ts: seq<Tok>, list: seq<Literal>, rest: seq<Tok>)
    requires |ts| >= 2 && ts[0] == LParen && ts[|ts| - 1] == RParen && ListSpells(ts[1..|ts| - 1], list)
    ensures ParseIn(c, negated, ts + rest) == Ok((In(c, list, negated), rest))
  {
    var items := ts[1..|ts| - 1];
    ItemsComplete([], list, items, rest);
    assert LiteralOf(items[0]).Some?;
    hide LiteralOf, ListSpells, ParseItems;
    assert (ts + rest)[1..] == items + [RParen] + rest;
    assert [] + list == list;
  }

  lemma {:induction false} ComparisonComplete(ts: seq<Tok>, e: Expr, rest: seq<Tok>)
    requires AtomSpells(ts, e)
    ensures ParseComparison(ts + rest) == Ok((e, rest))
  {
    assert e.In? ==> ts[1].Ident?;
    hide Spells, IsKeyword, LiteralOf, ListSpells, ParseIn, IsWordOperator;
    match e
    case Cmp(c, op, l) => CmpComplete(ts, e, rest);
    case IsNull(c, negated) => IsNullComplete(ts, e, rest);
    case In(c, list, negated) =>
      KeywordsApart(ts[1]);
      var all := ts + rest;
      if negated {
        assert ts[3..][1..|ts| - 4] == ts[4..|ts| - 1];
        InComplete(c, true, ts[3..], list, rest);
        assert all[2..][1..] == ts[3..] + rest;
      } else {
        assert ts[2..][1..|ts| - 3] == ts[3..|ts| - 1];
        InComplete(c, false, ts[2..], list, rest);
        assert all[2..] == ts[2..] + rest;
      }
  }

  lemma {:induction false} CmpComplete(ts: seq<Tok>, e: Expr, rest: seq<Tok>)
    requires AtomSpells(ts, e) && e.Cmp?
    ensures ParseComparison(ts + rest) == Ok((e, rest))
  {
    NullIsNoLiteral(ts[2]);
    hide Spells, IsKeyword, LiteralOf, IsWordOperator;
    var all := ts + rest;
    assert all[2..] == [ts[2]] + rest && all[2..][1..] == rest;
  }

  lemma {:induction false} IsNullComplete(ts: seq<Tok>, e: Expr, rest: seq<Tok>)
    requires AtomSpells(ts, e) && e.IsNull?
    ensures ParseComparison(ts + rest) == Ok((e, rest))
  {
    KeywordsApart(ts[1]);
    KeywordsApart(ts[2]);
    hide Spells, IsKeyword, LiteralOf, IsWordOperator;
    var all := ts + rest;
    assert all[2..] == ts[2..] + rest;
    if e.negated { assert all[2..][1..] == [ts[3]] + rest && all[2..][1..][1..] == rest; }
    else { assert all[2..][1..] == rest; }
  }

  lemma {:induction false} NullIsNoLiteral(t: Tok)
    ensures Spells(t, "NULL") ==> LiteralOf(t).None?
  {
    if Spells(t, "NULL") {
      assert |"NULL"| != |"FALSE"| && "NULL"[0] == 'N' && "TRUE"[0] == 'T';
      assert Upper(t.name[0]) == 'N';
    }
  }

  /** A derivation starts with a parenthesis, with NOT, or with a column. */
  lemma {:induction false} Starts(d: Derivation)
    requires Proper(d)
    ensures Yield(d) != []
    ensures d.Atom? ==> Yield(d)[0].Ident? && !KeywordAt(Yield(d), "NOT")
    ensures d.Paren? ==> Yield(d)[0] == LParen
  {
    match d
    case Atom(ts, e) =>
      if Spells(ts[0], "NOT") { KeywordIsNoColumn(ts[0], 2); }
    case Paren(x) =>
    case AndOf(x, w, y) => Starts(x);
    case OrOf(x, w, y) => Starts(x);
    case NotOf(w, x) =>
  }

  lemma {:induction false} NotComplete(d: Derivation, rest: seq<Tok>)
    requires Proper(d) && Binds(d) && !d.OrOf? && !d.AndOf?
    ensures ParseNot(Yield(d) + rest) == Ok((Tree(d), rest))
    decreases d, 0
  {
    assert !Spells(LParen, "NOT") && !Spells(RParen, "AND");
    hide Spells, AtomSpells, ParseComparison;
    Starts(d);
    var all := Yield(d) + rest;
    match d
    case Atom(ts, e) => ComparisonComplete(ts, e, rest);
    case Paren(x) =>
      assert all[1..] == Yield(x) + ([RParen] + rest);
      OrComplete(x, [RParen] + rest);
      assert ([RParen] + rest)[1..] == rest;
    case NotOf(w, x) =>
      assert all[1..] == Yield(x) + rest;
      NotComplete(x, rest);
  }

  lemma {:induction false} AndComplete(d: Derivation, rest: seq<Tok>)
    requires Proper(d) && Binds(d) && !d.OrOf?
    ensures ParseAnd(Yield(d) + rest) == AndLoop(Tree(d), rest)
    decreases d, 1
  {
    hide Spells, AtomSpells;
    if d.AndOf? {
      var more := [d.word] + (Yield(d.right) + rest);
      assert Yield(d) + rest == Yield(d.left) + more;
      AndComplete(d.left, more);
      assert more[1..] == Yield(d.right) + rest;
      NotComplete(d.right, rest);
    } else {
      NotComplete(d, rest);
    }
  }

  lemma {:induction false} OrComplete(d: Derivation, rest: seq<Tok>)
    requires Proper(d) && Binds(d) && !KeywordAt(rest, "AND")
    ensures ParseOr(Yield(d) + rest) == OrLoop(Tree(d), rest)
    decreases d, 2
  {
    if d.OrOf? {
      var more := [d.word] + (Yield(d.right) + rest);
      assert Yield(d) + rest == Yield(d.left) + more;
      KeywordsApart(d.word);
      hide Spells, AtomSpells;
      OrComplete(d.left, more);
      assert more[1..] == Yield(d.right) + rest;
      AndComplete(d.right, rest);
    } else {
      AndComplete(d, rest);
    }
  }

  /** The parser accepts exactly what the grammar with its precedence derives,
      and reads it as the derivation does. */
  lemma {:induction false} ParserIsTheGrammar(ts: seq<Tok>, e: Expr)
    ensures ParseAll(ts) == Ok(e) <==> exists d :: Reads(d, e, ts, [])
  {
    if ParseAll(ts) == Ok(e) {
      var d := OrSound(ts);
    }
    if d :| Reads(d, e, ts, []) {
      OrComplete(d, []);
    }
  }
}
