/** A filter from its text and back. */
module FilterText {
  import opened Wrappers
  import opened FilterSyntax
  import opened FilterLexer
  import opened FilterGrammar
  import opened FilterParser
  import opened FilterDerivation
  import opened FilterEval

  datatype Filter = Filter(expr: Expr, columns: seq<string>)

  datatype FilterError = Lexing(lex: LexError) | Parsing(parse: ParseError)

  // ----------------------------------------------------- columns, sorted and once

  ghost predicate Sorted(columns: seq<string>) {
    forall i, j | 0 <= i < j < |columns| :: OrderText(columns[i], columns[j]) == Less
  }

  function Insert(c: string, columns: seq<string>): seq<string> {
    if columns == [] then [c]
    else
      match OrderText(c, columns[0])
      case Less => [c] + columns
      case Equal => columns
      case Greater => [columns[0]] + Insert(c, columns[1..])
  }

  /** Sorted, with repeats dropped. */
  function SortedOnce(columns: seq<string>): seq<string> {
    if columns == [] then [] else Insert(columns[0], SortedOnce(columns[1..]))
  }

  lemma {:induction false} OrderTextIsOrder(a: string, b: string)
    ensures OrderText(a, b) == Equal <==> a == b
    ensures OrderText(a, b) == Less <==> OrderText(b, a) == Greater
  {
    if a != "" && b != "" {
      OrderTextIsOrder(a[1..], b[1..]);
      assert a == [a[0]] + a[1..] && b == [b[0]] + b[1..];
    }
  }

  lemma {:induction false} OrderTextChains(a: string, b: string, c: string)
    requires OrderText(a, b) == Less && OrderText(b, c) == Less
    ensures OrderText(a, c) == Less
  {
    if a != "" && a[0] == b[0] == c[0] { OrderTextChains(a[1..], b[1..], c[1..]); }
  }

  lemma {:induction false} InsertSorts(c: string, columns: seq<string>)
    requires Sorted(columns)
    ensures Sorted(Insert(c, columns))
    ensures forall x :: x in Insert(c, columns) <==> x == c || x in columns
  {
    if columns != [] {
      OrderTextIsOrder(c, columns[0]);
      var rest := columns[1..];
      assert columns == [columns[0]] + rest;
      match OrderText(c, columns[0])
      case Less =>
        forall i | 0 <= i < |columns| ensures OrderText(c, columns[i]) == Less {
          if i > 0 { OrderTextChains(c, columns[0], columns[i]); }
        }
      case Equal =>
      case Greater =>
        InsertSorts(c, rest);
        var longer := Insert(c, rest);
        forall i | 0 <= i < |longer| ensures OrderText(columns[0], longer[i]) == Less {
          OrderTextIsOrder(columns[0], c);
          if longer[i] != c {
            assert longer[i] in rest;
            var j :| 0 <= j < |rest| && rest[j] == longer[i];
            assert columns[j + 1] == longer[i];
          }
        }
    }
  }

  lemma {:induction false} SortedOnceIs(columns: seq<string>)
    ensures Sorted(SortedOnce(columns))
    ensures forall x :: x in SortedOnce(columns) <==> x in columns
  {
    if columns != [] {
      SortedOnceIs(columns[1..]);
      InsertSorts(columns[0], SortedOnce(columns[1..]));
      assert columns == [columns[0]] + columns[1..];
    }
  }

  // --------------------------------------------------------------------- reading

  predicate IsWhitespace(c: char) {
    || '\t' <= c <= '\r' || c == ' '
    || c as int in {0x85, 0xA0, 0x1680, 0x2028, 0x2029, 0x202F, 0x205F, 0x3000}
    || 0x2000 <= c as int <= 0x200A
  }

  predicate Blank(src: string) {
    forall i | 0 <= i < |src| :: IsWhitespace(src[i])
  }

  function ReadFilter(src: string, read: ReadFloat): Result<Filter, FilterError> {
    if Blank(src) then Err(Parsing(Empty))
    else
      match Lex(src, read)
      case Err(x) => Err(Lexing(x))
      case Ok(ts) =>
        match ParseAll(ts)
        case Err(x) => Err(Parsing(x))
        case Ok(e) => Ok(Filter(e, SortedOnce(ColumnsIn(e))))
  }

  /** The tree, and the columns it names: each once, in order. */
  method ParseFilter(src: string, read: ReadFloat) returns (r: Result<Filter, FilterError>)
    ensures r == ReadFilter(src, read)
    ensures r.Ok? ==> Sorted(r.value.columns) && forall c :: c in r.value.columns <==> c in ColumnsIn(r.value.expr)
  {
    if Blank(src) { return Err(Parsing(Empty)); }
    var tokens := Tokenize(src, read);
    if tokens.Err? { return Err(Lexing(tokens.error)); }
    var parser := new Parser(tokens.value);
    assert parser.Left() == tokens.value;
    var e := parser.OrExpr();
    if e.Err? { return Err(Parsing(e.error)); }
    if parser.pos < |parser.tokens| { return Err(Parsing(Trailing)); }
    assert parser.columns == [] + ColumnsIn(e.value) == ColumnsIn(e.value);
    SortedOnceIs(parser.columns);
    return Ok(Filter(e.value, SortedOnce(parser.columns)));
  }

  /** Two rows that agree on `columns` get the same verdict. */
  lemma {:induction false} ColumnsDecide(src: string, read: ReadFloat, a: Doc, b: Doc, fl: Floats)
    requires ReadFilter(src, read).Ok?
    requires forall c | c in ReadFilter(src, read).value.columns :: Lookup(a, c) == Lookup(b, c)
    ensures Meaning(ReadFilter(src, read).value.expr, a, fl) == Meaning(ReadFilter(src, read).value.expr, b, fl)
  {
    var f := ReadFilter(src, read).value;
    SortedOnceIs(ColumnsIn(f.expr));
    SeesOnlyItsColumns(f.expr, a, b, fl);
  }

  // ------------------------------------------------------- printed text, lexed again

  /** Plain identifiers, doubled quotes. */
  function PlainDialect(float: real -> string): Dialect {
    Dialect(s => s, QuoteStr, float)
  }

  /** What may follow a printed token. */
  predicate Ends(rest: string) {
    rest == "" || rest[0] == ' ' || rest[0] == ')' || rest[0] == ','
  }

  lemma {:induction false} LexOne(s: string, rest: string, tok: Tok, read: ReadFloat)
    requires s != "" && First(s + rest, read) == Token(tok, |s|)
    ensures Lex(s + rest, read) == Before([tok], Lex(rest, read))
  {
    assert (s + rest)[|s|..] == rest;
  }

  lemma {:induction false} LexSpace(rest: string, read: ReadFloat)
    ensures Lex(" " + rest, read) == Lex(rest, read)
  {
    assert (" " + rest)[1..] == rest;
  }

  lemma {:induction false} LexWord(w: string, rest: string, read: ReadFloat)
    requires PlainWord(w) && Ends(rest)
    ensures Lex(w + rest, read) == Before([Ident(w)], Lex(rest, read))
  {
    var s := w + rest;
    RunIs(s[1..], WordPart, |w| - 1);
    assert s[..|w|] == w;
    LexOne(w, rest, Ident(w), read);
  }

  lemma {:induction false} LexOp(op: CmpOp, rest: string, read: ReadFloat)
    requires rest != "" && rest[0] == ' '
    ensures Lex(OpText(op) + rest, read) == Before([OpTok(op)], Lex(rest, read))
  {
    LexOne(OpText(op), rest, OpTok(op), read);
  }

  lemma {:induction false} DoubledEnds(s: string, rest: string)
    requires Ends(rest)
    ensures StringEnd(Doubled(s) + "'" + rest) == Some(|Doubled(s)|)
    ensures Undoubled(Doubled(s)) == s
  {
    var all := Doubled(s) + "'" + rest;
    if s != "" {
      DoubledEnds(s[1..], rest);
      var n := if s[0] == '\'' then 2 else 1;
      assert Doubled(s)[n..] == Doubled(s[1..]);
      assert all[n..] == Doubled(s[1..]) + "'" + rest;
    }
  }

  lemma {:induction false} LexStr(text: string, rest: string, read: ReadFloat)
    requires Ends(rest)
    ensures Lex(QuoteStr(text) + rest, read) == Before([StrTok(text)], Lex(rest, read))
  {
    hide Lex, Doubled, Undoubled, StringEnd, Ends;
    var s := QuoteStr(text) + rest;
    DoubledEnds(text, rest);
    assert s[1..] == Doubled(text) + "'" + rest;
    assert s[1..][..|Doubled(text)|] == Doubled(text);
    LexOne(QuoteStr(text), rest, StrTok(text), read);
  }

  lemma {:induction false} DigitsRead(n: nat)
    ensures DigitsOf(n) != "" && DecimalValue(DigitsOf(n)) == n
    ensures forall i | 0 <= i < |DigitsOf(n)| :: IsDigit(DigitsOf(n)[i])
  {
    if n >= 10 {
      DigitsRead(n / 10);
      var ds := DigitsOf(n / 10) + [Digit(n % 10)];
      assert ds[..|ds| - 1] == DigitsOf(n / 10);
    } else {
      assert [Digit(n)][..0] == "";
    }
  }

  lemma {:induction false} DigitsEnd(digits: string, rest: string)
    requires digits != "" && Ends(rest) && forall i | 0 <= i < |digits| :: IsDigit(digits[i])
    ensures Run(digits + rest, IsDigit) == |digits|
  {
    RunIs(digits + rest, IsDigit, |digits|);
  }

  lemma {:induction false} IntEnds(i: int, rest: string)
    requires Ends(rest)
    ensures StartsNumber(IntText(i) + rest) && NumberEnd(IntText(i) + rest) == (|IntText(i)|, false)
    ensures IntOf(IntText(i)) == i
  {
    var n: nat := if i < 0 then -i else i;
    DigitsRead(n);
    if i < 0 { NegativeEnds(DigitsOf(n), rest); } else { PositiveEnds(DigitsOf(n), rest); }
  }

  lemma {:induction false} PositiveEnds(digits: string, rest: string)
    requires digits != "" && Ends(rest) && forall i | 0 <= i < |digits| :: IsDigit(digits[i])
    ensures StartsNumber(digits + rest) && NumberEnd(digits + rest) == (|digits|, false)
    ensures IntOf(digits) == DecimalValue(digits)
  {
    DigitsEnd(digits, rest);
    assert IsDigit(digits[0]);
    hide DecimalValue, Run;
    assert (digits + rest)[0..] == digits + rest;
  }

  lemma {:induction false} NegativeEnds(digits: string, rest: string)
    requires digits != "" && Ends(rest) && forall i | 0 <= i < |digits| :: IsDigit(digits[i])
    ensures StartsNumber("-" + digits + rest) && NumberEnd("-" + digits + rest) == (|digits| + 1, false)
    ensures IntOf("-" + digits) == -DecimalValue(digits)
  {
    DigitsEnd(digits, rest);
    assert IsDigit(digits[0]);
    hide DecimalValue, Run;
    assert ("-" + digits + rest)[1..] == digits + rest;
    assert ("-" + digits)[1..] == digits;
  }

  lemma {:induction false} LexInt(i: int, rest: string, read: ReadFloat)
    requires MinInt <= i <= MaxInt && Ends(rest)
    ensures Lex(IntText(i) + rest, read) == Before([IntTok(i)], Lex(rest, read))
  {
    hide Lex;
    IntEnds(i, rest);
    hide IntText, NumberEnd, IntOf;
    assert (IntText(i) + rest)[..|IntText(i)|] == IntText(i);
    LexOne(IntText(i), rest, IntTok(i), read);
  }

  lemma {:induction false} LexLiteral(l: Literal, rest: string, d: Dialect, read: ReadFloat)
    requires PlainLiteral(l) && Ends(rest) && d == PlainDialect(d.float)
    ensures Lex(RenderLiteral(l, d) + rest, read) == Before([LiteralTok(l)], Lex(rest, read))
  {
    match l
    case Str(s) => LexStr(s, rest, read);
    case Int(i) => LexInt(i, rest, read);
    case Bool(b) =>
      assert PlainWord("TRUE") && PlainWord("FALSE");
      LexWord(if b then "TRUE" else "FALSE", rest, read);
  }

  lemma {:induction false} LexParen(rest: string, read: ReadFloat)
    ensures Lex("(" + rest, read) == Before([LParen], Lex(rest, read))
    ensures Lex(")" + rest, read) == Before([RParen], Lex(rest, read))
    ensures Lex("," + rest, read) == Before([Comma], Lex(rest, read))
  {
    LexOne("(", rest, LParen, read);
    LexOne(")", rest, RParen, read);
    LexOne(",", rest, Comma, read);
  }

  /** A word and the space after it. */
  lemma {:induction false} LexSpaced(w: string, rest: string, read: ReadFloat)
    requires PlainWord(w)
    ensures Lex(w + " " + rest, read) == Before([Ident(w)], Lex(rest, read))
  {
    LexWord(w, " " + rest, read);
    LexSpace(rest, read);
    assert w + " " + rest == w + (" " + rest);
  }

  lemma {:induction false} LexList(list: seq<Literal>, rest: string, d: Dialect, read: ReadFloat)
    requires list != [] && Ends(rest) && d == PlainDialect(d.float)
    requires forall i | 0 <= i < |list| :: PlainLiteral(list[i])
    ensures Lex(RenderList(list, d) + rest, read) == Before(ListToks(list), Lex(rest, read))
  {
    hide Lex, RenderLiteral, LiteralTok, PlainLiteral;
    var l := list[0];
    if |list| == 1 {
      LexLiteral(l, rest, d, read);
    } else {
      var more := RenderList(list[1..], d) + rest;
      LexList(list[1..], rest, d, read);
      LexLiteral(l, ", " + more, d, read);
      LexParen(" " + more, read);
      LexSpace(more, read);
      assert "," + (" " + more) == ", " + more;
      assert RenderList(list, d) + rest == RenderLiteral(l, d) + (", " + more);
      BeforeBefore([LiteralTok(l)], [Comma], Lex(more, read));
      BeforeBefore([LiteralTok(l), Comma], ListToks(list[1..]), Lex(rest, read));
      assert [LiteralTok(l)] + [Comma] == [LiteralTok(l), Comma];
    }
  }

  lemma {:induction false} LexCmp(e: Expr, rest: string, d: Dialect, read: ReadFloat)
    requires Plain(e) && e.Cmp? && Ends(rest) && d == PlainDialect(d.float)
    ensures Lex(Render(e, d) + rest, read) == Before(Toks(e), Lex(rest, read))
  {
    hide Lex, RenderLiteral, LiteralTok, PlainLiteral, PlainWord, IsKeyword, OpText;
    var l := RenderLiteral(e.literal, d) + rest;
    LexLiteral(e.literal, rest, d, read);
    LexSpace(l, read);
    LexOp(e.op, " " + l, read);
    LexSpaced(e.column, OpText(e.op) + (" " + l), read);
    assert Render(e, d) + rest == e.column + " " + (OpText(e.op) + (" " + l));
    BeforeBefore([OpTok(e.op)], [LiteralTok(e.literal)], Lex(rest, read));
    BeforeBefore([Ident(e.column)], [OpTok(e.op)] + [LiteralTok(e.literal)], Lex(rest, read));
    assert [Ident(e.column)] + ([OpTok(e.op)] + [LiteralTok(e.literal)]) == Toks(e);
  }

  /** Words with a space after each. */
  lemma {:induction false} LexTwoWords(a: string, b: string, rest: string, read: ReadFloat)
    requires PlainWord(a) && PlainWord(b)
    ensures Lex(a + " " + (b + " " + rest), read) == Before([Ident(a), Ident(b)], Lex(rest, read))
  {
    hide Lex, PlainWord;
    LexSpaced(b, rest, read);
    LexSpaced(a, b + " " + rest, read);
    BeforeBefore([Ident(a)], [Ident(b)], Lex(rest, read));
    assert [Ident(a)] + [Ident(b)] == [Ident(a), Ident(b)];
  }

  /** A word last, after any number of words with a space after each. */
  lemma {:induction false} LexThreeWords(a: string, b: string, c: string, rest: string, read: ReadFloat)
    requires PlainWord(a) && PlainWord(b) && PlainWord(c) && Ends(rest)
    ensures Lex(a + " " + (b + " " + (c + rest)), read) == Before([Ident(a), Ident(b), Ident(c)], Lex(rest, read))
  {
    hide Lex, PlainWord;
    LexWord(c, rest, read);
    LexTwoWords(a, b, c + rest, read);
    BeforeBefore([Ident(a), Ident(b)], [Ident(c)], Lex(rest, read));
    assert [Ident(a), Ident(b)] + [Ident(c)] == [Ident(a), Ident(b), Ident(c)];
  }

  lemma {:induction false} IsNullText(e: Expr, rest: string, d: Dialect)
    requires e.IsNull? && d == PlainDialect(d.float)
    ensures !e.negated ==> Render(e, d) + rest == e.column + " " + ("IS" + " " + ("NULL" + rest))
    ensures e.negated ==> Render(e, d) + rest == e.column + " " + ("IS" + " " + ("NOT" + " " + ("NULL" + rest)))
  {
    var c := e.column;
    assert " IS " == " " + ("IS" + " ") && "NOT " == "NOT" + " " && "" + "NULL" == "NULL";
    if e.negated {
      assert c + (" " + ("IS" + " ")) + ("NOT" + " ") + "NULL" + rest == c + " " + ("IS" + " " + ("NOT" + " " + ("NULL" + rest)));
    } else {
      assert c + (" " + ("IS" + " ")) + "" + "NULL" + rest == c + " " + ("IS" + " " + ("NULL" + rest));
    }
  }

  lemma {:induction false} IsNullToks(e: Expr)
    requires e.IsNull?
    ensures Toks(e) == if e.negated then [Ident(e.column)] + [Ident("IS"), Ident("NOT"), Ident("NULL")]
                       else [Ident(e.column), Ident("IS"), Ident("NULL")]
  {
  }

  lemma {:induction false} InToks(e: Expr)
    requires e.In?
    ensures var toks := [LParen] + (ListToks(e.list) + [RParen]);
            Toks(e) == if e.negated then [Ident(e.column), Ident("NOT"), Ident("IN")] + toks
                       else [Ident(e.column), Ident("IN")] + toks
  {
  }

  lemma {:induction false} LexIsNull(e: Expr, rest: string, d: Dialect, read: ReadFloat)
    requires Plain(e) && e.IsNull? && Ends(rest) && d == PlainDialect(d.float)
    ensures Lex(Render(e, d) + rest, read) == Before(Toks(e), Lex(rest, read))
  {
    assert PlainWord("IS") && PlainWord("NOT") && PlainWord("NULL");
    IsNullText(e, rest, d);
    IsNullToks(e);
    var c := e.column;
    hide Lex, PlainWord, IsKeyword, Render, Toks;
    if e.negated {
      LexThreeWords("IS", "NOT", "NULL", rest, read);
      LexSpaced(c, "IS" + " " + ("NOT" + " " + ("NULL" + rest)), read);
      BeforeBefore([Ident(c)], [Ident("IS"), Ident("NOT"), Ident("NULL")], Lex(rest, read));
    } else {
      LexThreeWords(c, "IS", "NULL", rest, read);
    }
  }

  /** A list in its parentheses. */
  lemma {:induction false} LexListed(list: seq<Literal>, rest: string, d: Dialect, read: ReadFloat)
    requires list != [] && d == PlainDialect(d.float) && forall i | 0 <= i < |list| :: PlainLiteral(list[i])
    ensures Lex("(" + (RenderList(list, d) + (")" + rest)), read) ==
            Before([LParen] + (ListToks(list) + [RParen]), Lex(rest, read))
  {
    hide Lex, PlainLiteral, RenderList, ListToks;
    LexParen(rest, read);
    LexList(list, ")" + rest, d, read);
    LexParen(RenderList(list, d) + (")" + rest), read);
    BeforeBefore(ListToks(list), [RParen], Lex(rest, read));
    BeforeBefore([LParen], ListToks(list) + [RParen], Lex(rest, read));
  }

  lemma {:induction false} InText(e: Expr, rest: string, d: Dialect)
    requires e.In? && d == PlainDialect(d.float)
    ensures var last := "(" + (RenderList(e.list, d) + (")" + rest));
            && (!e.negated ==> Render(e, d) + rest == e.column + " " + ("IN" + " " + last))
            && (e.negated ==> Render(e, d) + rest == e.column + " " + ("NOT" + " " + ("IN" + " " + last)))
  {
    hide RenderList;
    var c, items := e.column, RenderList(e.list, d);
    assert "IN (" == "IN" + " " + "(" && "NOT " == "NOT" + " ";
    if e.negated {
      assert c + " " + ("NOT" + " ") + ("IN" + " " + "(") + items + ")" + rest
          == c + " " + ("NOT" + " " + ("IN" + " " + ("(" + (items + (")" + rest)))));
    } else {
      assert c + " " + "" + ("IN" + " " + "(") + items + ")" + rest
          == c + " " + ("IN" + " " + ("(" + (items + (")" + rest))));
    }
  }

  lemma {:induction false} LexIn(e: Expr, rest: string, d: Dialect, read: ReadFloat)
    requires Plain(e) && e.In? && Ends(rest) && d == PlainDialect(d.float)
    ensures Lex(Render(e, d) + rest, read) == Before(Toks(e), Lex(rest, read))
  {
    assert PlainWord("IN") && PlainWord("NOT");
    InText(e, rest, d);
    InToks(e);
    LexListed(e.list, rest, d, read);
    hide Lex, PlainWord, IsKeyword, PlainLiteral, RenderList, ListToks, Render, Toks;
    var last := "(" + (RenderList(e.list, d) + (")" + rest));
    var toks := [LParen] + (ListToks(e.list) + [RParen]);
    if e.negated {
      LexNotIn(e.column, "NOT", "IN", last, toks, rest, read);
    } else {
      LexTwoWords(e.column, "IN", last, read);
      BeforeBefore([Ident(e.column), Ident("IN")], toks, Lex(rest, read));
    }
  }

  lemma {:induction false} LexNotIn(c: string, w1: string, w2: string, last: string, toks: seq<Tok>, rest: string, read: ReadFloat)
    requires PlainWord(c) && PlainWord(w1) && PlainWord(w2) && Lex(last, read) == Before(toks, Lex(rest, read))
    ensures Lex(c + " " + (w1 + " " + (w2 + " " + last)), read) ==
            Before([Ident(c), Ident(w1), Ident(w2)] + toks, Lex(rest, read))
  {
    hide Lex, PlainWord;
    LexTwoWords(w1, w2, last, read);
    LexSpaced(c, w1 + " " + (w2 + " " + last), read);
    BeforeBefore([Ident(c)], [Ident(w1), Ident(w2)], Before(toks, Lex(rest, read)));
    assert [Ident(c)] + [Ident(w1), Ident(w2)] == [Ident(c), Ident(w1), Ident(w2)];
    BeforeBefore([Ident(c), Ident(w1), Ident(w2)], toks, Lex(rest, read));
  }

  lemma {:induction false} LexPair(a: string, ta: seq<Tok>, w: string, b: string, tb: seq<Tok>, rest: string, read: ReadFloat)
    requires PlainWord(w)
    requires forall more | Ends(more) :: Lex(a + more, read) == Before(ta, Lex(more, read))
    requires forall more | Ends(more) :: Lex(b + more, read) == Before(tb, Lex(more, read))
    ensures Lex("(" + a + (" " + w + " ") + b + ")" + rest, read) ==
            Before([LParen] + (ta + [Ident(w)] + tb) + [RParen], Lex(rest, read))
  {
    hide Lex, PlainWord;
    var r := Lex(rest, read);
    LexParen(rest, read);
    var end := ")" + rest;
    assert Lex(b + end, read) == Before(tb, Lex(end, read));
    LexSpaced(w, b + end, read);
    var mid := w + " " + (b + end);
    LexSpace(mid, read);
    assert Lex(a + (" " + mid), read) == Before(ta, Lex(" " + mid, read));
    LexParen(a + (" " + mid), read);
    assert "(" + a + (" " + w + " ") + b + ")" + rest == "(" + (a + (" " + mid));
    BeforeBefore(tb, [RParen], r);
    BeforeBefore([Ident(w)], tb + [RParen], r);
    BeforeBefore(ta, [Ident(w)] + (tb + [RParen]), r);
    BeforeBefore([LParen], ta + ([Ident(w)] + (tb + [RParen])), r);
    assert [LParen] + (ta + ([Ident(w)] + (tb + [RParen]))) == [LParen] + (ta + [Ident(w)] + tb) + [RParen];
  }

  lemma {:induction false} LexNegation(a: string, ta: seq<Tok>, w: string, rest: string, read: ReadFloat)
    requires PlainWord(w)
    requires forall more | Ends(more) :: Lex(a + more, read) == Before(ta, Lex(more, read))
    ensures Lex("(" + (w + " ") + a + ")" + rest, read) == Before([LParen] + ([Ident(w)] + ta) + [RParen], Lex(rest, read))
  {
    hide Lex, PlainWord;
    var r := Lex(rest, read);
    LexParen(rest, read);
    var end := ")" + rest;
    assert Lex(a + end, read) == Before(ta, Lex(end, read));
    LexSpaced(w, a + end, read);
    LexParen(w + " " + (a + end), read);
    assert "(" + (w + " ") + a + ")" + rest == "(" + (w + " " + (a + end));
    BeforeBefore(ta, [RParen], r);
    BeforeBefore([Ident(w)], ta + [RParen], r);
    BeforeBefore([LParen], [Ident(w)] + (ta + [RParen]), r);
    assert [LParen] + ([Ident(w)] + (ta + [RParen])) == [LParen] + ([Ident(w)] + ta) + [RParen];
  }

  /** The text printed is cut into the tokens printed. */
  lemma {:induction false} LexPrinted(e: Expr, rest: string, d: Dialect, read: ReadFloat)
    requires Plain(e) && Ends(rest) && d == PlainDialect(d.float)
    ensures Lex(Render(e, d) + rest, read) == Before(Toks(e), Lex(rest, read))
    decreases e
  {
    hide Lex;
    match e
    case Cmp(_, _, _) => LexCmp(e, rest, d, read);
    case IsNull(_, _) => LexIsNull(e, rest, d, read);
    case In(_, _, _) => LexIn(e, rest, d, read);
    case And(a, b) =>
      forall more | Ends(more) ensures Lex(Render(a, d) + more, read) == Before(Toks(a), Lex(more, read)) { LexPrinted(a, more, d, read); }
      forall more | Ends(more) ensures Lex(Render(b, d) + more, read) == Before(Toks(b), Lex(more, read)) { LexPrinted(b, more, d, read); }
      assert PlainWord("AND");
      LexPair(Render(a, d), Toks(a), "AND", Render(b, d), Toks(b), rest, read);
      assert " " + "AND" + " " == " AND ";
    case Or(a, b) =>
      forall more | Ends(more) ensures Lex(Render(a, d) + more, read) == Before(Toks(a), Lex(more, read)) { LexPrinted(a, more, d, read); }
      forall more | Ends(more) ensures Lex(Render(b, d) + more, read) == Before(Toks(b), Lex(more, read)) { LexPrinted(b, more, d, read); }
      assert PlainWord("OR");
      LexPair(Render(a, d), Toks(a), "OR", Render(b, d), Toks(b), rest, read);
      assert " " + "OR" + " " == " OR ";
    case Not(a) =>
      forall more | Ends(more) ensures Lex(Render(a, d) + more, read) == Before(Toks(a), Lex(more, read)) { LexPrinted(a, more, d, read); }
      assert PlainWord("NOT");
      LexNegation(Render(a, d), Toks(a), "NOT", rest, read);
      assert "(" + ("NOT" + " ") == "(NOT ";
  }

  lemma {:induction false} PlainIsReadable(e: Expr)
    requires Plain(e)
    ensures Readable(e)
  {
    match e
    case And(a, b) =>
      PlainIsReadable(a);
      PlainIsReadable(b);
    case Or(a, b) =>
      PlainIsReadable(a);
      PlainIsReadable(b);
    case Not(a) => PlainIsReadable(a);
    case _ =>
  }

  lemma {:induction false} PrintedIsNotBlank(e: Expr, d: Dialect)
    requires Plain(e) && d == PlainDialect(d.float)
    ensures !Blank(Render(e, d))
  {
    var s := Render(e, d);
    if e.And? || e.Or? || e.Not? {
      assert s[0] == '(';
    } else {
      assert s[0] == e.column[0] && WordStart(s[0]);
    }
    assert !IsWhitespace(s[0]);
  }

  /** Printing and reading again gives the filter back. */
  lemma {:induction false} RoundTrip(e: Expr, float: real -> string, read: ReadFloat)
    requires Plain(e)
    ensures ReadFilter(Render(e, PlainDialect(float)), read) == Ok(Filter(e, SortedOnce(ColumnsIn(e))))
  {
    var d := PlainDialect(float);
    var s := Render(e, d);
    LexPrinted(e, "", d, read);
    assert s + "" == s && Toks(e) + [] == Toks(e);
    PlainIsReadable(e);
    CanonReads(e);
    assert Toks(e) + [] == Toks(e);
    assert Reads(Canon(e), e, Toks(e), []);
    ParserIsTheGrammar(Toks(e), e);
    PrintedIsNotBlank(e, d);
  }

  // ------------------------------------------------------ any text that was accepted

  predicate GoodTok(t: Tok) {
    (t.Ident? ==> PlainWord(t.name)) && (t.IntTok? ==> MinInt <= t.value <= MaxInt)
  }

  predicate AllGood(ts: seq<Tok>) {
    forall t | t in ts :: GoodTok(t)
  }

  lemma {:induction false} GoodParts(a: seq<Tok>, b: seq<Tok>)
    requires AllGood(a + b)
    ensures AllGood(a) && AllGood(b)
  {
    hide GoodTok;
    assert forall t | t in a || t in b :: t in a + b;
  }

  lemma {:induction false} LexedIsGood(s: string, read: ReadFloat)
    requires Lex(s, read).Ok?
    ensures AllGood(Lex(s, read).value)
    decreases |s|
  {
    if s != "" {
      hide First;
      match First(s, read)
      case Space => LexedIsGood(s[1..], read);
      case Token(tok, n) =>
        FirstIsGood(s, read);
        LexedIsGood(s[n..], read);
    }
  }

  lemma {:induction false} FirstIsGood(s: string, read: ReadFloat)
    requires s != "" && First(s, read).Token?
    ensures GoodTok(First(s, read).tok)
  {
    var tok := First(s, read).tok;
    if tok.Ident? {
      var n := 1 + Run(s[1..], WordPart);
      forall i | 0 <= i < n ensures WordPart(s[i]) { if i > 0 { assert s[i] == s[1..][i - 1]; } }
    }
  }

  predicate FloatFree(e: Expr) {
    match e
    case Cmp(_, _, l) => !l.Float?
    case IsNull(_, _) => true
    case In(_, list, _) => forall i | 0 <= i < |list| :: !list[i].Float?
    case And(a, b) => FloatFree(a) && FloatFree(b)
    case Or(a, b) => FloatFree(a) && FloatFree(b)
    case Not(a) => FloatFree(a)
  }

  lemma {:induction false} ListIsPlain(ts: seq<Tok>, list: seq<Literal>)
    requires ListSpells(ts, list) && AllGood(ts)
    ensures forall i | 0 <= i < |list| && !list[i].Float? :: PlainLiteral(list[i])
  {
    assert GoodTok(ts[0]);
    if |list| > 1 {
      ListIsPlain(ts[2..], list[1..]);
      forall i | 0 <= i < |list| && !list[i].Float? ensures PlainLiteral(list[i]) {
        if i > 0 { assert list[i] == list[1..][i - 1]; }
      }
    }
  }

  lemma {:induction false} AtomIsPlain(ts: seq<Tok>, e: Expr)
    requires AtomSpells(ts, e) && FloatFree(e) && AllGood(ts)
    ensures Plain(e)
  {
    assert GoodTok(ts[0]) && GoodTok(ts[2]);
    if e.In? {
      var n := if e.negated then 1 else 0;
      ListIsPlain(ts[n + 3..|ts| - 1], e.list);
    }
  }

  lemma {:induction false} ReadIsPlain(d: Derivation)
    requires Proper(d) && FloatFree(Tree(d)) && AllGood(Yield(d))
    ensures Plain(Tree(d))
  {
    match d
    case Atom(ts, e) => AtomIsPlain(ts, e);
    case Paren(x) =>
      GoodParts([LParen] + Yield(x), [RParen]);
      GoodParts([LParen], Yield(x));
      ReadIsPlain(x);
    case AndOf(x, w, y) =>
      GoodParts(Yield(x) + [w], Yield(y));
      GoodParts(Yield(x), [w]);
      ReadIsPlain(x);
      ReadIsPlain(y);
    case OrOf(x, w, y) =>
      GoodParts(Yield(x) + [w], Yield(y));
      GoodParts(Yield(x), [w]);
      ReadIsPlain(x);
      ReadIsPlain(y);
    case NotOf(w, x) =>
      GoodParts([w], Yield(x));
      ReadIsPlain(x);
  }

  /** Any text the parser accepts, floats aside, prints to a text it accepts as
      the very same filter. */
  lemma {:induction false} PrintedFilterReadsBack(src: string, float: real -> string, read: ReadFloat)
    requires ReadFilter(src, read).Ok? && FloatFree(ReadFilter(src, read).value.expr)
    ensures ReadFilter(Render(ReadFilter(src, read).value.expr, PlainDialect(float)), read) == ReadFilter(src, read)
  {
    var ts := Lex(src, read).value;
    var e := ReadFilter(src, read).value.expr;
    LexedIsGood(src, read);
    ParserIsTheGrammar(ts, e);
    var d :| Reads(d, e, ts, []);
    assert Yield(d) == ts;
    ReadIsPlain(d);
    RoundTrip(e, float, read);
  }
}
