/** The precedence parser: one cursor over the tokens, and the columns met on
    the way. */
module FilterParser {
  import opened Wrappers
  import opened FilterSyntax
  import opened FilterGrammar

  lemma AppendTwice(a: seq<string>, b: seq<string>, c: seq<string>)
    ensures a + b + c == a + (b + c)
  {
  }

  class Parser {
    const tokens: seq<Tok>
    var pos: nat
    var columns: seq<string>

    constructor (tokens: seq<Tok>)
      ensures this.tokens == tokens && pos == 0 && columns == []
    {
      this.tokens, pos, columns := tokens, 0, [];
    }

    function Left(): seq<Tok>
      reads this
    {
      if pos <= |tokens| then tokens[pos..] else []
    }

    /** The cursor and the columns stand where reading `p` leaves them. */
    predicate Did(before: seq<string>, p: Parsed<Expr>, r: Result<Expr, ParseError>)
      reads this
    {
      match p
      case Err(x) => r == Err(x)
      case Ok((e, rest)) =>
        r == Ok(e) && pos <= |tokens| && Left() == rest && columns == before + ColumnsIn(e)
    }

    method AcceptKeyword(keyword: string) returns (accepted: bool)
      requires pos <= |tokens|
      modifies this`pos
      ensures accepted == KeywordAt(old(Left()), keyword)
      ensures pos <= |tokens| && Left() == if accepted then old(Left())[1..] else old(Left())
      ensures pos == if accepted then old(pos) + 1 else old(pos)
    {
      accepted := pos < |tokens| && Spells(tokens[pos], keyword);
      if accepted { pos := pos + 1; }
    }

    method OrExpr() returns (r: Result<Expr, ParseError>)
      requires pos <= |tokens|
      modifies this
      ensures Did(old(columns), ParseOr(old(Left())), r)
      decreases |tokens| - pos, 6
    {
      ghost var goal := ParseOr(Left());
      hide Spells, ParseAnd;
      r := AndExpr();
      if r.Err? { return; }
      var left := r.value;
      while true
        invariant old(pos) < pos <= |tokens|
        invariant OrLoop(left, Left()) == goal
        invariant columns == old(columns) + ColumnsIn(left)
        decreases |tokens| - pos
      {
        var more := AcceptKeyword("OR");
        if !more { return Ok(left); }
        r := AndExpr();
        if r.Err? { return; }
        AppendTwice(old(columns), ColumnsIn(left), ColumnsIn(r.value));
        left := Or(left, r.value);
      }
    }

    method AndExpr() returns (r: Result<Expr, ParseError>)
      requires pos <= |tokens|
      modifies this
      ensures Did(old(columns), ParseAnd(old(Left())), r)
      ensures r.Ok? ==> pos > old(pos)
      decreases |tokens| - pos, 4
    {
      ghost var goal := ParseAnd(Left());
      hide Spells, ParseNot;
      r := NotExpr();
      if r.Err? { return; }
      var left := r.value;
      while true
        invariant old(pos) < pos <= |tokens|
        invariant AndLoop(left, Left()) == goal
        invariant columns == old(columns) + ColumnsIn(left)
        decreases |tokens| - pos
      {
        var more := AcceptKeyword("AND");
        if !more { return Ok(left); }
        r := NotExpr();
        if r.Err? { return; }
        AppendTwice(old(columns), ColumnsIn(left), ColumnsIn(r.value));
        left := And(left, r.value);
      }
    }

    method NotExpr() returns (r: Result<Expr, ParseError>)
      requires pos <= |tokens|
      modifies this
      ensures Did(old(columns), ParseNot(old(Left())), r)
      ensures r.Ok? ==> pos > old(pos)
      decreases |tokens| - pos, 2
    {
      hide Spells, ParsePrimary;
      var negated := AcceptKeyword("NOT");
      if negated {
        r := NotExpr();
        if r.Ok? { r := Ok(Not(r.value)); }
        return;
      }
      r := Primary();
    }

    method Primary() returns (r: Result<Expr, ParseError>)
      requires pos <= |tokens|
      modifies this
      ensures Did(old(columns), ParsePrimary(old(Left())), r)
      ensures r.Ok? ==> pos > old(pos)
      decreases |tokens| - pos, 1
    {
      hide Spells, ParseComparison;
      if pos < |tokens| && tokens[pos] == LParen {
        pos := pos + 1;
        r := OrExpr();
        if r.Err? { return; }
        var closed := ExpectRParen();
        if !closed { return Err(ExpectedRParen); }
        return;
      }
      r := Comparison();
    }

    method ExpectRParen() returns (closed: bool)
      requires pos <= |tokens|
      modifies this`pos
      ensures closed == TokenAt(old(Left()), RParen)
      ensures pos <= |tokens| && Left() == if closed then old(Left())[1..] else old(Left())
      ensures pos == if closed then old(pos) + 1 else old(pos)
    {
      closed := pos < |tokens| && tokens[pos] == RParen;
      if closed { pos := pos + 1; }
    }

    /** The next token; past the last one the cursor still moves. */
    method Advance() returns (t: Option<Tok>)
      requires pos <= |tokens|
      modifies this`pos
      ensures pos == old(pos) + 1
      ensures t == if old(Left()) == [] then None else Some(old(Left())[0])
      ensures t.Some? ==> pos <= |tokens| && Left() == old(Left())[1..]
    {
      t := if pos < |tokens| then Some(tokens[pos]) else None;
      pos := pos + 1;
    }

    method Comparison() returns (r: Result<Expr, ParseError>)
      requires pos <= |tokens|
      modifies this
      ensures Did(old(columns), ParseComparison(old(Left())), r)
      ensures r.Ok? ==> pos > old(pos)
    {
      hide Spells, IsKeyword, IsWordOperator, ParseIn, ParseRhs;
      var first := Advance();
      if first.None? || !first.value.Ident? || IsKeyword(first.value.name) { return Err(ExpectedColumn); }
      var column := first.value.name;
      if pos < |tokens| && tokens[pos] == LParen { return Err(FunctionCall); }
      columns := columns + [column];
      var operator := Advance();
      if operator.None? { return Err(ExpectedOperator); }
      assert Left() == old(Left())[2..];
      if operator.value.OpTok? {
        r := ComparisonRhs(column, operator.value.op);
      } else if Spells(operator.value, "IS") {
        var negated := AcceptKeyword("NOT");
        var isNull := AcceptKeyword("NULL");
        r := if isNull then Ok(IsNull(column, negated)) else Err(IsWithoutNull);
      } else if Spells(operator.value, "IN") {
        r := InList(column, false);
      } else if Spells(operator.value, "NOT") {
        var listed := AcceptKeyword("IN");
        if listed {
          r := InList(column, true);
          return;
        }
        r := Err(if pos < |tokens| && tokens[pos].Ident? && IsWordOperator(tokens[pos].name)
                 then UnsupportedOperator else NotWithoutIn);
      } else if operator.value.Ident? && IsWordOperator(operator.value.name) {
        r := Err(UnsupportedOperator);
      } else {
        r := Err(ExpectedOperator);
      }
    }

    method ComparisonRhs(column: string, op: CmpOp) returns (r: Result<Expr, ParseError>)
      requires pos <= |tokens|
      modifies this`pos
      ensures match ParseRhs(column, op, old(Left()))
              case Err(x) => r == Err(x)
              case Ok((e, rest)) => r == Ok(e) && old(pos) < pos <= |tokens| && Left() == rest
    {
      if (op.Eq? || op.Ne?) && pos < |tokens| && Spells(tokens[pos], "NULL") { return Err(AlwaysUnknown); }
      var literal := if pos < |tokens| then LiteralOf(tokens[pos]) else None;
      if literal.None? { return Err(ExpectedLiteral); }
      pos := pos + 1;
      return Ok(Cmp(column, op, literal.value));
    }

    method InList(column: string, negated: bool) returns (r: Result<Expr, ParseError>)
      requires pos <= |tokens|
      modifies this`pos
      ensures match ParseIn(column, negated, old(Left()))
              case Err(x) => r == Err(x)
              case Ok((e, rest)) => r == Ok(e) && old(pos) < pos <= |tokens| && Left() == rest
    {
      hide ParseItems;
      if !(pos < |tokens| && tokens[pos] == LParen) { return Err(InWithoutList); }
      pos := pos + 1;
      if pos < |tokens| && tokens[pos] == RParen { return Err(EmptyList); }
      var list := Items();
      return match list case Err(x) => Err(x) case Ok(all) => Ok(In(column, all, negated));
    }

    /** The values of a list, up to its closing parenthesis. */
    method Items() returns (r: Result<seq<Literal>, ParseError>)
      requires pos <= |tokens|
      modifies this`pos
      ensures match ParseItems([], old(Left()))
              case Err(x) => r == Err(x)
              case Ok((list, rest)) => r == Ok(list) && old(pos) < pos <= |tokens| && Left() == rest
    {
      hide LiteralOf;
      ghost var goal := ParseItems([], Left());
      var list: seq<Literal> := [];
      while true
        invariant old(pos) <= pos <= |tokens|
        invariant ParseItems(list, Left()) == goal
        decreases |tokens| - pos
      {
        if pos == |tokens| { return Err(ExpectedRParen); }
        var literal := LiteralOf(tokens[pos]);
        if literal.None? { return Err(LiteralsOnly); }
        assert pos + 2 <= |tokens| ==> Left()[2..] == tokens[pos + 2..];
        list := list + [literal.value];
        pos := pos + 1;
        if pos < |tokens| && tokens[pos] == Comma {
          pos := pos + 1;
          continue;
        }
        var closed := ExpectRParen();
        if !closed { return Err(ExpectedRParen); }
        return Ok(list);
      }
    }
  }
}
