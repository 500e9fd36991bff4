/** Cutting a filter's text into tokens. */
module FilterLexer {
  import opened Wrappers
  import opened FilterSyntax

  datatype LexError = UnterminatedString | OutOfRange | UnexpectedCharacter | UnsupportedOperator

  /** Reads a decimal fraction as the float nearest it; `None` when that is not
      finite. */
  type ReadFloat = string -> Option<real>

  // ------------------------------------------------------------------- scanning

  /** How many leading characters satisfy `p`. */
  function Run(s: string, p: char -> bool): (n: nat)
    ensures n <= |s| && (n < |s| ==> !p(s[n]))
    ensures forall i | 0 <= i < n :: p(s[i])
  {
    if s == "" || !p(s[0]) then 0 else 1 + Run(s[1..], p)
  }

  lemma {:induction false} RunIs(s: string, p: char -> bool, n: nat)
    requires n <= |s| && (n < |s| ==> !p(s[n])) && forall i | 0 <= i < n :: p(s[i])
    ensures Run(s, p) == n
  {
    if s != "" && p(s[0]) { RunIs(s[1..], p, n - 1); }
  }

  /** Where the quote that ends a string stands; two in a row are one inside it. */
  function StringEnd(s: string): (end: Option<nat>)
    ensures end.Some? ==> end.value < |s| && s[end.value] == '\''
    decreases |s|
  {
    if s == "" then None
    else if s[0] == '\'' && |s| > 1 && s[1] == '\'' then After(2, StringEnd(s[2..]))
    else if s[0] == '\'' then Some(0)
    else After(1, StringEnd(s[1..]))
  }

  function After(n: nat, at: Option<nat>): Option<nat> {
    if at.None? then None else Some(n + at.value)
  }

  function Undoubled(s: string): string
    decreases |s|
  {
    if s == "" then ""
    else if |s| > 1 && s[0] == '\'' && s[1] == '\'' then "'" + Undoubled(s[2..])
    else [s[0]] + Undoubled(s[1..])
  }

  function IntOf(text: string): int {
    if text != "" && text[0] == '-' then -DecimalValue(text[1..]) else DecimalValue(text)
  }

  // --------------------------------------------------------------- one token

  datatype Piece = Space | Token(tok: Tok, length: nat) | Bad(error: LexError)

  predicate StartsNumber(s: string) {
    s != "" && (IsDigit(s[0]) || (s[0] == '-' && |s| > 1 && IsDigit(s[1])))
  }

  /** How long the number at the front is, and whether it has a fraction. */
  function NumberEnd(s: string): (r: (nat, bool))
    requires StartsNumber(s)
    ensures 0 < r.0 <= |s|
  {
    var sign := if s[0] == '-' then 1 else 0;
    var end := sign + Run(s[sign..], IsDigit);
    if end + 1 < |s| && s[end] == '.' && IsDigit(s[end + 1]) then (end + 1 + Run(s[end + 1..], IsDigit), true)
    else (end, false)
  }

  function NumberToken(text: string, float: bool, read: ReadFloat): Result<Tok, LexError> {
    if float then (match read(text) case None => Err(OutOfRange) case Some(f) => Ok(FloatTok(f)))
    else if MinInt <= IntOf(text) <= MaxInt then Ok(IntTok(IntOf(text)))
    else Err(OutOfRange)
  }

  function OpAt(s: string): (r: Option<(CmpOp, nat)>)
    requires s != ""
    ensures r.Some? ==> 0 < r.value.1 <= |s|
  {
    var second := if |s| > 1 then s[1] else ' ';
    if (s[0] == '<' && second == '>') || (s[0] == '!' && second == '=') then Some((Ne, 2))
    else if s[0] == '<' && second == '=' then Some((Le, 2))
    else if s[0] == '>' && second == '=' then Some((Ge, 2))
    else if s[0] == '<' then Some((Lt, 1))
    else if s[0] == '>' then Some((Gt, 1))
    else if s[0] == '=' then Some((Eq, 1))
    else None
  }

  function First(s: string, read: ReadFloat): (piece: Piece)
    requires s != ""
    ensures piece.Token? ==> 0 < piece.length <= |s|
  {
    var c := s[0];
    if c == ' ' || c == '\t' || c == '\r' || c == '\n' then Space
    else if c == '(' then Token(LParen, 1)
    else if c == ')' then Token(RParen, 1)
    else if c == ',' then Token(Comma, 1)
    else if c == '\'' then
      match StringEnd(s[1..])
      case None => Bad(UnterminatedString)
      case Some(end) => Token(StrTok(Undoubled(s[1..][..end])), end + 2)
    else if StartsNumber(s) then
      var (end, float) := NumberEnd(s);
      match NumberToken(s[..end], float, read)
      case Err(x) => Bad(x)
      case Ok(tok) => Token(tok, end)
    else if WordStart(c) then
      Token(Ident(s[..1 + Run(s[1..], WordPart)]), 1 + Run(s[1..], WordPart))
    else if c == '<' || c == '>' || c == '=' || c == '!' then
      match OpAt(s)
      case None => Bad(UnexpectedCharacter)
      case Some((op, n)) => Token(OpTok(op), n)
    else if c in "~|&%*+/" then Bad(UnsupportedOperator)
    else Bad(UnexpectedCharacter)
  }

  // ---------------------------------------------------------------- all of them

  type Lexed = Result<seq<Tok>, LexError>

  function Before(ts: seq<Tok>, r: Lexed): Lexed {
    match r
    case Err(x) => Err(x)
    case Ok(more) => Ok(ts + more)
  }

  function Lex(s: string, read: ReadFloat): Lexed
    decreases |s|
  {
    if s == "" then Ok([])
    else
      match First(s, read)
      case Space => Lex(s[1..], read)
      case Bad(x) => Err(x)
      case Token(tok, n) => Before([tok], Lex(s[n..], read))
  }

  lemma BeforeBefore(a: seq<Tok>, b: seq<Tok>, r: Lexed)
    ensures Before(a, Before(b, r)) == Before(a + b, r)
    ensures Before([], r) == r
  {
    if r.Ok? {
      assert a + (b + r.value) == a + b + r.value;
      assert [] + r.value == r.value;
    }
  }

  // ----------------------------------------------------------------- the scanner

  method ScanRun(src: string, from: nat, p: char -> bool) returns (end: nat)
    requires from <= |src|
    ensures from <= end <= |src| && end - from == Run(src[from..], p)
  {
    end := from;
    while end < |src| && p(src[end])
      invariant from <= end <= |src|
      invariant forall i | from <= i < end :: p(src[i])
    {
      end := end + 1;
    }
    RunIs(src[from..], p, end - from);
  }

  lemma {:induction false} StringEndStep(s: string)
    ensures s == "" ==> StringEnd(s) == None
    ensures |s| > 1 && s[0] == '\'' && s[1] == '\'' ==> StringEnd(s) == After(2, StringEnd(s[2..]))
    ensures s != "" && s[0] == '\'' && !(|s| > 1 && s[1] == '\'') ==> StringEnd(s) == Some(0)
    ensures s != "" && s[0] != '\'' ==> StringEnd(s) == After(1, StringEnd(s[1..]))
  {
  }

  method ScanString(src: string, from: nat) returns (end: Option<nat>)
    requires from <= |src|
    ensures end == After(from, StringEnd(src[from..]))
  {
    var at := from;
    hide StringEnd;
    while true
      invariant from <= at <= |src|
      invariant After(from, StringEnd(src[from..])) == After(at, StringEnd(src[at..]))
      decreases |src| - at
    {
      StringEndStep(src[at..]);
      if at == |src| { return None; }
      if src[at] == '\'' && at + 1 < |src| && src[at + 1] == '\'' {
        assert src[at..][2..] == src[at + 2..];
        at := at + 2;
      } else if src[at] == '\'' {
        return Some(at);
      } else {
        assert src[at..][1..] == src[at + 1..];
        at := at + 1;
      }
    }
  }

  method ScanNumber(src: string, start: nat, read: ReadFloat) returns (tok: Result<Tok, LexError>, end: nat)
    requires start < |src| && StartsNumber(src[start..])
    ensures var (n, float) := NumberEnd(src[start..]);
            end == start + n && tok == NumberToken(src[start..][..n], float, read)
  {
    hide Run, NumberToken;
    var s := src[start..];
    var digitsAt := if src[start] == '-' then start + 1 else start;
    end := ScanRun(src, digitsAt, IsDigit);
    assert s[digitsAt - start..] == src[digitsAt..];
    assert end < |src| ==> s[end - start] == src[end];
    assert end + 1 < |src| ==> s[end + 1 - start] == src[end + 1];
    var isFloat := false;
    if end + 1 < |src| && src[end] == '.' && IsDigit(src[end + 1]) {
      isFloat := true;
      assert s[end - start + 1..] == src[end + 1..];
      end := ScanRun(src, end + 1, IsDigit);
    }
    assert NumberEnd(s) == (end - start, isFloat);
    tok := NumberToken(s[..end - start], isFloat, read);
  }

  method Tokenize(src: string, read: ReadFloat) returns (r: Lexed)
    ensures r == Lex(src, read)
  {
    var tokens: seq<Tok> := [];
    var i := 0;
    assert src[0..] == src;
    BeforeBefore([], [], Lex(src, read));
    while i < |src|
      invariant i <= |src|
      invariant Lex(src, read) == Before(tokens, Lex(src[i..], read))
    {
      var s := src[i..];
      var piece;
      piece, i := ScanOne(src, i, read);
      match piece
      case Space =>
      case Bad(x) => return Err(x);
      case Token(tok, _) =>
        BeforeBefore(tokens, [tok], Lex(src[i..], read));
        tokens := tokens + [tok];
    }
    assert tokens + [] == tokens;
    return Ok(tokens);
  }

  /** One turn of the scanner: the token at `i`, and where the next begins. */
  method ScanOne(src: string, i: nat, read: ReadFloat) returns (piece: Piece, next: nat)
    requires i < |src|
    ensures piece == First(src[i..], read)
    ensures i < next <= |src|
    ensures piece.Space? ==> src[next..] == src[i..][1..]
    ensures piece.Token? ==> src[next..] == src[i..][piece.length..]
  {
    hide Run, StringEnd, Undoubled, NumberEnd, NumberToken, OpAt;
    var s := src[i..];
    next := i + 1;
    match src[i]
    case ' ' | '\t' | '\r' | '\n' => piece := Space;
    case '(' => piece := Token(LParen, 1);
    case ')' => piece := Token(RParen, 1);
    case ',' => piece := Token(Comma, 1);
    case '\'' =>
      var end := ScanString(src, i + 1);
      assert s[1..] == src[i + 1..];
      if end.None? { return Bad(UnterminatedString), next; }
      assert s[1..][..end.value - i - 1] == src[i + 1..end.value];
      piece := Token(StrTok(Undoubled(src[i + 1..end.value])), end.value + 1 - i);
      next := end.value + 1;
    case c =>
      if StartsNumber(s) {
        var tok;
        tok, next := ScanNumber(src, i, read);
        piece := match tok case Err(x) => Bad(x) case Ok(t) => Token(t, next - i);
      } else if WordStart(c) {
        next := ScanRun(src, i + 1, WordPart);
        assert s[1..] == src[i + 1..] && src[i..next] == s[..next - i];
        piece := Token(Ident(src[i..next]), next - i);
      } else if c == '<' || c == '>' || c == '=' || c == '!' {
        var op := OpAt(s);
        if op.None? { return Bad(UnexpectedCharacter), next; }
        piece, next := Token(OpTok(op.value.0), op.value.1), i + op.value.1;
      } else if c in "~|&%*+/" {
        piece := Bad(UnsupportedOperator);
      } else {
        piece := Bad(UnexpectedCharacter);
      }
  }
}
