/** The row-filter language: its trees, its tokens and its printed form. */
module FilterSyntax {
  import opened Wrappers

  datatype CmpOp = Eq | Ne | Lt | Le | Gt | Ge

  datatype Literal = Str(text: string) | Int(value: int) | Float(number: real) | Bool(truth: bool)

  datatype Expr =
    | Cmp(column: string, op: CmpOp, literal: Literal)
    | IsNull(column: string, negated: bool)
    | In(column: string, list: seq<Literal>, negated: bool)
    | And(left: Expr, right: Expr)
    | Or(left: Expr, right: Expr)
    | Not(inner: Expr)

  datatype Tok =
    | Ident(name: string)
    | StrTok(text: string)
    | IntTok(value: int)
    | FloatTok(number: real)
    | OpTok(op: CmpOp)
    | LParen
    | RParen
    | Comma

  // ---------------------------------------------------------------- keywords

  function Upper(c: char): char {
    if 'a' <= c <= 'z' then c - 'a' + 'A' else c
  }

  predicate EqualIgnoringCase(a: string, b: string) {
    |a| == |b| && forall i | 0 <= i < |a| :: Upper(a[i]) == Upper(b[i])
  }

  const Keywords := ["AND", "OR", "NOT", "IS", "NULL", "IN", "TRUE", "FALSE"]
  const WordOperators := ["LIKE", "ILIKE", "BETWEEN", "SIMILAR", "ANY", "ALL", "EXISTS"]

  predicate IsKeyword(word: string) {
    exists i :: 0 <= i < |Keywords| && EqualIgnoringCase(word, Keywords[i])
  }

  predicate IsWordOperator(word: string) {
    exists i :: 0 <= i < |WordOperators| && EqualIgnoringCase(word, WordOperators[i])
  }

  predicate Spells(t: Tok, keyword: string) {
    t.Ident? && EqualIgnoringCase(t.name, keyword)
  }

  predicate KeywordAt(ts: seq<Tok>, keyword: string) {
    ts != [] && Spells(ts[0], keyword)
  }

  predicate TokenAt(ts: seq<Tok>, t: Tok) {
    ts != [] && ts[0] == t
  }

  function LiteralOf(t: Tok): Option<Literal> {
    if t.StrTok? then Some(Str(t.text))
    else if t.IntTok? then Some(Int(t.value))
    else if t.FloatTok? then Some(Float(t.number))
    else if Spells(t, "TRUE") then Some(Bool(true))
    else if Spells(t, "FALSE") then Some(Bool(false))
    else None
  }

  // ------------------------------------------------------------------ columns

  /** Every column named, in the order it is read. */
  function ColumnsIn(e: Expr): seq<string> {
    match e
    case Cmp(c, _, _) => [c]
    case IsNull(c, _) => [c]
    case In(c, _, _) => [c]
    case And(a, b) => ColumnsIn(a) + ColumnsIn(b)
    case Or(a, b) => ColumnsIn(a) + ColumnsIn(b)
    case Not(a) => ColumnsIn(a)
  }

  // -------------------------------------------------------------- printed form

  function OpText(op: CmpOp): string {
    match op
    case Eq => "="
    case Ne => "<>"
    case Lt => "<"
    case Le => "<="
    case Gt => ">"
    case Ge => ">="
  }

  function DigitsOf(n: nat): string {
    if n < 10 then [Digit(n)] else DigitsOf(n / 10) + [Digit(n % 10)]
  }

  function Digit(d: nat): (c: char)
    requires d < 10
    ensures '0' <= c <= '9'
  {
    '0' + d as char
  }

  function DecimalValue(digits: string): int {
    if digits == "" then 0
    else 10 * DecimalValue(digits[..|digits| - 1]) + (digits[|digits| - 1] as int - '0' as int)
  }

  function IntText(i: int): string {
    if i < 0 then "-" + DigitsOf(-i) else DigitsOf(i)
  }

  /** Quotes doubled, nothing else. */
  function Doubled(s: string): string {
    if s == "" then "" else (if s[0] == '\'' then "''" else [s[0]]) + Doubled(s[1..])
  }

  function QuoteStr(s: string): string {
    "'" + Doubled(s) + "'"
  }

  /** How a source spells identifiers, strings and floats. */
  datatype Dialect = Dialect(ident: string -> string, str: string -> string, float: real -> string)

  function RenderLiteral(l: Literal, d: Dialect): string {
    match l
    case Str(s) => d.str(s)
    case Int(i) => IntText(i)
    case Float(f) => d.float(f)
    case Bool(b) => if b then "TRUE" else "FALSE"
  }

  function RenderList(list: seq<Literal>, d: Dialect): string {
    if list == [] then ""
    else if |list| == 1 then RenderLiteral(list[0], d)
    else RenderLiteral(list[0], d) + ", " + RenderList(list[1..], d)
  }

  /** Every connective parenthesised. */
  function Render(e: Expr, d: Dialect): string {
    match e
    case Cmp(c, op, l) => d.ident(c) + " " + OpText(op) + " " + RenderLiteral(l, d)
    case IsNull(c, negated) => d.ident(c) + " IS " + (if negated then "NOT " else "") + "NULL"
    case In(c, list, negated) =>
      d.ident(c) + " " + (if negated then "NOT " else "") + "IN (" + RenderList(list, d) + ")"
    case And(a, b) => "(" + Render(a, d) + " AND " + Render(b, d) + ")"
    case Or(a, b) => "(" + Render(a, d) + " OR " + Render(b, d) + ")"
    case Not(a) => "(NOT " + Render(a, d) + ")"
  }

  // ------------------------------------------------------------ printed tokens

  function LiteralTok(l: Literal): Tok {
    match l
    case Str(s) => StrTok(s)
    case Int(i) => IntTok(i)
    case Float(f) => FloatTok(f)
    case Bool(b) => Ident(if b then "TRUE" else "FALSE")
  }

  function ListToks(list: seq<Literal>): seq<Tok> {
    if list == [] then []
    else if |list| == 1 then [LiteralTok(list[0])]
    else [LiteralTok(list[0]), Comma] + ListToks(list[1..])
  }

  function AtomToks(e: Expr): seq<Tok>
    requires e.Cmp? || e.IsNull? || e.In?
  {
    match e
    case Cmp(c, op, l) => [Ident(c), OpTok(op), LiteralTok(l)]
    case IsNull(c, negated) => [Ident(c), Ident("IS")] + (if negated then [Ident("NOT")] else []) + [Ident("NULL")]
    case In(c, list, negated) =>
      [Ident(c)] + (if negated then [Ident("NOT")] else []) + [Ident("IN"), LParen] + ListToks(list) + [RParen]
  }

  /** The tokens of the printed form. */
  function Toks(e: Expr): seq<Tok> {
    match e
    case And(a, b) => [LParen] + (Toks(a) + [Ident("AND")] + Toks(b)) + [RParen]
    case Or(a, b) => [LParen] + (Toks(a) + [Ident("OR")] + Toks(b)) + [RParen]
    case Not(a) => [LParen] + ([Ident("NOT")] + Toks(a)) + [RParen]
    case _ => AtomToks(e)
  }

  // ------------------------------------------------------- what can be printed

  predicate WordStart(c: char) {
    'A' <= c <= 'Z' || 'a' <= c <= 'z' || c == '_'
  }

  predicate WordPart(c: char) {
    WordStart(c) || IsDigit(c) || c == '$'
  }

  predicate IsDigit(c: char) {
    '0' <= c <= '9'
  }

  predicate PlainWord(w: string) {
    w != "" && WordStart(w[0]) && forall i | 0 <= i < |w| :: WordPart(w[i])
  }

  const MinInt := -0x8000_0000_0000_0000
  const MaxInt := 0x7fff_ffff_ffff_ffff

  predicate PlainLiteral(l: Literal) {
    match l
    case Int(i) => MinInt <= i <= MaxInt
    case Float(_) => false
    case _ => true
  }

  predicate PlainColumn(c: string) {
    PlainWord(c) && !IsKeyword(c)
  }

  /** A filter with plain identifiers and string, integer and boolean literals. */
  predicate Plain(e: Expr) {
    match e
    case Cmp(c, _, l) => PlainColumn(c) && PlainLiteral(l)
    case IsNull(c, _) => PlainColumn(c)
    case In(c, list, _) => PlainColumn(c) && list != [] && forall i | 0 <= i < |list| :: PlainLiteral(list[i])
    case And(a, b) => Plain(a) && Plain(b)
    case Or(a, b) => Plain(a) && Plain(b)
    case Not(a) => Plain(a)
  }
}
