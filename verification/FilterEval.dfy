/** Deciding a filter on one row: SQL's three truth values, as sections 8.4 and
    8.12 of ISO/IEC 9075:1992 give them, and the evaluator that has to agree. */
module FilterEval {
  import opened Wrappers
  import opened FilterSyntax
  import opened FilterGrammar
  import opened FilterDerivation

  datatype Ordering = Less | Equal | Greater

  /** A float a comparison can meet. */
  datatype F64 = Finite(number: real) | Infinite(negative: bool) | NaN

  datatype Json = Null | Boolean(truth: bool) | Integer(value: int) | Real(number: real) | Text(text: string) | Nested

  /** A row's columns; one the source did not send is absent. */
  type Doc = map<string, Json>

  /** What the platform's floats do: the float nearest an integer, and the float
      a text spells, if it spells one. */
  datatype Floats = Floats(nearest: int -> F64, parse: string -> Option<F64>)

  // --------------------------------------------------------------- comparison

  datatype Num = Exact(value: int) | Approximate(float: F64)

  function OrderInts(a: int, b: int): Ordering {
    if a < b then Less else if a == b then Equal else Greater
  }

  function OrderReals(a: real, b: real): Ordering {
    if a < b then Less else if a == b then Equal else Greater
  }

  function OrderFloats(a: F64, b: F64): Option<Ordering> {
    match (a, b)
    case (NaN, _) => None
    case (_, NaN) => None
    case (Finite(x), Finite(y)) => Some(OrderReals(x, y))
    case (Infinite(m), Infinite(n)) => Some(if m == n then Equal else if m then Less else Greater)
    case (Infinite(m), Finite(_)) => Some(if m then Less else Greater)
    case (Finite(_), Infinite(n)) => Some(if n then Greater else Less)
  }

  function AsFloat(n: Num, fl: Floats): F64 {
    match n
    case Exact(i) => fl.nearest(i)
    case Approximate(f) => f
  }

  function OrderNums(a: Num, b: Num, fl: Floats): Option<Ordering> {
    match (a, b)
    case (Exact(x), Exact(y)) => Some(OrderInts(x, y))
    case _ => OrderFloats(AsFloat(a, fl), AsFloat(b, fl))
  }

  /** By characters, first difference first; a prefix comes before. */
  function OrderText(a: string, b: string): Ordering {
    if a == "" then (if b == "" then Equal else Less)
    else if b == "" then Greater
    else if a[0] < b[0] then Less
    else if a[0] > b[0] then Greater
    else OrderText(a[1..], b[1..])
  }

  function OrderBools(a: bool, b: bool): Ordering {
    if a == b then Equal else if b then Less else Greater
  }

  const MinWide := -0x8000_0000_0000_0000_0000_0000_0000_0000
  const MaxWide := 0x7fff_ffff_ffff_ffff_ffff_ffff_ffff_ffff

  predicate AllDigits(s: string) {
    s != "" && forall i | 0 <= i < |s| :: IsDigit(s[i])
  }

  /** An optional sign and digits, within 128 bits. */
  function WideInt(s: string): Option<int> {
    var signed := s != "" && (s[0] == '-' || s[0] == '+');
    var digits := if signed then s[1..] else s;
    if !AllDigits(digits) then None
    else
      var n := if s[0] == '-' then -DecimalValue(digits) else DecimalValue(digits);
      if MinWide <= n <= MaxWide then Some(n) else None
  }

  function NumOfText(s: string, fl: Floats): Option<Num> {
    match WideInt(s)
    case Some(i) => Some(Exact(i))
    case None => match fl.parse(s) case Some(f) => Some(Approximate(f)) case None => None
  }

  function NumOfLiteral(l: Literal): Num
    requires l.Int? || l.Float?
  {
    match l
    case Int(i) => Exact(i)
    case Float(f) => Approximate(Finite(f))
  }

  /** How a value stands to a literal; `None` where SQL says UNKNOWN. */
  function Compare(value: Option<Json>, l: Literal, fl: Floats): Option<Ordering> {
    match value
    case None => None
    case Some(Null) => None
    case Some(Text(s)) =>
      if l.Str? then Some(OrderText(s, l.text))
      else if l.Int? || l.Float? then
        (match NumOfText(s, fl) case None => None case Some(n) => OrderNums(n, NumOfLiteral(l), fl))
      else None
    case Some(Integer(i)) => if l.Int? || l.Float? then OrderNums(Exact(i), NumOfLiteral(l), fl) else None
    case Some(Real(r)) => if l.Int? || l.Float? then OrderNums(Approximate(Finite(r)), NumOfLiteral(l), fl) else None
    case Some(Boolean(b)) => if l.Bool? then Some(OrderBools(b, l.truth)) else None
    case Some(Nested) => None
  }

  function Holds(op: CmpOp, o: Ordering): bool {
    match op
    case Eq => o == Equal
    case Ne => o != Equal
    case Lt => o == Less
    case Le => o != Greater
    case Gt => o == Greater
    case Ge => o != Less
  }

  // ----------------------------------------------------------- SQL's three values

  datatype Truth = False | Unknown | True {
    function Rank(): nat {
      match this case False => 0 case Unknown => 1 case True => 2
    }
  }

  /** AND is the lesser of two truths, OR the greater, NOT turns them about. */
  function Lesser(a: Truth, b: Truth): Truth { if a.Rank() <= b.Rank() then a else b }
  function Greatest(a: Truth, b: Truth): Truth { if a.Rank() >= b.Rank() then a else b }
  function Turned(a: Truth): Truth {
    match a case False => True case Unknown => Unknown case True => False
  }

  function Lookup(doc: Doc, column: string): Option<Json> {
    if column in doc then Some(doc[column]) else None
  }

  function CmpTruth(value: Option<Json>, op: CmpOp, l: Literal, fl: Floats): Truth {
    match Compare(value, l, fl)
    case None => Unknown
    case Some(o) => if Holds(op, o) then True else False
  }

  /** `v IN (a, b, ...)` is `v = a OR v = b OR ...`. */
  function InTruth(value: Option<Json>, list: seq<Literal>, fl: Floats): Truth {
    if list == [] then False
    else Greatest(InTruth(value, list[..|list| - 1], fl), CmpTruth(value, Eq, list[|list| - 1], fl))
  }

  function Meaning(e: Expr, doc: Doc, fl: Floats): Truth {
    match e
    case Cmp(c, op, l) => CmpTruth(Lookup(doc, c), op, l, fl)
    case IsNull(c, negated) =>
      var isNull := Lookup(doc, c).None? || Lookup(doc, c).value.Null?;
      if isNull != negated then True else False
    case In(c, list, negated) =>
      var t := InTruth(Lookup(doc, c), list, fl);
      if negated then Turned(t) else t
    case And(a, b) => Lesser(Meaning(a, doc, fl), Meaning(b, doc, fl))
    case Or(a, b) => Greatest(Meaning(a, doc, fl), Meaning(b, doc, fl))
    case Not(a) => Turned(Meaning(a, doc, fl))
  }

  function Known(t: Truth): Option<bool> {
    match t case False => Some(false) case Unknown => None case True => Some(true)
  }

  // -------------------------------------------------------------- the evaluator

  /** The evaluator computes SQL's meaning; the list is left at the first match. */
  method Eval(e: Expr, doc: Doc, fl: Floats) returns (r: Option<bool>)
    ensures r == Known(Meaning(e, doc, fl))
  {
    match e
    case Cmp(c, op, l) =>
      var o := Compare(Lookup(doc, c), l, fl);
      r := if o.None? then None else Some(Holds(op, o.value));
    case IsNull(c, negated) =>
      var value := Lookup(doc, c);
      var isNull := value.None? || value.value.Null?;
      r := Some(isNull != negated);
    case In(c, list, negated) =>
      var value := Lookup(doc, c);
      var unknown := false;
      for i := 0 to |list|
        invariant InTruth(value, list[..i], fl) == if unknown then Unknown else False
      {
        assert list[..i + 1][..i] == list[..i];
        var o := Compare(value, list[i], fl);
        if o == Some(Equal) {
          FoundIsTrue(value, list, i, fl);
          return Some(!negated);
        }
        if o.None? { unknown := true; }
      }
      assert list[..|list|] == list;
      r := if unknown then None else Some(negated);
    case And(a, b) =>
      var x := Eval(a, doc, fl);
      var y := Eval(b, doc, fl);
      r := if x == Some(false) || y == Some(false) then Some(false)
           else if x.None? || y.None? then None
           else Some(true);
    case Or(a, b) =>
      var x := Eval(a, doc, fl);
      var y := Eval(b, doc, fl);
      r := if x == Some(true) || y == Some(true) then Some(true)
           else if x.None? || y.None? then None
           else Some(false);
    case Not(a) =>
      var x := Eval(a, doc, fl);
      r := if x.None? then None else Some(!x.value);
  }

  /** Leaving the list early loses nothing: one TRUE makes the whole OR true. */
  lemma {:induction false} FoundIsTrue(value: Option<Json>, list: seq<Literal>, i: nat, fl: Floats)
    requires i < |list| && Compare(value, list[i], fl) == Some(Equal)
    ensures InTruth(value, list, fl) == True
  {
    var n := |list| - 1;
    if i < n { FoundIsTrue(value, list[..n], i, fl); }
  }

  /** Only TRUE keeps a row, and only an object has columns. */
  method Matches(e: Expr, doc: Option<Doc>, fl: Floats) returns (kept: bool)
    ensures kept <==> doc.Some? && Meaning(e, doc.value, fl) == True
  {
    if doc.None? { return false; }
    var t := Eval(e, doc.value, fl);
    return t == Some(true);
  }

  // ----------------------------------------------------------------- its laws

  /** A filter sees no column but those it names. */
  lemma {:induction false} SeesOnlyItsColumns(e: Expr, a: Doc, b: Doc, fl: Floats)
    requires forall c | c in ColumnsIn(e) :: Lookup(a, c) == Lookup(b, c)
    ensures Meaning(e, a, fl) == Meaning(e, b, fl)
  {
    match e
    case Cmp(c, _, _) => assert c in ColumnsIn(e);
    case IsNull(c, _) => assert c in ColumnsIn(e);
    case In(c, _, _) => assert c in ColumnsIn(e);
    case And(x, y) =>
      SeesOnlyItsColumns(x, a, b, fl);
      SeesOnlyItsColumns(y, a, b, fl);
    case Or(x, y) =>
      SeesOnlyItsColumns(x, a, b, fl);
      SeesOnlyItsColumns(y, a, b, fl);
    case Not(x) => SeesOnlyItsColumns(x, a, b, fl);
  }

  /** The equalities of a list, written out with OR. */
  function Spelled(c: string, list: seq<Literal>): Expr
    requires list != []
  {
    var last := Cmp(c, Eq, list[|list| - 1]);
    if |list| == 1 then last else Or(Spelled(c, list[..|list| - 1]), last)
  }

  /** IN is its equalities under OR, NOT IN their negation. */
  lemma {:induction false} InIsEqualities(c: string, list: seq<Literal>, doc: Doc, fl: Floats)
    requires list != []
    ensures Meaning(In(c, list, false), doc, fl) == Meaning(Spelled(c, list), doc, fl)
    ensures Meaning(In(c, list, true), doc, fl) == Meaning(Not(Spelled(c, list)), doc, fl)
  {
    if |list| > 1 { InIsEqualities(c, list[..|list| - 1], doc, fl); }
    else { assert list[..|list| - 1] == [] && InTruth(Lookup(doc, c), [], fl) == False; }
  }

  function Opposite(op: CmpOp): CmpOp {
    match op
    case Eq => Ne
    case Ne => Eq
    case Lt => Ge
    case Ge => Lt
    case Gt => Le
    case Le => Gt
  }

  /** NOT pushed inward to the comparisons. */
  function Pushed(e: Expr, negate: bool): Expr {
    match e
    case Cmp(c, op, l) => if negate then Cmp(c, Opposite(op), l) else e
    case IsNull(c, negated) => IsNull(c, negated != negate)
    case In(c, list, negated) => In(c, list, negated != negate)
    case And(a, b) => if negate then Or(Pushed(a, true), Pushed(b, true)) else And(Pushed(a, false), Pushed(b, false))
    case Or(a, b) => if negate then And(Pushed(a, true), Pushed(b, true)) else Or(Pushed(a, false), Pushed(b, false))
    case Not(a) => Pushed(a, !negate)
  }

  /** A NOT anywhere may be pushed to the comparisons: De Morgan's laws, double
      negation and opposite operators all hold with UNKNOWN in play. */
  lemma {:induction false} NotMayBePushed(e: Expr, negate: bool, doc: Doc, fl: Floats)
    ensures Meaning(Pushed(e, negate), doc, fl) ==
            if negate then Turned(Meaning(e, doc, fl)) else Meaning(e, doc, fl)
  {
    match e
    case Cmp(_, _, _) =>
    case IsNull(_, _) =>
    case In(_, _, _) =>
    case And(a, b) =>
      NotMayBePushed(a, negate, doc, fl);
      NotMayBePushed(b, negate, doc, fl);
    case Or(a, b) =>
      NotMayBePushed(a, negate, doc, fl);
      NotMayBePushed(b, negate, doc, fl);
    case Not(a) => NotMayBePushed(a, !negate, doc, fl);
  }

  /** However a database's grammar ranks AND, OR and NOT, the printed filter
      decides every row there as the evaluator decides it here. */
  lemma {:induction false} PrintedFilterMeansTheSame(e: Expr, d: Derivation, doc: Doc, fl: Floats)
    requires Readable(e) && Proper(d) && Yield(d) == Toks(e)
    ensures Meaning(Tree(d), doc, fl) == Meaning(e, doc, fl)
  {
    PrintedFormIsUnambiguous(e, d);
  }
}
