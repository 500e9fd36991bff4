/** What a comparison decides of a row, over the values themselves. */
module FilterComparisons {
  import opened Wrappers
  import opened FilterSyntax
  import opened FilterLexer
  import opened FilterEval
  import opened FilterText

  function Says(t: bool): Truth {
    if t then True else False
  }

  // ------------------------------------------------------------------ integers

  /** An integer column against an integer literal, as integers compare. */
  lemma IntegersCompare(c: string, doc: Doc, fl: Floats, i: int, n: int)
    requires c in doc && doc[c] == Integer(i)
    ensures Meaning(Cmp(c, Eq, Int(n)), doc, fl) == Says(i == n)
    ensures Meaning(Cmp(c, Ne, Int(n)), doc, fl) == Says(i != n)
    ensures Meaning(Cmp(c, Lt, Int(n)), doc, fl) == Says(i < n)
    ensures Meaning(Cmp(c, Le, Int(n)), doc, fl) == Says(i <= n)
    ensures Meaning(Cmp(c, Gt, Int(n)), doc, fl) == Says(i > n)
    ensures Meaning(Cmp(c, Ge, Int(n)), doc, fl) == Says(i >= n)
  {
  }

  /** `text` is the integer in decimals, perhaps signed, perhaps with leading
      zeros. */
  ghost predicate Decimal(text: string, i: int) {
    exists sign, zeros, n :: DecimalIs(text, i, sign, zeros, n)
  }

  ghost predicate DecimalIs(text: string, i: int, sign: string, zeros: string, n: nat) {
    && text == sign + (zeros + DigitsOf(n)) && (forall j | 0 <= j < |zeros| :: zeros[j] == '0')
    && ((i == n && (sign == "" || sign == "+")) || (-i == n && sign == "-"))
  }

  lemma {:induction false} LeadingZeros(zeros: string, digits: string)
    requires forall j | 0 <= j < |zeros| :: zeros[j] == '0'
    ensures DecimalValue(zeros + digits) == DecimalValue(digits)
  {
    if digits != "" {
      assert (zeros + digits)[..|zeros + digits| - 1] == zeros + digits[..|digits| - 1];
      LeadingZeros(zeros, digits[..|digits| - 1]);
    } else if zeros != "" {
      LeadingZeros(zeros[..|zeros| - 1], "");
      assert zeros + "" == zeros && zeros[..|zeros| - 1] + "" == zeros[..|zeros| - 1];
    }
  }

  lemma {:induction false} DecimalIsRead(text: string, i: int)
    requires Decimal(text, i) && MinWide <= i <= MaxWide
    ensures WideInt(text) == Some(i)
  {
    var sign, zeros, n :| DecimalIs(text, i, sign, zeros, n);
    var digits := zeros + DigitsOf(n);
    DigitsRead(n);
    LeadingZeros(zeros, DigitsOf(n));
    assert forall j | 0 <= j < |digits| :: IsDigit(digits[j]);
    hide DigitsOf, DecimalValue;
    SignedIsRead(sign, digits);
  }

  lemma {:induction false} SignedIsRead(sign: string, digits: string)
    requires (sign == "" || sign == "+" || sign == "-") && AllDigits(digits)
    requires var v := DecimalValue(digits); MinWide <= (if sign == "-" then -v else v) <= MaxWide
    ensures var v := DecimalValue(digits); WideInt(sign + digits) == Some(if sign == "-" then -v else v)
  {
    hide DecimalValue;
    var s := sign + digits;
    if sign == "" {
      assert s == digits && IsDigit(s[0]);
    } else {
      assert s[0] == sign[0] && s[1..] == digits;
    }
  }

  /** An integer of at most 128 bits. */
  predicate Wide(i: int) {
    -170141183460469231731687303715884105728 <= i <= 170141183460469231731687303715884105727
  }

  lemma NumericText(text: string, i: int, fl: Floats)
    requires Decimal(text, i)
    requires Wide(i)
    ensures NumOfText(text, fl) == Some(Exact(i))
  {
    hide Decimal, WideInt;
    DecimalIsRead(text, i);
  }

  /** A number kept as text compares by its value: exactly, while it is an integer
      of at most 128 bits. */
  lemma NumericTextsCompare(c: string, doc: Doc, fl: Floats, text: string, i: int, n: int)
    requires c in doc && doc[c] == Text(text) && Decimal(text, i)
    requires Wide(i)
    ensures Meaning(Cmp(c, Eq, Int(n)), doc, fl) == Says(i == n)
    ensures Meaning(Cmp(c, Ne, Int(n)), doc, fl) == Says(i != n)
    ensures Meaning(Cmp(c, Lt, Int(n)), doc, fl) == Says(i < n)
    ensures Meaning(Cmp(c, Le, Int(n)), doc, fl) == Says(i <= n)
    ensures Meaning(Cmp(c, Gt, Int(n)), doc, fl) == Says(i > n)
    ensures Meaning(Cmp(c, Ge, Int(n)), doc, fl) == Says(i >= n)
  {
    var same := doc[c := Integer(i)];
    IntegersCompare(c, same, fl, i, n);
    forall op ensures Meaning(Cmp(c, op, Int(n)), doc, fl) == Meaning(Cmp(c, op, Int(n)), same, fl) {
      ComparesAsInteger(c, doc, fl, text, i, n, op);
    }
    hide *;
  }

  lemma ComparesAsInteger(c: string, doc: Doc, fl: Floats, text: string, i: int, n: int, op: CmpOp)
    requires c in doc && doc[c] == Text(text) && Decimal(text, i) && Wide(i)
    ensures Meaning(Cmp(c, op, Int(n)), doc, fl) == Meaning(Cmp(c, op, Int(n)), doc[c := Integer(i)], fl)
  {
    NumericText(text, i, fl);
    hide Decimal, NumOfText, Wide, Holds, OrderInts;
  }

  // -------------------------------------------------------------------- floats

  /** Infinities lie outside every number; NaN is not in order with anything. */
  ghost predicate Below(a: F64, b: F64) {
    match (a, b)
    case (Finite(x), Finite(y)) => x < y
    case (Infinite(negative), Finite(_)) => negative
    case (Finite(_), Infinite(negative)) => !negative
    case (Infinite(m), Infinite(n)) => m && !n
    case _ => false
  }

  /** What a value is as a float beside a float literal, if anything. */
  ghost predicate Float64(value: Json, fl: Floats, f: F64) {
    match value
    case Integer(i) => f == fl.nearest(i)
    case Real(r) => f == Finite(r)
    case Text(s) => if WideInt(s).Some? then f == fl.nearest(WideInt(s).value) else fl.parse(s) == Some(f)
    case _ => false
  }

  /** Against a float literal a number, or a text that spells one, compares as
      floats do. */
  lemma FloatsCompare(c: string, doc: Doc, fl: Floats, f: F64, r: real)
    requires c in doc && Float64(doc[c], fl, f) && f != NaN
    ensures Meaning(Cmp(c, Eq, Float(r)), doc, fl) == Says(f == Finite(r))
    ensures Meaning(Cmp(c, Ne, Float(r)), doc, fl) == Says(f != Finite(r))
    ensures Meaning(Cmp(c, Lt, Float(r)), doc, fl) == Says(Below(f, Finite(r)))
    ensures Meaning(Cmp(c, Le, Float(r)), doc, fl) == Says(!Below(Finite(r), f))
    ensures Meaning(Cmp(c, Gt, Float(r)), doc, fl) == Says(Below(Finite(r), f))
    ensures Meaning(Cmp(c, Ge, Float(r)), doc, fl) == Says(!Below(f, Finite(r)))
  {
    hide WideInt;
  }

  /** And so does a float against an integer literal, the integer as the float
      nearest it. */
  lemma FloatAgainstInteger(c: string, doc: Doc, fl: Floats, f: F64, n: int)
    requires c in doc && Float64(doc[c], fl, f) && f != NaN && fl.nearest(n) != NaN
    requires doc[c].Real? || (doc[c].Text? && WideInt(doc[c].text).None?)
    ensures Meaning(Cmp(c, Eq, Int(n)), doc, fl) == Says(f == fl.nearest(n))
    ensures Meaning(Cmp(c, Ne, Int(n)), doc, fl) == Says(f != fl.nearest(n))
    ensures Meaning(Cmp(c, Lt, Int(n)), doc, fl) == Says(Below(f, fl.nearest(n)))
    ensures Meaning(Cmp(c, Le, Int(n)), doc, fl) == Says(!Below(fl.nearest(n), f))
    ensures Meaning(Cmp(c, Gt, Int(n)), doc, fl) == Says(Below(fl.nearest(n), f))
    ensures Meaning(Cmp(c, Ge, Int(n)), doc, fl) == Says(!Below(f, fl.nearest(n)))
  {
    hide WideInt;
  }

  // ----------------------------------------------------------------------- text

  /** At the first place the two differ `a` has the lower character, or has ended. */
  ghost predicate Precedes(a: string, b: string) {
    exists i: nat :: i <= |a| && i < |b| && a[..i] == b[..i] && (i == |a| || a[i] < b[i])
  }

  lemma {:induction false} PrecedesRest(a: string, b: string)
    requires a != "" && b != "" && a[0] == b[0]
    ensures Precedes(a, b) <==> Precedes(a[1..], b[1..])
  {
    if Precedes(a, b) {
      var i: nat :| i <= |a| && i < |b| && a[..i] == b[..i] && (i == |a| || a[i] < b[i]);
      assert i > 0;
      assert a[1..][..i - 1] == a[..i][1..] && b[1..][..i - 1] == b[..i][1..];
    }
    if Precedes(a[1..], b[1..]) {
      var i: nat :| i <= |a[1..]| && i < |b[1..]| && a[1..][..i] == b[1..][..i] && (i == |a[1..]| || a[1..][i] < b[1..][i]);
      assert a[..i + 1] == [a[0]] + a[1..][..i] && b[..i + 1] == [b[0]] + b[1..][..i];
    }
  }

  lemma {:induction false} OrderTextIs(a: string, b: string)
    ensures OrderText(a, b) == Less <==> Precedes(a, b)
    ensures OrderText(a, b) == Greater <==> Precedes(b, a)
    ensures OrderText(a, b) == Equal <==> a == b
  {
    OrderTextIsOrder(a, b);
    if a != "" && b != "" && a[0] == b[0] {
      OrderTextIs(a[1..], b[1..]);
      PrecedesRest(a, b);
      PrecedesRest(b, a);
    } else {
      assert a == "" && b != "" ==> a[..0] == b[..0];
      assert b == "" && a != "" ==> b[..0] == a[..0];
      if a != "" && b != "" { Apart(a, b); }
    }
  }

  lemma {:induction false} Apart(a: string, b: string)
    requires a != "" && b != "" && a[0] != b[0]
    ensures Precedes(a, b) <==> a[0] < b[0]
    ensures Precedes(b, a) <==> b[0] < a[0]
  {
    assert a[..0] == b[..0];
    assert forall i: nat | 0 < i <= |a| && i < |b| :: a[..i][0] == a[0] && b[..i][0] == b[0];
    assert forall i: nat | 0 < i <= |b| && i < |a| :: a[..i][0] == a[0] && b[..i][0] == b[0];
  }

  /** Text against text, character by character. */
  lemma TextsCompare(c: string, doc: Doc, fl: Floats, s: string, t: string)
    requires c in doc && doc[c] == Text(s)
    ensures Meaning(Cmp(c, Eq, Str(t)), doc, fl) == Says(s == t)
    ensures Meaning(Cmp(c, Ne, Str(t)), doc, fl) == Says(s != t)
    ensures Meaning(Cmp(c, Lt, Str(t)), doc, fl) == Says(Precedes(s, t))
    ensures Meaning(Cmp(c, Le, Str(t)), doc, fl) == Says(!Precedes(t, s))
    ensures Meaning(Cmp(c, Gt, Str(t)), doc, fl) == Says(Precedes(t, s))
    ensures Meaning(Cmp(c, Ge, Str(t)), doc, fl) == Says(!Precedes(s, t))
  {
    OrderTextIs(s, t);
    hide OrderText, Precedes;
  }

  // ------------------------------------------------------------------- booleans

  /** FALSE is below TRUE. */
  lemma BooleansCompare(c: string, doc: Doc, fl: Floats, a: bool, b: bool)
    requires c in doc && doc[c] == Boolean(a)
    ensures Meaning(Cmp(c, Eq, Bool(b)), doc, fl) == Says(a == b)
    ensures Meaning(Cmp(c, Ne, Bool(b)), doc, fl) == Says(a != b)
    ensures Meaning(Cmp(c, Lt, Bool(b)), doc, fl) == Says(!a && b)
    ensures Meaning(Cmp(c, Le, Bool(b)), doc, fl) == Says(a ==> b)
    ensures Meaning(Cmp(c, Gt, Bool(b)), doc, fl) == Says(a && !b)
    ensures Meaning(Cmp(c, Ge, Bool(b)), doc, fl) == Says(b ==> a)
  {
  }

  // -------------------------------------------------------------------- UNKNOWN

  /** Nothing to compare, or two things that do not compare. */
  ghost predicate Incomparable(doc: Doc, c: string, l: Literal, fl: Floats) {
    if c !in doc then true
    else
      match doc[c]
      case Null => true
      case Nested => true
      case Boolean(_) => !l.Bool?
      case Integer(i) => if l.Float? then fl.nearest(i) == NaN else !l.Int?
      case Real(_) => if l.Int? then fl.nearest(l.value) == NaN else !l.Float?
      case Text(s) =>
        if l.Bool? then true
        else if l.Str? then false
        else
          match WideInt(s)
          case Some(i) => l.Float? && fl.nearest(i) == NaN
          case None => fl.parse(s) == None || fl.parse(s) == Some(NaN) || (l.Int? && fl.nearest(l.value) == NaN)
  }

  /** A comparison is UNKNOWN exactly then, whatever its operator; so is every IN
      and NOT IN of such literals alone. */
  lemma UnknownExactlyWhen(c: string, op: CmpOp, l: Literal, doc: Doc, fl: Floats)
    ensures Meaning(Cmp(c, op, l), doc, fl) == Unknown <==> Incomparable(doc, c, l, fl)
  {
    hide WideInt;
  }

  /** What spells no integer: a text with anything but digits behind its sign. */
  lemma NotAnInteger(text: string)
    requires text == "" || (exists i :: 1 <= i < |text| && !('0' <= text[i] <= '9'))
             || (text[0] !in "+-0123456789") || text == "+" || text == "-"
    ensures WideInt(text) == None
  {
    if text != "" {
      assert text[1..] == "" || forall i | 1 <= i < |text| :: text[1..][i - 1] == text[i];
    }
  }

  // ------------------------------------------------------------ the connectives

  /** AND, OR and NOT of three values, IS NULL of what is there. */
  lemma ConnectivesAre(a: Expr, b: Expr, c: string, doc: Doc, fl: Floats)
    ensures var x, y := Meaning(a, doc, fl), Meaning(b, doc, fl);
            && (Meaning(And(a, b), doc, fl) == True <==> x == True && y == True)
            && (Meaning(And(a, b), doc, fl) == False <==> x == False || y == False)
            && (Meaning(Or(a, b), doc, fl) == True <==> x == True || y == True)
            && (Meaning(Or(a, b), doc, fl) == False <==> x == False && y == False)
            && (Meaning(Not(a), doc, fl) == True <==> x == False)
            && (Meaning(Not(a), doc, fl) == False <==> x == True)
    ensures Meaning(IsNull(c, false), doc, fl) == Says(c !in doc || doc[c] == Null)
    ensures Meaning(IsNull(c, true), doc, fl) == Says(c in doc && doc[c] != Null)
  {
  }
}
