/** What a filter's text may be made of: every spelling of every token, whatever
    the printer would have written, and the tokenizer against it. */
module FilterLexicon {
  import opened Wrappers
  import opened FilterSyntax
  import opened FilterLexer
  import opened FilterGrammar
  import opened FilterText

  // --------------------------------------------------------------- the spellings

  predicate Letter(c: char) {
    'a' <= c <= 'z' || 'A' <= c <= 'Z' || c == '_'
  }

  predicate Numeral(c: char) {
    c in "0123456789"
  }

  predicate Numerals(s: string) {
    s != "" && forall i | 0 <= i < |s| :: Numeral(s[i])
  }

  predicate WordText(w: string) {
    w != "" && Letter(w[0]) && forall i | 0 <= i < |w| :: Letter(w[i]) || Numeral(w[i]) || w[i] == '$'
  }

  predicate OpSpelling(op: CmpOp, text: string) {
    match op
    case Eq => text == "="
    case Ne => text == "<>" || text == "!="
    case Lt => text == "<"
    case Le => text == "<="
    case Gt => text == ">"
    case Ge => text == ">="
  }

  ghost predicate IntSpelling(text: string, i: int) {
    && -9223372036854775808 <= i <= 9223372036854775807
    && exists digits: string :: Numerals(digits)
         && ((text == digits && i == DecimalValue(digits)) || (text == "-" + digits && i == -DecimalValue(digits)))
  }

  predicate Sign(sign: string) {
    sign == "" || sign == "-"
  }

  ghost predicate FloatSpelling(text: string, number: real, read: ReadFloat) {
    && read(text) == Some(number)
    && exists sign: string, whole: string, fraction: string ::
         Sign(sign) && Numerals(whole) && Numerals(fraction) && text == sign + (whole + ("." + fraction))
  }

  /** `text` is a way to write the token. */
  ghost predicate Spelling(text: string, tok: Tok, read: ReadFloat) {
    match tok
    case LParen => text == "("
    case RParen => text == ")"
    case Comma => text == ","
    case OpTok(op) => OpSpelling(op, text)
    case Ident(name) => text == name && WordText(name)
    case StrTok(inside) => text == "'" + Doubled(inside) + "'"
    case IntTok(i) => IntSpelling(text, i)
    case FloatTok(number) => FloatSpelling(text, number, read)
  }

  /** What follows would be part of the same token. */
  predicate GoesOn(text: string, tok: Tok, rest: string) {
    rest != "" &&
      match tok
      case Ident(_) => Letter(rest[0]) || Numeral(rest[0]) || rest[0] == '$'
      case StrTok(_) => rest[0] == '\''
      case IntTok(_) => Numeral(rest[0]) || (rest[0] == '.' && |rest| > 1 && Numeral(rest[1]))
      case FloatTok(_) => Numeral(rest[0])
      case OpTok(_) => (text == "<" && (rest[0] == '=' || rest[0] == '>')) || (text == ">" && rest[0] == '=')
      case _ => false
  }

  // ------------------------------------------------------- spelled, so it is read

  lemma CharactersAgree(c: char)
    ensures Letter(c) == WordStart(c) && Numeral(c) == IsDigit(c)
    ensures WordPart(c) == (Letter(c) || Numeral(c) || c == '$')
  {
  }

  lemma {:induction false} WordIsRead(w: string, rest: string, read: ReadFloat)
    requires WordText(w) && !GoesOn(w, Ident(w), rest)
    ensures First(w + rest, read) == Token(Ident(w), |w|)
  {
    var s := w + rest;
    CharactersAgree(w[0]);
    forall i | 0 <= i < |w| ensures WordPart(w[i]) { CharactersAgree(w[i]); }
    if rest != "" { CharactersAgree(rest[0]); }
    RunIs(s[1..], WordPart, |w| - 1);
    assert s[..|w|] == w;
  }

  lemma {:induction false} StringIsRead(inside: string, rest: string, read: ReadFloat)
    requires !GoesOn("", StrTok(inside), rest)
    ensures First("'" + Doubled(inside) + "'" + rest, read) == Token(StrTok(inside), |Doubled(inside)| + 2)
  {
    var d := Doubled(inside);
    var s := "'" + d + "'" + rest;
    QuoteEnds(inside, rest);
    hide Doubled, Undoubled, StringEnd;
    StringStands(d, rest);
  }

  lemma {:induction false} StringStands(d: string, rest: string)
    ensures var s := "'" + d + "'" + rest; s[0] == '\'' && s[1..] == d + "'" + rest && s[1..][..|d|] == d
  {
  }

  lemma {:induction false} QuoteEnds(s: string, rest: string)
    requires rest == "" || rest[0] != '\''
    ensures StringEnd(Doubled(s) + "'" + rest) == Some(|Doubled(s)|)
    ensures Undoubled(Doubled(s)) == s
  {
    var all := Doubled(s) + "'" + rest;
    if s != "" {
      QuoteEnds(s[1..], rest);
      var n := if s[0] == '\'' then 2 else 1;
      assert Doubled(s)[n..] == Doubled(s[1..]);
      assert all[n..] == Doubled(s[1..]) + "'" + rest;
    }
  }

  lemma {:induction false} DigitsRun(digits: string, rest: string)
    requires Numerals(digits) && (rest == "" || !Numeral(rest[0]))
    ensures Run(digits + rest, IsDigit) == |digits| && IsDigit(digits[0])
  {
    forall i | 0 <= i < |digits| ensures IsDigit(digits[i]) { CharactersAgree(digits[i]); }
    if rest != "" { CharactersAgree(rest[0]); }
    RunIs(digits + rest, IsDigit, |digits|);
  }

  lemma NumberEndsWhole(s: string, at: nat, k: nat)
    requires StartsNumber(s) && at == (if s[0] == '-' then 1 else 0) && Run(s[at..], IsDigit) == k
    requires !(at + k + 1 < |s| && s[at + k] == '.' && IsDigit(s[at + k + 1]))
    ensures NumberEnd(s) == (at + k, false)
  {
    hide Run;
  }

  lemma NumberEndIs(s: string, at: nat, k: nat, m: nat)
    requires StartsNumber(s) && at == (if s[0] == '-' then 1 else 0) && Run(s[at..], IsDigit) == k
    requires at + k + 1 < |s| && s[at + k] == '.' && IsDigit(s[at + k + 1]) && Run(s[at + k + 1..], IsDigit) == m
    ensures NumberEnd(s) == (at + k + 1 + m, true)
  {
    hide Run;
  }

  /** A sign, digits and what follows, cut again where they meet. */
  lemma {:induction false} SignStands(sign: string, digits: string, rest: string)
    requires Sign(sign) && digits != "" && IsDigit(digits[0])
    ensures var s := sign + digits + rest;
            && s[|sign|..] == digits + rest && StartsNumber(s) && |sign| == (if s[0] == '-' then 1 else 0)
            && s[|sign| + |digits|..] == rest
  {
    var s := sign + digits + rest;
    if sign == "" {
      assert s == digits + rest && s[0] == digits[0];
    } else {
      assert s[0] == '-' && s[1] == digits[0];
    }
  }

  /** Where a number ends that is written with this sign and these digits. */
  lemma {:induction false} WholeEnds(sign: string, digits: string, rest: string)
    requires Sign(sign) && Numerals(digits) && !GoesOn("", IntTok(0), rest)
    ensures var text := sign + digits; StartsNumber(text + rest) && NumberEnd(text + rest) == (|text|, false)
  {
    assert rest == "" || !Numeral(rest[0]);
    assert !(|rest| > 1 && rest[0] == '.' && Numeral(rest[1]));
    if |rest| > 1 { CharactersAgree(rest[1]); }
    assert digits != "";
    hide *;
    DigitsRun(digits, rest);
    SignStands(sign, digits, rest);
    NumberEndsWhole(sign + digits + rest, |sign|, |digits|);
  }

  lemma {:induction false} FractionEnds(sign: string, whole: string, fraction: string, rest: string)
    requires Sign(sign) && Numerals(whole) && Numerals(fraction) && (rest == "" || !Numeral(rest[0]))
    ensures var text := sign + (whole + ("." + fraction)); StartsNumber(text + rest) && NumberEnd(text + rest) == (|text|, true)
  {
    assert fraction != "" && !Numeral('.');
    hide *;
    PointRegroups(sign, whole, fraction, rest);
    PointStands(fraction, rest);
    FractionEndsHere(sign, whole, "." + (fraction + rest), fraction, rest);
  }

  lemma {:induction false} FractionEndsHere(sign: string, whole: string, tail: string, fraction: string, rest: string)
    requires Sign(sign) && Numerals(whole) && Numerals(fraction) && (rest == "" || !Numeral(rest[0]))
    requires |tail| > 1 && tail[0] == '.' && !Numeral(tail[0]) && tail[1..] == fraction + rest
    ensures var s := sign + whole + tail; StartsNumber(s) && NumberEnd(s) == (|sign| + |whole| + 1 + |fraction|, true)
  {
    assert whole != "" && fraction != "";
    hide *;
    DigitsRun(whole, tail);
    DigitsRun(fraction, rest);
    assert tail[1] == tail[1..][0] == fraction[0];
    FractionOf(sign + whole + tail, sign, whole, tail, |fraction|);
  }

  lemma {:induction false} FractionOf(s: string, sign: string, whole: string, tail: string, m: nat)
    requires s == sign + whole + tail && Sign(sign) && whole != "" && IsDigit(whole[0]) && Run(whole + tail, IsDigit) == |whole|
    requires |tail| > 1 && tail[0] == '.' && IsDigit(tail[1]) && Run(tail[1..], IsDigit) == m
    ensures StartsNumber(s) && NumberEnd(s) == (|sign| + |whole| + 1 + m, true)
  {
    hide *;
    SignStands(sign, whole, tail);
    NumberGoesOn(s, |sign|, |whole|, tail, m);
  }

  lemma PointStands(fraction: string, rest: string)
    requires fraction != ""
    ensures var tail := "." + (fraction + rest); tail[0] == '.' && tail[1] == fraction[0] && tail[1..] == fraction + rest
  {
  }

  lemma NumberGoesOn(s: string, at: nat, k: nat, tail: string, m: nat)
    requires StartsNumber(s) && at == (if s[0] == '-' then 1 else 0) && Run(s[at..], IsDigit) == k && at + k <= |s| && s[at + k..] == tail
    requires |tail| > 1 && tail[0] == '.' && IsDigit(tail[1]) && Run(tail[1..], IsDigit) == m
    ensures NumberEnd(s) == (at + k + 1 + m, true)
  {
    hide *;
    assert s[at + k] == tail[0] && s[at + k + 1] == tail[1];
    assert s[at + k + 1..] == s[at + k..][1..];
    NumberEndIs(s, at, k, m);
  }

  lemma PointRegroups(sign: string, whole: string, fraction: string, rest: string)
    ensures sign + whole + ("." + (fraction + rest)) == sign + (whole + ("." + fraction)) + rest
    ensures |sign + (whole + ("." + fraction))| == |sign| + |whole| + 1 + |fraction|
  {
    var f := "." + fraction;
    assert "." + (fraction + rest) == f + rest;
    assert sign + whole + (f + rest) == sign + (whole + f) + rest;
  }

  lemma {:induction false} NumberIsRead(text: string, float: bool, rest: string, tok: Tok, read: ReadFloat)
    requires text != "" && StartsNumber(text + rest) && NumberEnd(text + rest) == (|text|, float)
    requires NumberToken(text, float, read) == Ok(tok)
    ensures First(text + rest, read) == Token(tok, |text|)
  {
    hide NumberEnd, NumberToken;
    assert (text + rest)[..|text|] == text;
  }

  lemma {:induction false} IntIsRead(text: string, i: int, rest: string, read: ReadFloat)
    requires IntSpelling(text, i) && !GoesOn(text, IntTok(i), rest)
    ensures First(text + rest, read) == Token(IntTok(i), |text|)
  {
    var digits: string :| Numerals(digits)
      && ((text == digits && i == DecimalValue(digits)) || (text == "-" + digits && i == -DecimalValue(digits)));
    CharactersAgree(digits[0]);
    hide DecimalValue;
    if text == digits {
      assert "" + digits == digits;
      WholeEnds("", digits, rest);
      assert IntOf(text) == i;
    } else {
      WholeEnds("-", digits, rest);
      assert text[1..] == digits && IntOf(text) == i;
    }
    NumberIsRead(text, false, rest, IntTok(i), read);
  }

  lemma {:induction false} FloatIsRead(text: string, number: real, rest: string, read: ReadFloat)
    requires FloatSpelling(text, number, read) && !GoesOn(text, FloatTok(number), rest)
    ensures First(text + rest, read) == Token(FloatTok(number), |text|)
  {
    var sign: string, whole: string, fraction: string :|
      Sign(sign) && Numerals(whole) && Numerals(fraction) && text == sign + (whole + ("." + fraction));
    FractionEnds(sign, whole, fraction, rest);
    NumberIsRead(text, true, rest, FloatTok(number), read);
  }

  lemma {:induction false} OpIsRead(op: CmpOp, text: string, rest: string, read: ReadFloat)
    requires OpSpelling(op, text) && !GoesOn(text, OpTok(op), rest)
    ensures First(text + rest, read) == Token(OpTok(op), |text|)
  {
    var s := text + rest;
    assert s[0] == text[0] && (|text| > 1 ==> s[1] == text[1]) && (|text| == 1 && rest != "" ==> s[1] == rest[0]);
  }

  /** Every spelling is read as its token, as far as it goes. */
  lemma {:induction false} SpelledIsRead(text: string, tok: Tok, rest: string, read: ReadFloat)
    requires Spelling(text, tok, read) && !GoesOn(text, tok, rest)
    ensures text != "" && First(text + rest, read) == Token(tok, |text|)
    ensures Lex(text + rest, read) == Before([tok], Lex(rest, read))
  {
    hide IntSpelling, FloatSpelling;
    match tok {
      case Ident(w) => WordIsRead(w, rest, read);
      case StrTok(inside) => StringIsRead(inside, rest, read);
      case IntTok(i) => IntIsRead(text, i, rest, read); NotEmpty(text, tok, read);
      case FloatTok(number) => FloatIsRead(text, number, rest, read); NotEmpty(text, tok, read);
      case OpTok(op) => OpIsRead(op, text, rest, read);
      case _ =>
    }
    hide First, Spelling;
    LexOne(text, rest, tok, read);
  }

  lemma NotEmpty(text: string, tok: Tok, read: ReadFloat)
    requires Spelling(text, tok, read) && (tok.IntTok? || tok.FloatTok?)
    ensures text != ""
  {
  }

  // ----------------------------------------------------- read, so it was spelled

  lemma {:induction false} StringWasSpelled(s: string)
    requires StringEnd(s).Some?
    ensures var end := StringEnd(s).value;
            && s[..end] == Doubled(Undoubled(s[..end]))
            && (end + 1 < |s| ==> s[end + 1] != '\'')
    decreases |s|
  {
    var end := StringEnd(s).value;
    if |s| > 1 && s[0] == '\'' && s[1] == '\'' {
      StringWasSpelled(s[2..]);
      var inside := s[2..][..end - 2];
      assert s[..end] == "''" + inside && s[..end][2..] == inside;
      assert Undoubled(s[..end]) == "'" + Undoubled(inside);
      assert ("'" + Undoubled(inside))[1..] == Undoubled(inside);
    } else if s[0] != '\'' {
      StringWasSpelled(s[1..]);
      var inside := s[1..][..end - 1];
      assert s[..end] == [s[0]] + inside && s[..end][1..] == inside;
      assert Undoubled(s[..end]) == [s[0]] + Undoubled(inside);
      assert ([s[0]] + Undoubled(inside))[1..] == Undoubled(inside);
    } else {
      assert s[..0] == "" && Undoubled("") == "" && Doubled("") == "";
    }
  }

  lemma {:induction false} RunIsNumerals(s: string)
    ensures var n := Run(s, IsDigit);
            && (n > 0 ==> Numerals(s[..n])) && (n < |s| ==> !Numeral(s[n])) && (s != "" && IsDigit(s[0]) ==> n > 0)
  {
    var n := Run(s, IsDigit);
    forall i | 0 <= i < |s| ensures Numeral(s[i]) == IsDigit(s[i]) { CharactersAgree(s[i]); }
    assert forall i | 0 <= i < n :: s[..n][i] == s[i];
  }

  /** What stands at the front where a number starts. */
  ghost predicate NumberShape(s: string, sign: string, whole: string, fraction: string)
    requires StartsNumber(s)
  {
    && Sign(sign) && Numerals(whole)
    && var (n, float) := NumberEnd(s);
       if float then
         Numerals(fraction) && s[..n] == sign + (whole + ("." + fraction)) && (n < |s| ==> !Numeral(s[n]))
       else
         s[..n] == sign + whole && (n < |s| ==> !Numeral(s[n]) && (s[n] == '.' && n + 1 < |s| ==> !Numeral(s[n + 1])))
  }

  /** Cutting a text in two and the second part again. */
  lemma {:induction false} Cuts(s: string, at: nat, k: nat)
    requires at + k <= |s|
    ensures s[..at + k] == s[..at] + s[at..][..k]
    ensures at + k < |s| ==> s[at + k] == s[at..][k]
  {
  }

  lemma {:induction false} NumberWasSpelled(s: string) returns (sign: string, whole: string, fraction: string)
    requires StartsNumber(s)
    ensures NumberShape(s, sign, whole, fraction)
  {
    sign := if s[0] == '-' then "-" else "";
    var at := |sign|;
    var k := Run(s[at..], IsDigit);
    RunIsNumerals(s[at..]);
    Cuts(s, at, k);
    whole := s[at..][..k];
    assert s[..at] == sign && s[..at + k] == sign + whole;
    var end := at + k;
    if end + 1 < |s| { CharactersAgree(s[end + 1]); }
    assert end < |s| ==> !Numeral(s[end]);
    hide Run, Numeral, Numerals, NumberShape;
    if end + 1 < |s| && s[end] == '.' && IsDigit(s[end + 1]) {
      fraction := FractionWasSpelled(s, at, k, sign, whole);
    } else {
      fraction := "";
      WholeWasSpelled(s, at, k, sign, whole);
    }
  }

  lemma {:induction false} WholeWasSpelled(s: string, at: nat, k: nat, sign: string, whole: string)
    requires StartsNumber(s) && at == (if s[0] == '-' then 1 else 0) && Run(s[at..], IsDigit) == k
    requires Sign(sign) && Numerals(whole) && at + k <= |s| && s[..at + k] == sign + whole
    requires at + k < |s| ==> !Numeral(s[at + k])
    requires !(at + k + 1 < |s| && s[at + k] == '.' && IsDigit(s[at + k + 1]))
    ensures NumberShape(s, sign, whole, "")
  {
    NumberEndsWhole(s, at, k);
    var n := at + k;
    if n + 1 < |s| { CharactersAgree(s[n + 1]); }
    hide Run, NumberEnd, Numeral, Numerals, StartsNumber, IsDigit;
  }

  lemma {:induction false} FractionWasSpelled(s: string, at: nat, k: nat, sign: string, whole: string) returns (fraction: string)
    requires StartsNumber(s) && at == (if s[0] == '-' then 1 else 0) && Run(s[at..], IsDigit) == k
    requires Sign(sign) && Numerals(whole) && at + k + 1 < |s| && s[..at + k] == sign + whole
    requires s[at + k] == '.' && IsDigit(s[at + k + 1])
    ensures NumberShape(s, sign, whole, fraction)
  {
    hide *;
    var m := Run(s[at + k + 1..], IsDigit);
    NumberEndIs(s, at, k, m);
    fraction := FractionBehind(s, at + k, m, sign, whole);
    ShapeWithFraction(s, at + k + 1 + m, sign, whole, fraction);
  }

  lemma {:induction false} FractionBehind(s: string, end: nat, m: nat, sign: string, whole: string) returns (fraction: string)
    requires end + 1 < |s| && IsDigit(s[end + 1]) && m == Run(s[end + 1..], IsDigit) && s[..end] == sign + whole && s[end] == '.'
    ensures Numerals(fraction) && end + 1 + m <= |s| && (end + 1 + m < |s| ==> !Numeral(s[end + 1 + m]))
    ensures s[..end + 1 + m] == sign + (whole + ("." + fraction))
  {
    hide *;
    DigitsBehind(s, end + 1);
    PointText(s, end, m, sign, whole);
    fraction := s[end + 1..][..m];
  }

  /** The digits from here on, as many as there are. */
  lemma {:induction false} DigitsBehind(s: string, i: nat)
    requires i < |s| && IsDigit(s[i])
    ensures var m := Run(s[i..], IsDigit);
            i + m <= |s| && |s[i..][..m]| == m && Numerals(s[i..][..m]) && (i + m < |s| ==> !Numeral(s[i + m]))
  {
    RunIsNumerals(s[i..]);
    hide Run, Numerals, Numeral, IsDigit;
    assert s[i..][0] == s[i];
    Cuts(s, i, Run(s[i..], IsDigit));
  }

  lemma {:induction false} PointText(s: string, end: nat, m: nat, sign: string, whole: string)
    requires end + 1 + m <= |s| && s[..end] == sign + whole && s[end] == '.'
    ensures s[..end + 1 + m] == sign + (whole + ("." + s[end + 1..][..m]))
  {
    Cuts(s, end + 1, m);
    WithPoint(s, end, sign + whole, s[end + 1..][..m]);
    PointBehind(sign, whole, s[end + 1..][..m]);
  }

  lemma ShapeWithFraction(s: string, n: nat, sign: string, whole: string, fraction: string)
    requires StartsNumber(s) && NumberEnd(s) == (n, true) && Sign(sign) && Numerals(whole) && Numerals(fraction)
    requires n <= |s| && s[..n] == sign + (whole + ("." + fraction)) && (n < |s| ==> !Numeral(s[n]))
    ensures NumberShape(s, sign, whole, fraction)
  {
    hide NumberEnd, Numerals, Numeral, StartsNumber;
  }

  lemma PointBehind(sign: string, whole: string, fraction: string)
    ensures sign + whole + "." + fraction == sign + (whole + ("." + fraction))
  {
  }

  lemma {:induction false} WithPoint(s: string, end: nat, front: string, fraction: string)
    requires end + 1 + |fraction| <= |s| && s[..end] == front && s[end] == '.' && s[..end + 1 + |fraction|] == s[..end + 1] + fraction
    ensures s[..end + 1 + |fraction|] == front + "." + fraction
  {
    assert s[..end + 1] == s[..end] + [s[end]];
  }

  lemma {:induction false} NumberTokenWasSpelled(s: string, tok: Tok, n: nat, read: ReadFloat)
    requires s != "" && StartsNumber(s) && First(s, read) == Token(tok, n)
    ensures Spelling(s[..n], tok, read) && !GoesOn(s[..n], tok, s[n..])
  {
    var sign, whole, fraction := NumberWasSpelled(s);
    var (end, float) := NumberEnd(s);
    assert n == end && NumberToken(s[..end], float, read) == Ok(tok);
    hide First, NumberEnd, StartsNumber;
    assert n < |s| ==> s[n..][0] == s[n];
    assert n + 1 < |s| ==> s[n..][1] == s[n + 1];
    hide Numeral, Numerals;
    if float { FloatTokenWasSpelled(s[..n], sign, whole, fraction, tok, read); }
    else { IntTokenWasSpelled(s[..n], sign, whole, tok, read); }
    hide NumberToken, Spelling;
  }

  lemma {:induction false} FloatTokenWasSpelled(text: string, sign: string, whole: string, fraction: string, tok: Tok, read: ReadFloat)
    requires NumberToken(text, true, read) == Ok(tok)
    requires Sign(sign) && Numerals(whole) && Numerals(fraction) && text == sign + (whole + ("." + fraction))
    ensures tok.FloatTok? && Spelling(text, tok, read)
  {
    hide Sign, Numerals;
    assert FloatSpelling(text, tok.number, read);
  }

  lemma {:induction false} IntTokenWasSpelled(text: string, sign: string, whole: string, tok: Tok, read: ReadFloat)
    requires NumberToken(text, false, read) == Ok(tok) && Sign(sign) && Numerals(whole) && text == sign + whole
    ensures tok.IntTok? && Spelling(text, tok, read)
  {
    CharactersAgree(whole[0]);
    hide DecimalValue;
    assert sign == "" ==> text == whole;
    assert sign == "-" ==> text[1..] == whole;
    assert IntSpelling(text, tok.value);
  }

  lemma {:induction false} WordWasSpelled(s: string, tok: Tok, n: nat, read: ReadFloat)
    requires s != "" && WordStart(s[0]) && First(s, read) == Token(tok, n)
    ensures Spelling(s[..n], tok, read) && !GoesOn(s[..n], tok, s[n..])
  {
    var k := Run(s[1..], WordPart);
    CharactersAgree(s[0]);
    assert !StartsNumber(s) && n == 1 + k && tok == Ident(s[..n]);
    forall i | 0 <= i < n ensures Letter(s[..n][i]) || Numeral(s[..n][i]) || s[..n][i] == '$' {
      CharactersAgree(s[i]);
      if i > 0 { assert s[i] == s[1..][i - 1]; }
    }
    if n < |s| {
      assert s[n..][0] == s[n] == s[1..][k];
      CharactersAgree(s[n]);
    }
  }

  lemma {:induction false} StringTokenWasSpelled(s: string, tok: Tok, n: nat, read: ReadFloat)
    requires s != "" && s[0] == '\'' && First(s, read) == Token(tok, n)
    ensures Spelling(s[..n], tok, read) && !GoesOn(s[..n], tok, s[n..])
  {
    var end := StringEnd(s[1..]).value;
    var inside := Undoubled(s[1..][..end]);
    assert tok == StrTok(inside) && n == end + 2 && s[1..][end] == '\'';
    StringWasSpelled(s[1..]);
    hide StringEnd, Undoubled, Doubled, First;
    Cuts(s, 1, end);
    assert s[..1] == "'" && s[end + 1] == '\'';
    assert s[..n] == s[..end + 1] + [s[end + 1]];
    if n < |s| { assert s[n..][0] == s[n] == s[1..][end + 1]; }
  }

  lemma {:induction false} SignTokenWasSpelled(s: string, tok: Tok, n: nat, read: ReadFloat)
    requires s != "" && s[0] != '\'' && !StartsNumber(s) && !WordStart(s[0]) && First(s, read) == Token(tok, n)
    ensures n <= |s| && Spelling(s[..n], tok, read) && !GoesOn(s[..n], tok, s[n..])
  {
    hide StringEnd, Undoubled, NumberEnd, Run;
    assert n < |s| ==> s[n..][0] == s[n];
    assert n == 1 ==> s[..n] == [s[0]];
    assert n == 2 ==> s[..n] == [s[0], s[1]];
  }

  /** Whatever token is read stands there spelled, and could not have gone on. */
  lemma {:induction false} ReadIsSpelled(s: string, tok: Tok, n: nat, read: ReadFloat)
    requires s != "" && First(s, read) == Token(tok, n)
    ensures n <= |s| && Spelling(s[..n], tok, read) && !GoesOn(s[..n], tok, s[n..])
  {
    hide Spelling, GoesOn, First, StartsNumber, WordStart;
    if s[0] == '\'' { StringTokenWasSpelled(s, tok, n, read); }
    else if StartsNumber(s) { NumberTokenWasSpelled(s, tok, n, read); }
    else if WordStart(s[0]) { WordWasSpelled(s, tok, n, read); }
    else { SignTokenWasSpelled(s, tok, n, read); }
  }

  // ------------------------------------------------------------------ whole texts

  /** The text is these tokens, spelled one after another, with spaces, tabs and
      line ends anywhere between them. */
  ghost predicate Written(s: string, ts: seq<Tok>, read: ReadFloat)
    decreases |s|
  {
    if s == "" then ts == []
    else if s[0] in " \t\r\n" then Written(s[1..], ts, read)
    else ts != [] && exists n: nat :: 0 < n <= |s| && WrittenFirst(s, n, ts[0], read) && Written(s[n..], ts[1..], read)
  }

  ghost predicate WrittenFirst(s: string, n: nat, tok: Tok, read: ReadFloat)
    requires n <= |s|
  {
    Spelling(s[..n], tok, read) && !GoesOn(s[..n], tok, s[n..])
  }

  /** The tokenizer accepts exactly the texts that are written in tokens, and gives
      the tokens they are written in. */
  lemma {:induction false} LexIsWritten(s: string, ts: seq<Tok>, read: ReadFloat)
    ensures Lex(s, read) == Ok(ts) <==> Written(s, ts, read)
    decreases |s|, 2
  {
    if s != "" {
      SpacesAre(s, read);
      if s[0] in " \t\r\n" {
        hide First;
        LexIsWritten(s[1..], ts, read);
      } else {
        LexFirst(s, ts, read);
      }
    }
  }

  lemma {:induction false} SpacesAre(s: string, read: ReadFloat)
    requires s != ""
    ensures First(s, read).Space? <==> s[0] in " \t\r\n"
  {
  }

  lemma {:induction false} LexFirst(s: string, ts: seq<Tok>, read: ReadFloat)
    requires s != "" && s[0] !in " \t\r\n"
    ensures Lex(s, read) == Ok(ts) <==> Written(s, ts, read)
    decreases |s|, 1
  {
    SpacesAre(s, read);
    hide First;
    if Lex(s, read) == Ok(ts) {
      var tok, n := First(s, read).tok, First(s, read).length;
      ReadIsSpelled(s, tok, n, read);
      LexIsWritten(s[n..], ts[1..], read);
      hide Spelling, GoesOn, Lex;
      assert ts[0] == tok && WrittenFirst(s, n, ts[0], read);
    }
    if Written(s, ts, read) { WrittenIsLexed(s, ts, read); }
  }

  lemma {:induction false} WrittenIsLexed(s: string, ts: seq<Tok>, read: ReadFloat)
    requires s != "" && s[0] !in " \t\r\n" && Written(s, ts, read)
    ensures Lex(s, read) == Ok(ts)
    decreases |s|, 0
  {
    hide Spelling, GoesOn, Lex;
    var n: nat :| 0 < n <= |s| && WrittenFirst(s, n, ts[0], read) && Written(s[n..], ts[1..], read);
    SpelledIsRead(s[..n], ts[0], s[n..], read);
    assert s[..n] + s[n..] == s;
    LexIsWritten(s[n..], ts[1..], read);
    hide Written;
    assert [ts[0]] + ts[1..] == ts;
  }

  // ---------------------------------------------------------- spelled either way

  /** A comparison of a column with anything reads the same with either sign for
      "not equal". */
  lemma {:induction false} NotEqualsEitherWay(c: string, more: string, read: ReadFloat)
    requires WordText(c)
    ensures ReadFilter(c + " != " + more, read) == ReadFilter(c + " <> " + more, read)
  {
    var bang, angle := c + " != " + more, c + " <> " + more;
    assert " " + "!=" + " " == " != " && " " + "<>" + " " == " <> ";
    NotEqualsLexed(c, "!=", more, read);
    NotEqualsLexed(c, "<>", more, read);
    assert Letter(c[0]) && bang[0] == c[0] && angle[0] == c[0];
    assert !IsWhitespace(bang[0]) && !IsWhitespace(angle[0]);
    hide Lex, IsWhitespace;
  }

  lemma {:induction false} NotEqualsLexed(c: string, op: string, more: string, read: ReadFloat)
    requires WordText(c) && OpSpelling(Ne, op)
    ensures Lex(c + (" " + op + " ") + more, read) == Before([Ident(c)], Before([OpTok(Ne)], Lex(" " + more, read)))
  {
    var sp := " ";
    assert !GoesOn(op, OpTok(Ne), sp + more) && !GoesOn(c, Ident(c), sp + (op + (sp + more)));
    assert Spelling(op, OpTok(Ne), read) && Spelling(c, Ident(c), read);
    hide *;
    SpelledIsRead(op, OpTok(Ne), sp + more, read);
    LexSpace(op + (sp + more), read);
    SpelledIsRead(c, Ident(c), sp + (op + (sp + more)), read);
    Regroup(c, sp, op, sp, more);
  }

  lemma Regroup(a: string, b: string, c: string, d: string, e: string)
    ensures a + (b + c + d) + e == a + (b + (c + (d + e)))
  {
    assert b + c + d + e == b + (c + (d + e));
  }

  /** Any of the four spaces stands for any other. */
  lemma {:induction false} SpacesAreAlike(a: char, b: char, rest: string, read: ReadFloat)
    requires a in " \t\r\n" && b in " \t\r\n"
    ensures Lex([a] + rest, read) == Lex([b] + rest, read) == Lex(rest, read)
  {
    SpacesAre([a] + rest, read);
    SpacesAre([b] + rest, read);
    assert ([a] + rest)[1..] == rest && ([b] + rest)[1..] == rest;
    hide First;
  }

  /** An integer is printed with a sign only below zero, and no leading zero. */
  lemma {:induction false} IntegersArePrintedPlainly(i: int)
    ensures i >= 0 ==> Numerals(IntText(i)) && (IntText(i)[0] == '0' ==> IntText(i) == "0" && i == 0)
    ensures i < 0 ==> IntText(i)[0] == '-' && Numerals(IntText(i)[1..]) && IntText(i)[1] != '0'
  {
    DigitsArePlain(if i < 0 then -i else i);
    hide DigitsOf, Numerals;
  }

  lemma {:induction false} DigitsArePlain(n: nat)
    ensures Numerals(DigitsOf(n)) && (DigitsOf(n)[0] == '0' ==> DigitsOf(n) == "0" && n == 0)
  {
    if n >= 10 {
      DigitsArePlain(n / 10);
      CharactersAgree(Digit(n % 10));
    } else {
      CharactersAgree(Digit(n));
    }
  }

  // ------------------------------------------------------------------- refusals

  /** What stops the tokenizer, and what it is told. */
  lemma {:induction false} RefusedWith(s: string, read: ReadFloat)
    requires s != ""
    ensures First(s, read) == Bad(UnterminatedString) <==> s[0] == '\'' && StringEnd(s[1..]).None?
    ensures First(s, read) == Bad(LexError.UnsupportedOperator) <==> s[0] in "~|&%*+/"
    ensures First(s, read) == Bad(UnexpectedCharacter) <==>
              && s[0] !in " \t\r\n(),'<>=~|&%*+/" && !Letter(s[0]) && !Numeral(s[0])
              && !(s[0] == '-' && |s| > 1 && Numeral(s[1])) && !(s[0] == '!' && |s| > 1 && s[1] == '=')
  {
    CharactersAgree(s[0]);
    if |s| > 1 { CharactersAgree(s[1]); }
    hide StringEnd, NumberEnd, Run, Undoubled;
  }

  /** A string is unterminated exactly when no way to close it is there. */
  lemma {:induction false} UnterminatedExactlyWhen(s: string)
    ensures StringEnd(s).None? <==> forall n, inside :: !ClosesAt(s, n, inside)
  {
    if StringEnd(s).Some? {
      StringWasSpelled(s);
      var end := StringEnd(s).value;
      assert ClosesAt(s, end, Undoubled(s[..end]));
    }
    forall n, inside | ClosesAt(s, n, inside) ensures StringEnd(s).Some? {
      QuoteEnds(inside, s[n + 1..]);
      assert s == Doubled(inside) + "'" + s[n + 1..];
    }
  }

  ghost predicate ClosesAt(s: string, n: nat, inside: string) {
    n < |s| && s[n] == '\'' && s[..n] == Doubled(inside) && (n + 1 < |s| ==> s[n + 1] != '\'')
  }

  // ------------------------------------------------------------- in any letter case

  /** The two cases of one of the twenty-six letters. */
  ghost predicate CasesOf(a: char, b: char) {
    exists k: nat :: k < 26 && a == "abcdefghijklmnopqrstuvwxyz"[k] && b == "ABCDEFGHIJKLMNOPQRSTUVWXYZ"[k]
  }

  lemma {:induction false} UpperIs(a: char, b: char)
    ensures Upper(a) == Upper(b) <==> a == b || CasesOf(a, b) || CasesOf(b, a)
  {
    LowerAt(a);
    LowerAt(b);
    assert forall k: nat | k < 26 :: "abcdefghijklmnopqrstuvwxyz"[k] == 'a' + k as char && "ABCDEFGHIJKLMNOPQRSTUVWXYZ"[k] == 'A' + k as char;
  }

  lemma {:induction false} LowerAt(a: char)
    ensures 'a' <= a <= 'z' ==> CasesOf(a, a - 'a' + 'A')
  {
    if 'a' <= a <= 'z' {
      var k := (a - 'a') as nat;
      assert "abcdefghijklmnopqrstuvwxyz"[k] == 'a' + k as char && "ABCDEFGHIJKLMNOPQRSTUVWXYZ"[k] == 'A' + k as char;
    }
  }

  /** Two words are one keyword exactly when they differ in letter case alone. */
  lemma {:induction false} EqualIgnoringCaseIs(a: string, b: string)
    ensures EqualIgnoringCase(a, b) <==>
            |a| == |b| && forall i | 0 <= i < |a| :: a[i] == b[i] || CasesOf(a[i], b[i]) || CasesOf(b[i], a[i])
  {
    forall x, y ensures Upper(x) == Upper(y) <==> x == y || CasesOf(x, y) || CasesOf(y, x) { UpperIs(x, y); }
    hide Upper, CasesOf;
  }

  /** The words that cannot be columns, in any letter case. */
  lemma {:induction false} KeywordsAre(w: string)
    ensures IsKeyword(w) <==>
            || EqualIgnoringCase(w, "AND") || EqualIgnoringCase(w, "OR") || EqualIgnoringCase(w, "NOT")
            || EqualIgnoringCase(w, "IS") || EqualIgnoringCase(w, "NULL") || EqualIgnoringCase(w, "IN")
            || EqualIgnoringCase(w, "TRUE") || EqualIgnoringCase(w, "FALSE")
    ensures IsWordOperator(w) <==>
            || EqualIgnoringCase(w, "LIKE") || EqualIgnoringCase(w, "ILIKE") || EqualIgnoringCase(w, "BETWEEN")
            || EqualIgnoringCase(w, "SIMILAR") || EqualIgnoringCase(w, "ANY") || EqualIgnoringCase(w, "ALL")
            || EqualIgnoringCase(w, "EXISTS")
  {
    hide EqualIgnoringCase;
    var ks, ws := Keywords, WordOperators;
    assert ks[0] == "AND" && ks[1] == "OR" && ks[2] == "NOT" && ks[3] == "IS" && ks[4] == "NULL" && ks[5] == "IN";
    assert ks[6] == "TRUE" && ks[7] == "FALSE";
    assert ws[0] == "LIKE" && ws[1] == "ILIKE" && ws[2] == "BETWEEN" && ws[3] == "SIMILAR" && ws[4] == "ANY";
    assert ws[5] == "ALL" && ws[6] == "EXISTS";
  }

  /** The literal a token stands for. */
  lemma {:induction false} LiteralIs(t: Tok, l: Literal)
    ensures LiteralOf(t) == Some(l) <==>
            match l
            case Str(text) => t == StrTok(text)
            case Int(i) => t == IntTok(i)
            case Float(f) => t == FloatTok(f)
            case Bool(b) => t.Ident? && EqualIgnoringCase(t.name, if b then "TRUE" else "FALSE")
  {
  }

  /** Nothing but spaces is no filter at all. */
  lemma {:induction false} BlankIsRefused(src: string, read: ReadFloat)
    requires forall i | 0 <= i < |src| :: src[i] in " \t\r\n"
    ensures ReadFilter(src, read) == Err(Parsing(Empty))
  {
  }
}
