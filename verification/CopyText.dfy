/** Reading COPY's text format: lines out of network chunks, fields out of a
    line, values out of a field. */
module CopyText {
  import opened Wrappers

  type Field = Option<string>

  datatype Emitted = Row(line: string) | Boundary

  const RowsPerBoundary := 5000

  // ------------------------------------------------------- lines out of chunks

  function Concat(chunks: seq<string>): string {
    if chunks == [] then "" else Concat(chunks[..|chunks| - 1]) + chunks[|chunks| - 1]
  }

  function NewlineAt(s: string): (at: nat)
    ensures at <= |s| && (at < |s| ==> s[at] == '\n')
  {
    if s == "" || s[0] == '\n' then 0 else 1 + NewlineAt(s[1..])
  }

  lemma {:induction false} NewlineIsFirst(s: string)
    ensures '\n' !in s[..NewlineAt(s)]
  {
    if s != "" && s[0] != '\n' {
      NewlineIsFirst(s[1..]);
      assert s[..NewlineAt(s)] == [s[0]] + s[1..][..NewlineAt(s[1..])];
    }
  }

  /** The newline-terminated lines of `s`, without their newlines. */
  function Lines(s: string): seq<string>
    decreases |s|
  {
    var at := NewlineAt(s);
    if at == |s| then [] else [s[..at]] + Lines(s[at + 1..])
  }

  /** What follows the last newline. */
  function Rest(s: string): string
    decreases |s|
  {
    var at := NewlineAt(s);
    if at == |s| then s else Rest(s[at + 1..])
  }

  function Unlines(lines: seq<string>): string {
    if lines == [] then "" else lines[0] + "\n" + Unlines(lines[1..])
  }

  function NonEmpty(lines: seq<string>): seq<string> {
    if lines == [] then []
    else NonEmpty(lines[..|lines| - 1]) + (if lines[|lines| - 1] == "" then [] else [lines[|lines| - 1]])
  }

  /** Rows in order, a boundary after every 5000th. */
  function WithBoundaries(lines: seq<string>): seq<Emitted> {
    if lines == [] then []
    else
      WithBoundaries(lines[..|lines| - 1]) + [Row(lines[|lines| - 1])]
      + (if |lines| % RowsPerBoundary == 0 then [Boundary] else [])
  }

  /** Feeds chunks through one buffer with a cursor, compacted once a chunk. */
  method ReadRange(chunks: seq<string>) returns (sent: seq<Emitted>, count: nat)
    ensures sent == WithBoundaries(NonEmpty(Lines(Concat(chunks))))
    ensures count == |NonEmpty(Lines(Concat(chunks)))|
  {
    sent, count := [], 0;
    var pending := "";
    NextLine("");
    hide Lines, Rest, NonEmpty, WithBoundaries;
    for k := 0 to |chunks|
      invariant pending == Rest(Concat(chunks[..k]))
      invariant sent == WithBoundaries(NonEmpty(Lines(Concat(chunks[..k]))))
      invariant count == |NonEmpty(Lines(Concat(chunks[..k])))|
    {
      ghost var before := Concat(chunks[..k]);
      assert chunks[..k + 1][..k] == chunks[..k];
      assert Concat(chunks[..k + 1]) == before + chunks[k];
      LinesConcat(before, chunks[k]);
      hide Concat;
      pending := pending + chunks[k];
      var consumed;
      sent, count, consumed := EmitLines(pending, sent, count, Lines(before));
      pending := pending[consumed..];
    }
    assert chunks[..|chunks|] == chunks;
  }

  /** The cursor's way through one buffer, after `lines` have been seen. */
  method EmitLines(pending: string, sent0: seq<Emitted>, count0: nat, ghost lines: seq<string>)
    returns (sent: seq<Emitted>, count: nat, consumed: nat)
    requires sent0 == WithBoundaries(NonEmpty(lines)) && count0 == |NonEmpty(lines)|
    ensures sent == WithBoundaries(NonEmpty(lines + Lines(pending)))
    ensures count == |NonEmpty(lines + Lines(pending))|
    ensures consumed <= |pending| && pending[consumed..] == Rest(pending)
  {
    hide Lines, Rest, NonEmpty, WithBoundaries;
    sent, count, consumed := sent0, count0, 0;
    ghost var seen := lines;
    assert pending[0..] == pending;
    while true
      invariant consumed <= |pending|
      invariant seen + Lines(pending[consumed..]) == lines + Lines(pending)
      invariant Rest(pending[consumed..]) == Rest(pending)
      invariant sent == WithBoundaries(NonEmpty(seen)) && count == |NonEmpty(seen)|
      decreases |pending| - consumed
    {
      NextLine(pending[consumed..]);
      var nl := NewlineAt(pending[consumed..]);
      if nl == |pending[consumed..]| {
        assert seen + [] == seen;
        return;
      }
      var line := pending[consumed..consumed + nl];
      assert pending[consumed..][..nl] == line;
      assert pending[consumed..][nl + 1..] == pending[consumed + nl + 1..];
      consumed := consumed + nl + 1;
      EmittedMore(seen, line);
      seen := seen + [line];
      if line == "" { continue; }
      count := count + 1;
      sent := sent + [Row(line)];
      if count % RowsPerBoundary == 0 { sent := sent + [Boundary]; }
    }
  }

  lemma {:induction false} NextLine(s: string)
    ensures NewlineAt(s) == |s| ==> Lines(s) == [] && Rest(s) == s
    ensures NewlineAt(s) < |s| ==>
              && Lines(s) == [s[..NewlineAt(s)]] + Lines(s[NewlineAt(s) + 1..])
              && Rest(s) == Rest(s[NewlineAt(s) + 1..])
    ensures WithBoundaries(NonEmpty([])) == []
  {
  }

  lemma {:induction false} EmittedMore(lines: seq<string>, line: string)
    ensures line == "" ==> NonEmpty(lines + [line]) == NonEmpty(lines)
    ensures line != "" ==>
              && NonEmpty(lines + [line]) == NonEmpty(lines) + [line]
              && WithBoundaries(NonEmpty(lines + [line])) ==
                   WithBoundaries(NonEmpty(lines)) + [Row(line)]
                   + (if (|NonEmpty(lines)| + 1) % RowsPerBoundary == 0 then [Boundary] else [])
  {
    assert (lines + [line])[..|lines|] == lines;
    var some := NonEmpty(lines);
    assert (some + [line])[..|some|] == some;
  }

  /** A cut anywhere: what is left over is read again with what follows it. */
  lemma {:induction false} LinesConcat(a: string, b: string)
    ensures Lines(a + b) == Lines(a) + Lines(Rest(a) + b)
    ensures Rest(a + b) == Rest(Rest(a) + b)
    decreases |a|
  {
    var at := NewlineAt(a);
    NextLine(a);
    hide Lines, Rest;
    if at < |a| {
      NewlineInFront(a, b);
      NextLine(a + b);
      hide NewlineAt;
      assert (a + b)[at + 1..] == a[at + 1..] + b;
      assert (a + b)[..at] == a[..at];
      LinesConcat(a[at + 1..], b);
    } else {
      assert [] + Lines(a + b) == Lines(a + b);
    }
  }

  lemma {:induction false} NewlineInFront(a: string, b: string)
    requires NewlineAt(a) < |a|
    ensures NewlineAt(a + b) == NewlineAt(a)
  {
    if a[0] != '\n' {
      assert (a + b)[1..] == a[1..] + b;
      NewlineInFront(a[1..], b);
    }
  }

  /** The lines and the rest are the text, and no line holds a newline. */
  lemma {:induction false} LinesCover(s: string)
    ensures s == Unlines(Lines(s)) + Rest(s)
    ensures '\n' !in Rest(s)
    ensures forall i | 0 <= i < |Lines(s)| :: '\n' !in Lines(s)[i]
    decreases |s|
  {
    var at := NewlineAt(s);
    NextLine(s);
    NewlineIsFirst(s);
    hide Lines, Rest;
    if at < |s| {
      LinesCover(s[at + 1..]);
      CutAt(s, at, Lines(s[at + 1..]), Rest(s[at + 1..]));
    } else {
      assert s[..at] == s;
    }
  }

  lemma {:induction false} CutAt(s: string, at: nat, lines: seq<string>, rest: string)
    requires at < |s| && s[at] == '\n' && s[at + 1..] == Unlines(lines) + rest
    ensures s == Unlines([s[..at]] + lines) + rest
  {
    assert ([s[..at]] + lines)[1..] == lines;
    assert s == s[..at] + "\n" + s[at + 1..];
  }

  lemma {:induction false} LinesOfUnlines(lines: seq<string>)
    requires forall i | 0 <= i < |lines| :: '\n' !in lines[i]
    ensures Lines(Unlines(lines)) == lines
  {
    if lines != [] {
      var s := Unlines(lines);
      var first := lines[0];
      NewlineAfter(first, Unlines(lines[1..]));
      assert s[..|first|] == first && s[|first| + 1..] == Unlines(lines[1..]);
      LinesOfUnlines(lines[1..]);
    }
  }

  lemma {:induction false} NewlineAfter(line: string, more: string)
    requires '\n' !in line
    ensures NewlineAt(line + "\n" + more) == |line|
  {
    if line != "" {
      assert (line + "\n" + more)[1..] == line[1..] + "\n" + more;
      NewlineAfter(line[1..], more);
    }
  }

  function RowsIn(sent: seq<Emitted>): seq<string> {
    if sent == [] then []
    else RowsIn(sent[..|sent| - 1]) + (match sent[|sent| - 1] case Row(line) => [line] case Boundary => [])
  }

  /** Boundary `i` follows a row and a multiple of 5000 of them. */
  ghost predicate Regular(sent: seq<Emitted>, i: nat)
    requires i < |sent|
  {
    sent[i].Boundary? ==> i > 0 && sent[i - 1].Row? && |RowsIn(sent[..i])| % 5000 == 0
  }

  lemma {:induction false} RegularLonger(sent: seq<Emitted>, more: seq<Emitted>, i: nat)
    requires i < |sent| && Regular(sent, i)
    ensures Regular(sent + more, i)
  {
    assert (sent + more)[..i] == sent[..i];
  }

  /** Every line is sent once and in order; a boundary stands exactly where the
      rows before it are a multiple of 5000 and it follows a row. */
  lemma {:induction false} BoundariesAreRegular(lines: seq<string>)
    ensures RowsIn(WithBoundaries(lines)) == lines
    ensures |WithBoundaries(lines)| == |lines| + |lines| / 5000
    ensures forall i | 0 <= i < |WithBoundaries(lines)| :: Regular(WithBoundaries(lines), i)
  {
    if lines != [] {
      var n := |lines| - 1;
      var before, sent := WithBoundaries(lines[..n]), WithBoundaries(lines);
      BoundariesAreRegular(lines[..n]);
      var row := before + [Row(lines[n])];
      assert sent == row + if |lines| % RowsPerBoundary == 0 then [Boundary] else [];
      RowsInSnoc(before, Row(lines[n]));
      assert lines[..n] + [lines[n]] == lines;
      hide RowsIn, WithBoundaries;
      RegularRow(before, lines[n]);
      hide Regular;
      if |lines| % RowsPerBoundary == 0 {
        RowsInSnoc(row, Boundary);
        RegularBoundary(row);
      } else {
        assert sent == row;
      }
    }
  }

  lemma {:induction false} RegularRow(before: seq<Emitted>, line: string)
    requires forall i | 0 <= i < |before| :: Regular(before, i)
    ensures forall i | 0 <= i < |before| + 1 :: Regular(before + [Row(line)], i)
  {
    forall i | 0 <= i < |before| + 1 ensures Regular(before + [Row(line)], i) {
      if i < |before| { RegularLonger(before, [Row(line)], i); }
    }
  }

  lemma {:induction false} RegularBoundary(row: seq<Emitted>)
    requires row != [] && row[|row| - 1].Row? && |RowsIn(row)| % 5000 == 0
    requires forall i | 0 <= i < |row| :: Regular(row, i)
    ensures forall i | 0 <= i < |row| + 1 :: Regular(row + [Boundary], i)
  {
    hide Regular;
    forall i | 0 <= i < |row| + 1 ensures Regular(row + [Boundary], i) {
      if i < |row| { RegularLonger(row, [Boundary], i); } else { LastRegular(row, i); }
    }
  }

  lemma {:induction false} LastRegular(row: seq<Emitted>, i: nat)
    requires i == |row| > 0 && row[i - 1].Row? && |RowsIn(row)| % 5000 == 0
    ensures Regular(row + [Boundary], i)
  {
    assert (row + [Boundary])[..i] == row;
  }

  lemma {:induction false} RowsInSnoc(sent: seq<Emitted>, last: Emitted)
    ensures RowsIn(sent + [last]) == RowsIn(sent) + match last case Row(line) => [line] case Boundary => []
  {
    assert (sent + [last])[..|sent|] == sent;
  }

  // ------------------------------------------------------- fields out of a line

  function Onto(prefix: string, fields: seq<string>): (r: seq<string>)
    requires fields != []
    ensures r != []
  {
    [prefix + fields[0]] + fields[1..]
  }

  lemma {:induction false} OntoNothing(fields: seq<string>)
    requires fields != []
    ensures Onto("", fields) == fields
  {
    assert "" + fields[0] == fields[0];
    assert [fields[0]] + fields[1..] == fields;
  }

  /** Cut at every tab that no backslash protects. A backslash that ends the
      line is dropped. */
  function Split(line: string): (fields: seq<string>)
    ensures fields != []
    decreases |line|
  {
    if line == "" then [""]
    else if line[0] == '\\' then (if |line| == 1 then [""] else Onto(line[..2], Split(line[2..])))
    else if line[0] == '\t' then [""] + Split(line[1..])
    else Onto(line[..1], Split(line[1..]))
  }

  method SplitCopyLine(line: string) returns (fields: seq<string>)
    ensures fields == Split(line)
  {
    fields := [];
    var cur, escaped, chars := "", false, line;
    OntoNothing(Split(line));
    assert "" + line == line;
    hide Split, Onto;
    while chars != ""
      invariant fields + Onto(cur, Split(Open(escaped) + chars)) == Split(line)
      decreases |chars|
    {
      var c, rest := chars[0], chars[1..];
      assert chars == [c] + rest;
      SplitStep(cur, escaped, c, rest);
      chars := rest;
      if escaped {
        cur := cur + ['\\'] + [c];
        escaped := false;
        continue;
      }
      match c
      case '\\' => escaped := true;
      case '\t' => fields, cur := fields + [cur], "";
      case other => cur := cur + [other];
    }
    SplitEnds(cur, escaped);
    fields := fields + [cur];
  }

  /** The backslash a pending escape still owes. */
  function Open(escaped: bool): string {
    if escaped then "\\" else ""
  }

  lemma {:induction false} SplitEnds(cur: string, escaped: bool)
    ensures Onto(cur, Split(Open(escaped) + "")) == [cur]
  {
    assert cur + "" == cur;
  }

  lemma {:induction false} OntoOnto(a: string, b: string, fields: seq<string>)
    requires fields != []
    ensures Onto(a, Onto(b, fields)) == Onto(a + b, fields)
  {
    assert a + (b + fields[0]) == a + b + fields[0];
  }

  lemma {:induction false} SplitFront(line: string)
    requires line != ""
    ensures line[0] == '\\' && |line| > 1 ==> Split(line) == Onto(line[..2], Split(line[2..]))
    ensures line[0] == '\t' ==> Split(line) == [""] + Split(line[1..])
    ensures line[0] != '\\' && line[0] != '\t' ==> Split(line) == Onto(line[..1], Split(line[1..]))
  {
  }

  lemma {:induction false} SplitStep(cur: string, escaped: bool, c: char, rest: string)
    ensures Onto(cur, Split(Open(escaped) + ([c] + rest))) ==
            if escaped then Onto(cur + ['\\'] + [c], Split(Open(false) + rest))
            else if c == '\\' then Onto(cur, Split(Open(true) + rest))
            else if c == '\t' then [cur] + Onto("", Split(Open(false) + rest))
            else Onto(cur + [c], Split(Open(false) + rest))
  {
    var line := Open(escaped) + ([c] + rest);
    SplitFront(line);
    OntoNothing(Split(rest));
    assert "" + rest == rest;
    hide Split;
    if escaped {
      assert line[..2] == ['\\', c] && line[2..] == rest;
      OntoOnto(cur, ['\\', c], Split(rest));
      assert cur + ['\\', c] == cur + ['\\'] + [c];
    } else {
      assert line == [c] + rest && line[..1] == [c] && line[1..] == rest;
      OntoOnto(cur, [c], Split(rest));
      assert cur + "" == cur;
    }
  }

  function Join(fields: seq<string>): string
    requires fields != []
  {
    if |fields| == 1 then fields[0] else fields[0] + "\t" + Join(fields[1..])
  }

  /** No bare tab, and no escape left open at the end. */
  predicate Closed(field: string) {
    if field == "" then true
    else if field[0] == '\\' then |field| >= 2 && Closed(field[2..])
    else field[0] != '\t' && Closed(field[1..])
  }

  lemma {:induction false} SplitPastField(field: string, more: string)
    requires Closed(field)
    ensures Split(field + more) == Onto(field, Split(more))
    decreases |field|
  {
    var s := field + more;
    if field == "" {
      assert s == more;
      OntoNothing(Split(more));
    } else if field[0] == '\\' {
      assert s[2..] == field[2..] + more && s[..2] == field[..2];
      SplitPastField(field[2..], more);
      assert field[..2] + (field[2..] + Split(more)[0]) == field + Split(more)[0];
    } else {
      assert s[1..] == field[1..] + more && s[..1] == field[..1];
      SplitPastField(field[1..], more);
      assert field[..1] + (field[1..] + Split(more)[0]) == field + Split(more)[0];
    }
  }

  /** Splitting undoes joining, for any fields that are closed. */
  lemma {:induction false} SplitInvertsJoin(fields: seq<string>)
    requires fields != [] && forall i | 0 <= i < |fields| :: Closed(fields[i])
    ensures Split(Join(fields)) == fields
  {
    var f := fields[0];
    if |fields| == 1 {
      SplitPastField(f, "");
      assert f + "" == f;
    } else {
      SplitInvertsJoin(fields[1..]);
      var more := "\t" + Join(fields[1..]);
      SplitPastField(f, more);
      assert more[1..] == Join(fields[1..]);
      assert Join(fields) == f + more && f + "" == f;
    }
  }

  lemma {:induction false} JoinOnto(prefix: string, fields: seq<string>)
    requires fields != []
    ensures Join(Onto(prefix, fields)) == prefix + Join(fields)
  {
  }

  /** Splitting any line at all: the fields are closed and joined again they are
      the line, less a backslash left open at its end. */
  lemma {:induction false} SplitKeepsTheLine(line: string)
    ensures forall i | 0 <= i < |Split(line)| :: Closed(Split(line)[i])
    ensures Join(Split(line)) == line || Join(Split(line)) + "\\" == line
    decreases |line|
  {
    if line != "" && line != "\\" {
      var n := if line[0] == '\\' then 2 else 1;
      var rest := Split(line[n..]);
      SplitKeepsTheLine(line[n..]);
      JoinOnto(line[..n], rest);
      assert line == line[..n] + line[n..];
      if line[0] != '\t' {
        assert (line[..n] + rest[0])[n..] == rest[0];
        assert Closed(line[..n] + rest[0]);
      }
    }
  }

  // ------------------------------------------------------ values out of a field

  function Meaning(escape: char): char {
    match escape
    case 't' => '\t'
    case 'n' => '\n'
    case 'r' => '\r'
    case other => other
  }

  function Unescaped(field: string): string
    decreases |field|
  {
    if field == "" then ""
    else if field[0] != '\\' then [field[0]] + Unescaped(field[1..])
    else if |field| == 1 then ""
    else [Meaning(field[1])] + Unescaped(field[2..])
  }

  function Value(field: string): Field {
    if field == "\\N" then None else Some(Unescaped(field))
  }

  lemma {:induction false} UnescapedStep(s: string)
    ensures Unescaped("") == ""
    ensures s != "" && s[0] != '\\' ==> Unescaped(s) == [s[0]] + Unescaped(s[1..])
    ensures |s| == 1 && s[0] == '\\' ==> Unescaped(s) == ""
    ensures |s| > 1 && s[0] == '\\' ==> Unescaped(s) == [Meaning(s[1])] + Unescaped(s[2..])
  {
  }

  method UnescapeCopy(field: string) returns (value: Field)
    ensures value == Value(field)
  {
    if field == "\\N" { return None; }
    var out, chars := "", field;
    hide Unescaped;
    while chars != ""
      invariant out + Unescaped(chars) == Unescaped(field)
      decreases |chars|
    {
      UnescapedStep(chars);
      var c := chars[0];
      if c != '\\' {
        out, chars := out + [c], chars[1..];
      } else if |chars| > 1 {
        out, chars := out + [Meaning(chars[1])], chars[2..];
      } else {
        chars := "";
      }
    }
    UnescapedStep("");
    assert out + "" == out;
    return Some(out);
  }

  // ------------------------------------------------------ what the server writes

  const Backspace: char := 8 as char
  const VerticalTab: char := 11 as char
  const FormFeed: char := 12 as char

  /** COPY's text encoding of one character. */
  function Escape(c: char): string {
    if c == Backspace then "\\b"
    else if c == VerticalTab then "\\v"
    else if c == FormFeed then "\\f"
    else if c == '\n' then "\\n"
    else if c == '\r' then "\\r"
    else if c == '\t' then "\\t"
    else if c == '\\' then "\\\\"
    else [c]
  }

  function EscapeText(text: string): string {
    if text == "" then "" else Escape(text[0]) + EscapeText(text[1..])
  }

  function EncodeField(field: Field): string {
    match field
    case None => "\\N"
    case Some(text) => EscapeText(text)
  }

  function EncodeFields(fields: seq<Field>): seq<string> {
    seq(|fields|, i requires 0 <= i < |fields| => EncodeField(fields[i]))
  }

  function EncodeRow(fields: seq<Field>): string
    requires fields != []
  {
    Join(EncodeFields(fields))
  }

  /** The three escapes the decoder has no case for lose their backslash. */
  function Degraded(c: char): char {
    if c == Backspace then 'b' else if c == VerticalTab then 'v' else if c == FormFeed then 'f' else c
  }

  function DegradedText(text: string): string {
    seq(|text|, i requires 0 <= i < |text| => Degraded(text[i]))
  }

  function DegradedField(field: Field): Field {
    match field
    case None => None
    case Some(text) => Some(DegradedText(text))
  }

  lemma {:induction false} UnescapeEscapes(text: string)
    ensures Unescaped(EscapeText(text)) == DegradedText(text)
    ensures Closed(EscapeText(text))
    ensures '\n' !in EscapeText(text)
    ensures EscapeText(text) != "\\N"
    ensures EscapeText(text) == "" <==> text == ""
  {
    if text != "" {
      var e, more := Escape(text[0]), EscapeText(text[1..]);
      UnescapeEscapes(text[1..]);
      assert DegradedText(text) == [Degraded(text[0])] + DegradedText(text[1..]);
      assert (e + more)[|e|..] == more;
      if |e| == 2 { assert (e + more)[1] == e[1] && e[1] != 'N'; }
    }
  }

  /** Text that spells the NULL marker, or ends in backslashes, comes back as
      text; only the three characters do not. */
  lemma {:induction false} FieldComesBack(field: Field)
    ensures Value(EncodeField(field)) == DegradedField(field)
    ensures Closed(EncodeField(field)) && '\n' !in EncodeField(field)
  {
    match field
    case None => assert "\\N"[2..] == "";
    case Some(text) => UnescapeEscapes(text);
  }

  function DecodeRow(line: string): seq<Field> {
    var parts := Split(line);
    seq(|parts|, i requires 0 <= i < |parts| => Value(parts[i]))
  }

  function DegradedRow(fields: seq<Field>): seq<Field> {
    seq(|fields|, i requires 0 <= i < |fields| => DegradedField(fields[i]))
  }

  lemma {:induction false} RowComesBack(fields: seq<Field>)
    requires fields != []
    ensures DecodeRow(EncodeRow(fields)) == DegradedRow(fields)
  {
    var encoded := EncodeFields(fields);
    forall i | 0 <= i < |encoded| ensures Closed(encoded[i]) && Value(encoded[i]) == DegradedField(fields[i]) {
      FieldComesBack(fields[i]);
    }
    SplitInvertsJoin(encoded);
  }

  predicate Spared(field: Field) {
    field.Some? ==> Backspace !in field.value && VerticalTab !in field.value && FormFeed !in field.value
  }

  /** The round trip holds exactly when no field has one of the three. */
  lemma {:induction false} RoundTripExactly(fields: seq<Field>)
    requires fields != []
    ensures DecodeRow(EncodeRow(fields)) == fields <==> forall i | 0 <= i < |fields| :: Spared(fields[i])
  {
    RowComesBack(fields);
    forall i | 0 <= i < |fields| ensures DegradedField(fields[i]) == fields[i] <==> Spared(fields[i]) {
      if fields[i].Some? { SparedText(fields[i].value); }
    }
    var back := DegradedRow(fields);
    if back == fields {
      forall i | 0 <= i < |fields| ensures Spared(fields[i]) { assert back[i] == DegradedField(fields[i]); }
    }
  }

  lemma {:induction false} SparedText(text: string)
    ensures DegradedText(text) == text <==> Spared(Some(text))
  {
    var d := DegradedText(text);
    if d == text {
      forall i | 0 <= i < |text| ensures text[i] != Backspace && text[i] != VerticalTab && text[i] != FormFeed {
        assert d[i] == Degraded(text[i]);
      }
    }
  }

  // --------------------------------------------------------------- end to end

  function EncodeTable(rows: seq<seq<Field>>): seq<string>
    requires forall i | 0 <= i < |rows| :: rows[i] != []
  {
    seq(|rows|, i requires 0 <= i < |rows| => EncodeRow(rows[i]))
  }

  function DecodeTable(lines: seq<string>): seq<seq<Field>> {
    seq(|lines|, i requires 0 <= i < |lines| => DecodeRow(lines[i]))
  }

  /** A row of one empty text is an empty line, which the reader skips. */
  predicate Invisible(row: seq<Field>) {
    row == [Some("")]
  }

  /** The rows that get through, as they arrive. */
  function Arrives(rows: seq<seq<Field>>): seq<seq<Field>> {
    if rows == [] then []
    else
      var last := rows[|rows| - 1];
      Arrives(rows[..|rows| - 1]) + (if Invisible(last) then [] else [DegradedRow(last)])
  }

  lemma {:induction false} DecodeMore(lines: seq<string>, line: string)
    ensures DecodeTable(lines + [line]) == DecodeTable(lines) + [DecodeRow(line)]
  {
  }

  lemma {:induction false} EncodeMore(rows: seq<seq<Field>>, row: seq<Field>)
    requires row != [] && forall i | 0 <= i < |rows| :: rows[i] != []
    ensures EncodeTable(rows + [row]) == EncodeTable(rows) + [EncodeRow(row)]
  {
  }

  lemma {:induction false} ArrivesDecoded(rows: seq<seq<Field>>)
    requires forall i | 0 <= i < |rows| :: rows[i] != []
    ensures DecodeTable(NonEmpty(EncodeTable(rows))) == Arrives(rows)
  {
    if rows != [] {
      var n := |rows| - 1;
      var h, last := rows[..n], rows[n];
      ArrivesDecoded(h);
      RowComesBack(last);
      EmptyLine(last);
      EncodeMore(h, last);
      assert rows == h + [last];
      hide DecodeRow, EncodeRow, DegradedRow, DecodeTable, EncodeTable, Invisible;
      EmittedMore(EncodeTable(h), EncodeRow(last));
      DecodeMore(NonEmpty(EncodeTable(h)), EncodeRow(last));
    }
  }

  /** Only a row of one empty text encodes to the empty line. */
  lemma {:induction false} EmptyLine(row: seq<Field>)
    requires row != []
    ensures EncodeRow(row) == "" <==> Invisible(row)
    ensures '\n' !in EncodeRow(row)
  {
    var encoded := EncodeFields(row);
    forall i | 0 <= i < |encoded| ensures '\n' !in encoded[i] { FieldComesBack(row[i]); }
    JoinHasNoNewline(encoded);
    if row[0].Some? { UnescapeEscapes(row[0].value); }
  }

  lemma {:induction false} JoinHasNoNewline(fields: seq<string>)
    requires fields != [] && forall i | 0 <= i < |fields| :: '\n' !in fields[i]
    ensures '\n' !in Join(fields)
  {
    if |fields| > 1 { JoinHasNoNewline(fields[1..]); }
  }

  /** A table sent as COPY text and cut into any chunks arrives row for row,
      but for the rows and characters the reader has no way to see. */
  lemma {:induction false} TableArrives(rows: seq<seq<Field>>, chunks: seq<string>)
    requires forall i | 0 <= i < |rows| :: rows[i] != []
    requires Concat(chunks) == Unlines(EncodeTable(rows))
    ensures DecodeTable(NonEmpty(Lines(Concat(chunks)))) == Arrives(rows)
  {
    forall i | 0 <= i < |rows| ensures '\n' !in EncodeTable(rows)[i] { EmptyLine(rows[i]); }
    LinesOfUnlines(EncodeTable(rows));
    ArrivesDecoded(rows);
  }

  predicate Faithful(row: seq<Field>) {
    !Invisible(row) && forall i | 0 <= i < |row| :: Spared(row[i])
  }

  lemma {:induction false} ArrivesNoMore(rows: seq<seq<Field>>)
    ensures |Arrives(rows)| <= |rows|
  {
    if rows != [] { ArrivesNoMore(rows[..|rows| - 1]); }
  }

  /** The whole table comes through exactly when every row is faithful. */
  lemma {:induction false} TableArrivesWhole(rows: seq<seq<Field>>)
    requires forall i | 0 <= i < |rows| :: rows[i] != []
    ensures Arrives(rows) == rows <==> forall i | 0 <= i < |rows| :: Faithful(rows[i])
  {
    if rows != [] {
      var n := |rows| - 1;
      var h, last := rows[..n], rows[n];
      TableArrivesWhole(h);
      ArrivesNoMore(h);
      RowComesBack(last);
      RoundTripExactly(last);
      var arrived, back := Arrives(h), DegradedRow(last);
      assert Faithful(last) <==> !Invisible(last) && back == last;
      assert Arrives(rows) == arrived + (if Invisible(last) then [] else [back]);
      hide Arrives, EncodeRow, DecodeRow, DegradedRow, Faithful;
      OneMore(rows, arrived, back, Invisible(last));
    }
  }

  lemma {:induction false} OneMore(rows: seq<seq<Field>>, arrived: seq<seq<Field>>, back: seq<Field>, lost: bool)
    requires rows != [] && |arrived| < |rows|
    requires var n := |rows| - 1;
             && (arrived == rows[..n] <==> forall i | 0 <= i < |rows[..n]| :: Faithful(rows[..n][i]))
             && (Faithful(rows[n]) <==> !lost && back == rows[n])
    ensures arrived + (if lost then [] else [back]) == rows <==> forall i | 0 <= i < |rows| :: Faithful(rows[i])
  {
    var n := |rows| - 1;
    var all := arrived + if lost then [] else [back];
    assert rows == rows[..n] + [rows[n]];
    if all == rows {
      assert !lost && all[n] == back && all[..n] == arrived;
      forall i | 0 <= i < |rows| ensures Faithful(rows[i]) { if i < n { assert rows[i] == rows[..n][i]; } }
    }
    if forall i | 0 <= i < |rows| :: Faithful(rows[i]) {
      forall i | 0 <= i < n ensures Faithful(rows[..n][i]) { assert rows[..n][i] == rows[i]; }
      assert Faithful(rows[n]);
    }
  }
}
