/** Index templates, the pattern each one claims, and the check that keeps a
    TRUNCATE of one section off the indices of another. */
module Claims {
  import opened Wrappers
  import opened Glob

  datatype Part = Literal(text: string) | Column(name: string)

  datatype IndexTarget = Static(name: string) | Template(spec: string, parts: seq<Part>) {
    function Spec(): string {
      match this
      case Static(name) => name
      case Template(spec, _) => spec
    }

    /** The wildcard a TRUNCATE has to clear. */
    function Pattern(): string {
      match this
      case Static(name) => name
      case Template(_, parts) => PatternFrom("", parts)
    }
  }

  /** A row's columns by display text; NULL has none. */
  type Row = map<string, Option<string>>

  datatype Section = Section(key: string, target: IndexTarget)

  datatype ClaimError =
    | AlsoFedBy(template: nat, other: nat)
    | AlsoMatches(template: nat, other: nat)

  // ---------------------------------------------------------------- patterns

  function EndsWithStar(s: string): bool {
    s != "" && s[|s| - 1] == '*'
  }

  function PatternFrom(out: string, parts: seq<Part>): string
    decreases |parts|
  {
    if parts == [] then out
    else
      match parts[0]
      case Literal(text) => PatternFrom(out + text, parts[1..])
      case Column(_) => PatternFrom(if EndsWithStar(out) then out else out + "*", parts[1..])
  }

  method BuildPattern(parts: seq<Part>) returns (out: string)
    ensures out == PatternFrom("", parts)
  {
    out := "";
    for i := 0 to |parts|
      invariant PatternFrom(out, parts[i..]) == PatternFrom("", parts)
    {
      assert parts[i..][1..] == parts[i + 1..];
      match parts[i]
      case Literal(text) => out := out + text;
      case Column(_) => if !EndsWithStar(out) { out := out + "*"; }
    }
  }

  /** One star for every placeholder. */
  function Expand(parts: seq<Part>): string {
    if parts == [] then ""
    else (match parts[0] case Literal(text) => text case Column(_) => "*") + Expand(parts[1..])
  }

  /** A second star beside one adds no name and loses none. */
  lemma StarsCollapse(out: string, rest: string, name: string)
    requires EndsWithStar(out)
    ensures Matches(out + rest, name) <==> Matches(out + "*" + rest, name)
  {
    var o := out[..|out| - 1];
    assert out == o + "*";
    MatchesItself(o);
    MatchesItself(rest);
    MatchesItself(out);
    StarMatches("");
    StarMatches("**");
    hide Matches;
    MatchesConcat(out, out, "*", "");
    MatchesConcat(out + "*", out + "", rest, rest);
    assert out + "" == out;
    ContainmentIsMatching(out + "*" + rest, out + rest);
    MatchesConcat(o, o, "*", "**");
    MatchesConcat(o + "*", o + "**", rest, rest);
    assert o + "**" == out + "*";
    ContainmentIsMatching(out + rest, out + "*" + rest);
  }

  /** Collapsing adjacent stars leaves the claim as it was. */
  lemma {:induction false} PatternFromMeans(out: string, parts: seq<Part>, name: string)
    ensures Matches(PatternFrom(out, parts), name) <==> Matches(out + Expand(parts), name)
    decreases |parts|
  {
    hide Matches;
    if parts == [] {
      assert out + "" == out;
    } else {
      var rest := Expand(parts[1..]);
      match parts[0]
      case Literal(text) =>
        PatternFromMeans(out + text, parts[1..], name);
        assert out + text + rest == out + (text + rest);
      case Column(_) =>
        assert out + "*" + rest == out + ("*" + rest);
        if EndsWithStar(out) {
          PatternFromMeans(out, parts[1..], name);
          StarsCollapse(out, rest, name);
        } else {
          PatternFromMeans(out + "*", parts[1..], name);
        }
    }
  }

  // --------------------------------------------------------------- rendering

  predicate PartRenders(part: Part, row: Row) {
    part.Column? ==> part.name in row && row[part.name].Some?
  }

  function TextOf(part: Part, row: Row): string
    requires PartRenders(part, row)
  {
    match part
    case Literal(text) => text
    case Column(c) => row[c].value
  }

  predicate Renders(parts: seq<Part>, row: Row) {
    forall i | 0 <= i < |parts| :: PartRenders(parts[i], row)
  }

  function Rendered(parts: seq<Part>, row: Row): string
    requires Renders(parts, row)
  {
    if parts == [] then ""
    else
      assert forall i | 0 <= i < |parts[1..]| :: parts[1..][i] == parts[i + 1];
      TextOf(parts[0], row) + Rendered(parts[1..], row)
  }

  lemma {:induction false} RenderedSnoc(parts: seq<Part>, p: Part, row: Row)
    requires Renders(parts, row) && PartRenders(p, row)
    ensures Renders(parts + [p], row) && Rendered(parts + [p], row) == Rendered(parts, row) + TextOf(p, row)
  {
    var all := parts + [p];
    assert forall i | 0 <= i < |parts| :: parts[i] == all[i];
    assert all[|parts|] == p;
    if parts == [] {
      assert all[1..] == [];
    } else {
      assert all[1..] == parts[1..] + [p];
      assert forall i | 0 <= i < |all[1..]| :: all[1..][i] == all[i + 1];
      RenderedSnoc(parts[1..], p, row);
    }
  }

  /** Renders every part in turn; a column the row lacks or holds as NULL is an
      error naming the first such column. */
  method Render(parts: seq<Part>, row: Row) returns (r: Result<string, string>)
    ensures r.Ok? <==> Renders(parts, row)
    ensures r.Ok? ==> r.value == Rendered(parts, row)
    ensures r.Err? ==> exists i :: 0 <= i < |parts| && parts[i] == Column(r.error) && Renders(parts[..i], row)
                                   && !Renders(parts[..i + 1], row)
  {
    var out := "";
    for i := 0 to |parts|
      invariant Renders(parts[..i], row) && out == Rendered(parts[..i], row)
    {
      var part := parts[i];
      assert parts[..i + 1] == parts[..i] + [part];
      if !PartRenders(part, row) {
        assert parts[..i + 1][i] == part && parts[i] == Column(part.name);
        return Err(part.name);
      }
      RenderedSnoc(parts[..i], part, row);
      out := out + TextOf(part, row);
    }
    assert parts[..|parts|] == parts;
    return Ok(out);
  }

  lemma {:induction false} RenderedMatchesExpand(parts: seq<Part>, row: Row)
    requires Renders(parts, row)
    ensures Matches(Expand(parts), Rendered(parts, row))
  {
    if parts == [] {
      MatchesItself("");
    } else {
      assert forall i | 0 <= i < |parts[1..]| :: parts[1..][i] == parts[i + 1];
      RenderedMatchesExpand(parts[1..], row);
      match parts[0]
      case Literal(text) =>
        MatchesItself(text);
        MatchesConcat(text, text, Expand(parts[1..]), Rendered(parts[1..], row));
      case Column(c) =>
        StarMatches(row[c].value);
        MatchesConcat("*", row[c].value, Expand(parts[1..]), Rendered(parts[1..], row));
    }
  }

  /** Every index a template's rows go to is one its TRUNCATE clears. */
  lemma RenderedIsClaimed(spec: string, parts: seq<Part>, row: Row)
    requires Renders(parts, row)
    ensures Matches(Template(spec, parts).Pattern(), Rendered(parts, row))
  {
    RenderedMatchesExpand(parts, row);
    PatternFromMeans("", parts, Rendered(parts, row));
    assert "" + Expand(parts) == Expand(parts);
  }

  // ------------------------------------------------------------ the grammar

  predicate LegalCharacter(c: char) {
    'a' <= c <= 'z' || '0' <= c <= '9' || c == '_' || c == '-'
  }

  predicate LegalName(name: string) {
    name != "" && 'a' <= name[0] <= 'z' && forall i | 0 <= i < |name| :: LegalCharacter(name[i])
  }

  /** The template with one legal character for each placeholder. */
  function Sample(parts: seq<Part>): string {
    if parts == [] then ""
    else (match parts[0] case Literal(text) => text case Column(_) => "x") + Sample(parts[1..])
  }

  /** What a section's target has passed before claims are compared. */
  predicate Usable(target: IndexTarget) {
    match target
    case Static(name) => LegalName(name)
    case Template(_, parts) => (exists i :: 0 <= i < |parts| && parts[i].Literal?) && LegalName(Sample(parts))
  }

  // -------------------------------------------------------------- the claims

  /** Template `i` and section `j` may stand side by side. */
  ghost predicate Apart(sections: seq<Section>, i: nat, j: nat)
    requires i < |sections| && j < |sections|
  {
    sections[i].target.Template? && sections[i].key != sections[j].key ==>
      && sections[j].target.Spec() != sections[i].target.Spec()
      && !Within(sections[j].target.Pattern(), sections[i].target.Pattern())
  }

  method CheckTemplateClaims(sections: seq<Section>) returns (r: Result<(), ClaimError>)
    ensures r.Ok? <==> forall i, j | 0 <= i < |sections| && 0 <= j < |sections| :: Apart(sections, i, j)
    ensures r.Err? ==>
              var (i, j) := (r.error.template, r.error.other);
              && i < |sections| && j < |sections| && !Apart(sections, i, j)
              && (r.error.AlsoFedBy? ==> sections[j].target.Spec() == sections[i].target.Spec())
              && (r.error.AlsoMatches? ==> Within(sections[j].target.Pattern(), sections[i].target.Pattern()))
  {
    for i := 0 to |sections|
      invariant forall a, j | 0 <= a < i && 0 <= j < |sections| :: Apart(sections, a, j)
    {
      var mine := sections[i];
      if mine.target.Template? {
        for j := 0 to |sections|
          invariant forall b | 0 <= b < j && sections[b].key != mine.key ::
                      sections[b].target.Spec() != mine.target.Spec()
        {
          if sections[j].key != mine.key && sections[j].target.Spec() == mine.target.Spec() {
            assert !Apart(sections, i, j);
            return Err(AlsoFedBy(i, j));
          }
        }
        var pattern := mine.target.Pattern();
        for j := 0 to |sections|
          invariant forall b | 0 <= b < j && sections[b].key != mine.key ::
                      !Within(sections[b].target.Pattern(), pattern)
        {
          var theirs := sections[j].target.Pattern();
          var inside := IndexMatchesPattern(pattern, theirs);
          ContainmentIsMatching(pattern, theirs);
          if sections[j].key != mine.key && inside {
            assert !Apart(sections, i, j);
            return Err(AlsoMatches(i, j));
          }
        }
      }
    }
    return Ok(());
  }

  /** Accepted side by side, a TRUNCATE of a template never clears a fixed
      index of another section. */
  lemma FixedIndexIsSafe(sections: seq<Section>, i: nat, j: nat)
    requires i < |sections| && j < |sections| && Apart(sections, i, j)
    requires sections[i].target.Template? && sections[j].target.Static? && sections[i].key != sections[j].key
    ensures !Matches(sections[i].target.Pattern(), sections[j].target.name)
  {
    ContainmentIsMatching(sections[i].target.Pattern(), sections[j].target.name);
  }
}
