/** A table's stored load progress: its document, its key, the marks a loader
    waits on, and the question a start asks of it. */
module Progress {
  import opened Wrappers

  datatype Json =
    | JNull
    | JBool(truth: bool)
    | JNumber(value: int)
    | JFraction(number: real)
    | JString(text: string)
    | JArray(items: seq<Json>)
    | JObject(fields: map<string, Json>)

  datatype LoadCursor = Ranges(boundaries: seq<string>, done: nat) | AfterKey(key: seq<string>)

  datatype LoadProgress = LoadProgress(cursor: LoadCursor, finished: bool)

  const TwoTo64 := 0x1_0000_0000_0000_0000

  // ---------------------------------------------------------------- documents

  function Field(src: Json, name: string): Option<Json> {
    if src.JObject? && name in src.fields then Some(src.fields[name]) else None
  }

  function JStrings(items: seq<string>): Json {
    JArray(seq(|items|, i requires 0 <= i < |items| => JString(items[i])))
  }

  function ToDoc(p: LoadProgress): Json {
    var fields := match p.cursor
                  case Ranges(boundaries, done) => map["boundaries" := JStrings(boundaries), "done" := JNumber(done)]
                  case AfterKey(key) => map["after" := JStrings(key)];
    JObject(fields["finished" := JBool(p.finished)])
  }

  function Strings(src: Option<Json>): Option<seq<string>> {
    if src.None? || !src.value.JArray? then None
    else if forall i | 0 <= i < |src.value.items| :: src.value.items[i].JString? then
      Some(seq(|src.value.items|, i requires 0 <= i < |src.value.items| => src.value.items[i].text))
    else None
  }

  /** A document that cannot be read is no document. */
  function FromDoc(src: Json): Option<LoadProgress> {
    var finished := Field(src, "finished");
    if finished.None? || !finished.value.JBool? then None
    else if Field(src, "after").Some? then
      match Strings(Field(src, "after"))
      case None => None
      case Some(key) => Some(LoadProgress(AfterKey(key), finished.value.truth))
    else
      var done := Field(src, "done");
      match Strings(Field(src, "boundaries"))
      case None => None
      case Some(boundaries) =>
        if done.Some? && done.value.JNumber? && 0 <= done.value.value < TwoTo64
        then Some(LoadProgress(Ranges(boundaries, done.value.value), finished.value.truth))
        else None
  }

  lemma StringsComeBack(items: seq<string>)
    ensures Strings(Some(JStrings(items))) == Some(items)
  {
    var back := Strings(Some(JStrings(items))).value;
    assert |back| == |items| && forall i | 0 <= i < |items| :: back[i] == items[i];
    assert back == items;
  }

  /** What was stored is what is read. */
  lemma DocumentComesBack(p: LoadProgress)
    requires p.cursor.Ranges? ==> p.cursor.done < TwoTo64
    ensures FromDoc(ToDoc(p)) == Some(p)
  {
    var doc := ToDoc(p);
    assert Field(doc, "finished") == Some(JBool(p.finished));
    match p.cursor
    case Ranges(boundaries, done) =>
      assert "after" !in doc.fields;
      assert Field(doc, "boundaries") == Some(JStrings(boundaries)) && Field(doc, "done") == Some(JNumber(done));
      StringsComeBack(boundaries);
    case AfterKey(key) =>
      assert Field(doc, "after") == Some(JStrings(key));
      StringsComeBack(key);
  }

  /** What is read of a stored object: `finished` has to be a truth value, and then
      either the key reached or the boundaries with a count that fits 64 bits. A
      document that says neither, or says it wrongly, is no document. */
  lemma ReadExactlyWhen(fields: map<string, Json>, p: LoadProgress)
    ensures FromDoc(JObject(fields)) == Some(p) <==>
            && "finished" in fields && fields["finished"] == JBool(p.finished)
            && (if "after" in fields then p.cursor.AfterKey? && Listed(fields["after"], p.cursor.key)
                else && p.cursor.Ranges? && "boundaries" in fields && Listed(fields["boundaries"], p.cursor.boundaries)
                     && "done" in fields && fields["done"] == JNumber(p.cursor.done) && p.cursor.done < 18446744073709551616)
  {
    if "after" in fields { ListedIs(fields["after"]); }
    if "boundaries" in fields { ListedIs(fields["boundaries"]); }
    hide Strings;
  }

  /** An array of these texts. */
  ghost predicate Listed(src: Json, items: seq<string>) {
    src.JArray? && |src.items| == |items| && forall i | 0 <= i < |items| :: src.items[i] == JString(items[i])
  }

  lemma ListedIs(src: Json)
    ensures forall items :: Strings(Some(src)) == Some(items) <==> Listed(src, items)
  {
    forall items ensures Strings(Some(src)) == Some(items) <==> Listed(src, items) {
      if Listed(src, items) {
        assert forall i | 0 <= i < |src.items| :: src.items[i].JString?;
        assert Strings(Some(src)).value == items;
      }
    }
  }

  // ---------------------------------------------------------------------- keys

  datatype StreamId = StreamId(source: string, stream: string)

  /** Everything but letters, digits, `-` and `_` becomes `_`. */
  function Tame(s: string, alphanumeric: char -> bool): (r: string)
    ensures |r| == |s|
    ensures forall i | 0 <= i < |s| :: r[i] == if alphanumeric(s[i]) || s[i] == '-' || s[i] == '_' then s[i] else '_'
  {
    seq(|s|, i requires 0 <= i < |s| => if alphanumeric(s[i]) || s[i] == '-' || s[i] == '_' then s[i] else '_')
  }

  function ProgressKey(id: StreamId, table: string, alphanumeric: char -> bool): string {
    "load-" + Tame(id.source, alphanumeric) + "-" + Tame(id.stream, alphanumeric) + "-" + Tame(table, alphanumeric)
  }

  /** Two tables of one stream share a document exactly when their names differ
      only in characters that are tamed. */
  lemma KeysMeet(id: StreamId, a: string, b: string, alphanumeric: char -> bool)
    ensures ProgressKey(id, a, alphanumeric) == ProgressKey(id, b, alphanumeric) <==>
            Tame(a, alphanumeric) == Tame(b, alphanumeric)
  {
    var front := "load-" + Tame(id.source, alphanumeric) + "-" + Tame(id.stream, alphanumeric) + "-";
    var x, y := ProgressKey(id, a, alphanumeric), ProgressKey(id, b, alphanumeric);
    assert x[|front|..] == Tame(a, alphanumeric) && y[|front|..] == Tame(b, alphanumeric);
  }

  /** Two pipelines on one target share a document of a table exactly when their
      names tame to the same text, source and stream together. */
  lemma PipelinesMeet(a: StreamId, b: StreamId, table: string, alphanumeric: char -> bool)
    ensures ProgressKey(a, table, alphanumeric) == ProgressKey(b, table, alphanumeric) <==>
            Tame(a.source, alphanumeric) + "-" + Tame(a.stream, alphanumeric) ==
            Tame(b.source, alphanumeric) + "-" + Tame(b.stream, alphanumeric)
    ensures a.source == b.source ==>
              (ProgressKey(a, table, alphanumeric) == ProgressKey(b, table, alphanumeric) <==>
               Tame(a.stream, alphanumeric) == Tame(b.stream, alphanumeric))
  {
    var x, y := ProgressKey(a, table, alphanumeric), ProgressKey(b, table, alphanumeric);
    var p := Tame(a.source, alphanumeric) + "-" + Tame(a.stream, alphanumeric);
    var q := Tame(b.source, alphanumeric) + "-" + Tame(b.stream, alphanumeric);
    var end := "-" + Tame(table, alphanumeric);
    assert x == "load-" + p + end && y == "load-" + q + end;
    assert x[5..|x| - |end|] == p && y[5..|y| - |end|] == q;
    if a.source == b.source {
      var n := |a.source| + 1;
      assert p[n..] == Tame(a.stream, alphanumeric) && q[n..] == Tame(b.stream, alphanumeric);
    }
  }

  /** The text of a key, where nothing needs taming. */
  lemma KeyReads(id: StreamId, table: string, alphanumeric: char -> bool)
    requires forall s, i | s in {id.source, id.stream, table} && 0 <= i < |s| :: alphanumeric(s[i]) || s[i] == '-' || s[i] == '_'
    ensures ProgressKey(id, table, alphanumeric) == "load-" + id.source + "-" + id.stream + "-" + table
  {
    assert id.source in {id.source, id.stream, table} && id.stream in {id.source, id.stream, table};
    assert table in {id.source, id.stream, table};
    assert Tame(id.source, alphanumeric) == id.source && Tame(id.stream, alphanumeric) == id.stream;
    assert Tame(table, alphanumeric) == table;
  }

  /** Which two different pipelines can do, a dash standing between the names as
      well as in them. */
  lemma TwoPipelinesOneKey(table: string, alphanumeric: char -> bool)
    ensures ProgressKey(StreamId("a-b", "c"), table, alphanumeric) == ProgressKey(StreamId("a", "b-c"), table, alphanumeric)
  {
    assert Tame("a-b", alphanumeric) == Tame("a", alphanumeric) + "-" + Tame("b", alphanumeric);
    assert Tame("b-c", alphanumeric) == Tame("b", alphanumeric) + "-" + Tame("c", alphanumeric);
    PipelinesMeet(StreamId("a-b", "c"), StreamId("a", "b-c"), table, alphanumeric);
  }

  /** Which two different tables of one database can do: the document of one is
      then read as the other's. */
  lemma TwoTablesOneKey(id: StreamId, alphanumeric: char -> bool)
    requires forall c :: 'a' <= c <= 'z' ==> alphanumeric(c)
    requires !alphanumeric('.')
    ensures ProgressKey(id, "a.b_c", alphanumeric) == ProgressKey(id, "a_b.c", alphanumeric)
  {
    assert Tame("a.b_c", alphanumeric) == Tame("a_b.c", alphanumeric);
  }

  // ------------------------------------------------------------ what a start asks

  function Stored(state: map<string, Json>, key: string): Option<LoadProgress> {
    if key in state then FromDoc(state[key]) else None
  }

  predicate Pending(state: map<string, Json>, key: string) {
    Stored(state, key).Some? && !Stored(state, key).value.finished
  }

  /** Whether a previous load left one of the tables unfinished. */
  method Unfinished(state: map<string, Json>, keys: seq<string>) returns (pending: bool)
    ensures pending <==> exists i :: 0 <= i < |keys| && Pending(state, keys[i])
  {
    for i := 0 to |keys|
      invariant forall j | 0 <= j < i :: !Pending(state, keys[j])
    {
      var stored := Stored(state, keys[i]);
      if stored.Some? && !stored.value.finished {
        return true;
      }
    }
    return false;
  }

  // --------------------------------------------------------------------- marks

  /** One sequence per channel. The counter wraps at 2^64; a mark does not. */
  class MarkSequence {
    var counter: nat

    ghost predicate Valid()
      reads this
    {
      counter < TwoTo64
    }

    constructor ()
      ensures Valid() && counter == 0
    {
      counter := 0;
    }

    /** Never zero, and above every mark drawn before, for 2^64 - 1 draws. */
    method Next() returns (mark: nat)
      requires Valid()
      modifies this
      ensures Valid() && 0 < mark < TwoTo64
      ensures old(counter) < TwoTo64 - 1 ==> mark == counter == old(counter) + 1
    {
      mark := if counter < TwoTo64 - 1 then counter + 1 else TwoTo64 - 1;
      counter := (counter + 1) % TwoTo64;
    }

    /** `n` draws in a row give `n` different marks, in order. */
    method Draw(n: nat) returns (marks: seq<nat>)
      requires Valid() && counter + n < TwoTo64
      modifies this
      ensures Valid() && counter == old(counter) + n && |marks| == n
      ensures forall i | 0 <= i < n :: marks[i] == old(counter) + 1 + i
    {
      marks := [];
      for i := 0 to n
        invariant Valid() && counter == old(counter) + i && |marks| == i
        invariant forall j | 0 <= j < i :: marks[j] == old(counter) + 1 + j
      {
        var m := Next();
        marks := marks + [m];
      }
    }
  }
}
