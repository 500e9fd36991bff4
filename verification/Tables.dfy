/** Which tables a running stream admits, as one value that a reload replaces. */
module Tables {
  import opened Wrappers

  datatype Table = Table(schema: string, name: string)

  datatype TableSet = TableSet(tables: seq<Table>, keyColumns: map<Table, seq<string>>, appendOnly: set<Table>)

  /** Each table once, and for each what the decoder needs to file its rows. */
  ghost predicate Consistent(s: TableSet) {
    && (forall i, j | 0 <= i < j < |s.tables| :: s.tables[i] != s.tables[j])
    && (forall t :: t in s.tables <==> t in s.keyColumns)
    && (forall t | t in s.appendOnly :: t in s.tables)
  }

  function Added(s: TableSet, t: Table, columns: seq<string>, appendOnly: bool): TableSet {
    TableSet(if t in s.tables then s.tables else s.tables + [t],
             s.keyColumns[t := columns],
             if appendOnly then s.appendOnly + {t} else s.appendOnly - {t})
  }

  function Without(tables: seq<Table>, t: Table): (rest: seq<Table>)
    ensures forall u :: u in rest <==> u in tables && u != t
    ensures t !in tables ==> rest == tables
  {
    if tables == [] then []
    else
      var n := |tables| - 1;
      assert tables == tables[..n] + [tables[n]];
      Without(tables[..n], t) + if tables[n] == t then [] else [tables[n]]
  }

  function Removed(s: TableSet, t: Table): TableSet {
    TableSet(Without(s.tables, t), s.keyColumns - {t}, s.appendOnly - {t})
  }

  class SharedTables {
    var current: TableSet

    constructor (s: TableSet)
      ensures current == s
    {
      current := s;
    }

    /** Readers keep the value they took: an edit replaces it whole. */
    method Add(t: Table, columns: seq<string>, appendOnly: bool)
      modifies this
      ensures current == Added(old(current), t, columns, appendOnly)
      ensures Consistent(old(current)) ==> Consistent(current)
    {
      var next := current;
      if t !in next.tables { next := next.(tables := next.tables + [t]); }
      next := next.(keyColumns := next.keyColumns[t := columns]);
      if appendOnly { next := next.(appendOnly := next.appendOnly + {t}); }
      else { next := next.(appendOnly := next.appendOnly - {t}); }
      AddedStays(current, t, columns, appendOnly);
      current := next;
    }

    method Remove(t: Table)
      modifies this
      ensures current == Removed(old(current), t)
      ensures Consistent(old(current)) ==> Consistent(current)
    {
      var kept: seq<Table> := [];
      for i := 0 to |current.tables|
        invariant kept == Without(current.tables[..i], t) && current == old(current)
      {
        assert current.tables[..i + 1][..i] == current.tables[..i];
        if current.tables[i] != t { kept := kept + [current.tables[i]]; }
      }
      assert current.tables[..|current.tables|] == current.tables;
      RemovedStays(current, t);
      current := TableSet(kept, current.keyColumns - {t}, current.appendOnly - {t});
    }
  }

  /** No table is ever admitted without its key columns. */
  lemma AddedStays(s: TableSet, t: Table, columns: seq<string>, appendOnly: bool)
    ensures Consistent(s) ==> Consistent(Added(s, t, columns, appendOnly))
    ensures forall u | u != t :: u in Added(s, t, columns, appendOnly).tables <==> u in s.tables
  {
  }

  /** What is filed of the table is what was given, last in the list unless it was
      there, and nothing of any other table moves. */
  lemma AddedFiles(s: TableSet, t: Table, columns: seq<string>, appendOnly: bool)
    ensures var a := Added(s, t, columns, appendOnly);
            && t in a.keyColumns && a.keyColumns[t] == columns && (t in a.appendOnly <==> appendOnly)
            && (forall u | u != t :: (u in a.keyColumns <==> u in s.keyColumns) && (u in a.appendOnly <==> u in s.appendOnly))
            && (forall u | u != t && u in s.keyColumns :: a.keyColumns[u] == s.keyColumns[u])
            && s.tables <= a.tables && t in a.tables && |a.tables| == |s.tables| + (if t in s.tables then 0 else 1)
  {
    var a := Added(s, t, columns, appendOnly);
    if t !in s.tables { assert a.tables[|s.tables|] == t; }
  }

  /** What is left of a table that leaves, and of the others, in their order. */
  lemma {:induction false} RemovedForgets(s: TableSet, t: Table)
    ensures var r := Removed(s, t);
            && t !in r.tables && t !in r.keyColumns && t !in r.appendOnly
            && (forall u | u != t :: (u in r.tables <==> u in s.tables) && (u in r.appendOnly <==> u in s.appendOnly))
            && (forall u | u != t && u in s.keyColumns :: u in r.keyColumns && r.keyColumns[u] == s.keyColumns[u])
            && (Consistent(s) ==> forall i, j | 0 <= i < j < |s.tables| && s.tables[i] != t && s.tables[j] != t ::
                  exists x, y :: 0 <= x < y < |r.tables| && r.tables[x] == s.tables[i] && r.tables[y] == s.tables[j])
  {
    if Consistent(s) {
      forall i, j | 0 <= i < j < |s.tables| && s.tables[i] != t && s.tables[j] != t
        ensures exists x, y :: 0 <= x < y < |Without(s.tables, t)| && Without(s.tables, t)[x] == s.tables[i] && Without(s.tables, t)[y] == s.tables[j]
      {
        WithoutInOrder(s.tables, t, i, j);
      }
    }
  }

  lemma {:induction false} WithoutInOrder(tables: seq<Table>, t: Table, i: nat, j: nat)
    requires i < j < |tables| && tables[i] != t && tables[j] != t
    ensures exists x, y :: 0 <= x < y < |Without(tables, t)| && Without(tables, t)[x] == tables[i] && Without(tables, t)[y] == tables[j]
  {
    var n := |tables| - 1;
    var rest, all := Without(tables[..n], t), Without(tables, t);
    if j < n {
      WithoutInOrder(tables[..n], t, i, j);
      var x, y :| 0 <= x < y < |rest| && rest[x] == tables[i] && rest[y] == tables[j];
      assert all[x] == tables[i] && all[y] == tables[j];
    } else {
      assert tables[i] in tables[..n];
      assert tables[i] in rest;
      var x :| 0 <= x < |rest| && rest[x] == tables[i];
      assert all[x] == tables[i] && all[|rest|] == tables[j];
    }
  }

  lemma {:induction false} WithoutStaysApart(tables: seq<Table>, t: Table)
    requires forall i, j | 0 <= i < j < |tables| :: tables[i] != tables[j]
    ensures forall i, j | 0 <= i < j < |Without(tables, t)| :: Without(tables, t)[i] != Without(tables, t)[j]
  {
    if tables != [] {
      var n := |tables| - 1;
      WithoutStaysApart(tables[..n], t);
      assert tables[n] !in Without(tables[..n], t);
    }
  }

  lemma RemovedStays(s: TableSet, t: Table)
    ensures Consistent(s) ==> Consistent(Removed(s, t))
  {
    if Consistent(s) { WithoutStaysApart(s.tables, t); }
  }

  /** A table that joined and left leaves nothing behind. */
  lemma JoinThenLeave(s: TableSet, t: Table, columns: seq<string>, appendOnly: bool)
    requires Consistent(s) && t !in s.tables
    ensures Removed(Added(s, t, columns, appendOnly), t) == s
  {
    assert (s.tables + [t])[..|s.tables|] == s.tables;
    assert t !in s.keyColumns && t !in s.appendOnly;
  }
}
