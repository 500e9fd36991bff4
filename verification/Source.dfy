/** The source database as the pipeline sees it: committed transactions at
    strictly increasing log positions, and what one key's row was at a position.
  */
module Source {
  import opened Wrappers

  type Doc = string

  /** A row: its table, and its key inside the table. */
  datatype Key = Key(table: nat, id: int)

  /** One document operation: `doc` is `None` for a delete. `version` is the
      position the target orders it by. */
  datatype Write = Write(key: Key, version: nat, doc: Option<Doc>)

  /** A committed transaction, by the last thing it did to each row. */
  datatype Txn = Txn(pos: nat, changes: map<Key, Option<Doc>>)

  ghost predicate Increasing(hist: seq<Txn>, clock: nat) {
    && (forall i, j | 0 <= i < j < |hist| :: hist[i].pos < hist[j].pos)
    && (forall i | 0 <= i < |hist| :: 0 < hist[i].pos <= clock)
  }

  function ChangesOf(t: Txn): set<Write> {
    set k | k in t.changes :: Write(k, t.pos, t.changes[k])
  }

  /** Every change of the history, as the stream would version it. */
  function Changes(hist: seq<Txn>): set<Write> {
    if hist == [] then {}
    else Changes(hist[..|hist| - 1]) + ChangesOf(hist[|hist| - 1])
  }

  /** The last change of `k` at or below position `p`. */
  function LastChange(hist: seq<Txn>, p: nat, k: Key): Option<Write> {
    if hist == [] then None
    else
      var t := hist[|hist| - 1];
      if t.pos <= p && k in t.changes then Some(Write(k, t.pos, t.changes[k]))
      else LastChange(hist[..|hist| - 1], p, k)
  }

  /** The row of `k` as a snapshot containing exactly the changes at or below
      `p` would show it. */
  function DocAt(hist: seq<Txn>, p: nat, k: Key): Option<Doc> {
    match LastChange(hist, p, k)
    case None => None
    case Some(w) => w.doc
  }

  /** Some write in `ws` puts `k` at version `v` or above. */
  ghost predicate Covers(ws: set<Write>, k: Key, v: nat) {
    exists w :: w in ws && w.key == k && w.version >= v
  }

  /** A write that tells the truth about the source at or before `n`: a change
      of the log, or a row read by a snapshot taken after the position that
      versions it. */
  ghost predicate Genuine(hist: seq<Txn>, n: nat, w: Write) {
    || (w in Changes(hist) && w.version <= n)
    || (w.doc.Some? && exists s: nat :: w.version <= s <= n && DocAt(hist, s, w.key) == w.doc)
  }

  lemma {:induction false} ChangesAreIndexed(hist: seq<Txn>, w: Write)
    ensures w in Changes(hist) <==>
            exists i :: 0 <= i < |hist| && w in ChangesOf(hist[i])
  {
    if hist != [] {
      var h := hist[..|hist| - 1];
      ChangesAreIndexed(h, w);
      if i :| 0 <= i < |hist| && w in ChangesOf(hist[i]) {
        if i < |h| { assert h[i] == hist[i]; }
      }
      if w in Changes(h) {
        var i :| 0 <= i < |h| && w in ChangesOf(h[i]);
        assert hist[i] == h[i];
      }
    }
  }

  /** Positions name changes: a key has one change at a position. */
  lemma ChangeIsUnique(hist: seq<Txn>, clock: nat, a: Write, b: Write)
    requires Increasing(hist, clock)
    requires a in Changes(hist) && b in Changes(hist)
    requires a.key == b.key && a.version == b.version
    ensures a == b
  {
    ChangesAreIndexed(hist, a);
    ChangesAreIndexed(hist, b);
    var i :| 0 <= i < |hist| && a in ChangesOf(hist[i]);
    var j :| 0 <= j < |hist| && b in ChangesOf(hist[j]);
    assert hist[i].pos == hist[j].pos;
    assert i == j;
  }

  lemma ChangeWithinClock(hist: seq<Txn>, clock: nat, w: Write)
    requires Increasing(hist, clock) && w in Changes(hist)
    ensures 0 < w.version <= clock
  {
    ChangesAreIndexed(hist, w);
    var i :| 0 <= i < |hist| && w in ChangesOf(hist[i]);
    assert 0 < hist[i].pos;
  }

  /** `LastChange` is the change of `k` with the greatest position at or below `p`. */
  lemma {:induction false} LastChangeIsLast(hist: seq<Txn>, clock: nat, p: nat, k: Key)
    requires Increasing(hist, clock)
    ensures LastChange(hist, p, k).None? ==>
              forall w | w in Changes(hist) && w.key == k :: w.version > p
    ensures LastChange(hist, p, k).Some? ==>
              var last := LastChange(hist, p, k).value;
              && last in Changes(hist) && last.key == k && last.version <= p
              && forall w | w in Changes(hist) && w.key == k && w.version <= p :: w.version <= last.version
  {
    if hist != [] {
      var h, t := hist[..|hist| - 1], hist[|hist| - 1];
      LastChangeIsLast(h, clock, p, k);
      if t.pos <= p && k in t.changes {
        forall w | w in Changes(h) ensures w.version < t.pos {
          ChangesAreIndexed(h, w);
          var i :| 0 <= i < |h| && w in ChangesOf(h[i]);
          assert h[i] == hist[i];
        }
      }
    }
  }

  /** Between two positions with no change of `k`, its row is the same. */
  lemma DocUnchanged(hist: seq<Txn>, clock: nat, p: nat, q: nat, k: Key)
    requires Increasing(hist, clock) && p <= q
    requires forall w | w in Changes(hist) && w.key == k :: w.version <= p || w.version > q
    ensures DocAt(hist, p, k) == DocAt(hist, q, k)
  {
    LastChangeIsLast(hist, clock, p, k);
    LastChangeIsLast(hist, clock, q, k);
    if LastChange(hist, q, k).Some? {
      var a := LastChange(hist, q, k).value;
      var b := LastChange(hist, p, k).value;
      ChangeIsUnique(hist, clock, a, b);
    }
  }

  /** The row at the position of one of its own changes is what that change made it. */
  lemma DocAtChange(hist: seq<Txn>, clock: nat, w: Write)
    requires Increasing(hist, clock) && w in Changes(hist)
    ensures DocAt(hist, w.version, w.key) == w.doc
  {
    LastChangeIsLast(hist, clock, w.version, w.key);
    ChangeIsUnique(hist, clock, w, LastChange(hist, w.version, w.key).value);
  }

  /** A commit after position `p` leaves every row at `p` alone. */
  lemma CommitKeepsThePast(hist: seq<Txn>, t: Txn, p: nat, k: Key)
    requires t.pos > p
    ensures DocAt(hist + [t], p, k) == DocAt(hist, p, k)
    ensures Changes(hist + [t]) == Changes(hist) + ChangesOf(t)
  {
    assert (hist + [t])[..|hist + [t]| - 1] == hist;
  }

  lemma GenuineStays(hist: seq<Txn>, t: Txn, n: nat, m: nat, w: Write)
    requires Genuine(hist, n, w) && n < t.pos && n <= m
    ensures Genuine(hist + [t], m, w)
  {
    CommitKeepsThePast(hist, t, n, w.key);
    if !(w in Changes(hist) && w.version <= n) {
      var s: nat :| w.version <= s <= n && DocAt(hist, s, w.key) == w.doc;
      CommitKeepsThePast(hist, t, s, w.key);
    }
  }
}
