/** A target that decides between two writes of one document by their version. */
module Target {
  import opened Wrappers
  import opened Source

  type Index = map<Key, Write>

  /** One write reaching the target: refused only when what is held carries a
      higher version. An equal version is accepted. */
  function Land(target: Index, w: Write): Index {
    if w.key in target && target[w.key].version > w.version then target
    else target[w.key := w]
  }

  /** What a search sees of `k`: a tombstone is nothing. */
  function View(target: Index, k: Key): Option<Doc> {
    if k in target then target[k].doc else None
  }

  /** The target holds, for every key written, one of its highest-versioned writes. */
  ghost predicate KeepsHighest(target: Index, landed: set<Write>) {
    && (forall w | w in landed :: w.key in target && w.version <= target[w.key].version)
    && (forall k | k in target :: target[k] in landed && target[k].key == k)
  }

  lemma LandKeepsHighest(target: Index, landed: set<Write>, w: Write)
    requires KeepsHighest(target, landed)
    ensures KeepsHighest(Land(target, w), landed + {w})
  {
  }

  /** What has to have happened for one key before its document can be trusted
      at position `n`: everything landed tells the truth as of `n`; nothing
      landed is older than the key's `base`; the stream's changes above the base
      have landed or been overtaken; and one range read, after a position `v` at
      or above the base, either found no row or had it land. */
  ghost predicate Settled(hist: seq<Txn>, landed: set<Write>, k: Key, base: nat, v: nat, s: nat, n: nat) {
    && base <= v <= s <= n
    && (forall w | w in landed && w.key == k :: Genuine(hist, n, w) && w.version >= base)
    && (forall c | c in Changes(hist) && c.key == k && base < c.version <= n :: Covers(landed, k, c.version))
    && (DocAt(hist, s, k).Some? ==> Covers(landed, k, v))
  }

  /** The load beside the stream is correct: in whatever order, with whatever
      duplicates the writes landed, a settled key shows the source's row at `n`. */
  lemma SettledKeyIsTheSource(hist: seq<Txn>, clock: nat, target: Index, landed: set<Write>,
                              k: Key, base: nat, v: nat, s: nat, n: nat)
    requires Increasing(hist, clock)
    requires KeepsHighest(target, landed)
    requires Settled(hist, landed, k, base, v, s, n)
    ensures View(target, k) == DocAt(hist, n, k)
  {
    LastChangeIsLast(hist, clock, n, k);
    var last := LastChange(hist, n, k);
    var p := if last.Some? then last.value.version else 0;
    // above the base the last change has landed or been overtaken; at or below
    // it, the range read has seen it
    if p <= base {
      DocUnchanged(hist, clock, s, n, k);
    }
    if k !in target {
      assert !Covers(landed, k, p) && !Covers(landed, k, v);
    } else {
      var w := target[k];
      if w in Changes(hist) && w.version <= n {
        assert w.version == p;
        ChangeIsUnique(hist, clock, w, last.value);
      } else {
        var at: nat :| w.version <= at <= n && DocAt(hist, at, k) == w.doc;
        if p > base { assert w.version >= p; }
        else if DocAt(hist, s, k).Some? { assert w.version >= v; }
        DocUnchanged(hist, clock, at, n, k);
      }
    }
  }
}
