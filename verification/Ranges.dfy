/** Cutting a table into key ranges at sampled boundaries. */
module Ranges {
  import opened Wrappers
  import opened Source

  /** One range of keys; `None` leaves the range open on that side. */
  datatype KeyRange = KeyRange(from: Option<int>, to: Option<int>) {
    /** What the range's predicate selects. */
    predicate Contains(id: int) {
      && (from.Some? ==> id >= from.value)
      && (to.Some? ==> id < to.value)
    }
  }

  ghost predicate StrictlyIncreasing(bounds: seq<int>) {
    forall i, j | 0 <= i < j < |bounds| :: bounds[i] < bounds[j]
  }

  /** Range `r` of the ranges between `bounds`. */
  function RangeAt(bounds: seq<int>, r: nat): KeyRange
    requires r <= |bounds|
  {
    KeyRange(if r == 0 then None else Some(bounds[r - 1]),
             if r == |bounds| then None else Some(bounds[r]))
  }

  /** The ranges between the interior boundaries, in order. */
  method RangesFromBounds(bounds: seq<int>) returns (ranges: seq<KeyRange>)
    ensures |ranges| == |bounds| + 1
    ensures forall r | 0 <= r < |ranges| :: ranges[r] == RangeAt(bounds, r)
  {
    if bounds == [] {
      return [KeyRange(None, None)];
    }
    ranges := [KeyRange(None, Some(bounds[0]))];
    for i := 0 to |bounds| - 1
      invariant |ranges| == i + 1
      invariant forall r | 0 <= r < |ranges| :: ranges[r] == RangeAt(bounds, r)
    {
      ranges := ranges + [KeyRange(Some(bounds[i]), Some(bounds[i + 1]))];
    }
    ranges := ranges + [KeyRange(Some(bounds[|bounds| - 1]), None)];
  }

  /** How many boundaries are at or below a key: the range it falls in. */
  function RangeOf(bounds: seq<int>, id: int): (r: nat)
    ensures r <= |bounds|
  {
    if bounds == [] || id < bounds[0] then 0 else 1 + RangeOf(bounds[1..], id)
  }

  /** Boundaries that strictly increase put every key in exactly one range. */
  lemma {:induction false} ExactlyOneRange(bounds: seq<int>, id: int, r: nat)
    requires StrictlyIncreasing(bounds) && r <= |bounds|
    ensures RangeAt(bounds, r).Contains(id) <==> r == RangeOf(bounds, id)
  {
    if bounds != [] && id >= bounds[0] {
      var rest := bounds[1..];
      if r > 0 {
        ExactlyOneRange(rest, id, r - 1);
        assert RangeAt(bounds, r).to == RangeAt(rest, r - 1).to;
        if r > 1 { assert RangeAt(bounds, r).from == RangeAt(rest, r - 1).from; }
      }
    }
  }
}
