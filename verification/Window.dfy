/** What the engine remembers, from everything it has taken in: which copied rows
    it drops, and when a mark is held back. */
module Window {
  import opened Wrappers
  import opened Source
  import opened Engine
  import opened Drains

  datatype Input =
    | Row(w: Write)
    | Begin
    | Commit(pos: nat, hold: bool)
    | Mark(mark: nat)
    | LoadStarted
    | LoadFinished

  function Take(e: Engine, x: Input): Engine {
    match x
    case Row(w) => TakeRow(e, w)
    case Begin => TakeBegin(e)
    case Commit(pos, hold) => TakeCommit(e, pos, hold)
    case Mark(m) => TakeMark(e, m)
    case LoadStarted => TakeStarted(e)
    case LoadFinished => TakeFinished(e)
  }

  /** An attempt's engine after all of `xs`. */
  function After(xs: seq<Input>): Engine {
    if xs == [] then Fresh else Take(After(xs[..|xs| - 1]), xs[|xs| - 1])
  }

  // --------------------------------------------------------------- the window

  /** A load is running: none has finished since one last started, the attempt
      itself being a start. */
  ghost predicate Running(xs: seq<Input>) {
    forall i | 0 <= i < |xs| && xs[i].LoadFinished? :: StartedSince(xs, i)
  }

  ghost predicate StartedSince(xs: seq<Input>, i: nat) {
    exists j :: i < j < |xs| && xs[j].LoadStarted?
  }

  lemma RunningSnoc(xs: seq<Input>, x: Input)
    ensures Running(xs + [x]) <==> x.LoadStarted? || (!x.LoadFinished? && Running(xs))
  {
    var all := xs + [x];
    assert all[|xs|] == x && forall i | 0 <= i < |xs| :: all[i] == xs[i];
    forall i | 0 <= i < |xs| ensures StartedSince(all, i) <==> x.LoadStarted? || StartedSince(xs, i) {
      if x.LoadStarted? { assert all[|xs|].LoadStarted?; }
      if StartedSince(xs, i) {
        var j :| i < j < |xs| && xs[j].LoadStarted?;
        assert all[j].LoadStarted?;
      }
    }
    assert !StartedSince(all, |xs|);
    hide StartedSince;
  }

  lemma {:induction false} RunningIs(xs: seq<Input>)
    ensures After(xs).loadRunning <==> Running(xs)
  {
    if xs != [] {
      var n := |xs| - 1;
      RunningIs(xs[..n]);
      TakeRunning(After(xs[..n]), xs[n]);
      RunningSnoc(xs[..n], xs[n]);
      assert xs == xs[..n] + [xs[n]];
      hide Running, Take;
    }
  }

  lemma TakeRunning(e: Engine, x: Input)
    ensures Take(e, x).loadRunning == if x.LoadStarted? then true else if x.LoadFinished? then false else e.loadRunning
    ensures !x.Row? && !x.Mark? && !x.LoadFinished? ==> Take(e, x).superseded == e.superseded
    ensures x.Mark? || x.LoadFinished? ==> Take(e, x).superseded == map[]
  {
    hide TakeCommit, TakeMark;
    match x
    case Commit(pos, hold) => CommitWindow(e, pos, hold);
    case Mark(m) => MarkWindow(e, m);
    case _ =>
  }

  lemma HandOverKeeps(e: Engine)
    ensures SameSettings(e, Flush(e)) && SameSettings(e, ReleasePending(e))
  {
  }

  predicate SameSettings(e: Engine, s: Engine) {
    s.loadRunning == e.loadRunning && s.superseded == e.superseded && s.txnOpen == e.txnOpen
  }

  lemma CommitWindow(e: Engine, pos: nat, hold: bool)
    ensures var s := TakeCommit(e, pos, hold); s.loadRunning == e.loadRunning && s.superseded == e.superseded
    ensures TakeCommit(e, pos, hold).txnOpen == (e.txnOpen && pos == 0)
  {
    forall x: Engine ensures SameSettings(x, Flush(x)) && SameSettings(x, ReleasePending(x)) { HandOverKeeps(x); }
    hide Flow, Stamp, Flush, ReleasePending;
  }

  lemma MarkWindow(e: Engine, m: nat)
    ensures var s := TakeMark(e, m); s.loadRunning == e.loadRunning && s.superseded == map[] && s.txnOpen == e.txnOpen
  {
    hide Flow;
  }

  /** The delete taken at `i` is remembered: a load was running then, and no mark
      has been taken since and no load has ended. */
  ghost predicate Kept(xs: seq<Input>, i: nat)
    requires i < |xs|
  {
    Running(xs[..i]) && forall j | i < j < |xs| :: !xs[j].Mark? && !xs[j].LoadFinished?
  }

  /** A delete of the key above `v` that is remembered. */
  ghost predicate Removed(xs: seq<Input>, k: Key, v: nat) {
    exists i, d :: 0 <= i < |xs| && xs[i] == Row(d) && d.doc.None? && d.key == k && d.version > v && Kept(xs, i)
  }

  ghost predicate Outranked(e: Engine, k: Key, v: nat) {
    k in e.superseded && e.superseded[k] > v
  }

  lemma {:induction false} RemovedIs(xs: seq<Input>, k: Key, v: nat)
    ensures Outranked(After(xs), k, v) <==> Removed(xs, k, v)
  {
    if xs != [] {
      var n := |xs| - 1;
      var x, before := xs[n], xs[..n];
      RemovedIs(before, k, v);
      RunningIs(before);
      TakeRunning(After(before), x);
      RemovedSnoc(before, x, k, v);
      assert xs == before + [x];
      if x.Row? { RowRemembers(After(before), x.w, k, v); }
      hide After, Take, Running, Removed;
    }
  }

  lemma RowRemembers(e: Engine, w: Write, k: Key, v: nat)
    ensures Outranked(TakeRow(e, w), k, v) <==>
            Outranked(e, k, v) || (w.doc.None? && e.loadRunning && w.key == k && w.version > v)
  {
  }

  lemma RemovedSnoc(xs: seq<Input>, x: Input, k: Key, v: nat)
    ensures Removed(xs + [x], k, v) <==>
            (!x.Mark? && !x.LoadFinished? && Removed(xs, k, v))
            || (x.Row? && x.w.doc.None? && x.w.key == k && x.w.version > v && Running(xs))
  {
    var all := xs + [x];
    hide Running;
    forall i | 0 <= i < |xs| ensures all[..i] == xs[..i] && all[i] == xs[i] {}
    assert all[..|xs|] == xs && all[|xs|] == x;
    if !x.Mark? && !x.LoadFinished? && Removed(xs, k, v) {
      var i, d :| 0 <= i < |xs| && xs[i] == Row(d) && d.doc.None? && d.key == k && d.version > v && Kept(xs, i);
      assert Kept(all, i);
    }
    if x.Row? && x.w.doc.None? && x.w.key == k && x.w.version > v && Running(xs) { assert Kept(all, |xs|); }
    if Removed(all, k, v) {
      var i, d :| 0 <= i < |all| && all[i] == Row(d) && d.doc.None? && d.key == k && d.version > v && Kept(all, i);
      if i < |xs| { assert Kept(xs, i) && !all[|xs|].Mark? && !all[|xs|].LoadFinished?; }
    }
  }

  /** A document is dropped exactly when the engine has taken a delete of its key
      at a later version while a load was running, and neither a mark nor the end
      of a load since. A delete is never dropped. */
  lemma DroppedExactlyWhen(xs: seq<Input>, w: Write)
    ensures After(xs + [Row(w)]) == After(xs) <==> w.doc.Some? && Removed(xs, w.key, w.version)
    ensures !(w.doc.Some? && Removed(xs, w.key, w.version)) ==> Flow(After(xs + [Row(w)])) == Flow(After(xs)) + [w]
  {
    assert (xs + [Row(w)])[..|xs|] == xs;
    RemovedIs(xs, w.key, w.version);
    var e := After(xs);
    assert After(xs + [Row(w)]) == TakeRow(e, w);
    assert |TakeRow(e, w).buffer| == |e.buffer| + (if w.doc.Some? && Outranked(e, w.key, w.version) then 0 else 1);
    if !(w.doc.Some? && Outranked(e, w.key, w.version)) { AcceptedFlow(e, w); }
    hide After, Removed, Flow;
  }

  lemma AcceptedFlow(e: Engine, w: Write)
    requires !Dropped(e, w)
    ensures Flow(TakeRow(e, w)) == Flow(e) + [w]
  {
    var it := Op(LsnOp(w, 0));
    assert OpItems(TakeRow(e, w).buffer) == OpItems(e.buffer) + [it];
    assert Queue(TakeRow(e, w)) == Queue(e) + [it];
    RowsConcat(Queue(e), [it]);
    assert Rows([it]) == [w];
  }

  // ---------------------------------------------------------------- transactions

  /** A transaction is open: one has begun that no commit has closed. */
  ghost predicate Open(xs: seq<Input>) {
    exists i :: 0 <= i < |xs| && xs[i].Begin? && forall j | i < j < |xs| :: !(xs[j].Commit? && xs[j].pos > 0)
  }

  lemma OpenSnoc(xs: seq<Input>, x: Input)
    ensures Open(xs + [x]) <==> x.Begin? || (!(x.Commit? && x.pos > 0) && Open(xs))
  {
    var all := xs + [x];
    assert all[|xs|] == x && forall i | 0 <= i < |xs| :: all[i] == xs[i];
    if !(x.Commit? && x.pos > 0) && Open(xs) {
      var i :| 0 <= i < |xs| && xs[i].Begin? && forall j | i < j < |xs| :: !(xs[j].Commit? && xs[j].pos > 0);
      assert all[i].Begin?;
    }
    if Open(all) {
      var i :| 0 <= i < |all| && all[i].Begin? && forall j | i < j < |all| :: !(all[j].Commit? && all[j].pos > 0);
      if i < |xs| { assert xs[i].Begin? && !(all[|xs|].Commit? && all[|xs|].pos > 0); }
    }
  }

  lemma {:induction false} OpenIs(xs: seq<Input>)
    ensures After(xs).txnOpen <==> Open(xs)
  {
    if xs != [] {
      var n := |xs| - 1;
      OpenIs(xs[..n]);
      TakeOpen(After(xs[..n]), xs[n]);
      OpenSnoc(xs[..n], xs[n]);
      assert xs == xs[..n] + [xs[n]];
      hide Open, Take;
    }
  }

  lemma TakeOpen(e: Engine, x: Input)
    ensures Take(e, x).txnOpen == if x.Begin? then true else if x.Commit? && x.pos > 0 then false else e.txnOpen
  {
    hide TakeCommit, TakeMark;
    match x
    case Commit(pos, hold) => CommitWindow(e, pos, hold);
    case Mark(m) => MarkWindow(e, m);
    case _ =>
  }

  /** A mark taken with no transaction open is published once what is before it is
      written; taken inside one, not before its commit. */
  lemma MarkWaitsExactlyWhen(xs: seq<Input>, m: nat)
    requires Drained(After(xs)).written != m
    ensures Drained(After(xs + [Mark(m)])).written == m <==> !Open(xs)
  {
    assert (xs + [Mark(m)])[..|xs|] == xs;
    OpenIs(xs);
    var e := After(xs);
    hide Open, After;
    MarkIsPublished(e, m, 1);
    if e.txnOpen {
      HeldBack(e, m);
      DrainedMark(e);
      DrainedMark(TakeMark(e, m));
    }
  }

  lemma HeldBack(e: Engine, m: nat)
    requires e.txnOpen
    ensures Queue(TakeMark(e, m)) == Queue(e) && TakeMark(e, m).written == e.written
  {
    hide Flow;
  }
}
