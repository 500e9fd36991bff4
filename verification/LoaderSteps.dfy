/** The loaders keep the invariant: position, snapshot, rows, mark, wait,
    progress document. */
module LoaderSteps {
  import opened Wrappers
  import opened Source
  import opened Target
  import opened Ranges
  import opened Engine
  import opened Protocol
  import opened Invariant
  import opened Frames

  /** Only the copy channel, the marks drawn, the loader of `t` and its progress
      document may differ. */
  ghost predicate Loads(s: State, s': State, t: nat) {
    && s' == s.(copy := s'.copy, drawn := s'.drawn, loaders := s'.loaders, progress := s'.progress)
    && s.copy <= s'.copy && s.drawn <= s'.drawn
    && (forall x | x != t && x in s'.loaders :: x in s.loaders && s'.loaders[x] == s.loaders[x])
    && (forall x | x != t && x in s'.progress :: x in s.progress && s'.progress[x] == s.progress[x])
  }

  ghost predicate DocumentOk(s: State, t: nat, p: Progress) {
    t in s.rules && LoadedBelow(s, t, p.bounds, p.done) && (p.finished ==> p.done == |p.bounds| + 1)
  }

  lemma LoadsProgress(s: State, s': State, t: nat)
    requires Loads(s, s', t) && ProgressOk(s)
    requires t in s'.progress ==> DocumentOk(s, t, s'.progress[t])
    ensures ProgressOk(s')
  {
    forall x | x in s'.progress ensures LoadedBelow(s', x, s'.progress[x].bounds, s'.progress[x].done) {
      LoadedBelowStays(s, s', x, s'.progress[x].bounds, s'.progress[x].done);
    }
  }

  lemma LoadsLoaders(s: State, s': State, t: nat)
    requires Loads(s, s', t) && SourceOk(s) && SourceOk(s') && LoadersOk(s)
    requires t in s'.loaders ==> t in s.rules && LoaderOk(s', t, s'.loaders[t])
    ensures LoadersOk(s')
  {
    forall x | x in s'.loaders && x != t ensures LoaderOk(s', x, s'.loaders[x]) {
      LoaderStays(s, s', x, s.loaders[x]);
    }
  }

  lemma LoadsKeeps(s: State, s': State, t: nat)
    requires Inv(s) && Loads(s, s', t) && CopyOk(s') && SourceOk(s')
    requires t in s'.progress ==> DocumentOk(s, t, s'.progress[t])
    requires t in s'.loaders ==> t in s.rules && LoaderOk(s', t, s'.loaders[t])
    ensures Inv(s')
  {
    assert BaseOk(s');
    hide SourceOk, BaseOk, WritesOk, EventsOk, TakenOk, CopyOk, SafeTo, JoinOk, ProgressOk, LoadersOk, Sound, Remembered, Flow,
         DocumentOk, LoaderOk;
    WritesStay(s, s');
    EventsStay(s, s');
    TakenStays(s, s');
    SafetyStays(s, s');
    JoinStays(s, s');
    LoadsProgress(s, s', t);
    LoadsLoaders(s, s', t);
  }

  /** The copy channel grew by one event that is no mark ahead of its drawing. */
  lemma CopyGrows(s: State, s': State, ev: CopyEvent)
    requires CopyOk(s) && s' == s.(copy := s.copy + [ev], drawn := s'.drawn, loaders := s'.loaders, progress := s'.progress)
    requires s'.drawn == s.drawn
    requires ev.CopyRow? ==> WriteOk(s, ev.w)
    requires ev.LoadMark? ==> 1 <= ev.mark <= |s.drawn|
    ensures CopyOk(s')
  {
    forall w | WriteOk(s, w) ensures WriteOk(s', w) { WriteStays(s, s', w); }
    hide WriteOk, Flow, FlowCovers;
  }

  lemma AnnounceKeeps(s: State, ev: CopyEvent)
    requires Inv(s) && (ev.Boundary? || ev.LoadStarted? || ev.LoadFinished?)
    ensures Inv(s.(copy := s.copy + [ev]))
  {
    var s' := s.(copy := s.copy + [ev]);
    assert s'.taken <= |s'.events| && s'.copied <= |s'.copy|;
    hide SourceOk, BaseOk, WritesOk, EventsOk, TakenOk, CopyOk, SafeTo, JoinOk, ProgressOk, LoadersOk, Sound, Remembered, Flow;
    SourceStays(s, s');
    WritesStay(s, s');
    EventsStay(s, s');
    TakenStays(s, s');
    CopyGrows(s, s', ev);
    SafetyStays(s, s');
    JoinStays(s, s');
    ProgressStays(s, s');
    LoadersStay(s, s');
  }

  // ----------------------------------------------------- one loader's own steps

  /** What the invariant says about one loader. */
  lemma Known(s: State, t: nat)
    requires Inv(s) && t in s.loaders
    ensures SourceOk(s) && BaseOk(s) && CopyOk(s) && t in s.rules && LoaderOk(s, t, s.loaders[t])
    ensures t in s.progress ==> DocumentOk(s, t, s.progress[t])
    ensures s.taken <= |s.events| && s.copied <= |s.copy| && s.joined[t] <= s.clock
  {
    hide WritesOk, EventsOk, TakenOk, SafeTo, JoinOk, Sound, Remembered, LoadedBelow;
  }

  lemma KnownRange(s: State, t: nat, i: nat)
    requires Inv(s) && t in s.loaders && s.loaders[t].Reading? && i < |s.loaders[t].wave|
    ensures SourceOk(s) && t in s.rules
    ensures var l := s.loaders[t];
            l.done + i <= |l.bounds| && RangeReadOk(s, t, RangeAt(l.bounds, l.done + i), l.wave[i])
  {
    hide Inv;
    Known(s, t);
    hide SourceOk, LoadedBelow, RangeReadOk;
  }

  /** A step that changes nothing but the loader of `t` and its document. */
  lemma LocalKeeps(s: State, s': State, t: nat)
    requires Inv(s)
    requires s' == s.(loaders := s'.loaders, progress := s'.progress) && Loads(s, s', t)
    requires t in s'.progress ==> DocumentOk(s, t, s'.progress[t])
    requires t in s'.loaders ==> t in s.rules && LoaderOk(s, t, s'.loaders[t])
    ensures Inv(s')
  {
    assert s'.taken <= |s'.events| && s'.copied <= |s'.copy| && SourceOk(s) && BaseOk(s) && CopyOk(s);
    hide Inv, SourceOk, BaseOk, CopyOk, DocumentOk, LoaderOk, Flow;
    SourceStays(s, s');
    CopyStays(s, s');
    if t in s'.loaders { LoaderStays(s, s', t, s'.loaders[t]); }
    LoadsKeeps(s, s', t);
  }

  lemma BeginTableKeeps(s: State, t: nat, bounds: seq<int>)
    requires Inv(s) && t in s.rules && t !in s.loaders && StrictlyIncreasing(bounds)
    requires t in s.progress ==> !s.progress[t].finished
    ensures Inv(BeginTable(s, t, bounds))
  {
    hide Inv, BaseOk, WritesOk, KeepsHighest, Sound, Remembered, EventsOk, TakenOk, CopyOk, SafeTo, JoinOk, LoadersOk, KeyLoaded;
    PartsOf(s);
    hide SourceOk;
    var s' := BeginTable(s, t, bounds);
    var p := s'.progress[t];
    assert LoadedBelow(s, t, p.bounds, p.done);
    assert DocumentOk(s, t, p) && LoaderOk(s, t, s'.loaders[t]);
    hide DocumentOk, LoaderOk, LoadedBelow, ProgressOk;
    LocalKeeps(s, s', t);
  }

  /** The loader moves on; its document stays. */
  lemma MovesOn(s: State, t: nat, l: Loader)
    requires Inv(s) && t in s.rules && LoaderOk(s, t, l)
    ensures Inv(SetLoader(s, t, l))
  {
    var s' := SetLoader(s, t, l);
    assert t in s.progress ==> DocumentOk(s, t, s.progress[t]);
    hide Inv, DocumentOk, LoaderOk;
    LocalKeeps(s, s', t);
  }

  lemma BeginWaveKeeps(s: State, t: nat, n: nat)
    requires Inv(s) && t in s.loaders && s.loaders[t].Ready? && s.loaders[t].done + n <= |s.loaders[t].bounds| + 1
    ensures Inv(SetLoader(s, t, Reading(s.loaders[t].bounds, s.loaders[t].done, seq(n, _ => Unread))))
  {
    var l := Reading(s.loaders[t].bounds, s.loaders[t].done, seq(n, _ => Unread));
    assert LoaderOk(s, t, s.loaders[t]);
    assert forall i | 0 <= i < |l.wave| :: l.wave[i] == Unread;
    assert LoaderOk(s, t, l);
    hide Inv, LoaderOk;
    MovesOn(s, t, l);
  }

  /** One range of the wave, in the state it is in now. */
  lemma SetReadOk(s: State, t: nat, l: Loader, i: nat, r: RangeRead)
    requires SourceOk(s) && t in s.rules && LoaderOk(s, t, l) && l.Reading? && i < |l.wave|
    requires l.done + i <= |l.bounds| && RangeReadOk(s, t, RangeAt(l.bounds, l.done + i), r)
    ensures LoaderOk(s, t, Reading(l.bounds, l.done, l.wave[i := r]))
  {
    hide SourceOk, LoadedBelow, RangeReadOk;
  }

  lemma ReadPositionKeeps(s: State, t: nat, i: nat)
    requires Inv(s) && t in s.loaders && s.loaders[t].Reading? && i < |s.loaders[t].wave|
    ensures Inv(SetRead(s, t, i, Located(s.clock)))
  {
    var l := s.loaders[t];
    assert LoaderOk(s, t, l) && s.joined[t] <= s.clock;
    SetReadOk(s, t, l, i, Located(s.clock));
    hide Inv, LoaderOk;
    MovesOn(s, t, Reading(l.bounds, l.done, l.wave[i := Located(s.clock)]));
  }

  lemma SnapshotKeeps(s: State, t: nat, i: nat)
    requires Inv(s) && t in s.loaders && s.loaders[t].Reading? && i < |s.loaders[t].wave| && s.loaders[t].wave[i].Located?
    requires s.loaders[t].done + i <= |s.loaders[t].bounds|
    ensures var l := s.loaders[t];
            var v := l.wave[i].v;
            Inv(SetRead(s, t, i, Copying(v, s.clock, RowsOf(s.hist, s.clock, t, RangeAt(l.bounds, l.done + i), v))))
  {
    hide Inv, RowsOf;
    var l := s.loaders[t];
    var v := l.wave[i].v;
    var range := RangeAt(l.bounds, l.done + i);
    var r := Copying(v, s.clock, RowsOf(s.hist, s.clock, t, range, v));
    Known(s, t);
    KnownRange(s, t, i);
    hide SourceOk, LoaderOk;
    assert RangeReadOk(s, t, range, r);
    SetReadOk(s, t, l, i, r);
    MovesOn(s, t, Reading(l.bounds, l.done, l.wave[i := r]));
  }

  lemma SendRowKeeps(s: State, t: nat, i: nat, w: Write)
    requires Inv(s) && t in s.loaders && s.loaders[t].Reading? && i < |s.loaders[t].wave| && s.loaders[t].wave[i].Copying?
    requires w in s.loaders[t].wave[i].left
    ensures var r := s.loaders[t].wave[i];
            Inv(SetRead(s, t, i, r.(left := r.left - {w})).(copy := s.copy + [CopyRow(w)]))
  {
    hide Inv, SourceOk, BaseOk, CopyOk, DocumentOk, LoaderOk, RangeReadOk, WriteOk, Flow;
    var l := s.loaders[t];
    var r := l.wave[i];
    var r' := r.(left := r.left - {w});
    var s' := SetRead(s, t, i, r').(copy := s.copy + [CopyRow(w)]);
    Known(s, t);
    KnownRange(s, t, i);
    var range := RangeAt(l.bounds, l.done + i);
    SentRowOk(s, t, range, r, w);
    SourceStays(s, s');
    CopyGrows(s, s', CopyRow(w));
    RowLeft(s, s', t, range, r, w);
    LoaderStays(s, s', t, l);
    SetReadOk(s', t, l, i, r');
    LoadsKeeps(s, s', t);
  }

  /** A row a range read is fit to be sent. */
  lemma SentRowOk(s: State, t: nat, range: KeyRange, r: RangeRead, w: Write)
    requires SourceOk(s) && BaseOk(s) && t in s.rules && r.Copying? && RangeReadOk(s, t, range, r) && w in r.left
    ensures WriteOk(s, w)
  {
    RowsAreGenuine(s.hist, r.s, t, range, r.v, s.clock, w);
  }

  lemma RowLeft(s: State, s': State, t: nat, range: KeyRange, r: RangeRead, w: Write)
    requires SourceOk(s) && SourceOk(s') && t in s.rules && r.Copying? && RangeReadOk(s, t, range, r) && w in r.left
    requires s' == s.(loaders := s'.loaders, copy := s.copy + [CopyRow(w)])
    ensures RangeReadOk(s', t, range, r.(left := r.left - {w}))
  {
    assert CopyRow(w) in s'.copy by { assert s'.copy[|s.copy|] == CopyRow(w); }
    assert forall x | x in s.copy :: x in s'.copy;
    hide RowsOf, SourceOk;
  }

  // ------------------------------------------------------------------- marks

  lemma DrawMarkKeeps(s: State, t: nat)
    requires Inv(s) && t in s.loaders && s.loaders[t].Reading? && AllCopied(s.loaders[t].wave)
    ensures var l := s.loaders[t];
            Inv(SetLoader(s, t, Drawn(l.bounds, l.done, l.wave, |s.drawn| + 1)).(drawn := s.drawn + [|s.copy|]))
  {
    hide Inv, SourceOk, BaseOk, CopyOk, DocumentOk, LoaderOk, Flow;
    var l := s.loaders[t];
    var l' := Drawn(l.bounds, l.done, l.wave, |s.drawn| + 1);
    var s' := SetLoader(s, t, l').(drawn := s.drawn + [|s.copy|]);
    Known(s, t);
    SourceStays(s, s');
    DrawnCopy(s, s');
    DrawnLoader(s, s', t);
    LoadsKeeps(s, s', t);
  }

  lemma DrawnCopy(s: State, s': State)
    requires CopyOk(s) && s' == s.(drawn := s.drawn + [|s.copy|], loaders := s'.loaders)
    ensures CopyOk(s')
  {
    forall w | WriteOk(s, w) ensures WriteOk(s', w) { WriteStays(s, s', w); }
    hide WriteOk, Flow, FlowCovers;
  }

  /** Nothing of the wave is left to send when its mark is drawn. */
  lemma DrawnLoader(s: State, s': State, t: nat)
    requires SourceOk(s) && SourceOk(s') && t in s.loaders && t in s.rules && LoaderOk(s, t, s.loaders[t])
    requires s.loaders[t].Reading? && AllCopied(s.loaders[t].wave)
    requires s' == s.(drawn := s.drawn + [|s.copy|], loaders := s'.loaders)
    ensures var l := s.loaders[t]; LoaderOk(s', t, Drawn(l.bounds, l.done, l.wave, |s.drawn| + 1))
  {
    var l := s.loaders[t];
    LoadedBelowStays(s, s', t, l.bounds, l.done);
    assert s'.copy[..s'.drawn[|s.drawn|]] == s.copy;
    hide LoadedBelow, RowsOf, SourceOk;
    assert forall i | 0 <= i < |l.wave| :: RangeReadOk(s, t, RangeAt(l.bounds, l.done + i), l.wave[i]);
  }

  lemma SendMarkKeeps(s: State, t: nat)
    requires Inv(s) && t in s.loaders && s.loaders[t].Drawn?
    ensures var l := s.loaders[t];
            Inv(SetLoader(s, t, Waiting(l.bounds, l.done, l.wave, l.mark)).(copy := s.copy + [LoadMark(l.mark)]))
  {
    hide Inv, SourceOk, BaseOk, CopyOk, DocumentOk, Flow, LoadedBelow, RowsOf;
    var l := s.loaders[t];
    var l' := Waiting(l.bounds, l.done, l.wave, l.mark);
    var s' := SetLoader(s, t, l').(copy := s.copy + [LoadMark(l.mark)]);
    Known(s, t);
    assert LoaderOk(s, t, l') && 1 <= l.mark <= |s.drawn|;
    hide LoaderOk, WaveSent;
    SourceStays(s, s');
    CopyGrows(s, s', LoadMark(l.mark));
    LoaderStays(s, s', t, l');
    LoadsKeeps(s, s', t);
  }

  /** A loader that sees `written` reach its mark has every row it sent before
      drawing the mark at the target, or overtaken there, whichever loader's
      mark it was that came back. */
  lemma ReleasedRowsAreDurable(s: State, t: nat, w: Write)
    requires Inv(s) && t in s.loaders && s.loaders[t].Waiting? && s.eng.written >= s.loaders[t].mark
    requires CopyRow(w) in s.copy[..s.drawn[s.loaders[t].mark - 1]]
    ensures Covers(s.landed, w.key, w.version)
  {
    hide Inv, SourceOk, BaseOk, WritesOk, KeepsHighest, Remembered, EventsOk, TakenOk, SafeTo, JoinOk, ProgressOk, LoadersOk,
         Flow, Queue, LoadedBelow, RowsOf, DocumentOk, CopyOk;
    var mark: nat, seen: nat, e := s.loaders[t].mark, s.eng.written, s.eng;
    PartsOf(s);
    Known(s, t);
    assert 1 <= mark <= seen && seen in e.markAt && e.markAt[seen] <= |e.done|;
    assert mark <= |s.drawn| && s.drawn[mark - 1] <= |s.copy|;
    hide LoaderOk, WaveSent, Sound;
    MarkedRow(s, mark, seen, w);
    DoneCovers(e, s.landed, e.markAt[seen], w);
  }

  /** Marks are drawn in order, so a later mark stands for the same rows and
      more. */
  lemma MarkedRow(s: State, mark: nat, seen: nat, w: Write)
    requires CopyOk(s) && seen in s.eng.markAt && 1 <= mark <= seen
    requires mark <= |s.drawn| && s.drawn[mark - 1] <= |s.copy|
    requires CopyRow(w) in s.copy[..s.drawn[mark - 1]]
    ensures FlowCovers(s.eng, s.eng.markAt[seen], w)
  {
    hide WriteOk, FlowCovers, Flow;
    assert s.drawn[mark - 1] <= s.drawn[seen - 1];
    var i :| 0 <= i < s.drawn[mark - 1] && s.copy[i] == CopyRow(w);
    assert s.copy[i].CopyRow?;
  }

  lemma BaseBelowJoined(s: State, k: Key)
    requires SourceOk(s) && BaseOk(s) && k.table in s.rules
    ensures s.base(k) <= s.joined[k.table]
  {
  }

  /** The wave's keys are loaded. */
  lemma WaveIsLoaded(s: State, t: nat, k: Key)
    requires Inv(s) && t in s.loaders && s.loaders[t].Waiting? && s.eng.written >= s.loaders[t].mark
    requires var l := s.loaders[t]; k.table == t && l.done <= RangeOf(l.bounds, k.id) < l.done + |l.wave|
    ensures KeyLoaded(s, k)
  {
    hide Inv, BaseOk, CopyOk, DocumentOk;
    Known(s, t);
    PartsOf(s);
    hide WritesOk, KeepsHighest, Sound, Remembered, EventsOk, TakenOk, SafeTo, JoinOk, ProgressOk, LoadersOk;
    var l := s.loaders[t];
    assert WaveSent(s, t, l);
    assert s.base(k) <= s.joined[t] by { assert BaseOk(s); BaseBelowJoined(s, k); }
    var r := RangeOf(l.bounds, k.id);
    var i := r - l.done;
    var range := RangeAt(l.bounds, l.done + i);
    ExactlyOneRange(l.bounds, k.id, r);
    var v, at := l.wave[i].v, l.wave[i].s;
    if DocAt(s.hist, at, k).Some? {
      RowIsRead(s.hist, s.clock, at, range, v, k);
      ReleasedRowsAreDurable(s, t, Write(k, v, DocAt(s.hist, at, k)));
    }
    assert ReadAt(s, k, v, at);
  }

  lemma SeeMarkKeeps(s: State, t: nat)
    requires Inv(s) && t in s.loaders && s.loaders[t].Waiting? && s.eng.written >= s.loaders[t].mark
    ensures Inv(SetLoader(s, t, Written(s.loaders[t].bounds, s.loaders[t].done + |s.loaders[t].wave|)))
  {
    hide Inv, KeyLoaded, SourceOk, BaseOk, CopyOk, DocumentOk, WaveSent;
    Known(s, t);
    var l := s.loaders[t];
    forall k: Key | k.table == t && RangeOf(l.bounds, k.id) < l.done + |l.wave| ensures KeyLoaded(s, k) {
      if RangeOf(l.bounds, k.id) >= l.done { WaveIsLoaded(s, t, k); }
    }
    var l' := Written(l.bounds, l.done + |l.wave|);
    assert LoaderOk(s, t, l');
    hide LoaderOk;
    MovesOn(s, t, l');
  }

  // ------------------------------------------------------- progress documents

  /** The document says what the loader knows, and no more. */
  lemma StoreKeeps(s: State, t: nat, l: Loader, p: Progress)
    requires Inv(s) && t in s.loaders && LoaderOk(s, t, s.loaders[t])
    requires l.Ready? || l.Loaded?
    requires l.bounds == p.bounds == s.loaders[t].bounds && l.done == p.done == s.loaders[t].done
    requires p.finished || l.Loaded? ==> p.done == |p.bounds| + 1
    ensures Inv(SetLoader(s, t, l).(progress := s.progress[t := p]))
  {
    hide Inv, SourceOk, BaseOk, CopyOk, KeyLoaded;
    Known(s, t);
    assert DocumentOk(s, t, p) && LoaderOk(s, t, l);
    var s' := SetLoader(s, t, l).(progress := s.progress[t := p]);
    hide DocumentOk, LoaderOk;
    LocalKeeps(s, s', t);
  }

  lemma StoreProgressKeeps(s: State, t: nat)
    requires Inv(s) && t in s.loaders && s.loaders[t].Written?
    ensures var l := s.loaders[t];
            Inv(SetLoader(s, t, Ready(l.bounds, l.done)).(progress := s.progress[t := Progress(l.bounds, l.done, false)]))
  {
    hide Inv, SourceOk, BaseOk, CopyOk, DocumentOk, LoaderOk;
    var l := s.loaders[t];
    Known(s, t);
    StoreKeeps(s, t, Ready(l.bounds, l.done), Progress(l.bounds, l.done, false));
  }

  lemma StoreFinishedKeeps(s: State, t: nat)
    requires Inv(s) && t in s.loaders && s.loaders[t].Ready? && s.loaders[t].done == |s.loaders[t].bounds| + 1
    ensures var l := s.loaders[t];
            Inv(SetLoader(s, t, Loaded(l.bounds, l.done)).(progress := s.progress[t := Progress(l.bounds, l.done, true)]))
  {
    hide Inv, SourceOk, BaseOk, CopyOk, DocumentOk, LoaderOk;
    var l := s.loaders[t];
    Known(s, t);
    StoreKeeps(s, t, Loaded(l.bounds, l.done), Progress(l.bounds, l.done, true));
  }

  lemma ClearProgressKeeps(s: State, t: nat)
    requires Inv(s)
    ensures Inv(s.(progress := s.progress - {t}, loaders := s.loaders - {t}))
  {
    hide Inv;
    LocalKeeps(s, s.(progress := s.progress - {t}, loaders := s.loaders - {t}), t);
  }
}
