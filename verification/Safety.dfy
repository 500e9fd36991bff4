/** What holds in every run of the protocol. */
module Safety {
  import opened Wrappers
  import opened Source
  import opened Target
  import opened Ranges
  import opened Engine
  import opened Protocol
  import opened Invariant
  import opened Frames
  import opened EngineSteps
  import opened StreamSteps
  import opened JoinSteps
  import opened LoaderSteps
  import opened AttemptSteps

  lemma StreamStepKeeps(s: State, step: StreamStep)
    requires Inv(s) && StreamEnabled(s, step)
    ensures Inv(DoStream(s, step))
  {
    hide Inv;
    match step
    case Emit(i, order) =>
      assert forall k | k in order :: k in Elems(order);
      EmitKeeps(s, i, order);
    case KeepAlive(pos) => KeepAliveKeeps(s, pos);
    case WriteCheckpoint => CheckpointKeeps(s);
    case StoreDurable => StoreDurableKeeps(s);
    case Feedback(walEnd) => FeedbackKeeps(s, walEnd);
  }

  lemma EngineStepsKeep(s: State, step: EngineStep)
    requires Inv(s) && EngineEnabled(s, step)
    ensures Inv(DoEngine(s, step))
  {
    hide Inv;
    match step
    case TakeEvent(hold) => TakeEventKeeps(s, hold);
    case TakeCopy(hold) => TakeCopyKeeps(s, hold);
    case SplitBatch => FlushKeeps(s);
    case OpenWrite => OpenWriteKeeps(s);
    case Arrive(w) => ArriveKeeps(s, w);
    case CloseWrite => CloseWriteKeeps(s);
    case Barrier => BarrierKeeps(s);
  }

  lemma JoinStepKeeps(s: State, t: nat, step: JoinStep)
    requires Inv(s) && JoinEnabled(s, t, step)
    ensures Inv(DoJoin(s, t, step))
  {
    hide Inv;
    match step
    case EditFile => EditFileKeeps(s, t);
    case AlterPublication(pos) => AlterPublicationKeeps(s, t, pos);
    case ReadBarrier(pos) => ReadBarrierKeeps(s, t, pos);
    case Admit => AdmitKeeps(s, t);
    case Adopt => AdoptKeeps(s, t);
  }

  lemma LoadStepKeeps(s: State, t: nat, step: LoadStep)
    requires Inv(s) && LoadEnabled(s, t, step)
    ensures Inv(DoLoad(s, t, step))
  {
    hide Inv;
    match step
    case Announce(ev) => AnnounceKeeps(s, ev);
    case BeginLoad(bounds) => BeginTableKeeps(s, t, bounds);
    case BeginWave(width) =>
      var l := s.loaders[t];
      BeginWaveKeeps(s, t, Min(width, |l.bounds| + 1 - l.done));
    case ReadPosition(i) => ReadPositionKeeps(s, t, i);
    case Snapshot(i) => SnapshotKeeps(s, t, i);
    case SendRow(i, w) => SendRowKeeps(s, t, i, w);
    case DrawMark => DrawMarkKeeps(s, t);
    case SendMark => SendMarkKeeps(s, t);
    case SeeMark => SeeMarkKeeps(s, t);
    case StoreProgress => StoreProgressKeeps(s, t);
    case StoreFinished => StoreFinishedKeeps(s, t);
    case ClearProgress => ClearProgressKeeps(s, t);
  }

  /** Every careful step keeps the invariant. */
  lemma StepKeeps(s: State, step: Step)
    requires Inv(s) && Enabled(s, step) && Careful(s, step)
    ensures Inv(Do(s, step))
  {
    hide Inv, StreamEnabled, EngineEnabled, JoinEnabled, LoadEnabled, DoStream, DoEngine, DoJoin, DoLoad,
         ReconnectAttempt, RestartProcess;
    match step
    case SourceDoes(DoCommit(pos, changes)) => CommitKeeps(s, pos, changes);
    case SourceDoes(LogMoves(pos)) => LogMovesKeeps(s, pos);
    case StreamDoes(x) => StreamStepKeeps(s, x);
    case EngineDoes(x) => EngineStepsKeep(s, x);
    case TableJoins(t, x) => JoinStepKeeps(s, t, x);
    case LoaderDoes(t, x) => LoadStepKeeps(s, t, x);
    case Reconnect => ReconnectKeeps(s);
    case Restart => RestartKeeps(s);
    case RecreateSlot(pos) => RecreateSlotKeeps(s, pos);
  }

  lemma {:induction false} RunKeeps(s: State, steps: seq<Step>, s': State)
    requires Inv(s) && Runs(true, s, steps, s')
    ensures Inv(s')
    decreases |steps|
  {
    hide Inv, Enabled, Do, Careful;
    if steps != [] {
      StepKeeps(s, steps[0]);
      RunKeeps(Do(s, steps[0]), steps[1..], s');
    }
  }

  /** Every reachable state satisfies the invariant. */
  lemma ReachableKeeps(s: State)
    requires Reachable(true, s)
    ensures Inv(s)
  {
    var s0, steps :| Init(s0) && Runs(true, s0, steps, s);
    InitKeeps(s0);
    RunKeeps(s0, steps, s);
  }

  // ------------------------------------------------------------ main theorems

  /** The table's load is over: its document says finished, or its loader has
      said so and cleared nothing yet. */
  ghost predicate LoadFinishedFor(s: State, t: nat) {
    || (t in s.progress && s.progress[t].finished)
    || (t in s.loaders && s.loaders[t].Loaded?)
  }

  lemma FinishedLoadsEveryKey(s: State, k: Key)
    requires Inv(s) && LoadFinishedFor(s, k.table)
    ensures k.table in s.rules && KeyLoaded(s, k)
  {
    var t := k.table;
    if t in s.progress && s.progress[t].finished {
      assert RangeOf(s.progress[t].bounds, k.id) < s.progress[t].done;
    } else {
      Known(s, t);
      assert RangeOf(s.loaders[t].bounds, k.id) < s.loaders[t].done;
    }
  }

  /** Load done and stream caught up is the source: in every interleaving of
      commits, range reads, deliveries, reordered and repeated writes, crashes
      and restarts, and for tables there from the start as for tables that
      joined, a loaded table whose stream is acknowledged through the end of the
      log shows exactly the source's rows. */
  lemma CaughtUpIsTheSource(s: State, k: Key)
    requires Reachable(true, s) && LoadFinishedFor(s, k.table)
    requires s.eng.acked >= s.clock || s.slot >= s.clock
    ensures View(s.target, k) == DocAt(s.hist, s.clock, k)
  {
    ReachableKeeps(s);
    FinishedLoadsEveryKey(s, k);
    var v, at :| ReadAt(s, k, v, at);
    AcknowledgedIsTheSource(s, k, v, at, s.clock);
  }

  /** The same at any position `n` that everything landed so far is true of,
      once the key's range has been read at or before `n` and the stream is
      acknowledged through `n`. */
  lemma AcknowledgedIsTheSource(s: State, k: Key, v: nat, at: nat, n: nat)
    requires Inv(s) && k.table in s.rules && ReadAt(s, k, v, at) && at <= n
    requires n <= s.slot || (n <= s.eng.acked && s.eng.acked > 0) || n == 0
    requires forall w | w in s.landed && w.key == k :: Genuine(s.hist, n, w)
    ensures View(s.target, k) == DocAt(s.hist, n, k)
  {
    if n <= s.slot {
      assert SafeTo(s, n);
    } else if s.eng.acked > 0 {
      AckedIsSafe(s);
      assert SafeTo(s, n);
    }
    SettledKey(s, k, v, at, n);
    SettledKeyIsTheSource(s.hist, s.clock, s.target, s.landed, k, s.base(k), v, at, n);
  }

  lemma SettledKey(s: State, k: Key, v: nat, at: nat, n: nat)
    requires Inv(s) && k.table in s.rules && ReadAt(s, k, v, at) && at <= n && (SafeTo(s, n) || n == 0)
    requires forall w | w in s.landed && w.key == k :: Genuine(s.hist, n, w)
    ensures Settled(s.hist, s.landed, k, s.base(k), v, at, n)
  {
    assert forall w | w in s.landed :: WriteOk(s, w);
  }

  /** No change at or below the slot is missing, whatever the run. */
  lemma NothingBelowTheSlotIsMissing(s: State, w: Write)
    requires Reachable(true, s)
    requires w in Changes(s.hist) && Owed(s, w) && w.version <= s.slot
    ensures Covers(s.landed, w.key, w.version)
  {
    ReachableKeeps(s);
    assert SafeTo(s, s.slot);
  }

  /** Everything owed above the position the attempt started at, and passed by
      the stream since, was put on the event channel. */
  lemma EverythingAboveTheStartIsDelivered(s: State, w: Write)
    requires Reachable(true, s)
    requires w in Changes(s.hist) && Owed(s, w) && s.start < w.version <= s.cursor
    ensures s.start <= s.slot && Change(w) in s.events
  {
    ReachableKeeps(s);
    assert BaseOk(s);
  }

  /** Any number of loaders share the channel and the marks; a mark enqueued out
      of the order it was drawn in releases nobody early. */
  lemma ReleaseImpliesDurable(s: State, t: nat, w: Write)
    requires Reachable(true, s) && t in s.loaders && s.loaders[t].Waiting? && s.eng.written >= s.loaders[t].mark
    requires 1 <= s.loaders[t].mark <= |s.drawn| && s.drawn[s.loaders[t].mark - 1] <= |s.copy|
    requires CopyRow(w) in s.copy[..s.drawn[s.loaders[t].mark - 1]]
    ensures Covers(s.landed, w.key, w.version)
  {
    ReachableKeeps(s);
    ReleasedRowsAreDurable(s, t, w);
  }

  /** A stored document never claims a range that was not written: each key of
      the first `done` ranges was read at or above its base and what was read
      has landed or been overtaken, and `finished` means every key. */
  lemma ProgressIsDurable(s: State, t: nat, k: Key)
    requires Reachable(true, s) && t in s.progress && k.table == t
    requires RangeOf(s.progress[t].bounds, k.id) < s.progress[t].done || s.progress[t].finished
    ensures KeyLoaded(s, k)
  {
    ReachableKeeps(s);
    assert LoadedBelow(s, t, s.progress[t].bounds, s.progress[t].done);
  }

  /** A table that joined while the pipeline ran misses no change: one at or
      below the position a range is read at is in the range's snapshot, one
      above it is delivered as the stream passes it. */
  lemma JoinedTableMissesNothing(s: State, t: nat, i: nat, w: Write)
    requires Reachable(true, s) && t in s.loaders && s.loaders[t].Reading? && i < |s.loaders[t].wave|
    requires s.loaders[t].wave[i].Copying? && w in Changes(s.hist) && w.key.table == t
    ensures w.version <= s.loaders[t].wave[i].v ==>
              exists last :: LastChange(s.hist, s.loaders[t].wave[i].s, w.key) == Some(last) && w.version <= last.version
    ensures w.version > s.loaders[t].wave[i].v && s.start < w.version <= s.cursor ==> Change(w) in s.events
  {
    ReachableKeeps(s);
    Known(s, t);
    KnownRange(s, t, i);
    var r := s.loaders[t].wave[i];
    assert SourceOk(s) && BaseOk(s);
    hide Inv;
    LastChangeIsLast(s.hist, s.clock, r.s, w.key);
    if w.version <= r.v {
      assert LastChange(s.hist, r.s, w.key) == Some(LastChange(s.hist, r.s, w.key).value);
    } else if s.start < w.version <= s.cursor {
      assert s.base(w.key) <= s.joined[t] <= r.v;
      assert Owed(s, w);
      EverythingAboveTheStartIsDelivered(s, w);
    }
  }
}
