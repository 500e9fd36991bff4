/** Where a start may resume, whether it has to load, and why that is enough. */
module Resume {
  import opened Wrappers
  import opened Source
  import opened Target
  import opened Protocol
  import opened Invariant
  import opened Frames
  import opened Safety
  import P = Progress

  function ResumePosition(polling: bool, checkpoint: Option<nat>, slot: Option<nat>): Option<nat> {
    if polling then None
    else if checkpoint.None? then None
    else if slot.Some? && checkpoint.value < slot.value then None
    else checkpoint
  }

  /** A stream that is not polled and has a checkpoint resumes exactly there unless
      the slot is past it; everything else starts over. */
  lemma ResumesExactlyWhen(polling: bool, checkpoint: Option<nat>, slot: Option<nat>, p: nat)
    ensures ResumePosition(polling, checkpoint, slot) == Some(p) <==>
            !polling && checkpoint == Some(p) && forall at | slot == Some(at) :: at <= p
  {
  }

  /** A start loads when it has nowhere to resume from, or a load was cut short. */
  predicate LoadDue(resume: Option<nat>, pending: bool) {
    resume.None? || pending
  }

  // ------------------------------------------------- what a load did stays done

  /** Nothing a range read of `k` rests on is taken back. */
  ghost predicate Onward(s: State, s': State, k: Key) {
    && s'.hist == s.hist && s.clock <= s'.clock && s.landed <= s'.landed && s'.base(k) <= s.base(k)
    && s.rules <= s'.rules
  }

  lemma StreamOnward(s: State, step: StreamStep, k: Key)
    requires StreamEnabled(s, step)
    ensures Onward(s, DoStream(s, step), k)
  {
  }

  lemma EngineOnward(s: State, step: EngineStep, k: Key)
    requires EngineEnabled(s, step)
    ensures Onward(s, DoEngine(s, step), k)
  {
  }

  lemma JoinOnward(s: State, t: nat, step: JoinStep, k: Key)
    requires JoinEnabled(s, t, step) && k.table in s.rules
    ensures Onward(s, DoJoin(s, t, step), k)
  {
  }

  lemma LoadOnward(s: State, t: nat, step: LoadStep, k: Key)
    requires LoadEnabled(s, t, step)
    ensures Onward(s, DoLoad(s, t, step), k)
  {
  }

  lemma AttemptOnward(s: State, step: Step, k: Key)
    requires SourceOk(s) && Enabled(s, step) && (step.Reconnect? || step.Restart? || step.RecreateSlot?) && k.table in s.rules
    ensures Onward(s, Do(s, step), k)
  {
  }

  lemma StepOnward(s: State, step: Step, k: Key)
    requires SourceOk(s) && Enabled(s, step) && k.table in s.rules
    requires !(step.SourceDoes? && step.source.DoCommit?)
    ensures Onward(s, Do(s, step), k)
  {
    hide SourceOk, StreamEnabled, EngineEnabled, JoinEnabled, LoadEnabled,
         DoStream, DoEngine, DoJoin, DoLoad, ReconnectAttempt, RestartProcess;
    match step
    case SourceDoes(_) =>
    case StreamDoes(x) => StreamOnward(s, x, k);
    case EngineDoes(x) => EngineOnward(s, x, k);
    case TableJoins(t, x) => JoinOnward(s, t, x, k);
    case LoaderDoes(t, x) => LoadOnward(s, t, x, k);
    case _ => AttemptOnward(s, step, k);
  }

  lemma CommitOnward(s: State, pos: nat, changes: map<Key, Option<Doc>>, k: Key)
    requires pos > s.clock && KeyLoaded(s, k)
    ensures KeyLoaded(s.(hist := s.hist + [Txn(pos, changes)], clock := pos), k)
  {
    var v, at :| ReadAt(s, k, v, at);
    CommitKeepsThePast(s.hist, Txn(pos, changes), at, k);
    assert ReadAt(s.(hist := s.hist + [Txn(pos, changes)], clock := pos), k, v, at);
  }

  /** Whatever happens next, careful or not, a key once loaded stays loaded. */
  lemma LoadedKeyStays(s: State, step: Step, k: Key)
    requires SourceOk(s) && Enabled(s, step) && k.table in s.rules && KeyLoaded(s, k)
    ensures k.table in Do(s, step).rules && KeyLoaded(Do(s, step), k)
  {
    hide SourceOk, KeyLoaded;
    if step.SourceDoes? && step.source.DoCommit? {
      CommitOnward(s, step.source.pos, step.source.changes, k);
    } else {
      StepOnward(s, step, k);
      hide Do, Enabled;
      KeyLoadedStays(s, Do(s, step), k);
    }
  }

  lemma {:induction false} LoadedKeyStaysRun(s: State, steps: seq<Step>, s': State, k: Key)
    requires Inv(s) && Runs(true, s, steps, s') && k.table in s.rules && KeyLoaded(s, k)
    ensures Inv(s') && k.table in s'.rules && KeyLoaded(s', k)
    decreases |steps|
  {
    hide Enabled, Do, Careful, KeyLoaded;
    if steps != [] {
      assert SourceOk(s);
      hide Inv;
      StepKeeps(s, steps[0]);
      LoadedKeyStays(s, steps[0], k);
      LoadedKeyStaysRun(Do(s, steps[0]), steps[1..], s', k);
    }
  }

  /** A table loaded once needs no second load: through every crash and restart
      after it, with its progress document kept or cleared, catching up with the
      log shows the source's rows. */
  lemma ResumedRunIsTheSource(s: State, steps: seq<Step>, s': State, k: Key)
    requires Reachable(true, s) && LoadFinishedFor(s, k.table) && Runs(true, s, steps, s')
    requires s'.eng.acked >= s'.clock || s'.slot >= s'.clock
    ensures View(s'.target, k) == DocAt(s'.hist, s'.clock, k)
  {
    ReachableKeeps(s);
    FinishedLoadsEveryKey(s, k);
    LoadedKeyStaysRun(s, steps, s', k);
    var v, at :| ReadAt(s', k, v, at);
    assert forall w | w in s'.landed && w.key == k :: WriteOk(s', w) && Genuine(s'.hist, s'.clock, w);
    hide Inv, Runs;
    AcknowledgedIsTheSource(s', k, v, at, s'.clock);
  }

  /** What a resume trusts: the checkpoint is at or above the slot, nothing at
      or below the slot is missing, and the new attempt streams from the slot. */
  lemma ResumeMissesNothing(s: State, w: Write)
    requires Reachable(true, s) && ResumePosition(false, s.checkpoint, Some(s.slot)).Some?
    requires w in Changes(s.hist) && Owed(s, w)
    ensures s.slot <= ResumePosition(false, s.checkpoint, Some(s.slot)).value
    ensures w.version <= s.slot ==> Covers(s.landed, w.key, w.version)
    ensures w.version > s.slot ==> w.version > Do(s, Restart).cursor
  {
    if w.version <= s.slot { NothingBelowTheSlotIsMissing(s, w); }
  }

  /** A slot created again past the checkpoint is noticed: the start loads. */
  lemma RecreatedSlotForcesALoad(s: State, pos: nat, pending: bool)
    requires pos > s.clock && (s.checkpoint.Some? ==> s.checkpoint.value <= s.clock)
    ensures LoadDue(ResumePosition(false, s.checkpoint, Some(Do(s, RecreateSlot(pos)).slot)), pending)
  {
  }

  // ------------------------------------------------- progress and the start's question

  /** The target's state holds each table's document under its key, and nothing
      else under those keys. */
  ghost predicate Stores(state: map<string, P.Json>, s: State, key: nat -> string, show: int -> string) {
    forall t | t in s.config ::
      P.Stored(state, key(t)) ==
        if t in s.progress then
          Some(P.LoadProgress(P.Ranges(Shown(s.progress[t].bounds, show), s.progress[t].done), s.progress[t].finished))
        else None
  }

  function Shown(bounds: seq<int>, show: int -> string): seq<string> {
    seq(|bounds|, i requires 0 <= i < |bounds| => show(bounds[i]))
  }

  /** Storing what the loader stores keeps the state so; keys must differ. */
  lemma StoreKeepsStored(state: map<string, P.Json>, s: State, s': State, t: nat, key: nat -> string, show: int -> string)
    requires Stores(state, s, key, show) && t in s.config && s'.config == s.config
    requires t in s'.progress && s'.progress == s.progress[t := s'.progress[t]] && s'.progress[t].done < P.TwoTo64
    requires forall u | u in s.config && u != t :: key(u) != key(t)
    ensures var p := P.LoadProgress(P.Ranges(Shown(s'.progress[t].bounds, show), s'.progress[t].done), s'.progress[t].finished);
            Stores(state[key(t) := P.ToDoc(p)], s', key, show)
  {
    var p := P.LoadProgress(P.Ranges(Shown(s'.progress[t].bounds, show), s'.progress[t].done), s'.progress[t].finished);
    P.DocumentComesBack(p);
    hide P.ToDoc, P.FromDoc;
  }

  /** A start that has somewhere to resume from loads exactly when some table's
      document says unfinished: a table with no document yet is passed over. */
  lemma LoadIsDueExactlyWhen(state: map<string, P.Json>, s: State, key: nat -> string, show: int -> string,
                             tables: seq<nat>, pending: bool)
    requires Stores(state, s, key, show) && forall i | 0 <= i < |tables| :: tables[i] in s.config
    requires pending <==> exists i :: 0 <= i < |tables| && P.Pending(state, key(tables[i]))
    requires ResumePosition(false, s.checkpoint, Some(s.slot)).Some?
    ensures LoadDue(ResumePosition(false, s.checkpoint, Some(s.slot)), pending) <==>
            exists i :: 0 <= i < |tables| && tables[i] in s.progress && !s.progress[tables[i]].finished
  {
    forall i | 0 <= i < |tables|
      ensures P.Pending(state, key(tables[i])) <==> tables[i] in s.progress && !s.progress[tables[i]].finished
    {
    }
  }

  /** A quiet restart loads nothing: with the checkpoint at or above the slot and
      no table's document saying unfinished, the new process resumes at the
      checkpoint and streams from the slot. */
  lemma QuietRestartLoadsNothing(state: map<string, P.Json>, s: State, key: nat -> string, show: int -> string,
                                 tables: seq<nat>, pending: bool)
    requires Stores(state, s, key, show) && forall i | 0 <= i < |tables| :: tables[i] in s.config
    requires pending <==> exists i :: 0 <= i < |tables| && P.Pending(state, key(tables[i]))
    requires s.checkpoint.Some? && s.slot <= s.checkpoint.value
    requires forall i | 0 <= i < |tables| && tables[i] in s.progress :: s.progress[tables[i]].finished
    ensures var s' := Do(s, Restart);
            && ResumePosition(false, s'.checkpoint, Some(s'.slot)) == s.checkpoint && s'.cursor == s.slot
            && !LoadDue(ResumePosition(false, s'.checkpoint, Some(s'.slot)), pending)
  {
    LoadIsDueExactlyWhen(state, s, key, show, tables, pending);
  }
}
