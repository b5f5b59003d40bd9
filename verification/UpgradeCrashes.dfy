/** The upgrade protocol against crashes: every effect may be followed by a crash
    before its record, and the next process sees only the journal and the files. */
module UpgradeCrashes {
  import opened Options
  import opened PreparedStoreUpgrade

  /** What lies at the source, candidate and rollback paths. */
  datatype Files = Files(source: Inode, candidate: Option<Inode>, rollback: Option<Inode>)

  /** Everything durable, with the number of forward exchanges ever performed. The
      next inode to be created is `unborn`. */
  datatype Store = Store(run: Run, files: Files, exchanges: nat, unborn: Inode)

  /** One thing a process does: an effect on the files, or an append to the journal. */
  datatype Item = Do(action: Action) | RemoveAbandoned | Record(phase: Phase)

  /** A running process with what it still does; `seen` says that it has already
      reconciled the observed placement with the journal. */
  datatype Process =
    | Idle
    | Preparing(plan: seq<Item>)
    | Publishing(seen: bool, plan: seq<Item>)
    | RollingBack(seen: bool, plan: seq<Item>)
    | Abandoning(plan: seq<Item>)

  datatype World = World(store: Store, process: Process)

  // ---- Observation ----------------------------------------------------------

  predicate Classified(phase: Phase) { phase.CopyComplete? || phase.CandidateSyncIntent? || phase.CandidateSynced? || phase.ScrubInProgress? }

  predicate Duplicate(f: Files)
  {
    (f.candidate.Some? && f.candidate.value == f.source) || (f.rollback.Some? && f.rollback.value == f.source)
    || (f.candidate.Some? && f.candidate == f.rollback)
  }

  function Observe(run: Run, f: Files, condition: Condition): Result<Observation>
  {
    if Classified(run.phase) && (f.candidate.None? || f.candidate != run.prepared) then Err
    else if Duplicate(f) then Err
    else if f.source == run.source && f.candidate.None? && f.rollback.None? then Ok(Observation(AtSourceOriginal, None, condition))
    else if f.source == run.source && f.candidate.Some? && f.rollback.None? then
      if run.fenced.Some? && f.candidate != run.fenced then Err else Ok(Observation(AtCandidateReady, f.candidate, condition))
    else if run.fenced == Some(f.source) && f.candidate == Some(run.source) && f.rollback.None? then
      Ok(Observation(AtSwapped, f.candidate, condition))
    else if run.fenced == Some(f.source) && f.candidate.None? && f.rollback == Some(run.source) then
      Ok(Observation(AtRollbackReady, None, condition))
    else if f.source == run.source && f.candidate.None? && f.rollback.Some? && f.rollback == run.fenced then
      Ok(Observation(AtRolledBack, None, condition))
    else Err
  }

  // ---- Effects and records ------------------------------------------------------

  /** The exchange swaps the source with the candidate, or with the rollback once a
      rollback is intended; either way both inodes are fenced by the journal. */
  function Exchanged(s: Store): Result<Store>
  {
    var run, f := s.run, s.files;
    if run.phase == RollbackSwapIntent then
      if run.fenced == Some(f.source) && f.rollback == Some(run.source)
      then Ok(s.(files := f.(source := run.source, rollback := run.fenced))) else Err
    else if f.source == run.source && f.candidate.Some? && f.candidate == run.fenced
    then Ok(s.(files := f.(source := f.candidate.value, candidate := Some(f.source)), exchanges := s.exchanges + 1)) else Err
  }

  /** A candidate recipe works on the inode the journal prepared for it. */
  function OnPrepared(s: Store): Result<Store>
  {
    if s.files.candidate.Some? && s.files.candidate == s.run.prepared then Ok(s) else Err
  }

  function Effect(s: Store, action: Action): Result<Store>
  {
    match action
    case RecheckPlan => if s.files.source == s.run.source then Ok(s) else Err
    case PrepareCandidate =>
      if s.files.candidate.None? then Ok(s.(files := s.files.(candidate := Some(s.unborn)), unborn := s.unborn + 1)) else Err
    case BuildCandidate => OnPrepared(s)
    case SyncCandidate => OnPrepared(s)
    case VerifyCandidate => OnPrepared(s)
    case RemoveOwnedPartialCandidate =>
      if OnPrepared(s).Ok? && s.files.source == s.run.source && s.files.rollback.None?
      then Ok(s.(files := s.files.(candidate := None))) else Err
    case Exchange => Exchanged(s)
    case RollbackExchange => Exchanged(s)
    case PublishRollback =>
      if s.files.rollback.None? && s.files.candidate.Some?
      then Ok(s.(files := s.files.(candidate := None, rollback := s.files.candidate))) else Err
    case SyncRecoveredOrientation => Ok(s)
    case _ => Err
  }

  /** The identities learned by an effect are appended with its phase. */
  function Append(s: Store, phase: Phase): Result<Store>
  {
    var next := Advance(s.run, phase);
    if next.Err? then Err
    else Ok(s.(run := next.value.(prepared := if phase == CandidatePrepared then s.files.candidate else s.run.prepared,
                                  fenced := if phase == CandidateVerified then s.files.candidate else s.run.fenced)))
  }

  function Perform(s: Store, item: Item): Result<Store>
  {
    match item
    case Do(action) => Effect(s, action)
    case RemoveAbandoned =>
      if s.run.phase.IsPrePublication() && s.files.rollback.None? then Ok(s.(files := s.files.(candidate := None))) else Err
    case Record(phase) => Append(s, phase)
  }

  // ---- Plans ----------------------------------------------------------------------

  function ItemOf(action: Action): Item
  {
    if Recorded(action).Some? then Record(Recorded(action).value) else Do(action)
  }

  function Items(actions: seq<Action>): seq<Item>
  {
    if actions == [] then [] else [ItemOf(actions[0])] + Items(actions[1..])
  }

  /** What preparation does for an action; publication actions are not its business. */
  function PreparePlan(action: Action): Result<seq<Item>>
  {
    match action
    case RecheckPlan => Ok([Do(RecheckPlan), Record(CopyIntent)])
    case PrepareCandidate => Ok([Do(PrepareCandidate), Record(CandidatePrepared)])
    case BuildCandidate => Ok([Do(BuildCandidate), Record(CopyComplete)])
    case RecordSyncIntent => Ok([Record(CandidateSyncIntent)])
    case SyncCandidate => Ok([Do(SyncCandidate), Record(CandidateSynced)])
    case RecordScrubInProgress => Ok([Record(ScrubInProgress)])
    case VerifyCandidate => Ok([Do(VerifyCandidate), Record(CandidateVerified)])
    case _ => Err
  }

  function PublishPlan(action: Action): Result<seq<Item>>
  {
    match action
    case Exchange => Ok([Do(Exchange), Record(Swapped)])
    case RecordPublishIntent => Ok([Record(RollbackPublishIntent)])
    case PublishRollback => Ok([Do(PublishRollback), Record(RollbackReady)])
    case Commit => Ok([Record(Committed)])
    case _ => Err
  }

  function RollbackPlan(phase: Phase): Result<seq<Item>>
  {
    match phase
    case Swapped => Ok([Record(RollbackPublishIntent)])
    case RollbackPublishIntent => Ok([Do(PublishRollback), Record(RollbackReady)])
    case RollbackReady => Ok([Record(RollbackSwapIntent)])
    case Committed => Ok([Record(RollbackSwapIntent)])
    case RollbackSwapIntent => Ok([Do(Exchange), Record(RollbackSwapped)])
    case RollbackSwapped => Ok([Record(RolledBack)])
    case _ => Err
  }

  predicate IsPreparation(phase: Phase) { phase.IsPrePublication() || Classified(phase) }

  function Recovery(s: Store, condition: Condition): Result<seq<Item>>
  {
    var seen := Observe(s.run, s.files, condition);
    if seen.Err? then Err
    else
      var actions := RecoveryActions(s.run, seen.value);
      if actions.Err? then Err else Ok(Items(actions.value))
  }

  // ---- Steps ------------------------------------------------------------------------

  datatype Step =
    | BeginPrepare                       // without looking at the files
    | ResumePreparation(condition: Condition)
    | BeginPublish
    | BeginRollback
    | BeginAbandon
    | Look                               // reconcile the placement under the lease
    | Continue                           // plan the next normal action
    | PerformNext
    | Stop                               // done, failed, refused or crashed

  function NormalPlan(w: World): Result<seq<Item>>
  {
    var next := NextAction(w.store.run);
    match w.process
    case Preparing(_) => if next.Ok? && next.value.Some? then PreparePlan(next.value.value) else Err
    case Publishing(_, _) => if next.Ok? && next.value.Some? then PublishPlan(next.value.value) else Err
    case RollingBack(_, _) => RollbackPlan(w.store.run.phase)
    case _ => Err
  }

  predicate Enabled(w: World, step: Step)
  {
    var s, p := w.store, w.process;
    match step
    case BeginPrepare => p == Idle
    case ResumePreparation(condition) => p == Idle && IsPreparation(s.run.phase) && Recovery(s, condition).Ok?
    case BeginPublish => p == Idle
    case BeginRollback => p == Idle
    case BeginAbandon => p == Idle && s.run.phase.IsPrePublication()
    case Look => (p.Publishing? || p.RollingBack?) && !p.seen && p.plan == [] && Recovery(s, UnknownCondition).Ok?
    case Continue => p != Idle && !p.Abandoning? && p.plan == [] && (!p.Preparing? ==> p.seen) && NormalPlan(w).Ok?
    case PerformNext => p != Idle && p.plan != [] && Perform(s, p.plan[0]).Ok?
    case Stop => true
  }

  function WithPlan(p: Process, plan: seq<Item>): Process
    requires p != Idle
  {
    match p
    case Preparing(_) => Preparing(plan)
    case Publishing(seen, _) => Publishing(seen, plan)
    case RollingBack(seen, _) => RollingBack(seen, plan)
    case Abandoning(_) => Abandoning(plan)
  }

  function Apply(w: World, step: Step): World
    requires Enabled(w, step)
  {
    var s, p := w.store, w.process;
    match step
    case BeginPrepare => w.(process := Preparing([]))
    case ResumePreparation(condition) => w.(process := Preparing(Recovery(s, condition).value))
    case BeginPublish => w.(process := Publishing(false, if s.run.phase == CandidateVerified then [Record(SwapIntent)] else []))
    case BeginRollback =>
      w.(process := RollingBack(false, if s.run.phase == RollbackReady || s.run.phase == Committed then [Record(RollbackSwapIntent)] else []))
    case BeginAbandon => w.(process := Abandoning([RemoveAbandoned, Record(Abandoned)]))
    case Look =>
      var plan := Recovery(s, UnknownCondition).value;
      w.(process := if p.Publishing? then Publishing(true, plan) else RollingBack(true, plan))
    case Continue => w.(process := WithPlan(p, NormalPlan(w).value))
    case PerformNext => World(Perform(s, p.plan[0]).value, WithPlan(p, p.plan[1..]))
    case Stop => w.(process := Idle)
  }

  predicate Legal(w: World, steps: seq<Step>)
    decreases |steps|
  {
    steps == [] || (Enabled(w, steps[0]) && Legal(Apply(w, steps[0]), steps[1..]))
  }

  function After(w: World, steps: seq<Step>): World
    requires Legal(w, steps)
    decreases |steps|
  {
    if steps == [] then w else After(Apply(w, steps[0]), steps[1..])
  }

  function Start(operation: Operation, source: Inode): World
  {
    World(Store(Run(Planned, operation, source, None, None), Files(source, None, None), 0, source + 1), Idle)
  }

  // ---- Where the inodes are ------------------------------------------------------------

  predicate CandidateBeside(s: Store)
  {
    s.files.source == s.run.source && s.files.rollback.None? && s.exchanges == 0
  }

  predicate SwappedPlace(s: Store)
  {
    s.run.fenced == Some(s.files.source) && s.files.candidate == Some(s.run.source) && s.files.rollback.None? && s.exchanges == 1
  }

  predicate RollbackPlace(s: Store)
  {
    s.run.fenced == Some(s.files.source) && s.files.candidate.None? && s.files.rollback == Some(s.run.source) && s.exchanges == 1
  }

  predicate RolledPlace(s: Store)
  {
    s.files.source == s.run.source && s.files.candidate.None? && s.files.rollback == s.run.fenced && s.exchanges == 1
  }

  /** What a phase says about the files, crash or no crash. */
  predicate Placed(s: Store)
  {
    var run, f := s.run, s.files;
    run.source < s.unborn && f.source < s.unborn
    && (run.prepared.Some? ==> run.source < run.prepared.value < s.unborn)
    && match run.phase
       case Planned => CandidateBeside(s) && run.fenced.None? && BesideNew(s)
       case CopyIntent => CandidateBeside(s) && run.fenced.None? && BesideNew(s)
       case CopyRetryIntent => CandidateBeside(s) && run.fenced.None? && BesideNew(s)
       case CandidatePrepared => CandidateBeside(s) && run.fenced.None? && BesideNew(s) && run.prepared.Some?
       case Abandoned => CandidateBeside(s) && run.fenced.None?
       case CopyComplete => CandidateBeside(s) && run.fenced.None? && run.prepared.Some? && f.candidate == run.prepared
       case CandidateSyncIntent => CandidateBeside(s) && run.fenced.None? && run.prepared.Some? && f.candidate == run.prepared
       case CandidateSynced => CandidateBeside(s) && run.fenced.None? && run.prepared.Some? && f.candidate == run.prepared
       case ScrubInProgress => CandidateBeside(s) && run.fenced.None? && run.prepared.Some? && f.candidate == run.prepared
       case CandidateVerified => CandidateBeside(s) && Fenced(run) && f.candidate == run.fenced
       case SwapIntent => Fenced(run) && ((CandidateBeside(s) && f.candidate == run.fenced) || SwappedPlace(s))
       case Swapped => Fenced(run) && SwappedPlace(s)
       case RollbackPublishIntent => Fenced(run) && (SwappedPlace(s) || RollbackPlace(s))
       case RollbackReady => Fenced(run) && RollbackPlace(s)
       case Committed => Fenced(run) && RollbackPlace(s)
       case RollbackSwapIntent => Fenced(run) && (RollbackPlace(s) || RolledPlace(s))
       case RollbackSwapped => Fenced(run) && RolledPlace(s)
       case RolledBack => Fenced(run) && RolledPlace(s)
  }

  predicate BesideNew(s: Store) { s.files.candidate.Some? ==> s.run.source < s.files.candidate.value < s.unborn }

  predicate Fenced(run: Run) { run.prepared.Some? && run.fenced == run.prepared }

  /** However far a plan gets before it fails or its process dies, the files stay
      where the journal says. */
  predicate Safe(s: Store, plan: seq<Item>)
    decreases |plan|
  {
    plan == [] || (Perform(s, plan[0]).Ok? ==> Placed(Perform(s, plan[0]).value) && Safe(Perform(s, plan[0]).value, plan[1..]))
  }

  predicate Inv(w: World)
  {
    Placed(w.store) && (w.process != Idle ==> Safe(w.store, w.process.plan))
  }

  lemma {:induction false} SafeOne(s: Store, a: Item)
    requires Perform(s, a).Ok? ==> Placed(Perform(s, a).value)
    ensures Safe(s, [a])
  {
  }

  lemma {:induction false} SafeMore(s: Store, a: Item, rest: seq<Item>)
    requires Perform(s, a).Ok? ==> Placed(Perform(s, a).value) && Safe(Perform(s, a).value, rest)
    ensures Safe(s, [a] + rest)
  {
    assert ([a] + rest)[1..] == rest;
  }

  // ---- Every plan is safe ----------------------------------------------------------------

  lemma {:induction false} TwoAreSafe(s: Store, a: Item, b: Item)
    requires Perform(s, a).Ok? ==> Placed(Perform(s, a).value) && Safe(Perform(s, a).value, [b])
    ensures Safe(s, [a, b])
  {
    SafeMore(s, a, [b]);
    assert [a] + [b] == [a, b];
  }

  /** An effect and the record of its completion, at the phases that plan them. */
  lemma {:induction false} EffectThenRecord(s: Store, action: Action, next: Phase)
    requires Placed(s)
    requires match action
             case RecheckPlan => s.run.phase == Planned && next == CopyIntent
             case PrepareCandidate => (s.run.phase == CopyIntent || s.run.phase == CopyRetryIntent) && next == CandidatePrepared
             case BuildCandidate => s.run.phase == CandidatePrepared && next == CopyComplete
             case SyncCandidate => s.run.phase == CandidateSyncIntent && next == CandidateSynced
             case VerifyCandidate => s.run.phase == ScrubInProgress && next == CandidateVerified
             case Exchange => (s.run.phase == SwapIntent && next == Swapped) || (s.run.phase == RollbackSwapIntent && next == RollbackSwapped)
             case PublishRollback => s.run.phase == RollbackPublishIntent && next == RollbackReady
             case _ => false
    ensures Safe(s, [Do(action), Record(next)])
  {
    hide Observe, RecoveryActions, Safe;
    var s1 := Perform(s, Do(action));
    if s1.Ok? { SafeOne(s1.value, Record(next)); }
    TwoAreSafe(s, Do(action), Record(next));
  }

  /** A record that needs no effect of its own. */
  lemma {:induction false} RecordAlone(s: Store, next: Phase)
    requires Placed(s)
    requires match next
             case CandidateSyncIntent => true
             case ScrubInProgress => true
             case SwapIntent => s.files.source == s.run.source
             case RollbackPublishIntent => true
             case Committed => true
             case RollbackSwapIntent => true
             case RolledBack => true
             case _ => false
    ensures Safe(s, [Record(next)])
  {
    SafeOne(s, Record(next));
  }

  lemma {:induction false} NormalIsSafe(w: World)
    requires Placed(w.store) && NormalPlan(w).Ok?
    ensures Safe(w.store, NormalPlan(w).value)
  {
    hide Safe, Perform;
    var s, plan := w.store, NormalPlan(w).value;
    if |plan| == 1 {
      RecordAlone(s, plan[0].phase);
      assert plan == [plan[0]];
    } else {
      EffectThenRecord(s, plan[0].action, plan[1].phase);
      assert plan == [plan[0], plan[1]];
    }
  }

  lemma {:induction false} ItemsOf(actions: seq<Action>)
    ensures |Items(actions)| == |actions|
    ensures forall i :: 0 <= i < |actions| ==> Items(actions)[i] == ItemOf(actions[i])
    decreases |actions|
  {
    if actions != [] { ItemsOf(actions[1..]); }
  }

  /** Records of an observed placement. */
  lemma {:induction false} ObservedRecord(s: Store, next: Phase)
    requires Placed(s)
    requires match next
             case Swapped => s.run.phase == SwapIntent && SwappedPlace(s)
             case RollbackReady => s.run.phase == RollbackPublishIntent && RollbackPlace(s)
             case CopyComplete => s.run.phase == CandidatePrepared && s.files.candidate == s.run.prepared
             case _ => false
    ensures Safe(s, [Record(next)])
  {
    SafeOne(s, Record(next));
  }

  /** Finishing an intended rollback, whether its exchange happened or not. */
  lemma {:induction false} RollbackFinishes(s: Store, effect: Action)
    requires Placed(s) && s.run.phase == RollbackSwapIntent
    requires (effect == RollbackExchange && RollbackPlace(s)) || (effect == SyncRecoveredOrientation && RolledPlace(s))
    ensures Safe(s, [Do(effect), Record(RollbackSwapped), Record(RolledBack)])
  {
    hide Safe, Observe, RecoveryActions;
    var s1 := Perform(s, Do(effect)).value;
    var s2 := Perform(s1, Record(RollbackSwapped)).value;
    RecordAlone(s2, RolledBack);
    TwoAreSafe(s1, Record(RollbackSwapped), Record(RolledBack));
    SafeMore(s, Do(effect), [Record(RollbackSwapped), Record(RolledBack)]);
    assert [Do(effect)] + [Record(RollbackSwapped), Record(RolledBack)] == [Do(effect), Record(RollbackSwapped), Record(RolledBack)];
  }

  lemma {:induction false} RetryRemoves(s: Store)
    requires Placed(s) && (s.run.phase == CandidatePrepared || s.run.phase == CopyRetryIntent)
    ensures s.run.phase == CandidatePrepared ==> Safe(s, [Record(CopyRetryIntent), Do(RemoveOwnedPartialCandidate)])
    ensures s.run.phase == CopyRetryIntent ==> Safe(s, [Do(RemoveOwnedPartialCandidate)])
  {
    if s.run.phase == CandidatePrepared {
      var s1 := Perform(s, Record(CopyRetryIntent)).value;
      SafeOne(s1, Do(RemoveOwnedPartialCandidate));
      TwoAreSafe(s, Record(CopyRetryIntent), Do(RemoveOwnedPartialCandidate));
    } else {
      SafeOne(s, Do(RemoveOwnedPartialCandidate));
    }
  }

  /** An observed orientation is where the inodes are. */
  lemma {:induction false} ObservedPlace(s: Store, condition: Condition)
    requires Placed(s) && Observe(s.run, s.files, condition).Ok?
    ensures match Observe(s.run, s.files, condition).value.orientation
            case AtSwapped => SwappedPlace(s) && Rank(s.run.phase) >= Rank(SwapIntent)
            case AtRollbackReady => RollbackPlace(s) && Rank(s.run.phase) >= Rank(RollbackPublishIntent)
            case AtRolledBack => RolledPlace(s)
            case _ => Observe(s.run, s.files, condition).value.candidate == s.files.candidate
  {
  }

  lemma {:induction false} ItemsOfShort(a: Action, b: Action, c: Action)
    ensures Items([a]) == [ItemOf(a)] && Items([a, b]) == [ItemOf(a), ItemOf(b)] && Items([a, b, c]) == [ItemOf(a), ItemOf(b), ItemOf(c)]
  {
    ItemsOf([a]);
    ItemsOf([a, b]);
    ItemsOf([a, b, c]);
  }

  lemma {:induction false} PublishedIsSafe(s: Store, seen: Observation)
    requires Placed(s) && RecoveryActions(s.run, seen).Ok?
    requires seen.orientation == AtSwapped && SwappedPlace(s) && Rank(s.run.phase) >= Rank(SwapIntent)
    ensures Safe(s, Items(RecoveryActions(s.run, seen).value))
  {
    hide Safe, Perform, Items;
    if s.run.phase == SwapIntent {
      ItemsOfShort(SyncRecoveredOrientation, RecordSwapped, Commit);
      ObservedRecord(s, Swapped);
      SyncFirst(s, Record(Swapped));
    } else {
      SafeNothing(s);
    }
  }

  lemma {:induction false} RetainedIsSafe(s: Store, seen: Observation)
    requires Placed(s) && RecoveryActions(s.run, seen).Ok?
    requires seen.orientation == AtRollbackReady && RollbackPlace(s) && Rank(s.run.phase) >= Rank(RollbackPublishIntent)
    ensures Safe(s, Items(RecoveryActions(s.run, seen).value))
  {
    hide Safe, Placed, Perform, Items;
    if s.run.phase == RollbackPublishIntent {
      ItemsOfShort(SyncRecoveredOrientation, RecordRollbackReady, Commit);
      ObservedRecord(s, RollbackReady);
      SyncFirst(s, Record(RollbackReady));
    } else if s.run.phase == RollbackSwapIntent {
      ItemsOfShort(RollbackExchange, RecordRollbackSwapped, RecordRolledBack);
      RollbackFinishes(s, RollbackExchange);
    } else {
      SafeNothing(s);
    }
  }

  lemma {:induction false} RolledIsSafe(s: Store, seen: Observation)
    requires Placed(s) && RecoveryActions(s.run, seen).Ok? && seen.orientation == AtRolledBack && RolledPlace(s)
    ensures Safe(s, Items(RecoveryActions(s.run, seen).value))
  {
    hide Safe, Placed, Perform, Items;
    if s.run.phase == RollbackSwapIntent {
      ItemsOfShort(SyncRecoveredOrientation, RecordRollbackSwapped, RecordRolledBack);
      RollbackFinishes(s, SyncRecoveredOrientation);
    } else if s.run.phase == RollbackSwapped {
      ItemsOfShort(RecordRolledBack, Commit, Commit);
      RecordAlone(s, RolledBack);
    } else {
      SafeNothing(s);
    }
  }

  lemma {:induction false} UnpublishedIsSafe(s: Store, seen: Observation)
    requires Placed(s) && RecoveryActions(s.run, seen).Ok? && seen.candidate == s.files.candidate
    requires seen.orientation == AtCandidateReady || seen.orientation == AtSourceOriginal
    ensures Safe(s, Items(RecoveryActions(s.run, seen).value))
  {
    hide Safe, Placed, Perform, Items;
    if s.run.phase == CopyRetryIntent && seen.orientation == AtCandidateReady {
      ItemsOfShort(RemoveOwnedPartialCandidate, Commit, Commit);
      RetryRemoves(s);
    } else if s.run.phase == CandidatePrepared {
      ItemsOfShort(RecordCopyComplete, Commit, Commit);
      ItemsOfShort(RecordCopyRetryIntent, RemoveOwnedPartialCandidate, Commit);
      RetryRemoves(s);
      ObservedRecord(s, CopyComplete);
    } else if s.run.phase == SwapIntent {
      ItemsOfShort(Exchange, RecordSwapped, Commit);
      EffectThenRecord(s, Exchange, Swapped);
    } else {
      SafeNothing(s);
    }
  }

  lemma {:induction false} RecoveryIsSafe(s: Store, condition: Condition)
    requires Placed(s) && Recovery(s, condition).Ok?
    ensures Safe(s, Recovery(s, condition).value)
  {
    ObservedPlace(s, condition);
    hide Safe, Placed, Perform, Observe, Items, RecoveryActions;
    var seen := Observe(s.run, s.files, condition).value;
    match seen.orientation
    case AtSwapped => PublishedIsSafe(s, seen);
    case AtRollbackReady => RetainedIsSafe(s, seen);
    case AtRolledBack => RolledIsSafe(s, seen);
    case _ => UnpublishedIsSafe(s, seen);
  }

  lemma {:induction false} SafeNothing(s: Store)
    ensures Safe(s, Items([]))
  {
  }

  lemma {:induction false} SyncFirst(s: Store, record: Item)
    requires Placed(s) && Safe(s, [record])
    ensures Safe(s, [Do(SyncRecoveredOrientation), record])
  {
    TwoAreSafe(s, Do(SyncRecoveredOrientation), record);
  }

  lemma {:induction false} StepKeeps(w: World, step: Step)
    requires Inv(w) && Enabled(w, step)
    ensures Inv(Apply(w, step))
  {
    hide Perform, Recovery, NormalPlan, Placed;
    match step
    case ResumePreparation(condition) => RecoveryIsSafe(w.store, condition);
    case Look => RecoveryIsSafe(w.store, UnknownCondition);
    case Continue => NormalIsSafe(w);
    case BeginPublish => IntentIsSafe(w.store);
    case BeginRollback => IntentIsSafe(w.store);
    case BeginAbandon => AbandonIsSafe(w.store);
    case _ =>
  }

  lemma {:induction false} IntentIsSafe(s: Store)
    requires Placed(s)
    ensures s.run.phase == CandidateVerified ==> Safe(s, [Record(SwapIntent)])
    ensures s.run.phase == RollbackReady || s.run.phase == Committed ==> Safe(s, [Record(RollbackSwapIntent)])
  {
    if s.run.phase == CandidateVerified { SafeOne(s, Record(SwapIntent)); }
    if s.run.phase == RollbackReady || s.run.phase == Committed { SafeOne(s, Record(RollbackSwapIntent)); }
  }

  lemma {:induction false} AbandonIsSafe(s: Store)
    requires Placed(s) && s.run.phase.IsPrePublication()
    ensures Safe(s, [RemoveAbandoned, Record(Abandoned)])
  {
    var removed := Perform(s, RemoveAbandoned);
    if removed.Ok? { SafeOne(removed.value, Record(Abandoned)); }
    SafeMore(s, RemoveAbandoned, [Record(Abandoned)]);
    assert [RemoveAbandoned] + [Record(Abandoned)] == [RemoveAbandoned, Record(Abandoned)];
  }

  lemma {:induction false} RunKeeps(w: World, steps: seq<Step>)
    requires Inv(w) && Legal(w, steps)
    ensures Inv(After(w, steps))
    decreases |steps|
  {
    hide Inv, Enabled, Apply;
    if steps != [] {
      StepKeeps(w, steps[0]);
      RunKeeps(Apply(w, steps[0]), steps[1..]);
    }
  }

  // ---- What every run keeps ----------------------------------------------------------------

  lemma {:induction false} StartHolds(operation: Operation, source: Inode)
    ensures Inv(Start(operation, source))
  {
  }

  /** Whatever crashes, the journal and the files agree, and the original database
      lies at one of the three paths: at the source path until the single forward
      exchange, at the rollback path of a committed run. */
  lemma {:induction false} SourceIsNeverLost(operation: Operation, source: Inode, steps: seq<Step>)
    requires Legal(Start(operation, source), steps)
    ensures var s := After(Start(operation, source), steps).store;
            Placed(s) && s.run.source == source
            && (s.files.source == source || s.files.candidate == Some(source) || s.files.rollback == Some(source))
            && (s.exchanges == 0 ==> s.files.source == source && s.files.rollback.None?)
            && (s.run.phase == Committed ==> s.files.rollback == Some(source) && s.run.fenced == Some(s.files.source))
            && (s.run.phase == RolledBack || s.run.phase == Abandoned ==> s.files.source == source)
  {
    StartHolds(operation, source);
    RunKeeps(Start(operation, source), steps);
    SourceStays(Start(operation, source), steps);
  }

  lemma {:induction false} SourceStays(w: World, steps: seq<Step>)
    requires Legal(w, steps)
    ensures After(w, steps).store.run.source == w.store.run.source
    decreases |steps|
  {
    if steps != [] { SourceStays(Apply(w, steps[0]), steps[1..]); }
  }

  /** The forward exchange happens at most once in a run, only for an intended swap,
      and it publishes the verified candidate; an abandoned run never did it. */
  lemma {:induction false} ExchangeOnce(operation: Operation, source: Inode, steps: seq<Step>, step: Step)
    requires Legal(Start(operation, source), steps) && Enabled(After(Start(operation, source), steps), step)
    ensures var w := After(Start(operation, source), steps); var w' := Apply(w, step);
            w'.store.exchanges <= 1 && (w'.store.run.phase == Abandoned ==> w'.store.exchanges == 0)
            && (w'.store.exchanges != w.store.exchanges ==>
                  w.store.run.phase == SwapIntent && w.store.run.fenced == Some(w'.store.files.source)
                  && w'.store.files.candidate == Some(w.store.run.source))
  {
    var w := After(Start(operation, source), steps);
    StartHolds(operation, source);
    RunKeeps(Start(operation, source), steps);
    StepKeeps(w, step);
    hide Safe, Observe, Recovery, NormalPlan, RecoveryActions, Legal, After;
  }

  // ---- Recovery is total and makes progress -------------------------------------------------

  /** A candidate lies beside the source whose identity the journal does not have;
      or the journal has one that is missing, foreign, or of unknown condition. */
  predicate Undecidable(s: Store, condition: Condition)
  {
    match s.run.phase
    case Planned => s.files.candidate.Some?
    case CopyIntent => s.files.candidate.Some?
    case CopyRetryIntent => s.files.candidate.Some? && s.files.candidate != s.run.prepared
    case CandidatePrepared => s.files.candidate != s.run.prepared || condition == UnknownCondition
    case _ => false
  }

  /** No crash leaves a placement that recovery refuses, but for an abandoned run and
      the placements above; those exist only before the copy is complete. */
  lemma {:induction false} RecoveryIsTotal(operation: Operation, source: Inode, steps: seq<Step>, condition: Condition)
    requires Legal(Start(operation, source), steps)
    ensures var s := After(Start(operation, source), steps).store;
            Recovery(s, condition).Ok? <==> s.run.phase != Abandoned && !Undecidable(s, condition)
  {
    StartHolds(operation, source);
    RunKeeps(Start(operation, source), steps);
    RecoverableFrom(After(Start(operation, source), steps).store, condition);
  }

  lemma {:induction false} RecoverableFrom(s: Store, condition: Condition)
    requires Placed(s)
    ensures Recovery(s, condition).Ok? <==> s.run.phase != Abandoned && !Undecidable(s, condition)
  {
  }

  /** Such a placement is reached: a candidate whose identity was never made durable,
      because the process died right after creating it. */
  lemma {:induction false} UndurableCandidateIsRefused(operation: Operation, source: Inode, condition: Condition)
    ensures var steps := [BeginPrepare, Continue, PerformNext, PerformNext, Continue, PerformNext, Stop];
            Legal(Start(operation, source), steps)
            && Recovery(After(Start(operation, source), steps).store, condition).Err?
            && After(Start(operation, source), steps).store.run.phase == CopyIntent
  {
    hide Observe, Recovery, RecoveryActions, Exchanged, OnPrepared, RollbackPlan, PublishPlan;
    var w := Start(operation, source);
    var w1 := Apply(w, BeginPrepare);
    var w2 := Apply(w1, Continue);
    var w3 := Apply(w2, PerformNext);
    var w4 := Apply(w3, PerformNext);
    var w5 := Apply(w4, Continue);
    var w6 := Apply(w5, PerformNext);
    Chain(w, [BeginPrepare, Continue, PerformNext, PerformNext, Continue, PerformNext, Stop]);
    Chain(w1, [Continue, PerformNext, PerformNext, Continue, PerformNext, Stop]);
    Chain(w2, [PerformNext, PerformNext, Continue, PerformNext, Stop]);
    Chain(w3, [PerformNext, Continue, PerformNext, Stop]);
    Chain(w4, [Continue, PerformNext, Stop]);
    Chain(w5, [PerformNext, Stop]);
    Chain(w6, [Stop]);
    NotRecovered(w6.store, condition);
  }

  lemma {:induction false} NotRecovered(s: Store, condition: Condition)
    requires s.run.phase == CopyIntent && s.files.candidate.Some? && s.files.source == s.run.source && s.run.fenced.None? && s.files.rollback.None?
    ensures Recovery(s, condition).Err?
  {
  }

  lemma {:induction false} Chain(w: World, steps: seq<Step>)
    requires steps != [] && Enabled(w, steps[0])
    ensures Legal(w, steps) <==> Legal(Apply(w, steps[0]), steps[1..])
    ensures Legal(w, steps) ==> After(w, steps) == After(Apply(w, steps[0]), steps[1..])
  {
  }

  /** A plan carried out to its end. */
  function RunPlan(s: Store, plan: seq<Item>): Result<Store>
    decreases |plan|
  {
    if plan == [] then Ok(s)
    else
      var next := Perform(s, plan[0]);
      if next.Err? then Err else RunPlan(next.value, plan[1..])
  }

  /** What a fresh process does next, once it has looked at the files. */
  function NormalItems(s: Store): Result<seq<Item>>
  {
    if IsPreparation(s.run.phase) then NormalPlan(World(s, Preparing([])))
    else if s.run.phase == CandidateVerified then Ok([Record(SwapIntent)])
    else NormalPlan(World(s, Publishing(true, [])))
  }

  /** A process that is not interrupted: it recovers, then takes one normal action. */
  function Resumed(s: Store): Result<Store>
  {
    var plan := Recovery(s, UnknownCondition);
    if plan.Err? then Err
    else
      var recovered := RunPlan(s, plan.value);
      if recovered.Err? || NormalItems(recovered.value).Err? then recovered
      else RunPlan(recovered.value, NormalItems(recovered.value).value)
  }

  lemma {:induction false} RunShort(s: Store, a: Item, b: Item)
    ensures RunPlan(s, [a]) == Perform(s, a)
    ensures RunPlan(s, [a, b]) == if Perform(s, a).Ok? then Perform(Perform(s, a).value, b) else Err
  {
    assert [a, b][1..] == [b] && [b][1..] == [] && [a][1..] == [];
    if Perform(s, a).Ok? { assert RunPlan(Perform(s, a).value, [b]) == Perform(Perform(s, a).value, b); }
  }

  /** Before the copy is complete a preparation advances too, from the placements its
      own phases leave: no candidate yet, or the one it recorded. */
  lemma {:induction false} BeginningProgresses(s: Store)
    requires Placed(s) && s.run.phase.IsPrePublication()
    requires if s.run.phase == CandidatePrepared then s.files.candidate == s.run.prepared else s.files.candidate.None?
    ensures NormalItems(s).Ok? && RunPlan(s, NormalItems(s).value).Ok?
    ensures var s' := RunPlan(s, NormalItems(s).value).value; Placed(s') && Rank(s'.run.phase) == Rank(s.run.phase) + 1
  {
    hide RunPlan, Exchanged, RollbackPlace, RolledPlace, SwappedPlace;
    match s.run.phase
    case Planned => RunShort(s, Do(RecheckPlan), Record(CopyIntent));
    case CopyIntent => RunShort(s, Do(PrepareCandidate), Record(CandidatePrepared));
    case CopyRetryIntent => RunShort(s, Do(PrepareCandidate), Record(CandidatePrepared));
    case CandidatePrepared => RunShort(s, Do(BuildCandidate), Record(CopyComplete));
  }

  lemma {:induction false} PreparationProgresses(s: Store)
    requires Placed(s) && Classified(s.run.phase)
    ensures NormalItems(s).Ok? && RunPlan(s, NormalItems(s).value).Ok?
    ensures var s' := RunPlan(s, NormalItems(s).value).value; Placed(s') && Rank(s'.run.phase) == Rank(s.run.phase) + 1
  {
    hide RunPlan, Exchanged, RollbackPlace, RolledPlace, SwappedPlace;
    match s.run.phase
    case CopyComplete => RunShort(s, Record(CandidateSyncIntent), RemoveAbandoned);
    case CandidateSyncIntent => RunShort(s, Do(SyncCandidate), Record(CandidateSynced));
    case CandidateSynced => RunShort(s, Record(ScrubInProgress), RemoveAbandoned);
    case ScrubInProgress => RunShort(s, Do(VerifyCandidate), Record(CandidateVerified));
  }

  lemma {:induction false} PublicationProgresses(s: Store)
    requires Placed(s) && Settled(s) && Rank(CandidateVerified) <= Rank(s.run.phase) < Rank(Committed)
    ensures NormalItems(s).Ok? && RunPlan(s, NormalItems(s).value).Ok?
    ensures var s' := RunPlan(s, NormalItems(s).value).value; Placed(s') && Rank(s'.run.phase) == Rank(s.run.phase) + 1
  {
    hide RunPlan, OnPrepared;
    match s.run.phase
    case CandidateVerified => RunShort(s, Record(SwapIntent), RemoveAbandoned);
    case SwapIntent => RunShort(s, Do(Exchange), Record(Swapped));
    case Swapped => RunShort(s, Record(RollbackPublishIntent), RemoveAbandoned);
    case RollbackPublishIntent => RunShort(s, Do(PublishRollback), Record(RollbackReady));
    case RollbackReady => RunShort(s, Record(Committed), RemoveAbandoned);
  }

  /** In every reachable state from copy complete on, one uninterrupted resume moves
      the run strictly towards its commit: no crash leaves it stuck. */
  lemma {:induction false} ResumeProgresses(s: Store)
    requires Placed(s) && Rank(CopyComplete) <= Rank(s.run.phase) < Rank(Committed) && s.run.phase != Abandoned
    ensures Resumed(s).Ok? && Placed(Resumed(s).value) && Rank(s.run.phase) < Rank(Resumed(s).value.run.phase) <= Rank(Committed)
  {
    hide Placed, Recovery, RunPlan, NormalItems;
    RecoverySucceeds(s);
    var recovered := RunPlan(s, Recovery(s, UnknownCondition).value).value;
    if Classified(recovered.run.phase) { PreparationProgresses(recovered); } else { PublicationProgresses(recovered); }
  }

  /** The placements that recovery leaves for the next normal action. */
  predicate Settled(s: Store)
  {
    (s.run.phase == SwapIntent ==> s.exchanges == 0) && (s.run.phase == RollbackPublishIntent ==> s.files.rollback.None?)
  }

  lemma {:induction false} SwapRecovers(s: Store)
    requires Placed(s) && s.run.phase == SwapIntent
    ensures Recovery(s, UnknownCondition).Ok?
    ensures var r := RunPlan(s, Recovery(s, UnknownCondition).value); r.Ok? && Placed(r.value) && r.value.run.phase == Swapped
  {
    hide RunPlan, Items, RolledPlace, RollbackPlace, OnPrepared;
    if s.exchanges == 0 {
      ItemsOfShort(Exchange, RecordSwapped, Commit);
      RunShort(s, Do(Exchange), Record(Swapped));
    } else {
      ItemsOfShort(SyncRecoveredOrientation, RecordSwapped, Commit);
      RunShort(s, Do(SyncRecoveredOrientation), Record(Swapped));
    }
  }

  lemma {:induction false} PublishRecovers(s: Store)
    requires Placed(s) && s.run.phase == RollbackPublishIntent && s.files.rollback.Some?
    ensures Recovery(s, UnknownCondition).Ok?
    ensures var r := RunPlan(s, Recovery(s, UnknownCondition).value); r.Ok? && Placed(r.value) && r.value.run.phase == RollbackReady
  {
    hide RunPlan;
    ItemsOfShort(SyncRecoveredOrientation, RecordRollbackReady, Commit);
    RunShort(s, Do(SyncRecoveredOrientation), Record(RollbackReady));
  }

  lemma {:induction false} NothingToRecover(s: Store)
    requires Placed(s) && Rank(CopyComplete) <= Rank(s.run.phase) < Rank(Committed) && s.run.phase != Abandoned
    requires s.run.phase != SwapIntent && (s.run.phase == RollbackPublishIntent ==> s.files.rollback.None?)
    ensures Recovery(s, UnknownCondition) == Ok([])
  {
  }

  lemma {:induction false} RecoverySucceeds(s: Store)
    requires Placed(s) && Rank(CopyComplete) <= Rank(s.run.phase) < Rank(Committed) && s.run.phase != Abandoned
    ensures Recovery(s, UnknownCondition).Ok?
    ensures var r := RunPlan(s, Recovery(s, UnknownCondition).value);
            r.Ok? && Placed(r.value) && Settled(r.value)
            && (r.value == s || (Rank(s.run.phase) < Rank(r.value.run.phase) < Rank(Committed)))
  {
    hide Placed, Recovery;
    if s.run.phase == SwapIntent {
      SwapRecovers(s);
    } else if s.run.phase == RollbackPublishIntent && s.files.rollback.Some? {
      PublishRecovers(s);
    } else {
      NothingToRecover(s);
    }
  }

  // ---- Rolling back ---------------------------------------------------------------------

  /** The loop of a rollback, phase by phase; a plan that does not advance ends it. */
  function Unwound(s: Store): Result<Store>
    decreases 15 - Rank(s.run.phase)
  {
    if s.run.phase == RolledBack then Ok(s)
    else
      var plan := NormalPlan(World(s, RollingBack(true, [])));
      if plan.Err? then Err
      else
        var next := RunPlan(s, plan.value);
        if next.Err? || Rank(next.value.run.phase) <= Rank(s.run.phase) then Err else Unwound(next.value)
  }

  /** A rollback that is not interrupted: its intent, recovery, and the loop. */
  function RolledBackFrom(s: Store): Result<Store>
  {
    var begun := if s.run.phase == RollbackReady || s.run.phase == Committed then Perform(s, Record(RollbackSwapIntent)) else Ok(s);
    if begun.Err? || Recovery(begun.value, UnknownCondition).Err? then Err
    else
      var recovered := RunPlan(begun.value, Recovery(begun.value, UnknownCondition).value);
      if recovered.Err? then Err else Unwound(recovered.value)
  }

  predicate Returned(s: Store, r: Result<Store>)
  {
    r.Ok? && Placed(r.value) && r.value.run.phase == RolledBack && r.value.files.source == r.value.run.source == s.run.source
  }

  lemma {:induction false} UnwindsLast(s: Store)
    requires Placed(s) && (s.run.phase == RollbackSwapped || s.run.phase == RolledBack)
    ensures Returned(s, Unwound(s))
  {
    RunShort(s, Record(RolledBack), RemoveAbandoned);
  }

  lemma {:induction false} UnwindsSwap(s: Store)
    requires Placed(s) && s.run.phase == RollbackSwapIntent && RollbackPlace(s)
    ensures Returned(s, Unwound(s))
  {
    hide RunPlan;
    RunShort(s, Do(Exchange), Record(RollbackSwapped));
    UnwindsLast(RunPlan(s, RollbackPlan(s.run.phase).value).value);
  }

  lemma {:induction false} UnwindsReady(s: Store)
    requires Placed(s) && s.run.phase == RollbackReady
    ensures Returned(s, Unwound(s))
  {
    hide RunPlan;
    RunShort(s, Record(RollbackSwapIntent), RemoveAbandoned);
    UnwindsSwap(RunPlan(s, RollbackPlan(s.run.phase).value).value);
  }

  lemma {:induction false} UnwindsPublication(s: Store)
    requires Placed(s) && s.run.phase == RollbackPublishIntent && s.files.rollback.None?
    ensures Returned(s, Unwound(s))
  {
    hide RunPlan;
    RunShort(s, Do(PublishRollback), Record(RollbackReady));
    UnwindsReady(RunPlan(s, RollbackPlan(s.run.phase).value).value);
  }

  lemma {:induction false} UnwindsSwapped(s: Store)
    requires Placed(s) && s.run.phase == Swapped
    ensures Returned(s, Unwound(s))
  {
    hide RunPlan;
    RunShort(s, Record(RollbackPublishIntent), RemoveAbandoned);
    UnwindsPublication(RunPlan(s, RollbackPlan(s.run.phase).value).value);
  }

  lemma {:induction false} RunThree(s: Store, a: Item, b: Item, c: Item)
    ensures RunPlan(s, [a, b, c]) == if Perform(s, a).Ok? then RunPlan(Perform(s, a).value, [b, c]) else Err
  {
    assert [a, b, c][1..] == [b, c];
  }

  /** Recovery completes a rollback whose intent is recorded, exchanged or not. */
  lemma {:induction false} IntentRollsBack(s: Store)
    requires Placed(s) && s.run.phase == RollbackSwapIntent
    ensures Recovery(s, UnknownCondition).Ok? && Returned(s, RunPlan(s, Recovery(s, UnknownCondition).value))
  {
    hide RunPlan, Items;
    var effect := if RollbackPlace(s) then RollbackExchange else SyncRecoveredOrientation;
    ItemsOfShort(effect, RecordRollbackSwapped, RecordRolledBack);
    assert Recovery(s, UnknownCondition) == Ok([Do(effect), Record(RollbackSwapped), Record(RolledBack)]);
    RunThree(s, Do(effect), Record(RollbackSwapped), Record(RolledBack));
    RunShort(Perform(s, Do(effect)).value, Record(RollbackSwapped), Record(RolledBack));
  }

  lemma {:induction false} UnwoundStays(s: Store, r: Result<Store>)
    requires Returned(s, r)
    ensures Returned(s, Unwound(r.value))
  {
  }

  lemma {:induction false} SwappedRollsBack(s: Store)
    requires Placed(s) && s.run.phase == RollbackSwapped
    ensures Recovery(s, UnknownCondition).Ok? && Returned(s, RunPlan(s, Recovery(s, UnknownCondition).value))
  {
    hide RunPlan, Items;
    ItemsOfShort(RecordRolledBack, RecordRolledBack, RecordRolledBack);
    RunShort(s, Record(RolledBack), RemoveAbandoned);
  }

  /** The intent of a rollback is recorded before anything moves, except for a
      committed offline migration, whose rollback is refused. */
  lemma {:induction false} IntentIsRecorded(s: Store)
    requires Placed(s) && (s.run.phase == RollbackReady || s.run.phase == Committed)
    ensures var r := Perform(s, Record(RollbackSwapIntent));
            if s.run.phase == Committed && s.run.operation == OfflineMigrationUpgrade then r.Err?
            else r.Ok? && Placed(r.value) && r.value.run.phase == RollbackSwapIntent && r.value.run.source == s.run.source
  {
  }

  lemma {:induction false} UnwindsNot(s: Store)
    requires Rank(s.run.phase) < Rank(SwapIntent) || s.run.phase == Abandoned
    ensures Unwound(s).Err?
  {
  }

  lemma {:induction false} RemovalKeepsRun(s: Store)
    ensures Perform(s, Do(RemoveOwnedPartialCandidate)).Ok? ==> Perform(s, Do(RemoveOwnedPartialCandidate)).value.run == s.run
  {
  }

  lemma {:induction false} TooEarly(s: Store)
    requires Placed(s) && (Rank(s.run.phase) < Rank(SwapIntent) || s.run.phase == Abandoned)
    ensures RolledBackFrom(s).Err?
  {
    hide Recovery, Placed, RunPlan, Unwound, Perform;
    var plan := Recovery(s, UnknownCondition);
    if plan.Ok? {
      EarlyRecovery(s);
      NothingToRun(s);
      RemovalKeepsRun(s);
      RunShort(s, Do(RemoveOwnedPartialCandidate), RemoveAbandoned);
      if RunPlan(s, plan.value).Ok? { UnwindsNot(RunPlan(s, plan.value).value); }
    }
  }

  lemma {:induction false} EarlyRecovery(s: Store)
    requires Placed(s) && (Rank(s.run.phase) < Rank(SwapIntent) || s.run.phase == Abandoned) && Recovery(s, UnknownCondition).Ok?
    ensures Recovery(s, UnknownCondition).value == [] || Recovery(s, UnknownCondition).value == [Do(RemoveOwnedPartialCandidate)]
  {
    ItemsOfShort(RemoveOwnedPartialCandidate, Commit, Commit);
  }

  /** In every reachable state an uninterrupted rollback either is refused or puts the
      original inode back: it succeeds if and only if the swap was at least intended,
      and the run is not a committed offline migration. */
  lemma {:induction false} RollbackIsExact(s: Store)
    requires Placed(s)
    ensures RolledBackFrom(s).Ok?
            <==> Rank(SwapIntent) <= Rank(s.run.phase) && !(s.run.phase == Committed && s.run.operation == OfflineMigrationUpgrade)
    ensures RolledBackFrom(s).Ok? ==> Returned(s, RolledBackFrom(s))
  {
    hide Placed, Recovery, RunPlan, Unwound, Perform;
    if Recovery(s, UnknownCondition).Ok? { PlanKeepsSource(s, Recovery(s, UnknownCondition).value); }
    match s.run.phase
    case SwapIntent => SwapRecovers(s); UnwindsSwapped(RunPlan(s, Recovery(s, UnknownCondition).value).value);
    case Swapped => NothingToRecover(s); NothingToRun(s); UnwindsSwapped(s);
    case RollbackPublishIntent =>
      if s.files.rollback.Some? {
        PublishRecovers(s);
        UnwindsReady(RunPlan(s, Recovery(s, UnknownCondition).value).value);
      } else {
        NothingToRecover(s); NothingToRun(s); UnwindsPublication(s);
      }
    case RollbackReady => RecordedRollsBack(s);
    case Committed => RecordedRollsBack(s);
    case RollbackSwapIntent => IntentRollsBack(s); UnwoundStays(s, RunPlan(s, Recovery(s, UnknownCondition).value));
    case RollbackSwapped => SwappedRollsBack(s); UnwoundStays(s, RunPlan(s, Recovery(s, UnknownCondition).value));
    case RolledBack => AlreadyBack(s); NothingToRun(s); UnwindsLast(s);
    case _ => TooEarly(s);
  }

  lemma {:induction false} PlanKeepsSource(s: Store, plan: seq<Item>)
    ensures RunPlan(s, plan).Ok? ==> RunPlan(s, plan).value.run.source == s.run.source
    decreases |plan|
  {
    if plan != [] && Perform(s, plan[0]).Ok? { PlanKeepsSource(Perform(s, plan[0]).value, plan[1..]); }
  }

  lemma {:induction false} NothingToRun(s: Store)
    ensures RunPlan(s, []) == Ok(s)
  {
  }

  lemma {:induction false} AlreadyBack(s: Store)
    requires Placed(s) && s.run.phase == RolledBack
    ensures Recovery(s, UnknownCondition) == Ok([])
  {
  }

  lemma {:induction false} RecordedRollsBack(s: Store)
    requires Placed(s) && (s.run.phase == RollbackReady || s.run.phase == Committed)
    ensures RolledBackFrom(s).Ok? <==> !(s.run.phase == Committed && s.run.operation == OfflineMigrationUpgrade)
    ensures RolledBackFrom(s).Ok? ==> Returned(s, RolledBackFrom(s))
  {
    hide Placed, Recovery, RunPlan, Unwound, Perform;
    IntentIsRecorded(s);
    var begun := Perform(s, Record(RollbackSwapIntent));
    if begun.Ok? {
      IntentRollsBack(begun.value);
      UnwoundStays(begun.value, RunPlan(begun.value, Recovery(begun.value, UnknownCondition).value));
    }
  }

  // ---- Retrying and abandoning --------------------------------------------------------------

  /** From every early placement it can decide about, recovery leaves one from which the
      preparation goes on: a complete candidate counts as copied, an incomplete one is gone. */
  lemma {:induction false} EarlyRecoveryLeads(s: Store, condition: Condition)
    requires Placed(s) && s.run.phase.IsPrePublication() && !Undecidable(s, condition)
    ensures Recovery(s, condition).Ok? && RunPlan(s, Recovery(s, condition).value).Ok?
    ensures var s' := RunPlan(s, Recovery(s, condition).value).value;
            Placed(s')
            && if s.run.phase == CandidatePrepared && condition == Complete then s'.run.phase == CopyComplete && s'.files == s.files
               else s'.files.candidate.None? && s'.run.phase == (if s.run.phase == CandidatePrepared then CopyRetryIntent else s.run.phase)
  {
    hide RunPlan, RollbackPlace, RolledPlace, SwappedPlace;
    RecoverableFrom(s, condition);
    ItemsOfShort(RemoveOwnedPartialCandidate, Commit, Commit);
    ItemsOfShort(RecordCopyComplete, Commit, Commit);
    ItemsOfShort(RecordCopyRetryIntent, RemoveOwnedPartialCandidate, Commit);
    NothingToRun(s);
    RunShort(s, Do(RemoveOwnedPartialCandidate), RemoveAbandoned);
    RunShort(s, Record(CopyComplete), RemoveAbandoned);
    RunShort(s, Record(CopyRetryIntent), Do(RemoveOwnedPartialCandidate));
  }

  /** Before publication a run can always be abandoned; its candidate goes with it. */
  lemma {:induction false} AbandonReaches(s: Store)
    requires Placed(s) && s.run.phase.IsPrePublication()
    ensures var r := RunPlan(s, [RemoveAbandoned, Record(Abandoned)]);
            r.Ok? && Placed(r.value) && r.value.run.phase == Abandoned && r.value.files == Files(s.run.source, None, None)
  {
    RunShort(s, RemoveAbandoned, Record(Abandoned));
  }
}
