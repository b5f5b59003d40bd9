/** The durable phases of a prepared store upgrade, and its decisions: what comes
    next, what recovery does, and which phase may follow which. */
module PreparedStoreUpgrade {
  import opened Options

  datatype Result<T> = Ok(value: T) | Err

  datatype Phase =
    | Planned | CopyIntent | CopyRetryIntent | CandidatePrepared | CopyComplete
    | CandidateSyncIntent | CandidateSynced | ScrubInProgress | CandidateVerified
    | SwapIntent | Swapped | RollbackPublishIntent | RollbackReady | Committed
    | RollbackSwapIntent | RollbackSwapped | RolledBack | Abandoned
  {
    predicate IsTerminal() { Committed? || RolledBack? || Abandoned? }

    predicate IsPrePublication() { Planned? || CopyIntent? || CopyRetryIntent? || CandidatePrepared? }
  }

  datatype Operation = Compaction | OfflineMigrationUpgrade

  /** A filesystem object; what a writer may change about it is left out. */
  type Inode = nat

  /** `fenced` is the candidate whose verification authorised publication. */
  datatype Run = Run(phase: Phase, operation: Operation, source: Inode, prepared: Option<Inode>, fenced: Option<Inode>)

  datatype Orientation = AtSourceOriginal | AtCandidateReady | AtSwapped | AtRollbackReady | AtRolledBack
  datatype Condition = UnknownCondition | Complete | OwnedIncomplete
  datatype Observation = Observation(orientation: Orientation, candidate: Option<Inode>, condition: Condition)

  datatype Action =
    | RecheckPlan | PrepareCandidate | BuildCandidate | RemoveOwnedPartialCandidate
    | RecordCopyRetryIntent | RecordCopyComplete | RecordSyncIntent | SyncCandidate
    | RecordScrubInProgress | VerifyCandidate | RecordSwapIntent | Exchange | RecordSwapped
    | RecordPublishIntent | PublishRollback | RecordRollbackReady | Commit
    | RollbackExchange | SyncRecoveredOrientation | RecordRollbackSwapped | RecordRolledBack

  /** The next step of a normal apply; a committed run has none. */
  function NextAction(run: Run): Result<Option<Action>>
  {
    match run.phase
    case Planned => Ok(Some(RecheckPlan))
    case CopyIntent => Ok(Some(PrepareCandidate))
    case CopyRetryIntent => Ok(Some(PrepareCandidate))
    case CandidatePrepared => Ok(Some(BuildCandidate))
    case CopyComplete => Ok(Some(RecordSyncIntent))
    case CandidateSyncIntent => Ok(Some(SyncCandidate))
    case CandidateSynced => Ok(Some(RecordScrubInProgress))
    case ScrubInProgress => Ok(Some(VerifyCandidate))
    case CandidateVerified => Ok(Some(RecordSwapIntent))
    case SwapIntent => Ok(Some(Exchange))
    case Swapped => Ok(Some(RecordPublishIntent))
    case RollbackPublishIntent => Ok(Some(PublishRollback))
    case RollbackReady => Ok(Some(Commit))
    case Committed => Ok(None)
    case _ => Err
  }

  /** Ordered decisions for an observed placement; every combination that is not
      listed is refused. */
  function RecoveryActions(run: Run, seen: Observation): Result<seq<Action>>
  {
    match (seen.orientation, run.phase)
    case (AtSwapped, CandidateVerified) => Ok([RecordSwapIntent, SyncRecoveredOrientation, RecordSwapped])
    case (AtSwapped, SwapIntent) => Ok([SyncRecoveredOrientation, RecordSwapped])
    case (AtSwapped, Swapped) => Ok([])
    case (AtSwapped, RollbackPublishIntent) => Ok([])
    case (AtRollbackReady, Swapped) => Ok([RecordPublishIntent, SyncRecoveredOrientation, RecordRollbackReady])
    case (AtRollbackReady, RollbackPublishIntent) => Ok([SyncRecoveredOrientation, RecordRollbackReady])
    case (AtRollbackReady, RollbackReady) => Ok([])
    case (AtRollbackReady, Committed) => Ok([])
    case (AtRollbackReady, RollbackSwapIntent) => Ok([RollbackExchange, RecordRollbackSwapped, RecordRolledBack])
    case (AtRolledBack, RollbackSwapIntent) => Ok([SyncRecoveredOrientation, RecordRollbackSwapped, RecordRolledBack])
    case (AtRolledBack, RollbackSwapped) => Ok([RecordRolledBack])
    case (AtRolledBack, RolledBack) => Ok([])
    case (AtSourceOriginal, Planned) => Ok([])
    case (AtSourceOriginal, CopyIntent) => Ok([])
    case (AtSourceOriginal, CopyRetryIntent) => Ok([])
    case (AtCandidateReady, CopyRetryIntent) =>
      if seen.candidate != run.prepared then Err else Ok([RemoveOwnedPartialCandidate])
    case (AtCandidateReady, CandidatePrepared) =>
      if seen.candidate != run.prepared then Err
      else if seen.condition == Complete then Ok([RecordCopyComplete])
      else if seen.condition == OwnedIncomplete then Ok([RecordCopyRetryIntent, RemoveOwnedPartialCandidate])
      else Err
    case (AtCandidateReady, CopyComplete) => Ok([])
    case (AtCandidateReady, CandidateSyncIntent) => Ok([])
    case (AtCandidateReady, CandidateSynced) => Ok([])
    case (AtCandidateReady, ScrubInProgress) => Ok([])
    case (AtCandidateReady, CandidateVerified) => Ok([])
    case (AtCandidateReady, SwapIntent) => Ok([Exchange, RecordSwapped])
    case _ => Err
  }

  /** The transition table. */
  function Transitions(phase: Phase): set<Phase>
  {
    match phase
    case Planned => {CopyIntent, Abandoned}
    case CopyIntent => {CandidatePrepared, Abandoned}
    case CopyRetryIntent => {CandidatePrepared, Abandoned}
    case CandidatePrepared => {CopyComplete, CopyRetryIntent, Abandoned}
    case CopyComplete => {CandidateSyncIntent}
    case CandidateSyncIntent => {CandidateSynced}
    case CandidateSynced => {ScrubInProgress}
    case ScrubInProgress => {CandidateVerified}
    case CandidateVerified => {SwapIntent}
    case SwapIntent => {Swapped}
    case Swapped => {RollbackPublishIntent}
    case RollbackPublishIntent => {RollbackReady}
    case RollbackReady => {Committed, RollbackSwapIntent}
    case Committed => {RollbackSwapIntent}
    case RollbackSwapIntent => {RollbackSwapped}
    case RollbackSwapped => {RolledBack}
    case RolledBack => {}
    case Abandoned => {}
  }

  /** Skipped and backward transitions are refused, and so is the rollback of a
      committed offline migration. */
  function Advance(run: Run, next: Phase): Result<Run>
  {
    if run.phase == Committed && next == RollbackSwapIntent && run.operation == OfflineMigrationUpgrade then Err
    else if next in Transitions(run.phase) then Ok(run.(phase := next))
    else Err
  }

  predicate ShouldAbandonForStaleSource(run: Run, current: Option<Inode>)
  {
    run.phase.IsPrePublication() && current.Some? && current.value != run.source
  }

  /** The phase that a recording action writes. */
  function Recorded(action: Action): Option<Phase>
  {
    match action
    case RecordCopyRetryIntent => Some(CopyRetryIntent)
    case RecordCopyComplete => Some(CopyComplete)
    case RecordSwapIntent => Some(SwapIntent)
    case RecordSwapped => Some(Swapped)
    case RecordPublishIntent => Some(RollbackPublishIntent)
    case RecordRollbackReady => Some(RollbackReady)
    case RecordRollbackSwapped => Some(RollbackSwapped)
    case RecordRolledBack => Some(RolledBack)
    case _ => None
  }

  /** Abandoning is possible exactly before publication, so a stale source is never a
      reason to abandon later. */
  lemma {:induction false} AbandonOnlyBeforePublication(run: Run, current: Option<Inode>)
    ensures Advance(run, Abandoned).Ok? <==> run.phase.IsPrePublication()
    ensures ShouldAbandonForStaleSource(run, current) ==> Advance(run, Abandoned).Ok?
  {
  }

  // ---- Paths ------------------------------------------------------------------

  /** Advancing phase by phase. */
  predicate Advances(run: Run, path: seq<Phase>)
    decreases |path|
  {
    path == [] || (Advance(run, path[0]).Ok? && Advances(Advance(run, path[0]).value, path[1..]))
  }

  function Reached(run: Run, path: seq<Phase>): Run
    requires Advances(run, path)
    decreases |path|
  {
    if path == [] then run else Reached(Advance(run, path[0]).value, path[1..])
  }

  function Records(actions: seq<Action>): seq<Phase>
  {
    if actions == [] then []
    else (if Recorded(actions[0]).Some? then [Recorded(actions[0]).value] else []) + Records(actions[1..])
  }

  /** The records of every recovery are a legal path of the journal. */
  lemma {:induction false} RecoveryIsLegal(run: Run, seen: Observation)
    requires RecoveryActions(run, seen).Ok?
    ensures Advances(run, Records(RecoveryActions(run, seen).value))
  {
    var actions := RecoveryActions(run, seen).value;
    if |actions| == 3 {
      Unrolled(actions, actions[0], actions[1], actions[2]);
    } else if |actions| == 2 {
      assert Records(actions[1..]) == Records([actions[1]]);
    }
  }

  lemma {:induction false} Unrolled(actions: seq<Action>, a: Action, b: Action, c: Action)
    requires actions == [a, b, c]
    ensures Records(actions) == Records([a]) + Records([b]) + Records([c])
  {
    assert actions[1..] == [b, c] && actions[2..] == [c] && [b, c][1..] == [c];
  }

  /** How far a phase is; a retry steps back to the intent it repeats. */
  function Rank(phase: Phase): nat
  {
    match phase
    case Planned => 0
    case CopyIntent => 1
    case CopyRetryIntent => 1
    case CandidatePrepared => 2
    case CopyComplete => 3
    case CandidateSyncIntent => 4
    case CandidateSynced => 5
    case ScrubInProgress => 6
    case CandidateVerified => 7
    case SwapIntent => 8
    case Swapped => 9
    case RollbackPublishIntent => 10
    case RollbackReady => 11
    case Committed => 12
    case RollbackSwapIntent => 13
    case RollbackSwapped => 14
    case RolledBack => 15
    case Abandoned => 3
  }

  function Retries(path: seq<Phase>): nat
  {
    if path == [] then 0 else (if path[0] == CopyRetryIntent then 1 else 0) + Retries(path[1..])
  }

  /** The only cycle is candidate prepared and copy retry: every other transition
      goes forward, so a path has a length its retries account for. */
  lemma {:induction false} PathLength(run: Run, path: seq<Phase>)
    requires Advances(run, path)
    ensures |path| + Rank(run.phase) <= Rank(Reached(run, path).phase) + 2 * Retries(path)
    decreases |path|
  {
    if path != [] { PathLength(Advance(run, path[0]).value, path[1..]); }
  }

  /** A run with r retries takes at most 15 + 2r advances. */
  lemma {:induction false} RunLength(run: Run, path: seq<Phase>)
    requires run.phase == Planned && Advances(run, path)
    ensures |path| <= 15 + 2 * Retries(path)
  {
    PathLength(run, path);
  }

  /** Of the terminal phases only a committed compaction can be left, and only
      towards its rollback; a committed offline migration stays committed. */
  lemma {:induction false} TerminalLeaves(run: Run, path: seq<Phase>)
    requires run.phase.IsTerminal() && Advances(run, path)
    ensures path == [] || (run.phase == Committed && run.operation == Compaction && path[0] == RollbackSwapIntent)
  {
  }

  /** A path that ends abandoned never left the phases before publication. */
  lemma {:induction false} AbandonedNeverPublished(run: Run, path: seq<Phase>)
    requires Advances(run, path) && Reached(run, path).phase == Abandoned && run.phase != Abandoned
    ensures run.phase.IsPrePublication() && forall i :: 0 <= i < |path| ==> path[i].IsPrePublication() || path[i] == Abandoned
    decreases |path|
  {
    if path[0] != Abandoned {
      AbandonedNeverPublished(Advance(run, path[0]).value, path[1..]);
      assert forall i :: 1 <= i < |path| ==> path[i] == path[1..][i - 1];
    }
  }
}
