/**
 * The job and file state codes of JobStatusHandler::JobStateEnum and the
 * classification its documentation gives them: a negative code means the job
 * failed, zero that it finished, a positive code that it is still being processed.
 */
module JobStatus {
  import opened Wrappers

  datatype JobState =
    | Failed | CatalogFailed | FinishedDirty | Unknown | Canceled | TransferFailed
    | Finished
    | Submitted | Pending | Active | Canceling | Waiting | Hold | Done | Ready
    | DoneWithErrors | Finishing | AwaitingPrestage | Prestaging | WaitingPrestage
    | WaitingCatalogResolution | WaitingCatalogRegistration

  /** Every state, in declaration order. */
  const AllStates: seq<JobState> := [
    Failed, CatalogFailed, FinishedDirty, Unknown, Canceled, TransferFailed,
    Finished,
    Submitted, Pending, Active, Canceling, Waiting, Hold, Done, Ready,
    DoneWithErrors, Finishing, AwaitingPrestage, Prestaging, WaitingPrestage,
    WaitingCatalogResolution, WaitingCatalogRegistration
  ]

  /** The integer value of each enumerator. */
  function Id(s: JobState): (r: int)
    ensures -6 <= r <= 15
  {
    match s
    case Failed => -6
    case CatalogFailed => -5
    case FinishedDirty => -4
    case Unknown => -3
    case Canceled => -2
    case TransferFailed => -1
    case Finished => 0
    case Submitted => 1
    case Pending => 2
    case Active => 3
    case Canceling => 4
    case Waiting => 5
    case Hold => 6
    case Done => 7
    case Ready => 8
    case DoneWithErrors => 9
    case Finishing => 10
    case AwaitingPrestage => 11
    case Prestaging => 12
    case WaitingPrestage => 13
    case WaitingCatalogResolution => 14
    case WaitingCatalogRegistration => 15
  }

  /** The state an integer code stands for, if any: the inverse of Id. */
  function FromId(i: int): (r: Option<JobState>)
    ensures r.Some? ==> Id(r.value) == i
    ensures r.None? <==> i < -6 || i > 15
  {
    if -6 <= i <= 15 then Some(AllStates[i + 6]) else None
  }

  predicate IsFailed(s: JobState) { Id(s) < 0 }
  predicate IsFinished(s: JobState) { Id(s) == 0 }
  predicate IsInProgress(s: JobState) { Id(s) > 0 }

  /** The enumerators take the consecutive values -6 .. 15 in declaration order. */
  lemma IdsFollowDeclarationOrder()
    ensures |AllStates| == 22
    ensures forall k :: 0 <= k < |AllStates| ==> Id(AllStates[k]) == k - 6
  {
  }

  /** Decoding an encoded state gives it back, so the code assignment is injective. */
  lemma FromIdOfId(s: JobState)
    ensures FromId(Id(s)) == Some(s)
  {
  }

  lemma IdInjective(a: JobState, b: JobState)
    ensures Id(a) == Id(b) ==> a == b
  {
    FromIdOfId(a);
    FromIdOfId(b);
  }

  /** Every state falls in exactly one of the three documented classes. */
  lemma ClassificationIsPartition(s: JobState)
    ensures IsFailed(s) || IsFinished(s) || IsInProgress(s)
    ensures !(IsFailed(s) && IsFinished(s)) && !(IsFailed(s) && IsInProgress(s))
    ensures !(IsFinished(s) && IsInProgress(s))
  {
  }

  /** The failed class is exactly the six states declared before FINISHED, CANCELED and UNKNOWN included. */
  lemma FailedStates(s: JobState)
    ensures IsFailed(s) <==> s in {Failed, CatalogFailed, FinishedDirty, Unknown, Canceled, TransferFailed}
    ensures IsFinished(s) <==> s == Finished
  {
  }
}
