/** The compare-and-swap store contract, and the in-memory store with its injected faults. */
module Store {
  import opened Basics
  import opened Identity
  import opened Checkpoint

  datatype StorageRevision = StorageRevision(token: nat)

  datatype StoredCheckpoint = StoredCheckpoint(revision: StorageRevision, checkpoint: CheckpointEnvelope)

  datatype StoreErrorKind = Authorization | Unavailable | Timeout | MalformedResponse | Other

  datatype CasResult =
    | Accepted(revision: StorageRevision)
    | Conflict
    | OutcomeUnknown
    | Failed(kind: StoreErrorKind)

  /** The persistent part of a store: one checkpoint an execution, and the revisions handed out. */
  datatype StoreState = StoreState(checkpoints: map<Id16, StoredCheckpoint>, revisionCounter: nat)

  function Lookup(s: StoreState, id: Id16): Option<StoredCheckpoint>
  {
    if id in s.checkpoints then Some(s.checkpoints[id]) else None
  }

  function RevisionOf(stored: Option<StoredCheckpoint>): Option<StorageRevision>
  {
    match stored
    case None => None
    case Some(c) => Some(c.revision)
  }

  predicate Matches(s: StoreState, id: Id16, expected: Option<StorageRevision>)
  {
    RevisionOf(Lookup(s, id)) == expected
  }

  /** The state after an accepted write. */
  function Apply(s: StoreState, id: Id16, c: CheckpointEnvelope): StoreState
  {
    StoreState(s.checkpoints[id := StoredCheckpoint(StorageRevision(s.revisionCounter + 1), c)],
               s.revisionCounter + 1)
  }

  /** What any provider may do with a compare-and-swap request and report about it. */
  predicate CasAllowed(s: StoreState, id: Id16, expected: Option<StorageRevision>, c: CheckpointEnvelope,
                       s': StoreState, r: CasResult)
  {
    match r
    case Accepted(revision) =>
      Matches(s, id, expected) && s' == Apply(s, id, c) && revision == StorageRevision(s'.revisionCounter)
    case OutcomeUnknown => s' == s || (Matches(s, id, expected) && s' == Apply(s, id, c))
    case Conflict => s' == s
    case Failed(_) => s' == s
  }

  /** Every stored revision was handed out, and no two executions share one. */
  predicate RevisionsDistinct(s: StoreState)
  {
    && (forall id :: id in s.checkpoints ==> 1 <= s.checkpoints[id].revision.token <= s.revisionCounter)
    && (forall a, b :: a in s.checkpoints && b in s.checkpoints && a != b ==>
          s.checkpoints[a].revision != s.checkpoints[b].revision)
  }

  /** A write never reuses a revision: a token names one content for ever. */
  lemma {:induction false} RevisionsStayDistinct(s: StoreState, id: Id16, expected: Option<StorageRevision>,
                                                 c: CheckpointEnvelope, s': StoreState, r: CasResult)
    requires RevisionsDistinct(s) && CasAllowed(s, id, expected, c, s', r)
    ensures RevisionsDistinct(s') && s.revisionCounter <= s'.revisionCounter
    ensures forall k :: k in s.checkpoints ==>
              k in s'.checkpoints && (s'.checkpoints[k] == s.checkpoints[k]
                                      || s'.checkpoints[k].revision.token > s.revisionCounter)
  {
  }

  datatype InMemoryFault =
    | FailBeforeRequest(kind: StoreErrorKind)
    | ConflictWithoutApply
    | OutcomeUnknownWithoutApply
    | OutcomeUnknownAfterApply

  class InMemoryCheckpointStore {
    var checkpoints: map<Id16, StoredCheckpoint>
    var nextCasFault: Option<InMemoryFault>
    var matchingCasBeforeFault: nat
    var nextLoadError: Option<StoreErrorKind>
    var revisionCounter: U64

    function State(): StoreState
      reads this
    {
      StoreState(checkpoints, revisionCounter)
    }

    constructor ()
      ensures State() == StoreState(map[], 0)
      ensures nextCasFault == None && matchingCasBeforeFault == 0 && nextLoadError == None
    {
      checkpoints := map[];
      nextCasFault, matchingCasBeforeFault := None, 0;
      nextLoadError := None;
      revisionCounter := 0;
    }

    method FailCompareAndSwapAfter(matching: nat, fault: InMemoryFault)
      modifies this`nextCasFault, this`matchingCasBeforeFault
      ensures nextCasFault == Some(fault) && matchingCasBeforeFault == matching
    {
      matchingCasBeforeFault := matching;
      nextCasFault := Some(fault);
    }

    /** An armed load error is reported once and hides nothing afterwards. */
    method Load(id: Id16) returns (r: Result<Option<StoredCheckpoint>, StoreErrorKind>)
      modifies this`nextLoadError
      ensures nextLoadError == None
      ensures r == match old(nextLoadError)
                   case Some(kind) => Err(kind)
                   case None => Ok(Lookup(State(), id))
    {
      if nextLoadError.Some? {
        r := Err(nextLoadError.value);
        nextLoadError := None;
      } else {
        r := Ok(if id in checkpoints then Some(checkpoints[id]) else None);
      }
    }

    method CompareAndSwap(id: Id16, expected: Option<StorageRevision>, checkpoint: CheckpointEnvelope)
      returns (r: CasResult)
      modifies this`checkpoints, this`nextCasFault, this`matchingCasBeforeFault, this`revisionCounter
      ensures CasAllowed(old(State()), id, expected, checkpoint, State(), r)
      // A stale expectation conflicts, whatever fault is armed, and leaves the fault armed.
      ensures !Matches(old(State()), id, expected) ==>
                r == Conflict && State() == old(State()) && nextCasFault == old(nextCasFault)
                && matchingCasBeforeFault == old(matchingCasBeforeFault)
      // A matching request consumes the countdown first, and then the one-shot fault.
      ensures Matches(old(State()), id, expected) && old(matchingCasBeforeFault) > 0 ==>
                matchingCasBeforeFault == old(matchingCasBeforeFault) - 1 && nextCasFault == old(nextCasFault)
      ensures Matches(old(State()), id, expected) && old(matchingCasBeforeFault) == 0 ==>
                matchingCasBeforeFault == 0 && nextCasFault == None
      // Without a fault in the way the write happens and is reported.
      ensures (Matches(old(State()), id, expected) && old(revisionCounter) < U64_MAX
               && (old(nextCasFault) == None || old(matchingCasBeforeFault) > 0)) ==> r.Accepted?
      // A due fault decides what is reported and whether the write happened.
      ensures (Matches(old(State()), id, expected) && old(revisionCounter) < U64_MAX
               && old(nextCasFault).Some? && old(matchingCasBeforeFault) == 0) ==>
                match old(nextCasFault).value
                case FailBeforeRequest(kind) => r == Failed(kind) && State() == old(State())
                case ConflictWithoutApply => r == Conflict && State() == old(State())
                case OutcomeUnknownWithoutApply => r == OutcomeUnknown && State() == old(State())
                case OutcomeUnknownAfterApply =>
                  r == OutcomeUnknown && State() == Apply(old(State()), id, checkpoint)
    {
      var actual := if id in checkpoints then Some(checkpoints[id].revision) else None;
      if actual != expected {
        return Conflict;
      }
      var fault := None;
      if matchingCasBeforeFault == 0 {
        fault := nextCasFault;
        nextCasFault := None;
      } else {
        matchingCasBeforeFault := matchingCasBeforeFault - 1;
      }
      match fault {
        case Some(FailBeforeRequest(kind)) => return Failed(kind);
        case Some(ConflictWithoutApply) => return Conflict;
        case Some(OutcomeUnknownWithoutApply) => return OutcomeUnknown;
        case _ =>
          if revisionCounter == U64_MAX {
            return Failed(Other);
          }
          revisionCounter := revisionCounter + 1;
          var revision := StorageRevision(revisionCounter);
          checkpoints := checkpoints[id := StoredCheckpoint(revision, checkpoint)];
          return if fault.Some? then OutcomeUnknown else Accepted(revision);
      }
    }
  }
}
