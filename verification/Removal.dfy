/** The removal intent and the progress of one removal attempt: what they may say, and what that implies. */
module Removal {
  import opened Basics
  import opened Sorting
  import opened Texts
  import opened Configurations

  const PROTOCOL_VERSION: U32 := 1
  const MAX_PRE_COMMIT_ATTEMPTS: U32 := 3
  const COMPENSATION_GRACE_SECONDS := 30
  const CALL_TIMEOUT_SECONDS := 10
  const RETIREMENT_TIMEOUT_SECONDS := 60
  const PEER_PROTOCOL_VERSION: U32 := 2
  const MAX_ERROR_BYTES := 1024
  const PREVIOUS := "previous="
  const CATCH_UP := ";reduced-catch-up="
  const CURRENT := ";reduced-current="
  const I64_MAX: int := 0x7FFF_FFFF_FFFF_FFFF

  datatype RemovalMode = ScaleDown | Force

  datatype RemoveReplicaIntent = RemoveReplicaIntent(
    protocolVersion: U32, operationId: string, actionId: string, attemptNumber: U32, attemptId: string,
    inputSignature: string, mode: RemovalMode, epoch: Epoch,
    primaryReplicaId: int, primaryInstanceId: string, primaryAgentGeneration: string,
    primaryAgentControlVersion: U64, primaryControlAddress: string,
    primaryReplicatorAddress: string,
    targetReplicaId: int, targetInstanceId: string, expectedTargetPodUid: string, targetPodName: string,
    expectedTargetAgentGeneration: Option<string>, targetControlAddress: Option<string>,
    targetReplicatorAddress: Option<string>, targetPeerProtocolVersion: Option<U32>,
    previous: ConfigurationDescriptor, reducedCatchUp: ConfigurationDescriptor,
    reducedCurrent: ConfigurationDescriptor,
    requiredWriteQuorum: U32, minimumCommittedReplicas: U32, maximumPreCommitAttempts: U32,
    overallDeadline: int, compensationGrace: int, compensationDeadlineCap: int, callTimeout: int,
    targetRetirementTimeout: int)

  datatype IntentError =
    | UnsupportedVersion | IdentityMissing | AttemptBounds | PrimaryOrTargetIdentity | PodUidDiffers
    | EndpointInvalid | PartialObservability | ScaleDownNeedsObservability | PeerVersionUnsupported
    | WriteQuorum | MemberIdentity | MemberUnstable
    | PrimaryListed | TargetNotExact | TargetNotUp | ReducedDiffer | NotOneFewer | TargetRemains | RetainedChanged
    | QuorumOrMinimum | RetainedTooFew | DeadlineOverflow | DeadlineBudget | SignatureDiffers

  datatype Check = Pass | Fail(error: IntentError)

  // ---------------------------------------------------------------- descriptors

  /** The majority of a set, computed on 32 bits from a machine-word count. */
  function MajorityOf(total: nat): nat
  {
    total % 0x1_0000_0000 / 2 + 1
  }

  /** The truncation to 32 bits is harmless exactly for sets that fit in 32 bits. */
  lemma {:induction false} MajorityIsMajority(total: nat)
    requires total > 0
    ensures 2 * MajorityOf(total) > total <==> total <= U32_MAX
  {
    if total > U32_MAX {
      assert total % 0x1_0000_0000 < 0x1_0000_0000;
    } else {
      assert total % 0x1_0000_0000 == total;
    }
  }

  /** Majorities of a set and of the set with one replica fewer: too many to be apart, or few enough. */
  lemma {:induction false} MajoritiesOverlap(total: nat)
    requires total >= 2
    ensures MajorityOf(total) + MajorityOf(total - 1) > total <==> total <= U32_MAX
    ensures MajorityOf(total) <= 0x8000_0000
  {
    if total <= U32_MAX {
      assert total % 0x1_0000_0000 == total && (total - 1) % 0x1_0000_0000 == total - 1;
    }
  }

  predicate DistinctInstances(members: seq<MemberDescriptor>)
  {
    forall i, j :: 0 <= i < j < |members| ==> members[i].instanceId != members[j].instanceId
  }

  predicate StableMember(m: MemberDescriptor, endpoint: string -> bool)
  {
    && m.id > 0 && m.instanceId != ""
    && m.role == ActiveSecondary && !m.mustCatchUp && m.progress.Frozen?
    && m.replicatorAddress != "" && endpoint(m.replicatorAddress)
  }

  predicate StableDescriptor(d: ConfigurationDescriptor, endpoint: string -> bool)
  {
    && d.writeQuorum == MajorityOf(|d.members| + 1)
    && DistinctIds(d.members) && DistinctInstances(d.members)
    && forall i :: 0 <= i < |d.members| ==> StableMember(d.members[i], endpoint)
  }

  /** The member has an identity, and shares it with no member before it. */
  predicate OwnIdentity(members: seq<MemberDescriptor>, k: nat)
    requires k < |members|
  {
    && members[k].id > 0 && members[k].instanceId != ""
    && forall j :: 0 <= j < k ==> members[j].id != members[k].id && members[j].instanceId != members[k].instanceId
  }

  predicate StandsStable(m: MemberDescriptor) { m.role == ActiveSecondary && !m.mustCatchUp && m.progress.Frozen? }

  /** The first member with a fault, and its first fault. */
  predicate MemberFault(members: seq<MemberDescriptor>, endpoint: string -> bool, k: nat, e: IntentError)
    requires k < |members|
  {
    && (forall j :: 0 <= j < k ==> OwnIdentity(members, j) && StableMember(members[j], endpoint))
    && if !OwnIdentity(members, k) then e == MemberIdentity
       else if !StandsStable(members[k]) then e == MemberUnstable
       else e == EndpointInvalid && !StableMember(members[k], endpoint)
  }

  /** The first fault of a descriptor: its quorum, or that of its first faulty member. */
  predicate DescriptorFault(d: ConfigurationDescriptor, endpoint: string -> bool, e: IntentError)
  {
    if d.writeQuorum != MajorityOf(|d.members| + 1) then e == WriteQuorum
    else exists k :: 0 <= k < |d.members| && MemberFault(d.members, endpoint, k, e)
  }

  method ValidateDescriptor(d: ConfigurationDescriptor, endpoint: string -> bool) returns (r: Check)
    ensures r.Pass? <==> StableDescriptor(d, endpoint)
    ensures r.Fail? ==> DescriptorFault(d, endpoint, r.error)
  {
    if d.writeQuorum != MajorityOf(|d.members| + 1) { return Fail(WriteQuorum); }
    var ids: set<int>, instances: set<string> := {}, {};
    for i := 0 to |d.members|
      invariant forall x :: x in ids <==> exists k :: 0 <= k < i && d.members[k].id == x
      invariant forall x :: x in instances <==> exists k :: 0 <= k < i && d.members[k].instanceId == x
      invariant forall k :: 0 <= k < i ==> OwnIdentity(d.members, k) && StableMember(d.members[k], endpoint)
    {
      var m := d.members[i];
      if m.id <= 0 || m.id in ids || m.instanceId == "" || m.instanceId in instances {
        assert MemberFault(d.members, endpoint, i, MemberIdentity);
        return Fail(MemberIdentity);
      }
      ids, instances := ids + {m.id}, instances + {m.instanceId};
      if m.role != ActiveSecondary || m.mustCatchUp || !m.progress.Frozen? {
        assert MemberFault(d.members, endpoint, i, MemberUnstable);
        return Fail(MemberUnstable);
      }
      if m.replicatorAddress == "" || !endpoint(m.replicatorAddress) {
        assert MemberFault(d.members, endpoint, i, EndpointInvalid);
        return Fail(EndpointInvalid);
      }
    }
    return Pass;
  }

  // ---------------------------------------------------------------- the intent

  predicate EndpointOk(text: string, endpoint: string -> bool) { text != "" && endpoint(text) }

  function TextOr(text: Option<string>): string { if text.Some? then text.value else "" }

  /** The intent names everything needed to reach the target. */
  predicate Reachable(i: RemoveReplicaIntent)
  {
    && i.expectedTargetAgentGeneration.Some? && i.targetControlAddress.Some? && i.targetReplicatorAddress.Some?
    && i.targetPeerProtocolVersion == Some(PEER_PROTOCOL_VERSION)
  }

  /** Some, but perhaps not all, of what is needed to reach the target is named. */
  predicate NamesTarget(i: RemoveReplicaIntent)
  {
    || i.expectedTargetAgentGeneration.Some? || i.targetControlAddress.Some? || i.targetReplicatorAddress.Some?
    || i.targetPeerProtocolVersion.Some?
  }

  /** The target can be reached at usable endpoints, or nothing about reaching it is said and none is needed. */
  predicate Observable(i: RemoveReplicaIntent, endpoint: string -> bool)
  {
    if NamesTarget(i) then
      && Reachable(i)
      && EndpointOk(i.targetControlAddress.value, endpoint) && EndpointOk(i.targetReplicatorAddress.value, endpoint)
    else i.mode.Force?
  }

  predicate ObservabilityFault(i: RemoveReplicaIntent, endpoint: string -> bool, e: IntentError)
  {
    if !NamesTarget(i) then i.mode.ScaleDown? && e == ScaleDownNeedsObservability
    else if || i.expectedTargetAgentGeneration.None? || i.targetControlAddress.None?
            || i.targetReplicatorAddress.None? || i.targetPeerProtocolVersion.None? then e == PartialObservability
    else if || !EndpointOk(i.targetControlAddress.value, endpoint)
            || !EndpointOk(i.targetReplicatorAddress.value, endpoint) then e == EndpointInvalid
    else !Reachable(i) && e == PeerVersionUnsupported
  }

  method ValidateObservability(i: RemoveReplicaIntent, endpoint: string -> bool) returns (r: Check)
    ensures r.Pass? <==> Observable(i, endpoint)
    ensures r.Fail? ==> ObservabilityFault(i, endpoint, r.error)
  {
    var present := [i.expectedTargetAgentGeneration.Some?, i.targetControlAddress.Some?,
                    i.targetReplicatorAddress.Some?, i.targetPeerProtocolVersion.Some?];
    assert forall k :: 0 <= k < 4 ==> present[k] in present;
    assert present[0] || present[1] || present[2] || present[3] <==> NamesTarget(i);
    if false in present && true in present { return Fail(PartialObservability); }
    if i.mode.ScaleDown? && false in present { return Fail(ScaleDownNeedsObservability); }
    if false in present { return Pass; }
    if !EndpointOk(TextOr(i.targetControlAddress), endpoint)
       || !EndpointOk(TextOr(i.targetReplicatorAddress), endpoint) {
      return Fail(EndpointInvalid);
    }
    if i.targetPeerProtocolVersion != Some(PEER_PROTOCOL_VERSION) { return Fail(PeerVersionUnsupported); }
    return Pass;
  }

  predicate IsTarget(i: RemoveReplicaIntent, m: MemberDescriptor)
  {
    m.id == i.targetReplicaId && m.instanceId == i.targetInstanceId
  }

  predicate ListsPrimary(i: RemoveReplicaIntent, d: ConfigurationDescriptor)
  {
    exists m :: m in d.members && (m.id == i.primaryReplicaId || m.instanceId == i.primaryInstanceId)
  }

  method TargetsOf(i: RemoveReplicaIntent) returns (targets: seq<MemberDescriptor>)
    ensures forall m :: m in targets <==> m in i.previous.members && IsTarget(i, m)
    ensures DistinctIds(i.previous.members) ==>
              |targets| == (if exists m :: m in i.previous.members && IsTarget(i, m) then 1 else 0)
  {
    targets := [];
    for k := 0 to |i.previous.members|
      invariant forall m :: m in targets <==> m in i.previous.members[..k] && IsTarget(i, m)
      invariant DistinctIds(i.previous.members) ==>
                  |targets| == (if exists m :: m in i.previous.members[..k] && IsTarget(i, m) then 1 else 0)
    {
      var m := i.previous.members[k];
      assert i.previous.members[..k + 1] == i.previous.members[..k] + [m];
      if IsTarget(i, m) { targets := targets + [m]; }
    }
    assert i.previous.members[..|i.previous.members|] == i.previous.members;
  }

  /** The member a map from ids to members keeps for an id: the last one listed. */
  function LastWithId(members: seq<MemberDescriptor>, id: int): Option<MemberDescriptor>
  {
    if members == [] then None
    else if members[|members| - 1].id == id then Some(members[|members| - 1])
    else LastWithId(members[..|members| - 1], id)
  }

  lemma {:induction false} LastWithIdIsListed(members: seq<MemberDescriptor>, id: int)
    ensures LastWithId(members, id).Some? ==>
              LastWithId(members, id).value in members && LastWithId(members, id).value.id == id
    ensures DistinctIds(members) ==>
              forall m :: m in members && m.id == id ==> LastWithId(members, id) == Some(m)
  {
    if members != [] && members[|members| - 1].id != id {
      LastWithIdIsListed(members[..|members| - 1], id);
    }
  }

  function UpCount(members: seq<MemberDescriptor>): nat
  {
    if members == [] then 0
    else (if members[0].status.Up? then 1 else 0) + UpCount(members[1..])
  }

  predicate OneTarget(i: RemoveReplicaIntent)
  {
    exists m :: m in i.previous.members && IsTarget(i, m) && m.role == ActiveSecondary
      && (i.mode.ScaleDown? ==> m.status.Up?)
  }

  lemma {:induction false} OneTargetIsCollected(i: RemoveReplicaIntent, targets: seq<MemberDescriptor>)
    requires forall m :: m in targets <==> m in i.previous.members && IsTarget(i, m)
    requires |targets| == (if exists m :: m in i.previous.members && IsTarget(i, m) then 1 else 0)
    ensures OneTarget(i) <==> |targets| == 1 && targets[0].role == ActiveSecondary
                              && (i.mode.ScaleDown? ==> targets[0].status.Up?)
  {
    if OneTarget(i) {
      var m :| m in i.previous.members && IsTarget(i, m) && m.role == ActiveSecondary
               && (i.mode.ScaleDown? ==> m.status.Up?);
      assert m in targets;
    }
    if |targets| == 1 {
      assert targets[0] in targets;
    }
  }

  /** The reduced configuration is the previous one without the target, member for member. */
  predicate OneFewer(i: RemoveReplicaIntent)
  {
    && i.reducedCatchUp == i.reducedCurrent
    && |i.previous.members| == |i.reducedCurrent.members| + 1
    && (forall m :: m in i.reducedCurrent.members ==>
          m.id != i.targetReplicaId && m.instanceId != i.targetInstanceId)
    && forall m :: m in i.reducedCurrent.members ==> m in i.previous.members
  }

  predicate Related(i: RemoveReplicaIntent)
  {
    && !ListsPrimary(i, i.previous) && !ListsPrimary(i, i.reducedCatchUp) && !ListsPrimary(i, i.reducedCurrent)
    && OneTarget(i) && OneFewer(i)
  }

  /** The first way in which the three configurations are not the removal of one target. */
  predicate RelationshipFault(i: RemoveReplicaIntent, e: IntentError)
  {
    if ListsPrimary(i, i.previous) || ListsPrimary(i, i.reducedCatchUp) || ListsPrimary(i, i.reducedCurrent)
    then e == PrimaryListed
    else if forall m :: m in i.previous.members && IsTarget(i, m) ==> m.role != ActiveSecondary
    then e == TargetNotExact
    else if !OneTarget(i) then i.mode.ScaleDown? && e == TargetNotUp
    else if i.reducedCatchUp != i.reducedCurrent then e == ReducedDiffer
    else if |i.previous.members| != |i.reducedCurrent.members| + 1 then e == NotOneFewer
    else if exists m :: m in i.reducedCurrent.members
              && (m.id == i.targetReplicaId || m.instanceId == i.targetInstanceId) then e == TargetRemains
    else e == RetainedChanged && exists m :: m in i.reducedCurrent.members && m !in i.previous.members
  }

  method ValidateRelationship(i: RemoveReplicaIntent) returns (r: Check)
    requires DistinctIds(i.previous.members)
    ensures r.Pass? <==> Related(i)
    ensures r.Fail? ==> RelationshipFault(i, r.error)
  {
    if ListsPrimary(i, i.previous) || ListsPrimary(i, i.reducedCatchUp) || ListsPrimary(i, i.reducedCurrent) {
      return Fail(PrimaryListed);
    }
    var targets := TargetsOf(i);
    OneTargetIsCollected(i, targets);
    if |targets| != 1 || targets[0].role != ActiveSecondary {
      return Fail(TargetNotExact);
    }
    if i.mode.ScaleDown? && !targets[0].status.Up? { return Fail(TargetNotUp); }
    if i.reducedCatchUp != i.reducedCurrent { return Fail(ReducedDiffer); }
    if |i.previous.members| != |i.reducedCurrent.members| + 1 { return Fail(NotOneFewer); }
    if exists m :: m in i.reducedCurrent.members
         && (m.id == i.targetReplicaId || m.instanceId == i.targetInstanceId) {
      return Fail(TargetRemains);
    }
    for k := 0 to |i.reducedCurrent.members|
      invariant forall m :: m in i.reducedCurrent.members[..k] ==> m in i.previous.members
    {
      var retained := i.reducedCurrent.members[k];
      LastWithIdIsListed(i.previous.members, retained.id);
      if LastWithId(i.previous.members, retained.id) != Some(retained) {
        assert retained in i.reducedCurrent.members;
        return Fail(RetainedChanged);
      }
      assert i.reducedCurrent.members[..k + 1] == i.reducedCurrent.members[..k] + [retained];
    }
    assert i.reducedCurrent.members[..|i.reducedCurrent.members|] == i.reducedCurrent.members;
    return Pass;
  }

  predicate QuorumWithin(i: RemoveReplicaIntent)
  {
    var retained := |i.reducedCurrent.members| + 1;
    && 0 < i.requiredWriteQuorum <= retained && i.requiredWriteQuorum == i.previous.writeQuorum
    && 0 < i.minimumCommittedReplicas <= retained
  }

  /** The retained members that are up, with the primary, form the quorums of both sets. */
  predicate RetainedEnough(i: RemoveReplicaIntent)
  {
    && UpCount(i.reducedCurrent.members) + 1 >= i.requiredWriteQuorum
    && UpCount(i.reducedCurrent.members) + 1 >= i.reducedCurrent.writeQuorum
    && |i.previous.members| == |i.reducedCurrent.members| + 1
  }

  predicate TimesFixed(i: RemoveReplicaIntent)
  {
    && i.overallDeadline > 0 && i.compensationGrace == COMPENSATION_GRACE_SECONDS
    && i.callTimeout == CALL_TIMEOUT_SECONDS && i.targetRetirementTimeout == RETIREMENT_TIMEOUT_SECONDS
  }

  predicate WithinLimits(i: RemoveReplicaIntent)
  {
    && QuorumWithin(i) && RetainedEnough(i) && TimesFixed(i)
    && i.compensationDeadlineCap == i.overallDeadline + i.compensationGrace <= I64_MAX
  }

  predicate LimitsFault(i: RemoveReplicaIntent, e: IntentError)
  {
    if !QuorumWithin(i) then e == QuorumOrMinimum
    else if !RetainedEnough(i) then e == RetainedTooFew
    else if !TimesFixed(i) then e == DeadlineBudget
    else if i.overallDeadline + i.compensationGrace > I64_MAX then e == DeadlineOverflow
    else i.compensationDeadlineCap != i.overallDeadline + i.compensationGrace && e == DeadlineBudget
  }

  method ValidateLimits(i: RemoveReplicaIntent) returns (r: Check)
    ensures r.Pass? <==> WithinLimits(i)
    ensures r.Fail? ==> LimitsFault(i, r.error)
  {
    var previousTotal, retainedTotal := |i.previous.members| + 1, |i.reducedCurrent.members| + 1;
    if || i.requiredWriteQuorum == 0 || i.requiredWriteQuorum != i.previous.writeQuorum
       || i.requiredWriteQuorum > retainedTotal
       || i.minimumCommittedReplicas == 0 || i.minimumCommittedReplicas > retainedTotal {
      return Fail(QuorumOrMinimum);
    }
    var retainedUp := UpCount(i.reducedCurrent.members) + 1;
    if || retainedUp < i.requiredWriteQuorum || retainedUp < i.reducedCurrent.writeQuorum
       || previousTotal != retainedTotal + 1 {
      return Fail(RetainedTooFew);
    }
    if || i.overallDeadline <= 0 || i.compensationGrace != COMPENSATION_GRACE_SECONDS
       || i.callTimeout != CALL_TIMEOUT_SECONDS || i.targetRetirementTimeout != RETIREMENT_TIMEOUT_SECONDS
       || i.callTimeout > i.compensationGrace || i.callTimeout > i.targetRetirementTimeout {
      return Fail(DeadlineBudget);
    }
    if i.overallDeadline + i.compensationGrace > I64_MAX { return Fail(DeadlineOverflow); }
    if i.compensationDeadlineCap != i.overallDeadline + i.compensationGrace { return Fail(DeadlineBudget); }
    return Pass;
  }

  // ---------------------------------------------------------------- the signature

  /** The three configurations as one text. */
  function FenceText(i: RemoveReplicaIntent): string
  {
    PREVIOUS + Signature(i.previous) + CATCH_UP + Signature(i.reducedCatchUp) + CURRENT + Signature(i.reducedCurrent)
  }

  function ModeText(mode: RemovalMode): string { if mode.ScaleDown? then "ScaleDown" else "Force" }

  function OrNone(text: Option<string>): string { if text.Some? then text.value else "none" }

  /** The texts the signature joins, one after the other: every field but the signature itself. */
  function Field(i: RemoveReplicaIntent, k: nat): string
  {
    match k
    case 0 => "remove-replica-v" + Dec(i.protocolVersion)
    case 1 => i.operationId
    case 2 => i.actionId
    case 3 => Dec(i.attemptNumber)
    case 4 => i.attemptId
    case 5 => ModeText(i.mode)
    case 6 => IntText(i.epoch.dataLossNumber)
    case 7 => IntText(i.epoch.configurationNumber)
    case 8 => IntText(i.primaryReplicaId) + "@" + i.primaryInstanceId
    case 9 => i.primaryAgentGeneration
    case 10 => Dec(i.primaryAgentControlVersion)
    case 11 => i.primaryControlAddress
    case 12 => i.primaryReplicatorAddress
    case 13 => IntText(i.targetReplicaId) + "@" + i.targetInstanceId
    case 14 => i.expectedTargetPodUid
    case 15 => i.targetPodName
    case 16 => OrNone(i.expectedTargetAgentGeneration)
    case 17 => OrNone(i.targetControlAddress)
    case 18 => OrNone(i.targetReplicatorAddress)
    case 19 => if i.targetPeerProtocolVersion.Some? then Dec(i.targetPeerProtocolVersion.value) else "none"
    case 20 => FenceText(i)
    case 21 => Dec(i.requiredWriteQuorum)
    case 22 => Dec(i.minimumCommittedReplicas)
    case 23 => Dec(i.maximumPreCommitAttempts)
    case 24 => IntText(i.overallDeadline)
    case 25 => IntText(i.compensationGrace)
    case 26 => IntText(i.compensationDeadlineCap)
    case 27 => IntText(i.callTimeout)
    case _ => IntText(i.targetRetirementTimeout)
  }

  function FieldsFrom(i: RemoveReplicaIntent, k: nat): string
    decreases 28 - k
  {
    if k >= 28 then Field(i, k) else Field(i, k) + ":" + FieldsFrom(i, k + 1)
  }

  function IntentSignature(i: RemoveReplicaIntent): string { FieldsFrom(i, 0) }

  predicate AttemptsBounded(i: RemoveReplicaIntent)
  {
    i.maximumPreCommitAttempts == MAX_PRE_COMMIT_ATTEMPTS && 1 <= i.attemptNumber <= MAX_PRE_COMMIT_ATTEMPTS
  }

  predicate PartiesNamed(i: RemoveReplicaIntent)
  {
    && i.primaryReplicaId > 0 && i.targetReplicaId > 0 && i.primaryReplicaId != i.targetReplicaId
    && i.primaryInstanceId != "" && i.targetInstanceId != "" && i.expectedTargetPodUid != ""
    && i.targetPodName != ""
  }

  /** What an intent has to say, apart from its signature. */
  predicate Sound(i: RemoveReplicaIntent, endpoint: string -> bool)
  {
    && i.protocolVersion == PROTOCOL_VERSION
    && i.operationId != "" && i.actionId != "" && i.attemptId != ""
    && AttemptsBounded(i) && PartiesNamed(i) && i.targetInstanceId == i.expectedTargetPodUid
    && EndpointOk(i.primaryControlAddress, endpoint) && EndpointOk(i.primaryReplicatorAddress, endpoint)
    && Observable(i, endpoint)
    && StableDescriptor(i.previous, endpoint) && StableDescriptor(i.reducedCatchUp, endpoint)
    && StableDescriptor(i.reducedCurrent, endpoint)
    && Related(i)
    && WithinLimits(i)
  }

  predicate Accepted(i: RemoveReplicaIntent, endpoint: string -> bool)
  {
    Sound(i, endpoint) && i.inputSignature != "" && i.inputSignature == IntentSignature(i)
  }

  /** The first fault of an intent, in the order the parts are looked at. */
  predicate FirstFault(i: RemoveReplicaIntent, endpoint: string -> bool, e: IntentError)
  {
    if i.protocolVersion != PROTOCOL_VERSION then e == UnsupportedVersion
    else if i.operationId == "" || i.actionId == "" || i.attemptId == "" || i.inputSignature == "" then
      e == IdentityMissing
    else if !AttemptsBounded(i) then e == AttemptBounds
    else if !PartiesNamed(i) then e == PrimaryOrTargetIdentity
    else if i.targetInstanceId != i.expectedTargetPodUid then e == PodUidDiffers
    else if !EndpointOk(i.primaryControlAddress, endpoint) || !EndpointOk(i.primaryReplicatorAddress, endpoint) then
      e == EndpointInvalid
    else if !Observable(i, endpoint) then ObservabilityFault(i, endpoint, e)
    else if !StableDescriptor(i.previous, endpoint) then DescriptorFault(i.previous, endpoint, e)
    else if !StableDescriptor(i.reducedCatchUp, endpoint) then DescriptorFault(i.reducedCatchUp, endpoint, e)
    else if !StableDescriptor(i.reducedCurrent, endpoint) then DescriptorFault(i.reducedCurrent, endpoint, e)
    else if !Related(i) then RelationshipFault(i, e)
    else if !WithinLimits(i) then LimitsFault(i, e)
    else e == SignatureDiffers && i.inputSignature != IntentSignature(i)
  }

  /** Validation of an intent against the endpoint grammar and the signature of its own fields. */
  method Validate(i: RemoveReplicaIntent, endpoint: string -> bool) returns (r: Check)
    ensures r.Pass? <==> Accepted(i, endpoint)
    ensures r.Fail? ==> FirstFault(i, endpoint, r.error)
  {
    if i.protocolVersion != PROTOCOL_VERSION { return Fail(UnsupportedVersion); }
    if i.operationId == "" || i.actionId == "" || i.attemptId == "" || i.inputSignature == "" {
      return Fail(IdentityMissing);
    }
    if i.attemptNumber == 0 || i.maximumPreCommitAttempts != MAX_PRE_COMMIT_ATTEMPTS
       || i.attemptNumber > i.maximumPreCommitAttempts {
      return Fail(AttemptBounds);
    }
    if i.primaryReplicaId <= 0 || i.targetReplicaId <= 0 || i.primaryReplicaId == i.targetReplicaId
       || i.primaryInstanceId == "" || i.targetInstanceId == "" || i.expectedTargetPodUid == ""
       || i.targetPodName == "" {
      return Fail(PrimaryOrTargetIdentity);
    }
    if i.targetInstanceId != i.expectedTargetPodUid { return Fail(PodUidDiffers); }
    if !EndpointOk(i.primaryControlAddress, endpoint) || !EndpointOk(i.primaryReplicatorAddress, endpoint) {
      return Fail(EndpointInvalid);
    }
    r := ValidateObservability(i, endpoint);
    if r.Fail? { return; }
    r := ValidateDescriptor(i.previous, endpoint);
    if r.Fail? { return; }
    r := ValidateDescriptor(i.reducedCatchUp, endpoint);
    if r.Fail? { return; }
    r := ValidateDescriptor(i.reducedCurrent, endpoint);
    if r.Fail? { return; }
    r := ValidateRelationship(i);
    if r.Fail? { return; }
    r := ValidateLimits(i);
    if r.Fail? { return; }
    if i.inputSignature != IntentSignature(i) { return Fail(SignatureDiffers); }
    return Pass;
  }

  // ---------------------------------------------------------------- what an accepted intent implies

  function IdsOf(members: seq<MemberDescriptor>): set<int>
  {
    set m | m in members :: m.id
  }

  lemma {:induction false} IdsCount(members: seq<MemberDescriptor>)
    requires DistinctIds(members)
    ensures |IdsOf(members)| == |members|
  {
    if members != [] {
      IdsCount(members[1..]);
      assert members == [members[0]] + members[1..];
      assert IdsOf(members) == IdsOf(members[1..]) + {members[0].id};
      assert members[0].id !in IdsOf(members[1..]);
    }
  }

  lemma {:induction false} MembersCount(members: seq<MemberDescriptor>)
    requires DistinctIds(members)
    ensures |set m | m in members| == |members|
  {
    if members != [] {
      MembersCount(members[1..]);
      assert members == [members[0]] + members[1..];
      assert (set m | m in members) == (set m | m in members[1..]) + {members[0]};
      assert members[0] !in members[1..];
    }
  }

  ghost predicate TakesOutTarget(i: RemoveReplicaIntent)
  {
    exists target :: IsTarget(i, target) && target !in i.reducedCurrent.members
      && (set m | m in i.previous.members) == (set m | m in i.reducedCurrent.members) + {target}
  }

  lemma {:induction false} OneFewerTakesOutTarget(i: RemoveReplicaIntent)
    requires OneTarget(i) && OneFewer(i)
    requires DistinctIds(i.previous.members) && DistinctIds(i.reducedCurrent.members)
    ensures TakesOutTarget(i)
    ensures IdsOf(i.reducedCurrent.members) == IdsOf(i.previous.members) - {i.targetReplicaId}
  {
    var target :| target in i.previous.members && IsTarget(i, target);
    var before, after := set m | m in i.previous.members, set m | m in i.reducedCurrent.members;
    MembersCount(i.previous.members);
    MembersCount(i.reducedCurrent.members);
    assert after + {target} <= before && target !in after;
    SubsetOfSameSize(after + {target}, before);
    forall id ensures id in IdsOf(i.reducedCurrent.members) <==> id in IdsOf(i.previous.members) - {i.targetReplicaId} {
      if id in IdsOf(i.previous.members) && id != i.targetReplicaId {
        var m :| m in i.previous.members && m.id == id;
        assert m in before && m != target;
        assert m in after;
      }
    }
  }

  /** An accepted removal takes exactly the target out of the previous set, and changes nothing else. */
  lemma {:induction false} RemovesExactlyTheTarget(i: RemoveReplicaIntent, endpoint: string -> bool)
    requires Accepted(i, endpoint)
    ensures TakesOutTarget(i)
    ensures IdsOf(i.reducedCurrent.members) == IdsOf(i.previous.members) - {i.targetReplicaId}
  {
    OneFewerTakesOutTarget(i);
  }

  lemma {:induction false} SubsetOfSameSize<T>(a: set<T>, b: set<T>)
    requires a <= b && |a| == |b|
    ensures a == b
  {
    assert |b - a| == |b| - |a|;
  }

  /** The replicas of a configuration: its primary and its members. */
  function ReplicasOf(i: RemoveReplicaIntent, d: ConfigurationDescriptor): set<int>
  {
    IdsOf(d.members) + {i.primaryReplicaId}
  }

  predicate IsQuorum(i: RemoveReplicaIntent, d: ConfigurationDescriptor, replicas: set<int>)
  {
    replicas <= ReplicasOf(i, d) && |replicas| >= d.writeQuorum
  }

  /** Every write quorum of the previous set meets every write quorum of the reduced set. */
  ghost predicate QuorumsIntersect(i: RemoveReplicaIntent)
  {
    forall a, b :: IsQuorum(i, i.previous, a) && IsQuorum(i, i.reducedCurrent, b) ==> a * b != {}
  }

  /** Past 32 bits the two computed quorums are too small: a quorum of one set leaves room for one of the other. */
  lemma {:induction false} QuorumsApart(i: RemoveReplicaIntent) returns (a: set<int>, b: set<int>)
    requires Reduces(i) && |i.previous.members| >= U32_MAX
    ensures IsQuorum(i, i.previous, a) && IsQuorum(i, i.reducedCurrent, b) && a * b == {}
  {
    ReplicasCount(i, i.previous);
    ReplicasCount(i, i.reducedCurrent);
    MajoritiesOverlap(|i.previous.members| + 1);
    b := SubsetOfSize(ReplicasOf(i, i.reducedCurrent), i.reducedCurrent.writeQuorum);
    var others := ReplicasOf(i, i.previous) - b;
    assert |others| == |ReplicasOf(i, i.previous)| - |b|;
    a := SubsetOfSize(others, i.previous.writeQuorum);
  }

  /** The two sets and their computed quorums, as accepted. */
  predicate Reduces(i: RemoveReplicaIntent)
  {
    && !ListsPrimary(i, i.previous) && !ListsPrimary(i, i.reducedCurrent)
    && DistinctIds(i.previous.members) && DistinctIds(i.reducedCurrent.members)
    && |i.previous.members| == |i.reducedCurrent.members| + 1
    && IdsOf(i.reducedCurrent.members) <= IdsOf(i.previous.members)
    && i.previous.writeQuorum == MajorityOf(|i.previous.members| + 1)
    && i.reducedCurrent.writeQuorum == MajorityOf(|i.reducedCurrent.members| + 1)
  }

  lemma {:induction false} ReplicasCount(i: RemoveReplicaIntent, d: ConfigurationDescriptor)
    requires !ListsPrimary(i, d) && DistinctIds(d.members)
    ensures |ReplicasOf(i, d)| == |d.members| + 1
  {
    IdsCount(d.members);
    PrimaryIsExtra(i, d);
  }

  lemma {:induction false} SubsetOfSize<T>(s: set<T>, size: nat) returns (r: set<T>)
    requires size <= |s|
    ensures r <= s && |r| == size
  {
    if size == |s| { return s; }
    var x :| x in s;
    r := SubsetOfSize(s - {x}, size);
  }

  lemma {:induction false} MajoritiesMeet(i: RemoveReplicaIntent, a: set<int>, b: set<int>)
    requires Reduces(i) && |i.previous.members| + 1 <= U32_MAX
    requires IsQuorum(i, i.previous, a) && IsQuorum(i, i.reducedCurrent, b)
    ensures a * b != {}
  {
    ReplicasCount(i, i.previous);
    MajoritiesOverlap(|i.previous.members| + 1);
    assert |a| + |b| > |ReplicasOf(i, i.previous)|;
    assert IdsOf(i.reducedCurrent.members) <= IdsOf(i.previous.members);
    LargeSubsetsMeet(a, b, ReplicasOf(i, i.previous));
  }

  lemma {:induction false} LargeSubsetsMeet<T>(a: set<T>, b: set<T>, all: set<T>)
    requires a <= all && b <= all && |a| + |b| > |all|
    ensures a * b != {}
  {
    CardinalityMonotone(a + b, all);
    assert |a + b| == |a| + |b| - |a * b|;
  }

  lemma {:induction false} PrimaryIsExtra(i: RemoveReplicaIntent, d: ConfigurationDescriptor)
    requires !ListsPrimary(i, d)
    ensures i.primaryReplicaId !in IdsOf(d.members)
  {
  }

  lemma {:induction false} CardinalityMonotone<T>(a: set<T>, b: set<T>)
    requires a <= b
    ensures |a| <= |b|
  {
    assert |b - a| == |b| - |a|;
  }

  lemma {:induction false} QuorumsMeetOn32Bits(i: RemoveReplicaIntent)
    requires Reduces(i)
    ensures QuorumsIntersect(i) <==> |i.previous.members| + 1 <= U32_MAX
  {
    if |i.previous.members| + 1 <= U32_MAX {
      forall a, b | IsQuorum(i, i.previous, a) && IsQuorum(i, i.reducedCurrent, b) ensures a * b != {} {
        MajoritiesMeet(i, a, b);
      }
    } else {
      var a, b := QuorumsApart(i);
    }
  }

  /** The quorums of an accepted intent intersect exactly when the previous set can be counted on 32 bits. */
  lemma {:induction false} QuorumsMeet(i: RemoveReplicaIntent, endpoint: string -> bool)
    requires Accepted(i, endpoint)
    ensures QuorumsIntersect(i) <==> |i.previous.members| + 1 <= U32_MAX
  {
    RemovesExactlyTheTarget(i, endpoint);
    QuorumsMeetOn32Bits(i);
  }

  function UpIdsOf(members: seq<MemberDescriptor>): set<int>
  {
    set m | m in members && m.status.Up? :: m.id
  }

  /** The retained replicas that are up form both quorums, and the target is not among them. */
  lemma {:induction false} RetainedUpFormBothQuorums(i: RemoveReplicaIntent, endpoint: string -> bool)
    requires Accepted(i, endpoint)
    ensures var up := UpIdsOf(i.reducedCurrent.members) + {i.primaryReplicaId};
            && up <= ReplicasOf(i, i.reducedCurrent) && i.targetReplicaId !in up
            && |up| >= i.requiredWriteQuorum && |up| >= i.reducedCurrent.writeQuorum
            && i.requiredWriteQuorum == i.previous.writeQuorum
  {
    assert WithinLimits(i);
    UpReplicasCount(i);
  }

  lemma {:induction false} UpReplicasCount(i: RemoveReplicaIntent)
    requires !ListsPrimary(i, i.reducedCurrent) && DistinctIds(i.reducedCurrent.members)
    ensures var up := UpIdsOf(i.reducedCurrent.members) + {i.primaryReplicaId};
            up <= ReplicasOf(i, i.reducedCurrent) && |up| == UpCount(i.reducedCurrent.members) + 1
  {
    UpCountCounts(i.reducedCurrent.members);
    PrimaryIsExtra(i, i.reducedCurrent);
  }

  lemma {:induction false} UpCountCounts(members: seq<MemberDescriptor>)
    requires DistinctIds(members)
    ensures |UpIdsOf(members)| == UpCount(members)
    ensures UpIdsOf(members) <= IdsOf(members)
  {
    if members != [] {
      UpCountCounts(members[1..]);
      UpIdsStep(members);
    }
  }

  lemma {:induction false} UpIdsStep(members: seq<MemberDescriptor>)
    requires members != [] && DistinctIds(members)
    ensures UpIdsOf(members) == UpIdsOf(members[1..]) + (if members[0].status.Up? then {members[0].id} else {})
    ensures members[0].id !in UpIdsOf(members[1..])
  {
    assert members == [members[0]] + members[1..];
  }

  // ---------------------------------------------------------------- classification

  datatype Observation = PreviousCurrent | ReducedCatchUp | ReducedCurrent

  function PreviousStatus(i: RemoveReplicaIntent): ConfigurationStatus { StatusOf(i.previous, Current) }

  function CatchUpStatus(i: RemoveReplicaIntent): ConfigurationStatus { StatusOf(i.reducedCatchUp, CatchUp) }

  function ReducedStatus(i: RemoveReplicaIntent): ConfigurationStatus { StatusOf(i.reducedCurrent, Current) }

  function Classify(configuration: Option<ConfigurationStatus>, i: RemoveReplicaIntent): Option<Observation>
  {
    if configuration == None then None
    else if configuration.value == PreviousStatus(i) then Some(PreviousCurrent)
    else if configuration.value == CatchUpStatus(i) then Some(ReducedCatchUp)
    else if configuration.value == ReducedStatus(i) then Some(ReducedCurrent)
    else None
  }

  function Installed(d: ConfigurationDescriptor): ReplicaSetConfig
    requires Ready(d.members, None)
  {
    ReplicaSetConfig(Sort(InfosOf(d.members, None), InfoLe), d.writeQuorum)
  }

  lemma {:induction false} StatusesDiffer(i: RemoveReplicaIntent)
    requires |i.previous.members| != |i.reducedCurrent.members|
    requires DistinctIds(i.previous.members) && DistinctIds(i.reducedCurrent.members)
    ensures PreviousStatus(i) != ReducedStatus(i)
    ensures PreviousStatus(i) != CatchUpStatus(i) && CatchUpStatus(i) != ReducedStatus(i)
  {
    StatusIsStrictlySorted(i.previous, Current);
    StatusIsStrictlySorted(i.reducedCurrent, Current);
  }

  /** The three configurations of an accepted intent are told apart, whichever of them was installed. */
  lemma {:induction false} ConfigurationsAreToldApart(i: RemoveReplicaIntent, endpoint: string -> bool)
    requires Accepted(i, endpoint)
    ensures Ready(i.previous.members, None) && Ready(i.reducedCurrent.members, None)
    ensures Classify(Some(FromConfig(Current, Installed(i.previous))), i) == Some(PreviousCurrent)
    ensures Classify(Some(FromConfig(CatchUp, Installed(i.reducedCatchUp))), i) == Some(ReducedCatchUp)
    ensures Classify(Some(FromConfig(Current, Installed(i.reducedCurrent))), i) == Some(ReducedCurrent)
  {
    FrozenIsReady(i.previous, endpoint);
    FrozenIsReady(i.reducedCurrent, endpoint);
    InstallingIsRecognised(i.previous, None, Current);
    InstallingIsRecognised(i.reducedCatchUp, None, CatchUp);
    InstallingIsRecognised(i.reducedCurrent, None, Current);
    StatusesDiffer(i);
  }

  lemma {:induction false} FrozenIsReady(d: ConfigurationDescriptor, endpoint: string -> bool)
    requires StableDescriptor(d, endpoint)
    ensures Ready(d.members, None)
  {
    forall k | 0 <= k < |d.members| ensures InfoOf(d.members[k], None).Some? {
      assert StableMember(d.members[k], endpoint);
    }
  }
}
