/** The request for one peer stage: its fields, its signature, and what it has to say to be considered at all. */
module StageRequests {
  import opened Basics
  import opened Texts
  import opened Sorting
  import opened Configurations
  import opened Removal

  const STAGE_SEMANTIC_VERSION: U32 := 1

  datatype OperationKind = AddBuild | Remove

  datatype Stage = Prepare | Activate | Cleanup | RetireStage

  datatype Sender = Sender(replicaId: int, instanceId: string, generation: string, controlAddress: string)

  datatype StageRequest = StageRequest(
    protocolVersion: U32, kind: OperationKind, semanticVersion: U32, operationId: string, attemptId: string,
    messageId: string, inputSignature: string, stage: Stage, sender: Sender,
    parentActionId: string, parentActionSignature: string, targetReplicaId: int, targetInstanceId: string,
    expectedTargetGeneration: string, expectedPeerVersion: U64, epoch: Epoch, fence: string,
    buildKey: Option<string>, copyLsn: Option<int>, removalMode: Option<RemovalMode>,
    commitTime: Option<int>, retirementExpiry: Option<int>, projection: Option<ConfigurationStatus>)

  // ---------------------------------------------------------------- the signature

  function StageText(stage: Stage): string
  {
    match stage
    case Prepare => "Prepare"
    case Activate => "Activate"
    case Cleanup => "Cleanup"
    case RetireStage => "Retire"
  }

  function IntOrNone(n: Option<int>): string { if n.Some? then IntText(n.value) else "none" }

  function StatusText(m: MemberStatus): string { IntText(m.id) + "@" + m.instanceId + ":" + RoleText(m.role) }

  function ProjectionText(p: ConfigurationStatus): string
  {
    (if p.mode.Current? then "Current" else "CatchUp") + ":q" + Dec(p.writeQuorum)
    + "[" + Joined(Map(StatusText, p.members), ',') + "]"
  }

  /** The texts the signature joins; the first three and the last four not for plain add and build requests. */
  function StageField(q: StageRequest, k: nat): string
  {
    match k
    case 0 => "peer-lifecycle-v" + Dec(q.protocolVersion)
    case 1 => if q.kind.AddBuild? then "AddBuild" else "Remove"
    case 2 => "stage-v" + Dec(q.semanticVersion)
    case 3 => "peer"
    case 4 => q.operationId
    case 5 => q.attemptId
    case 6 => q.messageId
    case 7 => StageText(q.stage)
    case 8 => IntText(q.sender.replicaId) + "@" + q.sender.instanceId
    case 9 => q.sender.generation
    case 10 => q.sender.controlAddress
    case 11 => q.parentActionId
    case 12 => q.parentActionSignature
    case 13 => IntText(q.targetReplicaId) + "@" + q.targetInstanceId
    case 14 => q.expectedTargetGeneration
    case 15 => Dec(q.expectedPeerVersion)
    case 16 => IntText(q.epoch.dataLossNumber)
    case 17 => IntText(q.epoch.configurationNumber)
    case 18 => q.fence
    case 19 => OrNone(q.buildKey)
    case 20 => IntOrNone(q.copyLsn)
    case 21 => "remove-mode=" + (if q.removalMode.Some? then ModeText(q.removalMode.value) else "none")
    case 22 => "commit=" + IntOrNone(q.commitTime)
    case 23 => "retirement-expiry=" + IntOrNone(q.retirementExpiry)
    case _ => "projection=" + (if q.projection.Some? then ProjectionText(q.projection.value) else "none")
  }

  function StageFields(q: StageRequest, k: nat, last: nat): string
    decreases last - k
  {
    if k >= last then StageField(q, k) else StageField(q, k) + ":" + StageFields(q, k + 1, last)
  }

  predicate CarriesRemoval(q: StageRequest)
  {
    q.removalMode.Some? || q.commitTime.Some? || q.retirementExpiry.Some? || q.projection.Some?
  }

  function StageSignature(q: StageRequest): string
  {
    if q.kind.AddBuild? && !CarriesRemoval(q) then StageFields(q, 3, 20) else StageFields(q, 0, 24)
  }

  // ---------------------------------------------------------------- the projection

  /** A member is identified, and comes behind smaller ids and other instances. */
  predicate MemberFits(members: seq<MemberStatus>, k: nat)
    requires k < |members|
  {
    && members[k].id > 0 && members[k].instanceId != "" && members[k].role != Role.Unknown
    && forall j :: 0 <= j < k ==>
         members[j].id < members[k].id && members[j].instanceId != members[k].instanceId
  }

  /** A reported configuration that can stand for the reduced current one. */
  predicate ValidProjection(p: ConfigurationStatus)
  {
    && p.mode.Current? && 1 <= p.writeQuorum <= |p.members| + 1
    && forall k :: 0 <= k < |p.members| ==> MemberFits(p.members, k)
  }

  method ValidateProjection(p: ConfigurationStatus) returns (ok: bool)
    ensures ok <==> ValidProjection(p)
  {
    if !p.mode.Current? || p.writeQuorum == 0 || p.writeQuorum > |p.members| + 1 { return false; }
    var instances: set<string> := {};
    for k := 0 to |p.members|
      invariant forall j :: 0 <= j < k ==> MemberFits(p.members, j)
      invariant forall j :: 0 <= j < k ==> p.members[j].instanceId in instances
      invariant forall x :: x in instances ==> exists j :: 0 <= j < k && p.members[j].instanceId == x
    {
      var m := p.members[k];
      // The ids are compared with the last one only: before it they grow.
      if m.id <= 0 || m.instanceId == "" || m.role == Role.Unknown || m.instanceId in instances
         || (k > 0 && m.id <= p.members[k - 1].id) {
        assert !MemberFits(p.members, k);
        return false;
      }
      assert k > 0 ==> MemberFits(p.members, k - 1);
      instances := instances + {m.instanceId};
    }
    return true;
  }

  /** How many members the text of a configuration lists after its prefix, by counting commas. */
  function ListedCount(reduced: string, prefix: string): nat
    requires prefix <= reduced
  {
    var rest := reduced[|prefix|..];
    if rest == "" || rest[|rest| - 1] != ']' || |rest| == 1 then 0 else Count(rest[..|rest| - 1], ',') + 1
  }

  function QuorumPrefix(p: ConfigurationStatus): string { "q" + Dec(p.writeQuorum) + "[" }

  function IdentityText(m: MemberStatus): string { StatusText(m) + ":" }

  /** The fence names a reduced current configuration, and as far as its text tells it is the projection. */
  predicate FenceAdmits(p: ConfigurationStatus, fence: string)
  {
    var reduced := SecondPiece(fence, CURRENT);
    && reduced.Some? && QuorumPrefix(p) <= reduced.value
    && ContainsAll(reduced.value, Map(IdentityText, p.members))
    && ListedCount(reduced.value, QuorumPrefix(p)) == |p.members|
  }

  method ValidateAgainstFence(p: ConfigurationStatus, fence: string) returns (ok: bool)
    ensures ok <==> FenceAdmits(p, fence)
  {
    var reduced := SecondPiece(fence, CURRENT);
    if reduced.None? || !(QuorumPrefix(p) <= reduced.value) { return false; }
    ok := SearchAll(reduced.value, Map(IdentityText, p.members));
    return ok && ListedCount(reduced.value, QuorumPrefix(p)) == |p.members|;
  }

  // ---------------------------------------------------------------- the fields

  predicate Activates(q: StageRequest)
  {
    if q.stage.Activate? then q.buildKey.Some? && q.buildKey.value != "" && q.copyLsn.Some?
    else q.buildKey.None? && q.copyLsn.None?
  }

  predicate ValidAddBuild(q: StageRequest)
  {
    && q.protocolVersion == PEER_PROTOCOL_VERSION && q.semanticVersion == STAGE_SEMANTIC_VERSION
    && !q.stage.RetireStage? && !CarriesRemoval(q) && Activates(q)
  }

  /** The commit and the deadline it allows. */
  predicate ValidTimes(commit: Option<int>, expiry: Option<int>)
  {
    && commit.Some? && expiry.Some?
    && 0 < commit.value <= expiry.value <= Min(commit.value + RETIREMENT_TIMEOUT_SECONDS, I64_MAX)
  }

  predicate ListsTarget(c: ConfigurationStatus, q: StageRequest)
  {
    exists m :: m in c.members && m.id == q.targetReplicaId && m.instanceId == q.targetInstanceId
  }

  /** The fence has the three parts, and the parent action was signed for it. */
  predicate FenceIsSigned(q: StageRequest)
  {
    && PREVIOUS <= q.fence && Contains(q.fence, CATCH_UP) && Contains(q.fence, CURRENT)
    && Contains(q.parentActionSignature, ":" + q.fence + ":")
  }

  predicate ValidRetire(q: StageRequest)
  {
    && q.protocolVersion == PEER_PROTOCOL_VERSION && q.stage.RetireStage?
    && q.semanticVersion == STAGE_SEMANTIC_VERSION
    && q.buildKey.None? && q.copyLsn.None? && q.removalMode.Some?
    && ValidTimes(q.commitTime, q.retirementExpiry)
    && q.projection.Some? && ValidProjection(q.projection.value) && !ListsTarget(q.projection.value, q)
    && FenceIsSigned(q) && FenceAdmits(q.projection.value, q.fence)
  }

  /** Every text is there, and sender and target are two replicas. */
  predicate Identified(q: StageRequest, endpoint: string -> bool)
  {
    && q.operationId != "" && q.attemptId != "" && q.messageId != "" && q.inputSignature != ""
    && q.parentActionId != "" && q.parentActionSignature != "" && q.sender.controlAddress != "" && q.fence != ""
    && q.sender.replicaId > 0 && q.targetReplicaId > 0 && q.sender.replicaId != q.targetReplicaId
    && q.sender.instanceId != "" && q.targetInstanceId != ""
    && endpoint(q.sender.controlAddress)
  }

  predicate ValidRequest(q: StageRequest, endpoint: string -> bool)
  {
    && Identified(q, endpoint)
    && (match q.kind case AddBuild => ValidAddBuild(q) case Remove => ValidRetire(q))
    && q.inputSignature == StageSignature(q)
  }

  method ValidateRetire(q: StageRequest) returns (ok: bool)
    ensures ok <==> ValidRetire(q)
  {
    if q.protocolVersion != PEER_PROTOCOL_VERSION || !q.stage.RetireStage?
       || q.semanticVersion != STAGE_SEMANTIC_VERSION {
      return false;
    }
    if q.buildKey.Some? || q.copyLsn.Some? || q.removalMode.None? { return false; }
    if !ValidTimes(q.commitTime, q.retirementExpiry) || q.projection.None? { return false; }
    ok := ValidateProjection(q.projection.value);
    if !ok || ListsTarget(q.projection.value, q) { return false; }
    if !FenceIsSigned(q) { return false; }
    ok := ValidateAgainstFence(q.projection.value, q.fence);
  }

  method ValidateRequest(q: StageRequest, endpoint: string -> bool) returns (ok: bool)
    ensures ok <==> ValidRequest(q, endpoint)
  {
    if !Identified(q, endpoint) { return false; }
    if q.kind.AddBuild? { ok := ValidAddBuild(q); } else { ok := ValidateRetire(q); }
    ok := ok && q.inputSignature == StageSignature(q);
  }
}
