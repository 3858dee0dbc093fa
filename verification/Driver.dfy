/** The read-only partition driver: recovery from a durable snapshot, and the snapshot it gives back. */
module Driver {
  import opened Basics
  import opened Sorting
  import opened Configurations
  import Removal

  datatype StableMember = StableMember(id: int, instanceId: string, role: Role, electionMetadata: Option<string>)

  datatype Snapshot = Snapshot(epoch: Epoch, primaryId: int, members: seq<StableMember>, writeQuorum: U32)

  datatype Handle = Handle(id: int, instanceId: string, replicatorAddress: string, catchUpCapability: int)

  datatype Status = Status(instanceId: string, epoch: Epoch, role: Role, healthy: bool, currentProgress: int)

  datatype Replica = Replica(handle: Handle, role: Role)

  datatype RecoveryError =
    | EmptySnapshot | DuplicateReplicaId(id: int) | DuplicateInstanceId(instanceId: string)
    | UnsupportedStableRole(id: int, role: Role) | PrimaryMissing(id: int) | InvalidPrimaryCount(count: nat)
    | ConflictingPrimary(expected: int, actual: int) | InvalidWriteQuorum(quorum: U32, majority: nat)
    | DuplicateHandleId(id: int) | DuplicateHandleInstanceId(instanceId: string) | MissingHandle(id: int)
    | HandleInstanceMismatch(id: int) | ExtraHandle(id: int) | StatusUnavailable(id: int)
    | RuntimeInstanceMismatch(id: int) | EpochMismatch(id: int) | RuntimeRoleMismatch(id: int)
    | InvalidConfiguration

  predicate ById(a: StableMember, b: StableMember) { a.id <= b.id }

  function Cleared(m: StableMember): StableMember { m.(electionMetadata := None) }

  /** The snapshot as recovery gives it back: members by id, without election metadata. */
  function Normal(s: Snapshot): Snapshot
  {
    s.(members := Sort(Map(Cleared, s.members), ById))
  }

  // ---------------------------------------------------------------- what can be recovered

  function IdsOf(members: seq<StableMember>): set<int> { set m | m in members :: m.id }

  predicate Distinct(members: seq<StableMember>)
  {
    forall i, j :: 0 <= i < j < |members| ==>
      members[i].id != members[j].id && members[i].instanceId != members[j].instanceId
  }

  predicate DistinctHandles(handles: seq<Handle>)
  {
    forall i, j :: 0 <= i < j < |handles| ==>
      handles[i].id != handles[j].id && handles[i].instanceId != handles[j].instanceId
  }

  /** The handle a map from ids keeps. */
  function HandleOf(handles: seq<Handle>, id: int): Option<Handle>
  {
    if handles == [] then None
    else if handles[|handles| - 1].id == id then Some(handles[|handles| - 1])
    else HandleOf(handles[..|handles| - 1], id)
  }

  predicate StableRole(r: Role) { r == Primary || r == ActiveSecondary }

  predicate RoleFollows(s: Snapshot, m: StableMember)
  {
    m.role == if m.id == s.primaryId then Primary else ActiveSecondary
  }

  predicate Consistent(s: Snapshot)
  {
    && s.members != [] && Distinct(s.members)
    && (forall m :: m in s.members ==> RoleFollows(s, m))
    && s.primaryId in IdsOf(s.members)
    && s.writeQuorum == Removal.MajorityOf(|s.members|)
  }

  predicate HasHandle(handles: seq<Handle>, m: StableMember)
  {
    HandleOf(handles, m.id).Some? && HandleOf(handles, m.id).value.instanceId == m.instanceId
  }

  predicate HandlesMatch(s: Snapshot, handles: seq<Handle>)
  {
    && DistinctHandles(handles)
    && (forall m :: m in s.members ==> HasHandle(handles, m))
    && (forall h :: h in handles ==> h.id in IdsOf(s.members))
  }

  predicate StatusMatches(s: Snapshot, m: StableMember, status: Option<Status>)
  {
    && status.Some? && status.value.instanceId == m.instanceId && status.value.epoch == s.epoch
    && status.value.role == m.role
  }

  predicate Recoverable(s: Snapshot, handles: seq<Handle>, answers: int -> Option<Status>)
  {
    && Consistent(s) && HandlesMatch(s, handles)
    && forall m :: m in s.members ==> StatusMatches(s, m, answers(m.id))
  }

  // ---------------------------------------------------------------- the checks of recovery

  function PrimaryIds(members: seq<StableMember>): seq<int>
  {
    if members == [] then []
    else PrimaryIds(members[..|members| - 1])
         + (if members[|members| - 1].role == Primary then [members[|members| - 1].id] else [])
  }

  /** What each error says about the snapshot. */
  predicate SnapshotFault(s: Snapshot, e: RecoveryError)
  {
    match e
    case EmptySnapshot => s.members == []
    case DuplicateReplicaId(id) =>
      exists i, j :: 0 <= i < j < |s.members| && s.members[i].id == s.members[j].id == id
    case DuplicateInstanceId(instanceId) =>
      exists i, j :: 0 <= i < j < |s.members| && s.members[i].instanceId == s.members[j].instanceId == instanceId
    case UnsupportedStableRole(id, role) =>
      !StableRole(role) && exists m :: m in s.members && m.id == id && m.role == role
    case PrimaryMissing(id) => id == s.primaryId && id !in IdsOf(s.members)
    case InvalidPrimaryCount(count) => count == |PrimaryIds(s.members)| != 1
    case ConflictingPrimary(expected, actual) =>
      expected == s.primaryId != actual && PrimaryIds(s.members) == [actual]
    case InvalidWriteQuorum(quorum, majority) =>
      quorum == s.writeQuorum != majority && majority == Removal.MajorityOf(|s.members|)
    case _ => false
  }

  method CheckSnapshot(s: Snapshot) returns (error: Option<RecoveryError>)
    ensures error.None? <==> Consistent(s)
    ensures error.Some? ==> SnapshotFault(s, error.value)
  {
    if s.members == [] { return Some(EmptySnapshot); }
    var e, primaries := CollectPrimaries(s);
    if e.Some? {
      return e;
    }
    if s.primaryId !in IdsOf(s.members) { return Some(PrimaryMissing(s.primaryId)); }
    OnePrimary(s);
    if |primaries| != 1 { return Some(InvalidPrimaryCount(|primaries|)); }
    if primaries[0] != s.primaryId { return Some(ConflictingPrimary(s.primaryId, primaries[0])); }
    if s.writeQuorum != Removal.MajorityOf(|s.members|) {
      return Some(InvalidWriteQuorum(s.writeQuorum, Removal.MajorityOf(|s.members|)));
    }
    return None;
  }

  method CollectPrimaries(s: Snapshot) returns (error: Option<RecoveryError>, primaries: seq<int>)
    ensures error.None? <==> Distinct(s.members) && forall m :: m in s.members ==> StableRole(m.role)
    ensures error.None? ==> primaries == PrimaryIds(s.members)
    ensures error.Some? ==> SnapshotFault(s, error.value) && s.members != []
  {
    var members := s.members;
    var ids: set<int>, instances: set<string> := {}, {};
    primaries := [];
    for k := 0 to |members|
      invariant ids == set m | m in members[..k] :: m.id
      invariant instances == set m | m in members[..k] :: m.instanceId
      invariant Distinct(members[..k])
      invariant forall m :: m in members[..k] ==> StableRole(m.role)
      invariant primaries == PrimaryIds(members[..k])
    {
      var m := members[k];
      assert members[..k + 1] == members[..k] + [m];
      if m.id in ids || m.instanceId in instances {
        if m.id in ids {
          ghost var i :| 0 <= i < k && members[i].id == m.id;
          return Some(DuplicateReplicaId(m.id)), [];
        }
        ghost var i :| 0 <= i < k && members[i].instanceId == m.instanceId;
        return Some(DuplicateInstanceId(m.instanceId)), [];
      }
      ids, instances := ids + {m.id}, instances + {m.instanceId};
      if !StableRole(m.role) { return Some(UnsupportedStableRole(m.id, m.role)), []; }
      if m.role == Primary { primaries := primaries + [m.id]; }
    }
    assert members[..|members|] == members;
    error := None;
  }

  lemma {:induction false} PrimaryIdsAre(members: seq<StableMember>, id: int)
    requires Distinct(members) && forall m :: m in members ==> StableRole(m.role)
    ensures PrimaryIds(members) == [id] && id in IdsOf(members)
            <==> id in IdsOf(members) && forall m :: m in members ==>
                   m.role == if m.id == id then Primary else ActiveSecondary
    ensures PrimaryIds(members) == [] <==> forall m :: m in members ==> m.role == ActiveSecondary
    ensures forall p :: p in PrimaryIds(members) ==> p in IdsOf(members)
  {
    if members != [] {
      var front, last := members[..|members| - 1], members[|members| - 1];
      assert members == front + [last];
      assert last.id !in IdsOf(front);
      PrimaryIdsAre(front, id);
      assert IdsOf(members) == IdsOf(front) + {last.id};
      assert forall m :: m in members <==> m in front || m == last;
      if last.role == Primary {
        assert PrimaryIds(members) == PrimaryIds(front) + [last.id];
        if PrimaryIds(front) == [] {
          assert PrimaryIds(members) == [last.id];
        } else {
          assert |PrimaryIds(members)| >= 2;
        }
      } else {
        assert PrimaryIds(members) == PrimaryIds(front);
      }
    }
  }

  lemma {:induction false} OnePrimary(s: Snapshot)
    requires Distinct(s.members) && forall m :: m in s.members ==> StableRole(m.role)
    requires s.primaryId in IdsOf(s.members)
    ensures PrimaryIds(s.members) == [s.primaryId] <==> forall m :: m in s.members ==> RoleFollows(s, m)
  {
    PrimaryIdsAre(s.members, s.primaryId);
  }

  predicate HandlesFault(s: Snapshot, handles: seq<Handle>, e: RecoveryError)
  {
    match e
    case DuplicateHandleId(id) =>
      exists i, j :: 0 <= i < j < |handles| && handles[i].id == handles[j].id == id
    case DuplicateHandleInstanceId(instanceId) =>
      exists i, j :: 0 <= i < j < |handles| && handles[i].instanceId == handles[j].instanceId == instanceId
    case MissingHandle(id) => id in IdsOf(s.members) && HandleOf(handles, id).None?
    case HandleInstanceMismatch(id) =>
      exists m :: m in s.members && m.id == id && HandleOf(handles, id).Some? && !HasHandle(handles, m)
    case ExtraHandle(id) => id !in IdsOf(s.members) && exists h :: h in handles && h.id == id
    case _ => false
  }

  method CheckHandles(s: Snapshot, handles: seq<Handle>) returns (error: Option<RecoveryError>)
    ensures error.None? <==> HandlesMatch(s, handles)
    ensures error.Some? ==> HandlesFault(s, handles, error.value)
  {
    error := CollectHandles(s, handles);
    if error.Some? { return; }
    for k := 0 to |s.members|
      invariant forall i :: 0 <= i < k ==> HasHandle(handles, s.members[i])
    {
      var m := s.members[k];
      if !HasHandle(handles, m) {
        assert m in s.members;
        return Some(if HandleOf(handles, m.id).None? then MissingHandle(m.id) else HandleInstanceMismatch(m.id));
      }
    }
    if exists h :: h in handles && h.id !in IdsOf(s.members) {
      var h :| h in handles && h.id !in IdsOf(s.members);
      return Some(ExtraHandle(h.id));
    }
  }

  method CollectHandles(s: Snapshot, handles: seq<Handle>) returns (error: Option<RecoveryError>)
    ensures error.None? <==> DistinctHandles(handles)
    ensures error.Some? ==> HandlesFault(s, handles, error.value)
  {
    var ids: set<int>, instances: set<string> := {}, {};
    for k := 0 to |handles|
      invariant ids == set h | h in handles[..k] :: h.id
      invariant instances == set h | h in handles[..k] :: h.instanceId
      invariant DistinctHandles(handles[..k])
    {
      var h := handles[k];
      assert handles[..k + 1] == handles[..k] + [h];
      if h.id in ids {
        ghost var i :| 0 <= i < k && handles[i].id == h.id;
        return Some(DuplicateHandleId(h.id));
      }
      if h.instanceId in instances {
        ghost var i :| 0 <= i < k && handles[i].instanceId == h.instanceId;
        return Some(DuplicateHandleInstanceId(h.instanceId));
      }
      ids, instances := ids + {h.id}, instances + {h.instanceId};
    }
    assert handles[..|handles|] == handles;
    error := None;
  }

  // ---------------------------------------------------------------- the answers of the replicas

  /** What the status of one member shows first: nothing, another instance, another epoch, another role. */
  predicate StatusFault(s: Snapshot, m: StableMember, status: Option<Status>, e: RecoveryError)
  {
    if status.None? then e == StatusUnavailable(m.id)
    else if status.value.instanceId != m.instanceId then e == RuntimeInstanceMismatch(m.id)
    else if status.value.epoch != s.epoch then e == EpochMismatch(m.id)
    else status.value.role != m.role && e == RuntimeRoleMismatch(m.id)
  }

  /** The first member whose status does not match, and why. */
  predicate AnswersFault(s: Snapshot, answers: int -> Option<Status>, e: RecoveryError)
  {
    exists k :: 0 <= k < |s.members| && StatusFault(s, s.members[k], answers(s.members[k].id), e)
                && forall i :: 0 <= i < k ==> StatusMatches(s, s.members[i], answers(s.members[i].id))
  }

  /** The snapshot is looked at first, then the handles, and only then any status. */
  predicate RecoveryFault(s: Snapshot, handles: seq<Handle>, answers: int -> Option<Status>, e: RecoveryError)
  {
    if !Consistent(s) then SnapshotFault(s, e)
    else if !HandlesMatch(s, handles) then HandlesFault(s, handles, e)
    else AnswersFault(s, answers, e)
  }

  // ---------------------------------------------------------------- what recovery builds

  function ReplicaOf(handles: seq<Handle>, m: StableMember): Replica
    requires HasHandle(handles, m)
  {
    Replica(HandleOf(handles, m.id).value, m.role)
  }

  function ReplicasOf(handles: seq<Handle>, members: seq<StableMember>): map<int, Replica>
    requires forall m :: m in members ==> HasHandle(handles, m)
  {
    if members == [] then map[]
    else
      var last := members[|members| - 1];
      ReplicasOf(handles, members[..|members| - 1])[last.id := ReplicaOf(handles, last)]
  }

  function InfoOfMember(h: Handle, m: StableMember, status: Status): ReplicaInfo
  {
    ReplicaInfo(m.id, m.instanceId, m.role, if status.healthy then Up else Down, h.replicatorAddress,
                status.currentProgress, h.catchUpCapability, false)
  }

  /** The configured replicas: every member but the primary, in the order listed. */
  function ConfiguredOf(primaryId: int, handles: seq<Handle>, answers: int -> Option<Status>,
                        members: seq<StableMember>): seq<ReplicaInfo>
    requires forall m :: m in members ==> HasHandle(handles, m) && answers(m.id).Some?
  {
    if members == [] then []
    else
      var last := members[|members| - 1];
      assert HasHandle(handles, last);
      ConfiguredOf(primaryId, handles, answers, members[..|members| - 1])
      + (if last.id == primaryId then []
         else [InfoOfMember(HandleOf(handles, last.id).value, last, answers(last.id).value)])
  }

  function ConfiguredFor(members: seq<ReplicaInfo>, id: int): Option<ReplicaInfo>
  {
    if members == [] then None
    else if members[|members| - 1].id == id then Some(members[|members| - 1])
    else ConfiguredFor(members[..|members| - 1], id)
  }

  predicate DistinctInfos(members: seq<ReplicaInfo>)
  {
    forall i, j :: 0 <= i < j < |members| ==> members[i].id != members[j].id
  }

  lemma {:induction false} LastIsNew(members: seq<StableMember>)
    requires members != [] && Distinct(members)
    ensures var front, last := members[..|members| - 1], members[|members| - 1];
            && Distinct(front) && last.id !in IdsOf(front) && IdsOf(members) == IdsOf(front) + {last.id}
            && forall m :: m in members <==> m in front || m == last
  {
    var front, last := members[..|members| - 1], members[|members| - 1];
    assert members == front + [last];
  }

  lemma {:induction false} ReplicasOfAre(handles: seq<Handle>, members: seq<StableMember>)
    requires Distinct(members) && forall m :: m in members ==> HasHandle(handles, m)
    ensures ReplicasOf(handles, members).Keys == IdsOf(members)
    ensures |ReplicasOf(handles, members)| == |members|
    ensures forall m :: m in members ==> ReplicasOf(handles, members)[m.id] == ReplicaOf(handles, m)
  {
    if members != [] {
      LastIsNew(members);
      ReplicasOfAre(handles, members[..|members| - 1]);
    }
  }

  /** A configured sequence is right for some members. */
  predicate Configures(c: seq<ReplicaInfo>, primaryId: int, members: seq<StableMember>)
  {
    && |c| == |members| - (if primaryId in IdsOf(members) then 1 else 0)
    && DistinctInfos(c)
    && (forall i :: i in c ==> i.id in IdsOf(members) && i.id != primaryId)
    && forall m :: m in members && m.id != primaryId ==> ConfiguredAs(c, m)
  }

  predicate ConfiguredAs(c: seq<ReplicaInfo>, m: StableMember)
  {
    && ConfiguredFor(c, m.id).Some? && ConfiguredFor(c, m.id).value.instanceId == m.instanceId
    && ConfiguredFor(c, m.id).value.role == m.role
  }

  /** The configured replica shows the member, its handle and its status: up exactly if it answers healthy. */
  predicate Shows(c: seq<ReplicaInfo>, handles: seq<Handle>, answers: int -> Option<Status>, m: StableMember)
    requires HasHandle(handles, m) && answers(m.id).Some?
  {
    var info, h, status := ConfiguredFor(c, m.id), HandleOf(handles, m.id).value, answers(m.id).value;
    && info.Some? && info.value.id == m.id && info.value.instanceId == m.instanceId && info.value.role == m.role
    && (info.value.status.Up? <==> status.healthy) && (info.value.status.Down? <==> !status.healthy)
    && info.value.replicatorAddress == h.replicatorAddress && info.value.catchUpCapability == h.catchUpCapability
    && info.value.currentProgress == status.currentProgress && !info.value.mustCatchUp
  }

  /** Every secondary is configured with what its handle and its status say. */
  lemma {:induction false} ConfiguredShows(primaryId: int, handles: seq<Handle>, answers: int -> Option<Status>,
                                           members: seq<StableMember>, m: StableMember)
    requires Distinct(members) && m in members && m.id != primaryId
    requires forall n :: n in members ==> HasHandle(handles, n) && answers(n.id).Some?
    ensures Shows(ConfiguredOf(primaryId, handles, answers, members), handles, answers, m)
  {
    var front, last := members[..|members| - 1], members[|members| - 1];
    LastIsNew(members);
    assert HasHandle(handles, last);
    var before := ConfiguredOf(primaryId, handles, answers, front);
    var c := ConfiguredOf(primaryId, handles, answers, members);
    if m == last {
      assert c[|c| - 1] == InfoOfMember(HandleOf(handles, m.id).value, m, answers(m.id).value);
    } else {
      ConfiguredShows(primaryId, handles, answers, front, m);
      assert m.id in IdsOf(front);
      if last.id == primaryId {
        assert c == before;
      } else {
        assert c[..|c| - 1] == before && c[|c| - 1].id == last.id;
      }
    }
  }

  lemma {:induction false} ConfiguredForIsListed(c: seq<ReplicaInfo>, id: int)
    ensures ConfiguredFor(c, id).Some? ==> ConfiguredFor(c, id).value in c && ConfiguredFor(c, id).value.id == id
  {
    if c != [] { ConfiguredForIsListed(c[..|c| - 1], id); }
  }

  lemma {:induction false} ConfiguresOneMore(c: seq<ReplicaInfo>, primaryId: int, members: seq<StableMember>,
                                             info: ReplicaInfo)
    requires members != [] && Distinct(members) && Configures(c, primaryId, members[..|members| - 1])
    requires var last := members[|members| - 1];
             info.id == last.id && info.instanceId == last.instanceId && info.role == last.role && last.id != primaryId
    ensures Configures(c + [info], primaryId, members)
  {
    LastIsNew(members);
    assert (c + [info])[..|c|] == c;
    forall m | m in members && m.id != primaryId ensures ConfiguredAs(c + [info], m) {
      if m != members[|members| - 1] { assert ConfiguredAs(c, m); }
    }
  }

  lemma {:induction false} ConfiguredAre(primaryId: int, handles: seq<Handle>, answers: int -> Option<Status>,
                                         members: seq<StableMember>)
    requires Distinct(members)
    requires forall m :: m in members ==> HasHandle(handles, m) && answers(m.id).Some?
    ensures Configures(ConfiguredOf(primaryId, handles, answers, members), primaryId, members)
  {
    if members != [] {
      var front, last := members[..|members| - 1], members[|members| - 1];
      LastIsNew(members);
      ConfiguredAre(primaryId, handles, answers, front);
      var c := ConfiguredOf(primaryId, handles, answers, front);
      if last.id != primaryId {
        ConfiguresOneMore(c, primaryId, members,
                          InfoOfMember(HandleOf(handles, last.id).value, last, answers(last.id).value));
      } else {
        assert ConfiguredOf(primaryId, handles, answers, members) == c;
      }
    }
  }

  // ---------------------------------------------------------------- the snapshot given back

  predicate Placed(id: int, r: Replica, primaryId: int, config: ReplicaSetConfig)
  {
    if id == primaryId then r.role == Primary && ConfiguredFor(config.members, id).None?
    else
      && r.role == ActiveSecondary
      && ConfiguredFor(config.members, id).Some?
      && ConfiguredFor(config.members, id).value.instanceId == r.handle.instanceId
      && ConfiguredFor(config.members, id).value.role == ActiveSecondary
  }

  predicate Presentable(replicas: map<int, Replica>, primaryId: Option<int>, config: ReplicaSetConfig)
  {
    && primaryId.Some?
    && config.writeQuorum == Removal.MajorityOf(|replicas|)
    && DistinctInfos(config.members) && |config.members| + 1 == |replicas|
    && forall id :: id in replicas ==> Placed(id, replicas[id], primaryId.value, config)
  }

  /** One member a replica, sorted by id. */
  predicate Lists(members: seq<StableMember>, replicas: map<int, Replica>)
  {
    && Sorted(members, ById) && NoDuplicates(members) && |members| == |replicas|
    && forall m :: m in members ==>
         m.id in replicas && m == StableMember(m.id, replicas[m.id].handle.instanceId, replicas[m.id].role, None)
  }

  /** A hash map is walked in no particular order. */
  method AnyOf(ids: set<int>) returns (id: int)
    requires ids != {}
    ensures id in ids
  {
    assert (forall x :: x !in ids) ==> ids == {};
    id :| id in ids;
  }

  class PartitionDriver {
    var replicas: map<int, Replica>
    var primaryId: Option<int>
    var epoch: Epoch
    var currentConfig: ReplicaSetConfig

    constructor ()
      ensures replicas == map[] && primaryId.None? && currentConfig == ReplicaSetConfig([], 0)
    {
      replicas, primaryId, epoch, currentConfig := map[], None, Epoch(0, 0), ReplicaSetConfig([], 0);
    }

    /** Recovery asks every handle and changes nothing outside the driver it builds. */
    static method Recover(s: Snapshot, handles: seq<Handle>, answers: int -> Option<Status>)
      returns (r: Result<PartitionDriver, RecoveryError>)
      ensures r.Ok? <==> Recoverable(s, handles, answers)
      ensures r.Err? ==> RecoveryFault(s, handles, answers, r.error)
      ensures r.Ok? ==> fresh(r.value) && r.value.primaryId == Some(s.primaryId) && r.value.epoch == s.epoch
                        && r.value.replicas == ReplicasOf(handles, s.members)
                        && r.value.currentConfig
                           == ReplicaSetConfig(ConfiguredOf(s.primaryId, handles, answers, s.members), s.writeQuorum)
      // Every member has its own handle and role; every secondary is configured as its handle and status say.
      ensures r.Ok? ==> r.value.replicas.Keys == IdsOf(s.members)
                        && forall m :: m in s.members ==> r.value.replicas[m.id] == ReplicaOf(handles, m)
      ensures r.Ok? ==> forall m :: m in s.members && m.id != s.primaryId ==>
                          Shows(r.value.currentConfig.members, handles, answers, m)
    {
      var error := CheckSnapshot(s);
      if error.Some? { return Err(error.value); }
      error := CheckHandles(s, handles);
      if error.Some? { return Err(error.value); }
      for k := 0 to |s.members|
        invariant forall i :: 0 <= i < k ==> StatusMatches(s, s.members[i], answers(s.members[i].id))
      {
        var m := s.members[k];
        var status := answers(m.id);
        if !StatusMatches(s, m, status) {
          assert m in s.members;
          return Err(if status.None? then StatusUnavailable(m.id)
                     else if status.value.instanceId != m.instanceId then RuntimeInstanceMismatch(m.id)
                     else if status.value.epoch != s.epoch then EpochMismatch(m.id)
                     else RuntimeRoleMismatch(m.id));
        }
      }
      var driver := new PartitionDriver();
      driver.Fill(s, handles, answers);
      ReplicasOfAre(handles, s.members);
      forall m | m in s.members && m.id != s.primaryId
        ensures Shows(driver.currentConfig.members, handles, answers, m)
      {
        ConfiguredShows(s.primaryId, handles, answers, s.members, m);
      }
      r := Ok(driver);
    }

    method Fill(s: Snapshot, handles: seq<Handle>, answers: int -> Option<Status>)
      requires forall m :: m in s.members ==> HasHandle(handles, m) && answers(m.id).Some?
      modifies this
      ensures primaryId == Some(s.primaryId) && epoch == s.epoch
      ensures replicas == ReplicasOf(handles, s.members)
      ensures currentConfig
              == ReplicaSetConfig(ConfiguredOf(s.primaryId, handles, answers, s.members), s.writeQuorum)
    {
      var built: map<int, Replica>, configured: seq<ReplicaInfo> := map[], [];
      for k := 0 to |s.members|
        invariant built == ReplicasOf(handles, s.members[..k])
        invariant configured == ConfiguredOf(s.primaryId, handles, answers, s.members[..k])
      {
        var m := s.members[k];
        assert s.members[..k + 1][..k] == s.members[..k];
        var handle := HandleOf(handles, m.id).value;
        built := built[m.id := Replica(handle, m.role)];
        if m.id != s.primaryId {
          configured := configured + [InfoOfMember(handle, m, answers(m.id).value)];
        }
      }
      assert s.members[..|s.members|] == s.members;
      replicas, primaryId, epoch := built, Some(s.primaryId), s.epoch;
      currentConfig := ReplicaSetConfig(configured, s.writeQuorum);
    }

    /** The durable snapshot of the topology held, if the topology is stable. */
    method GetStableSnapshot() returns (r: Result<Snapshot, RecoveryError>)
      ensures r.Ok? <==> Presentable(replicas, primaryId, currentConfig)
      ensures r.Ok? ==> r.value.epoch == epoch && Some(r.value.primaryId) == primaryId
                        && r.value.writeQuorum == currentConfig.writeQuorum && Lists(r.value.members, replicas)
    {
      if primaryId.None? { return Err(InvalidConfiguration); }
      if currentConfig.writeQuorum != Removal.MajorityOf(|replicas|) { return Err(InvalidConfiguration); }
      if !DistinctInfos(currentConfig.members) || |currentConfig.members| + 1 != |replicas| {
        return Err(InvalidConfiguration);
      }
      var members: seq<StableMember>, left: set<int> := [], replicas.Keys;
      while left != {}
        invariant left <= replicas.Keys
        invariant |members| + |left| == |replicas|
        invariant forall i, j :: 0 <= i < j < |members| ==> members[i].id != members[j].id
        invariant forall m :: m in members ==>
                    m.id in replicas && m.id !in left
                    && m == StableMember(m.id, replicas[m.id].handle.instanceId, replicas[m.id].role, None)
        invariant forall id :: id in replicas && id !in left ==>
                    Placed(id, replicas[id], primaryId.value, currentConfig)
        decreases |left|
      {
        var id := AnyOf(left);
        if !Placed(id, replicas[id], primaryId.value, currentConfig) { return Err(InvalidConfiguration); }
        members := members + [StableMember(id, replicas[id].handle.instanceId, replicas[id].role, None)];
        left := left - {id};
      }
      var sorted := Sort(members, ById);
      SortKeepsElements(members, ById);
      SortIsSorted(members, ById);
      SortedListing(members, replicas);
      r := Ok(Snapshot(epoch, primaryId.value, sorted, currentConfig.writeQuorum));
    }
  }

  lemma {:induction false} SortedListing(members: seq<StableMember>, replicas: map<int, Replica>)
    requires |members| == |replicas|
    requires forall i, j :: 0 <= i < j < |members| ==> members[i].id != members[j].id
    requires forall m :: m in members ==>
               m.id in replicas && m == StableMember(m.id, replicas[m.id].handle.instanceId, replicas[m.id].role, None)
    ensures Lists(Sort(members, ById), replicas)
  {
    var s := Sort(members, ById);
    SortKeepsElements(members, ById);
    SortIsSorted(members, ById);
    assert |multiset(s)| == |multiset(members)|;
    forall m | m in s ensures m in members { assert m in multiset(members); }
    SameElementsNoDuplicates(members, s);
  }

  // ---------------------------------------------------------------- round trip

  lemma {:induction false} RecoveredIsPresentable(s: Snapshot, handles: seq<Handle>, answers: int -> Option<Status>)
    requires Recoverable(s, handles, answers)
    ensures Presentable(ReplicasOf(handles, s.members), Some(s.primaryId),
                        ReplicaSetConfig(ConfiguredOf(s.primaryId, handles, answers, s.members), s.writeQuorum))
  {
    ReplicasOfAre(handles, s.members);
    ConfiguredAre(s.primaryId, handles, answers, s.members);
    ConfiguredForIsListed(ConfiguredOf(s.primaryId, handles, answers, s.members), s.primaryId);
    var replicas := ReplicasOf(handles, s.members);
    var config := ReplicaSetConfig(ConfiguredOf(s.primaryId, handles, answers, s.members), s.writeQuorum);
    forall id | id in replicas ensures Placed(id, replicas[id], s.primaryId, config) {
      var m :| m in s.members && m.id == id;
      assert RoleFollows(s, m);
    }
  }

  /** Any sorted listing of the recovered replicas is the input's members, cleared and sorted. */
  lemma {:induction false} ListingIsTheInput(s: Snapshot, handles: seq<Handle>, members: seq<StableMember>)
    requires Distinct(s.members) && forall m :: m in s.members ==> HasHandle(handles, m)
    requires Lists(members, ReplicasOf(handles, s.members))
    ensures members == Sort(Map(Cleared, s.members), ById)
  {
    var cleared := Map(Cleared, s.members);
    ReplicasOfAre(handles, s.members);
    forall m | m in members ensures m in cleared {
      var k :| 0 <= k < |s.members| && s.members[k].id == m.id;
      assert s.members[k] in s.members;
      assert cleared[k] == m;
    }
    ContainedIsEqual(members, cleared);
    forall i, j | 0 <= i < |members| && 0 <= j < |members| && ById(members[i], members[j])
                  && ById(members[j], members[i]) ensures members[i] == members[j] {
    }
    SortOfSorted(members, ById);
    SortForgetsOrder(members, cleared, ById);
  }

  /**
   * Recovery and the snapshot it gives back, in one: it succeeds exactly on what can be recovered, and then
   * gives back the input, sorted by id and cleared, whatever the order of members and handles.
   */
  method RoundTrip(s: Snapshot, handles: seq<Handle>, answers: int -> Option<Status>)
    returns (r: Result<Snapshot, RecoveryError>)
    ensures r.Ok? <==> Recoverable(s, handles, answers)
    ensures r.Ok? ==> r.value == Normal(s)
    ensures r.Err? ==> RecoveryFault(s, handles, answers, r.error)
  {
    var driver := PartitionDriver.Recover(s, handles, answers);
    if driver.Err? { return Err(driver.error); }
    RecoveredIsPresentable(s, handles, answers);
    r := driver.value.GetStableSnapshot();
    ListingIsTheInput(s, handles, r.value.members);
  }
}
