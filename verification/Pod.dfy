/**
 * The pod runtime's command loop: role, configuration and access status across effects that can fail at any
 * await, and the single slot for a tracked build or quorum wait. Each await asks for `Safe()`, so what it says
 * holds there too, and not only between commands.
 */
module Pod {
  import opened Basics
  import opened Configurations
  import opened RemovalTrace
  import opened PeerStages
  import opened StageRequests

  /** The access status shared with everybody who holds the replicator's state. */
  class Access {
    var read: AccessStatus
    var write: AccessStatus

    constructor ()
      ensures read == NotPrimary && write == NotPrimary
    {
      read, write := NotPrimary, NotPrimary;
    }
  }

  datatype TrackedKind = Build | CatchUpQuorum

  datatype Tracked = Tracked(executionId: string, kind: TrackedKind)

  datatype TrackedState = InProgress | Completed | Failed | Cancelled

  datatype BuildTarget = BuildTarget(buildKey: string, replicaId: int, instanceId: string, generation: string)

  datatype BuildObservation = BuildObservation(executionId: string, target: BuildTarget, state: TrackedState,
                                               copyLsn: Option<int>)

  datatype WaitObservation = WaitObservation(executionId: string, state: TrackedState)

  datatype Outcome = Done | Refused | Conflict | Busy

  datatype Party = Service | Replicator

  /** One call to the user service or the replicator: who was asked, the answer, and the access held meanwhile. */
  datatype Call = Call(party: Party, answered: bool, read: AccessStatus, write: AccessStatus)

  class PodRuntime {
    const instanceId: string
    var role: Role
    var epoch: Epoch
    var configuration: Option<ConfigurationStatus>
    var access: Access?
    /** The role the agent was last told. */
    var publishedRole: Role
    var build: Option<BuildObservation>
    var wait: Option<WaitObservation>
    var tracked: Option<Tracked>
    ghost var calls: seq<Call>

    /** Write access means primary, both as recorded and as last published. */
    ghost predicate Safe()
      reads this, access
    {
      access != null && access.write == Granted ==> role == Role.Primary && publishedRole == Role.Primary
    }

    /** An observation is in progress exactly when the one slot holds it. */
    ghost predicate OneSlot()
      reads this
    {
      && (build.Some? ==>
            (build.value.state.InProgress? <==> tracked == Some(Tracked(build.value.executionId, Build))))
      && (wait.Some? ==>
            (wait.value.state.InProgress? <==> tracked == Some(Tracked(wait.value.executionId, CatchUpQuorum))))
      && (tracked.Some? ==> match tracked.value.kind
                            case Build => build.Some? && build.value.executionId == tracked.value.executionId
                            case CatchUpQuorum => wait.Some? && wait.value.executionId == tracked.value.executionId)
    }

    constructor (instanceId: string)
      ensures Safe() && OneSlot() && access == null && role == Role.Unknown && this.instanceId == instanceId
    {
      this.instanceId := instanceId;
      role, epoch, configuration, access, publishedRole := Role.Unknown, Epoch(0, 0), None, null, Role.Unknown;
      build, wait, tracked, calls := None, None, None, [];
    }

    ghost function Read(): AccessStatus
      reads this, access
    {
      if access == null then NotPrimary else access.read
    }

    ghost function Write(): AccessStatus
      reads this, access
    {
      if access == null then NotPrimary else access.write
    }

    /** Succeeded with exactly these parties asked, in this order, or failed on the last one that was asked. */
    twostate predicate Asked(parties: seq<Party>, ok: bool)
      reads this
    {
      && old(calls) <= calls && |calls| <= |old(calls)| + |parties|
      && (forall k :: |old(calls)| <= k < |calls| ==> calls[k].party == parties[k - |old(calls)|])
      && (forall k :: |old(calls)| <= k < |calls| - 1 ==> calls[k].answered)
      && (if ok then |calls| == |old(calls)| + |parties| && (parties != [] ==> calls[|calls| - 1].answered)
          else |calls| > |old(calls)| && !calls[|calls| - 1].answered)
    }

    // -------------------------------------------------------------- awaits

    /** The party answers, refuses, or does not answer in time. */
    method Ask(party: Party) returns (ok: bool)
      requires Safe()
      modifies this`calls
      ensures Safe() && calls == old(calls) + [Call(party, ok, Read(), Write())]
    {
      ok := *;
      calls := calls + [Call(party, ok, Read(), Write())];
    }

    method Publish()
      requires Safe() && (access != null && access.write == Granted ==> role == Role.Primary)
      modifies this`publishedRole
      ensures Safe() && publishedRole == role
    {
      publishedRole := role;
    }

    // -------------------------------------------------------------- lifecycle effects

    method Open() returns (ok: bool)
      requires Safe() && publishedRole == role
      modifies this`role, this`epoch, this`configuration, this`access, this`calls
      ensures Safe()
      ensures old(access) != null ==> !ok && access == old(access) && role == old(role) && epoch == old(epoch)
                                      && configuration == old(configuration) && calls == old(calls)
      ensures old(access) == null ==> role == Role.Unknown && epoch == Epoch(0, 0) && configuration == None
      // The service makes the replicator, which is then opened; only both answers together open the pod.
      ensures old(access) == null ==> Asked([Service, Replicator], ok)
      ensures ok ==> access != null && fresh(access) && access.write == NotPrimary && access.read == NotPrimary
      ensures !ok ==> access == old(access)
    {
      if access != null { return false; }
      role, epoch, configuration := Role.Unknown, Epoch(0, 0), None;
      ok := Ask(Service);
      if !ok { return; }
      var created := new Access();
      ok := Ask(Replicator);
      if !ok { return; }
      access := created;
    }

    method SetStatusForRole(newRole: Role)
      modifies access
      ensures access != null ==>
                access.write == (if newRole == Role.Primary then ReconfigurationPending else NotPrimary)
                && access.read == (if newRole == Role.Primary then Granted else NotPrimary)
    {
      if access != null {
        access.read := if newRole == Role.Primary then Granted else NotPrimary;
        access.write := if newRole == Role.Primary then ReconfigurationPending else NotPrimary;
      }
    }

    /**
     * Promotion asks the replicator first, demotion gives up access first. Wherever it fails, the recorded role
     * and epoch stay, and a demotion has given up write access all the same.
     */
    method ChangeRole(newEpoch: Epoch, newRole: Role) returns (ok: bool)
      requires Safe() && publishedRole == role
      modifies this`role, this`epoch, this`calls, access
      ensures Safe() && access == old(access)
      ensures access == null ==> !ok && calls == old(calls)
      ensures access != null ==>
                Asked(if Promotes(old(role), newRole) then [Replicator, Service] else [Service, Replicator], ok)
      ensures ok ==> access != null && role == newRole && epoch == newEpoch && Holds(newRole)
      ensures !ok ==> role == old(role) && epoch == old(epoch)
      // A demotion holds no access from its first call on; a promotion changes it only after the replicator's.
      ensures access != null && !Promotes(old(role), newRole) ==>
                Holds(newRole) && forall k :: |old(calls)| <= k < |calls| ==> calls[k].write == NotPrimary
      ensures access != null && Promotes(old(role), newRole) ==>
                calls[|old(calls)|].write == old(Write()) && calls[|old(calls)|].read == old(Read())
    {
      if access == null { return false; }
      if Promotes(role, newRole) {
        ok := Ask(Replicator);
        if !ok { return; }
        SetStatusForRole(newRole);
        ok := Ask(Service);
        if !ok { return; }
      } else {
        SetStatusForRole(newRole);
        ok := Ask(Service);
        if !ok { return; }
        ok := Ask(Replicator);
        if !ok { return; }
      }
      role, epoch := newRole, newEpoch;
    }

    /** The access a role comes with: none, except that a primary reads and waits for its configuration. */
    ghost predicate Holds(held: Role)
      reads this, access
    {
      && Read() == (if held == Role.Primary then Granted else NotPrimary)
      && Write() == (if held == Role.Primary then ReconfigurationPending else NotPrimary)
    }

    static predicate Promotes(oldRole: Role, newRole: Role)
    {
      newRole == Role.Primary || (newRole == ActiveSecondary && oldRole == IdleSecondary)
    }

    /** A configuration is recorded exactly when the replicator took it; a primary then gets write access. */
    method InstallConfiguration(mode: ConfigurationMode, config: ReplicaSetConfig) returns (ok: bool)
      requires Safe() && publishedRole == role
      modifies this`configuration, this`calls, access
      ensures Safe() && access == old(access) && Read() == old(Read())
      ensures if access == null then !ok && calls == old(calls) else Asked([Replicator], ok)
      ensures configuration == if ok then Some(FromConfig(mode, config)) else old(configuration)
      ensures Write() == if ok && role == Role.Primary then Granted else old(Write())
    {
      if access == null { return false; }
      ok := Ask(Replicator);
      if ok && role == Role.Primary { access.write := Granted; }
      if ok { configuration := Some(FromConfig(mode, config)); }
    }

    method UpdateEpoch(newEpoch: Epoch) returns (ok: bool)
      requires Safe()
      modifies this`epoch, this`calls
      ensures Safe() && epoch == if ok then newEpoch else old(epoch)
      ensures if access == null then !ok && calls == old(calls) else Asked([Replicator], ok)
    {
      if access == null { return false; }
      ok := Ask(Replicator);
      if ok { epoch := newEpoch; }
    }

    method RevokeWriteStatus() returns (ok: bool)
      requires Safe()
      modifies access
      ensures Safe() && access == old(access) && ok == (access != null)
      ensures ok ==> access.write == ReconfigurationPending && access.read == old(access.read)
    {
      if access == null { return false; }
      access.write := ReconfigurationPending;
      ok := true;
    }

    /** Closing always ends closed, whatever service and replicator answer, and takes the access from everybody. */
    method Close()
      requires Safe()
      modifies this`role, this`access, this`calls, access
      ensures Safe() && role == NoRole && access == null
      ensures old(access) != null ==> old(access).write == NotPrimary && old(access).read == NotPrimary
      // Both are told, the replicator if there is one, and nobody has write access while they are.
      ensures old(calls) <= calls && |calls| == |old(calls)| + (if old(access) == null then 1 else 2)
      ensures calls[|old(calls)|].party == Service && (old(access) != null ==> calls[|calls| - 1].party == Replicator)
      ensures forall k :: |old(calls)| <= k < |calls| ==> calls[k].write != Granted && calls[k].read != Granted
    {
      if access != null {
        access.read, access.write := ReconfigurationPending, ReconfigurationPending;
      }
      var _ := Ask(Service);
      if access != null {
        var _ := Ask(Replicator);
        access.read, access.write := NotPrimary, NotPrimary;
      }
      role, access := NoRole, null;
    }

    /** What the agent is told. */
    function Reported(connections: seq<Connection>): RuntimeSnapshot
      reads this, access
    {
      RuntimeSnapshot(instanceId, role, epoch,
                      if access == null then None else Some(Partition(access.write, connections)),
                      configuration, None)
    }

    // -------------------------------------------------------------- the tracked slot

    /** The slot is free for this build: it is named, unlike the observed one, and there is a replicator. */
    predicate TakesBuild(executionId: string, target: BuildTarget)
      reads this`build, this`tracked, this`access
    {
      && executionId != "" && target.buildKey != "" && tracked.None? && access != null
      && (build.Some? ==> build.value.target != target && build.value.executionId != executionId)
    }

    /** Takes the slot exactly when it is free for the build; the same build again is answered from its observation. */
    method StartTrackedBuild(executionId: string, target: BuildTarget) returns (r: Outcome)
      requires OneSlot()
      modifies this`build, this`tracked
      ensures OneSlot()
      ensures old(TakesBuild(executionId, target)) ==>
                && r.Done? && build == Some(BuildObservation(executionId, target, InProgress, None))
                && tracked == Some(Tracked(executionId, Build))
      ensures !old(TakesBuild(executionId, target)) ==> build == old(build) && tracked == old(tracked)
      ensures executionId == "" || target.buildKey == "" ==> r.Refused?
      ensures executionId != "" && target.buildKey != "" ==>
                if old(build).Some? && old(build).value.target == target then
                  r == if Succeeding(old(build).value.state) then Done else Refused
                else if old(build).Some? && old(build).value.executionId == executionId then r.Conflict?
                else r == if old(tracked).Some? then Busy else if access == null then Refused else Done
    {
      if executionId == "" || target.buildKey == "" { return Refused; }
      if build.Some? {
        if build.value.target == target {
          return if build.value.state.InProgress? || build.value.state.Completed? then Done else Refused;
        }
        if build.value.executionId == executionId { return Conflict; }
      }
      if tracked.Some? { return Busy; }
      if access == null { return Refused; }
      build := Some(BuildObservation(executionId, target, InProgress, None));
      tracked := Some(Tracked(executionId, Build));
      r := Done;
    }

    static predicate Succeeding(state: TrackedState) { state.InProgress? || state.Completed? }

    predicate TakesQuorum(executionId: string)
      reads this`wait, this`tracked, this`access
    {
      && executionId != "" && tracked.None? && access != null
      && (wait.Some? ==> wait.value.executionId != executionId)
    }

    method StartTrackedQuorum(executionId: string) returns (r: Outcome)
      requires OneSlot()
      modifies this`wait, this`tracked
      ensures OneSlot()
      ensures old(TakesQuorum(executionId)) ==>
                && r.Done? && wait == Some(WaitObservation(executionId, InProgress))
                && tracked == Some(Tracked(executionId, CatchUpQuorum))
      ensures !old(TakesQuorum(executionId)) ==> wait == old(wait) && tracked == old(tracked)
      ensures executionId == "" ==> r.Refused?
      ensures executionId != "" ==>
                if old(wait).Some? && old(wait).value.executionId == executionId
                then r == if Succeeding(old(wait).value.state) then Done else Refused
                else r == if old(tracked).Some? then Busy else if access == null then Refused else Done
    {
      if executionId == "" { return Refused; }
      if wait.Some? && wait.value.executionId == executionId {
        return if wait.value.state.InProgress? || wait.value.state.Completed? then Done else Refused;
      }
      if tracked.Some? { return Busy; }
      if access == null { return Refused; }
      wait := Some(WaitObservation(executionId, InProgress));
      tracked := Some(Tracked(executionId, CatchUpQuorum));
      r := Done;
    }

    /** Cancelling asks the running operation to stop; the slot stays until that operation has answered. */
    method CancelTracked(executionId: string) returns (r: Outcome)
      requires Safe()
      modifies this`calls
      ensures tracked.Some? && tracked.value.executionId != executionId <==> r.Busy?
      ensures tracked.Some? && tracked.value == Tracked(executionId, CatchUpQuorum) && access != null ==>
                Asked([Replicator], r.Done?)
      ensures tracked.Some? && tracked.value == Tracked(executionId, CatchUpQuorum) && access == null ==>
                r.Refused? && calls == old(calls)
      ensures tracked.None? || tracked.value == Tracked(executionId, Build) ==> r.Done? && calls == old(calls)
    {
      if tracked.None? { return Done; }
      if tracked.value.executionId != executionId { return Busy; }
      if tracked.value.kind.Build? { return Done; }
      if access == null { return Refused; }
      var ok := Ask(Replicator);
      r := if ok then Done else Refused;
    }

    /** A build answers once: its observation keeps what it was for, and a completed one has the LSN reported. */
    static predicate Settles(before: Option<BuildObservation>, after: Option<BuildObservation>, state: TrackedState,
                             copyLsn: Option<int>)
    {
      && (before.Some? <==> after.Some?)
      && (before.Some? ==>
            && after.value.executionId == before.value.executionId && after.value.target == before.value.target
            && after.value.state == state
            && after.value.copyLsn == if state.Completed? then copyLsn else before.value.copyLsn)
    }

    static predicate SettlesWait(before: Option<WaitObservation>, after: Option<WaitObservation>, state: TrackedState)
    {
      && (before.Some? <==> after.Some?)
      && (before.Some? ==> after.value.executionId == before.value.executionId && after.value.state == state)
    }

    /** The answer names the slot's execution, but says it was the other kind of operation. */
    ghost predicate Mistaken(executionId: string, kind: TrackedKind)
      reads this`tracked
    {
      tracked.Some? && tracked.value.executionId == executionId && tracked.value.kind != kind
    }

    /**
     * An answer for the execution in the slot frees it and settles the last observation of the answer's kind;
     * any other answer changes nothing. The slot and the observations agree afterwards exactly if the kind was
     * the slot's: a mistaken answer leaves the slot's own operation in progress for ever.
     */
    method HandleTrackedCompletion(executionId: string, kind: TrackedKind, state: TrackedState, copyLsn: Option<int>)
      requires OneSlot() && !state.InProgress?
      modifies this`build, this`wait, this`tracked
      ensures OneSlot() <==> !old(Mistaken(executionId, kind))
      ensures old(tracked).None? || old(tracked).value.executionId != executionId ==>
                tracked == old(tracked) && build == old(build) && wait == old(wait)
      ensures old(tracked).Some? && old(tracked).value.executionId == executionId ==>
                && tracked.None?
                && (if kind.Build? then Settles(old(build), build, state, copyLsn) && wait == old(wait)
                    else SettlesWait(old(wait), wait, state) && build == old(build))
      ensures old(Mistaken(executionId, kind)) ==>
                if kind.Build? then wait.Some? && wait.value.executionId == executionId && wait.value.state.InProgress?
                else build.Some? && build.value.executionId == executionId && build.value.state.InProgress?
    {
      if tracked.None? || tracked.value.executionId != executionId { return; }
      tracked := None;
      match kind {
        case Build =>
          if build.Some? {
            build := Some(build.value.(state := state,
                                       copyLsn := if state.Completed? then copyLsn else build.value.copyLsn));
          }
        case CatchUpQuorum =>
          if wait.Some? {
            wait := Some(wait.value.(state := state));
          }
      }
    }
  }

  /**
   * A demotion and a close, as a Retire stage asks for them, establish its postcondition at the request's epoch:
   * after both, what the runtime reports is what the stage has to observe.
   */
  method DemoteAndClose(runtime: PodRuntime, q: StageRequest) returns (demoted: bool, reported: RuntimeSnapshot)
    requires runtime.Safe() && runtime.publishedRole == runtime.role
    requires runtime.instanceId == q.targetInstanceId
    modifies runtime, runtime.access
    ensures runtime.Safe()
    ensures demoted ==> RetireHolds(reported, q)
    ensures !demoted ==> runtime.role == old(runtime.role) && runtime.epoch == old(runtime.epoch)
                         && runtime.access == old(runtime.access)
    ensures !demoted && runtime.access != null ==>
              old(runtime.calls) < runtime.calls && !runtime.calls[|runtime.calls| - 1].answered
  {
    demoted := runtime.ChangeRole(q.epoch, NoRole);
    if demoted {
      runtime.Publish();
      runtime.Close();
    }
    reported := runtime.Reported([]);
  }
}
