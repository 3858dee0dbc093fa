/**
 * The Retire stage a removed replica runs for its former primary: at most one demotion, then at most one close,
 * each behind a fresh authorization of the sender. The environment answers every question as it likes.
 */
module PeerStages {
  import opened Basics
  import opened Configurations
  import opened Removal
  import opened RemovalProgress
  import opened RemovalTrace
  import opened StageRequests

  /** The closed postcondition: this incarnation, at this epoch, demoted and with nothing open. */
  predicate RetireHolds(runtime: RuntimeSnapshot, q: StageRequest)
  {
    && runtime.instanceId == q.targetInstanceId && runtime.epoch == q.epoch
    && runtime.role == NoRole && runtime.partition.None?
  }

  // ---------------------------------------------------------------- the sender's authority

  /** What the sender reports about itself and the action it has in flight. */
  datatype SenderStatus = SenderStatus(
    instanceId: string, generation: string, role: Role, epoch: Epoch, writeStatus: AccessStatus,
    currentActionId: Option<string>, currentSignature: string, currentActive: bool,
    configuration: Option<ConfigurationStatus>)

  /** The sender is the exact live primary, runs the parent action, and has installed the signed projection. */
  predicate SenderHolds(s: SenderStatus, q: StageRequest)
  {
    && s.instanceId == q.sender.instanceId && s.generation == q.sender.generation
    && s.role == Role.Primary && s.epoch == q.epoch && s.writeStatus == Granted
    && s.currentActionId == Some(q.parentActionId) && s.currentSignature == q.parentActionSignature
    && s.currentActive
    && s.configuration.Some? && s.configuration.value.mode.Current?
    && !ListsTarget(s.configuration.value, q)
    && q.projection == s.configuration
  }

  // ---------------------------------------------------------------- steps

  /** What a run does and learns, one step at a time; what is `answered` was carried out. */
  datatype StageStep =
    | Authorized(status: SenderStatus)
    | Unauthorized(left: bool, reply: Option<SenderStatus>)
    | SawRuntime(runtime: RuntimeSnapshot)
    | SentDemotion(answered: bool)
    | SentClose(answered: bool)
    | OutOfTime(expiry: Option<int>, now: int)

  datatype StageResult = StageDone | StageStaled | StageBroken

  predicate ExactTarget(runtime: RuntimeSnapshot, q: StageRequest)
  {
    runtime.instanceId == q.targetInstanceId && runtime.epoch == q.epoch
  }

  predicate Secondary(role: Role) { role == IdleSecondary || role == ActiveSecondary }

  /** The first look at the target comes behind one authorization; the second also behind what followed it. */
  predicate FirstLook(t: seq<StageStep>) { |t| == 2 }

  /** How a run ends that has come to this, or nothing if it has to go on. */
  function Verdict(t: seq<StageStep>, q: StageRequest): Option<StageResult>
  {
    if t == [] then None
    else match t[|t| - 1]
      case Authorized(_) => None
      case Unauthorized(_, _) => Some(StageStaled)
      case OutOfTime(_, _) => Some(StageStaled)
      case SentDemotion(answered) => if answered then None else Some(StageBroken)
      case SentClose(answered) => if answered then None else Some(StageBroken)
      case SawRuntime(runtime) =>
        if !ExactTarget(runtime, q) then Some(StageStaled)
        else if RetireHolds(runtime, q) then Some(StageDone)
        else if |t| >= 2 && t[|t| - 2].SentClose? then Some(StageBroken)
        else if runtime.role == NoRole || (FirstLook(t) && Secondary(runtime.role)) then None
        else Some(StageStaled)
  }

  /** The one step, up to what it learns, that a run owes while it has to go on. */
  predicate Owed(t: seq<StageStep>, s: StageStep, q: StageRequest)
  {
    if t == [] then Authorizes(s, q)
    else match t[|t| - 1]
      case Authorized(_) => s.SawRuntime?
      case SentClose(_) => s.SawRuntime?
      case SentDemotion(_) => Authorizes(s, q)
      case SawRuntime(runtime) =>
        if FirstLook(t) then
          if Secondary(runtime.role) then s.SentDemotion? || RunsOut(s, q) else Authorizes(s, q)
        else runtime.partition.Some? && (s.SentClose? || RunsOut(s, q))
      case _ => false
  }

  /** The sender was asked for its authority while there was time, and gave it or not. */
  predicate Authorizes(s: StageStep, q: StageRequest)
  {
    || (s.Authorized? && SenderHolds(s.status, q))
    || (s.Unauthorized? && !(s.left && s.reply.Some? && SenderHolds(s.reply.value, q)))
  }

  predicate RunsOut(s: StageStep, q: StageRequest)
  {
    s.OutOfTime? && s.expiry == q.retirementExpiry && (s.expiry.Some? ==> s.expiry.value <= s.now)
  }

  predicate LegalStage(t: seq<StageStep>, q: StageRequest)
  {
    forall k :: 0 <= k < |t| ==> Verdict(t[..k], q).None? && Owed(t[..k], t[k], q)
  }

  lemma {:induction false} LegalStageExtends(t: seq<StageStep>, s: StageStep, q: StageRequest)
    requires LegalStage(t, q) && Verdict(t, q).None? && Owed(t, s, q)
    ensures LegalStage(t + [s], q)
  {
    forall k | 0 <= k < |t + [s]| ensures Verdict((t + [s])[..k], q).None? && Owed((t + [s])[..k], (t + [s])[k], q) {
      assert (t + [s])[..k] == t[..k];
      if k == |t| { assert t[..k] == t; }
    }
  }

  /** The look that follows a close ends the run, whatever it sees. */
  lemma {:induction false} LookAfterCloseEnds(t: seq<StageStep>, q: StageRequest, a: nat)
    requires LegalStage(t, q) && a + 2 <= |t| && t[a].SentClose?
    ensures t[a + 1].SawRuntime? && Verdict(t[..a + 2], q).Some?
  {
    assert Owed(t[..a + 1], t[a + 1], q);
    assert t[..a + 2][a] == t[a] && t[..a + 2][a + 1] == t[a + 1];
  }

  /** A legal run sends each effect at most once, and never a demotion after a close. */
  lemma {:induction false} OneDemotionThenOneClose(t: seq<StageStep>, q: StageRequest, a: nat, b: nat)
    requires LegalStage(t, q) && a < b < |t|
    ensures !(t[a].SentDemotion? && t[b].SentDemotion?)
    ensures !(t[a].SentClose? && (t[b].SentClose? || t[b].SentDemotion?))
  {
    assert Owed(t[..b], t[b], q);
    assert Owed(t[..a], t[a], q);
    if t[a].SentClose? && a + 2 <= |t| { LookAfterCloseEnds(t, q, a); }
  }

  /**
   * Each effect is sent behind an authorization and a look at the exact target: the demotion of a secondary, the
   * close of a target that has given up its role and is still open.
   */
  lemma {:induction false} EffectsAreAuthorized(t: seq<StageStep>, q: StageRequest, k: nat)
    requires LegalStage(t, q) && k < |t| && (t[k].SentDemotion? || t[k].SentClose?)
    ensures k >= 2 && t[k - 2].Authorized? && SenderHolds(t[k - 2].status, q)
    ensures t[k - 1].SawRuntime? && ExactTarget(t[k - 1].runtime, q)
    ensures t[k].SentDemotion? ==> Secondary(t[k - 1].runtime.role)
    ensures t[k].SentClose? ==> t[k - 1].runtime.role == NoRole && t[k - 1].runtime.partition.Some?
  {
    assert Verdict(t[..k], q).None? && Owed(t[..k], t[k], q);
    assert Verdict(t[..k - 1], q).None? && Owed(t[..k - 1], t[k - 1], q);
    assert Owed(t[..k - 2], t[k - 2], q);
  }

  // ---------------------------------------------------------------- the run

  method Now() returns (now: int) { now := *; }

  method Runtime() returns (runtime: RuntimeSnapshot) { runtime := *; }

  method AskSender() returns (status: Option<SenderStatus>) { status := *; }

  method EffectSucceeds() returns (ok: bool) { ok := *; }

  /** Time left for one call, from the signed expiry. */
  method BudgetLeft(q: StageRequest) returns (left: bool, now: int)
    ensures left <==> q.retirementExpiry.Some? && now < q.retirementExpiry.value
  {
    now := Now();
    return q.retirementExpiry.Some? && q.retirementExpiry.value > now, now;
  }

  method Authorize(q: StageRequest, t: seq<StageStep>) returns (ok: bool, t': seq<StageStep>)
    requires LegalStage(t, q) && Verdict(t, q).None?
    requires forall s :: Authorizes(s, q) ==> Owed(t, s, q)
    ensures LegalStage(t', q) && |t'| == |t| + 1 && t'[..|t|] == t
    ensures ok ==> t'[|t|].Authorized? && SenderHolds(t'[|t|].status, q)
    ensures !ok ==> t'[|t|].Unauthorized?
  {
    var left, _ := BudgetLeft(q);
    var status := None;
    if left { status := AskSender(); }
    ok := left && status.Some? && SenderHolds(status.value, q);
    var step := if ok then Authorized(status.value) else Unauthorized(left, status);
    LegalStageExtends(t, step, q);
    t' := t + [step];
  }

  method Look(q: StageRequest, t: seq<StageStep>) returns (runtime: RuntimeSnapshot, t': seq<StageStep>)
    requires LegalStage(t, q) && Verdict(t, q).None?
    requires t != [] && (t[|t| - 1].Authorized? || t[|t| - 1].SentClose?)
    ensures LegalStage(t', q) && t' == t + [SawRuntime(runtime)] && t'[..|t|] == t
  {
    runtime := Runtime();
    LegalStageExtends(t, SawRuntime(runtime), q);
    t' := t + [SawRuntime(runtime)];
  }

  /** Sends the effect that is owed, if there is time; what comes back is how the run goes on or ends. */
  method Send(q: StageRequest, t: seq<StageStep>, close: bool) returns (going: bool, t': seq<StageStep>)
    requires LegalStage(t, q) && Verdict(t, q).None? && t != [] && t[|t| - 1].SawRuntime?
    requires if close then !FirstLook(t) && t[|t| - 1].runtime.partition.Some?
             else FirstLook(t) && Secondary(t[|t| - 1].runtime.role)
    ensures LegalStage(t', q) && |t'| == |t| + 1 && t'[..|t|] == t
    ensures going <==> t'[|t|] == (if close then SentClose(true) else SentDemotion(true))
    ensures !going ==> Verdict(t', q).Some?
  {
    var left, now := BudgetLeft(q);
    var step;
    if left {
      going := EffectSucceeds();
      step := if close then SentClose(going) else SentDemotion(going);
    } else {
      going := false;
      step := OutOfTime(q.retirementExpiry, now);
    }
    LegalStageExtends(t, step, q);
    t' := t + [step];
  }

  /** The look behind an answered close. */
  method LookLast(q: StageRequest, before: seq<StageStep>) returns (r: StageResult, t: seq<StageStep>)
    requires LegalStage(before, q) && Verdict(before, q).None? && before != []
    requires before[|before| - 1].SentClose?
    ensures LegalStage(t, q) && Verdict(t, q) == Some(r) && |t| > |before|
  {
    var runtime;
    runtime, t := Look(q, before);
    assert t[|t| - 2] == before[|before| - 1];
    if !ExactTarget(runtime, q) { return StageStaled, t; }
    if !RetireHolds(runtime, q) { return StageBroken, t; }
    return StageDone, t;
  }

  /** Closes what is open, and looks a last time. */
  method CloseOpen(q: StageRequest, before: seq<StageStep>) returns (r: StageResult, t: seq<StageStep>)
    requires LegalStage(before, q) && Verdict(before, q).None? && |before| > 2
    requires before[|before| - 1].SawRuntime? && before[|before| - 1].runtime.partition.Some?
    ensures LegalStage(t, q) && Verdict(t, q) == Some(r) && |t| > |before|
  {
    var ok;
    ok, t := Send(q, before, true);
    if !ok { return if t[|t| - 1].OutOfTime? then StageStaled else StageBroken, t; }
    r, t := LookLast(q, t);
  }

  /** The rest of the run, once the target is demoted or was found so. */
  method CloseRetired(q: StageRequest, before: seq<StageStep>) returns (r: StageResult, t: seq<StageStep>)
    requires LegalStage(before, q) && Verdict(before, q).None? && |before| >= 2
    requires || before[|before| - 1].SentDemotion?
             || (FirstLook(before) && before[1].SawRuntime? && before[1].runtime.role == NoRole)
    ensures LegalStage(t, q) && Verdict(t, q) == Some(r) && |t| > |before|
  {
    var ok;
    ok, t := Authorize(q, before);
    if !ok { return StageStaled, t; }
    var runtime;
    runtime, t := Look(q, t);
    if !ExactTarget(runtime, q) { return StageStaled, t; }
    if RetireHolds(runtime, q) { return StageDone, t; }
    if runtime.role != NoRole { return StageStaled, t; }
    // The exact target without a role and without the closed postcondition is open.
    r, t := CloseOpen(q, t);
  }

  /**
   * Every run does what it owes, step by step, and ends exactly as its last step says: done on seeing the closed
   * postcondition and only then, broken on a failed effect or a close without effect, and stale on anything else.
   */
  method RunRetire(q: StageRequest) returns (r: StageResult, t: seq<StageStep>)
    ensures LegalStage(t, q) && Verdict(t, q) == Some(r)
    ensures r.StageDone? <==> t != [] && t[|t| - 1].SawRuntime? && RetireHolds(t[|t| - 1].runtime, q)
    ensures r.StageDone? ==> t[0].Authorized? && SenderHolds(t[0].status, q)
  {
    t := [];
    var ok;
    ok, t := Authorize(q, t);
    if !ok { return StageStaled, t; }
    var runtime;
    runtime, t := Look(q, t);
    assert Owed(t[..0], t[0], q);
    if !ExactTarget(runtime, q) { return StageStaled, t; }
    if RetireHolds(runtime, q) { return StageDone, t; }
    if Secondary(runtime.role) {
      ok, t := Send(q, t, false);
      if !ok { return if t[|t| - 1].OutOfTime? then StageStaled else StageBroken, t; }
    } else if runtime.role != NoRole {
      return StageStaled, t;
    }
    r, t := CloseRetired(q, t);
    StartsAuthorized(t, q);
  }

  lemma {:induction false} StartsAuthorized(t: seq<StageStep>, q: StageRequest)
    requires LegalStage(t, q) && |t| >= 2
    ensures t[0].Authorized? && SenderHolds(t[0].status, q)
  {
    assert Owed(t[..0], t[0], q);
    assert Verdict(t[..1], q).None?;
  }
}
