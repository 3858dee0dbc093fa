/** The progress of one removal attempt, its expiries, and the evidence each terminal result needs. */
module RemovalProgress {
  import opened Basics
  import opened Configurations
  import opened Removal

  datatype Phase =
    | Validating | InstallingCatchUpConfiguration | WaitingForCatchUpQuorum | InstallingCurrentConfiguration
    | RemovingConnection | RetiringTarget | Attesting | Compensating

  datatype Retirement = NotAttempted | InProgress | Completed | Unavailable | Stale | Failed

  datatype TerminalResult = CommittedClean | CommittedDegraded | Compensated | CompensationIncomplete

  /** A message: one of the coordinator's own short texts, or bytes from elsewhere. */
  datatype Message = Own | Foreign(text: Bytes)

  datatype Progress = Progress(
    phase: Phase, attemptId: string, commitObserved: bool, commitTime: Option<int>, connectionAbsent: bool,
    retirement: Retirement, retirementExpiry: Option<int>, compensationExpiry: Option<int>,
    error: Option<Message>, currentInstallDispatched: bool)

  function Initial(attemptId: string): Progress
  {
    Progress(Validating, attemptId, false, None, false, NotAttempted, None, None, None, false)
  }

  // ---------------------------------------------------------------- messages

  predicate Fits(m: Message) { m.Foreign? ==> |m.text| <= MAX_ERROR_BYTES }

  /** A byte that continues a UTF-8 character. */
  predicate Continues(b: Byte) { 0x80 <= b < 0xC0 }

  predicate Boundary(text: Bytes, n: nat)
  {
    n == 0 || n == |text| || (n < |text| && !Continues(text[n]))
  }

  /** The last character boundary at or before `n`. */
  function BoundaryAtOrBefore(text: Bytes, n: nat): (r: nat)
    ensures r <= n && Boundary(text, r)
    ensures forall k :: r < k <= n ==> !Boundary(text, k)
  {
    if Boundary(text, n) then n else BoundaryAtOrBefore(text, n - 1)
  }

  function Normalized(m: Message): (r: Message)
    ensures Fits(r)
  {
    if Fits(m) then m else Foreign(m.text[..BoundaryAtOrBefore(m.text, MAX_ERROR_BYTES)])
  }

  /** A message is kept when it fits, and cut to its longest prefix of whole characters when it does not. */
  method NormalizeRemoveError(m: Message) returns (r: Message)
    ensures r == Normalized(m)
  {
    if Fits(m) { return m; }
    var boundary := MAX_ERROR_BYTES;
    while boundary > 0 && boundary != |m.text| && Continues(m.text[boundary])
      invariant 0 <= boundary <= MAX_ERROR_BYTES
      invariant BoundaryAtOrBefore(m.text, boundary) == BoundaryAtOrBefore(m.text, MAX_ERROR_BYTES)
    {
      boundary := boundary - 1;
    }
    return Foreign(m.text[..boundary]);
  }

  /** What was cut off started inside the bound, and what is kept is whole. */
  lemma {:induction false} NormalizedKeepsMost(text: Bytes)
    ensures var r := Normalized(Foreign(text)).text;
            && r <= text && Boundary(text, |r|)
            && (|text| <= MAX_ERROR_BYTES ==> r == text)
            && forall n :: |r| < n <= MAX_ERROR_BYTES ==> !Boundary(text, n) || n > |text|
  {
    if |text| > MAX_ERROR_BYTES {
      assert |text[..BoundaryAtOrBefore(text, MAX_ERROR_BYTES)]| == BoundaryAtOrBefore(text, MAX_ERROR_BYTES);
    }
  }

  // ---------------------------------------------------------------- expiries

  /** `checked_add` on 64-bit signed integers. */
  function CheckedLater(time: int, seconds: int): Option<int>
  {
    if -I64_MAX - 1 <= time + seconds <= I64_MAX then Some(time + seconds) else None
  }

  function RetirementExpiry(i: RemoveReplicaIntent, commit: int): Option<int>
  {
    if commit <= 0 || commit > i.overallDeadline then None
    else match CheckedLater(commit, i.targetRetirementTimeout)
         case None => None
         case Some(t) => Some(Min(t, i.overallDeadline))
  }

  function CompensationExpiry(i: RemoveReplicaIntent, failure: int): Option<int>
  {
    if failure <= 0 || failure > i.compensationDeadlineCap then None
    else match CheckedLater(failure, i.compensationGrace)
         case None => None
         case Some(t) => Some(Min(t, i.compensationDeadlineCap))
  }

  /** The time limits of an accepted intent. */
  predicate Budgeted(i: RemoveReplicaIntent)
  {
    && i.overallDeadline > 0
    && i.compensationGrace == COMPENSATION_GRACE_SECONDS
    && i.callTimeout == CALL_TIMEOUT_SECONDS
    && i.targetRetirementTimeout == RETIREMENT_TIMEOUT_SECONDS
    && i.compensationDeadlineCap == i.overallDeadline + i.compensationGrace <= I64_MAX
  }

  lemma {:induction false} SoundIsBudgeted(i: RemoveReplicaIntent, endpoint: string -> bool)
    requires Sound(i, endpoint)
    ensures Budgeted(i)
  {
    assert WithinLimits(i);
  }

  /**
   * A commit observed by the overall deadline gets an expiry unless the sum overflows; the expiry lies between
   * the commit and both limits, and a later commit never expires earlier.
   */
  lemma {:induction false} RetirementExpiryIsSound(i: RemoveReplicaIntent, commit: int, later: int)
    requires Budgeted(i) && commit <= later
    ensures RetirementExpiry(i, commit).Some?
            <==> 0 < commit <= i.overallDeadline && commit + RETIREMENT_TIMEOUT_SECONDS <= I64_MAX
    ensures RetirementExpiry(i, commit).Some? ==>
              commit <= RetirementExpiry(i, commit).value
                     <= Min(commit + RETIREMENT_TIMEOUT_SECONDS, i.overallDeadline)
    ensures RetirementExpiry(i, commit).Some? && RetirementExpiry(i, later).Some? ==>
              RetirementExpiry(i, commit).value <= RetirementExpiry(i, later).value
  {
  }

  // ---------------------------------------------------------------- validation

  predicate Positive(t: Option<int>) { t.Some? ==> t.value > 0 }

  /** What published progress may say. */
  predicate ValidProgress(p: Progress)
  {
    && p.attemptId != ""
    && (p.error.Some? ==> Fits(p.error.value))
    && Positive(p.commitTime) && Positive(p.retirementExpiry) && Positive(p.compensationExpiry)
    && (if p.commitObserved
        then p.commitTime.Some? && p.retirementExpiry.Some? && p.retirementExpiry.value >= p.commitTime.value
             && p.compensationExpiry.None?
        else p.commitTime.None? && p.retirementExpiry.None? && !p.connectionAbsent && p.retirement.NotAttempted?)
    && (match p.phase
        case Validating | InstallingCatchUpConfiguration | WaitingForCatchUpQuorum => !p.commitObserved
        case RemovingConnection | RetiringTarget | Attesting => p.commitObserved
        case Compensating => !p.commitObserved && p.compensationExpiry.Some?
        case InstallingCurrentConfiguration => true)
    && (p.currentInstallDispatched ==>
          !(p.phase.Validating? || p.phase.InstallingCatchUpConfiguration? || p.phase.WaitingForCatchUpQuorum?))
    && (p.retirement.Completed? ==> p.connectionAbsent)
  }

  predicate ValidFor(i: RemoveReplicaIntent, p: Progress)
  {
    && ValidProgress(p)
    && p.attemptId == i.attemptId
    && (p.commitTime.Some? ==>
          && RetirementExpiry(i, p.commitTime.value).Some?
          && p.retirementExpiry == RetirementExpiry(i, p.commitTime.value))
    && (p.compensationExpiry.Some? ==> p.compensationExpiry.value <= i.compensationDeadlineCap)
  }

  predicate ValidTerminal(i: RemoveReplicaIntent, p: Progress, result: TerminalResult)
  {
    && ValidFor(i, p)
    && match result
       case CommittedClean =>
         p.commitObserved && p.connectionAbsent && p.phase.Attesting? && p.retirement.Completed?
       case CommittedDegraded =>
         p.commitObserved && p.connectionAbsent && p.phase.Attesting?
         && (p.retirement.Unavailable? || p.retirement.Stale? || p.retirement.Failed?)
       case Compensated =>
         !p.commitObserved && p.phase.Compensating? && p.compensationExpiry.Some? && !p.currentInstallDispatched
       case CompensationIncomplete =>
         !p.commitObserved && p.phase.Compensating? && p.compensationExpiry.Some? && p.error.Some?
  }

  /** Valid progress supports at most one terminal result, except that a compensation may also be incomplete. */
  lemma {:induction false} TerminalResultsExclude(i: RemoveReplicaIntent, p: Progress, a: TerminalResult,
                                                  b: TerminalResult)
    requires Budgeted(i) && ValidTerminal(i, p, a) && ValidTerminal(i, p, b)
    ensures a == b || {a, b} == {Compensated, CompensationIncomplete}
  {
  }

  /** Valid progress supports some terminal result exactly in the two phases a removal can end in. */
  lemma {:induction false} TerminalNeedsTheLastPhases(i: RemoveReplicaIntent, p: Progress)
    requires Budgeted(i) && ValidFor(i, p)
    ensures (exists r: TerminalResult :: ValidTerminal(i, p, r))
            <==> (p.phase.Attesting? && p.connectionAbsent && !p.retirement.NotAttempted? && !p.retirement.InProgress?)
                 || (p.phase.Compensating? && (p.currentInstallDispatched ==> p.error.Some?))
  {
    if p.phase.Attesting? && p.connectionAbsent && p.retirement.Completed? {
      assert ValidTerminal(i, p, CommittedClean);
    } else if p.phase.Attesting? && p.connectionAbsent && !p.retirement.NotAttempted? && !p.retirement.InProgress? {
      assert ValidTerminal(i, p, CommittedDegraded);
    } else if p.phase.Compensating? && !p.currentInstallDispatched {
      assert ValidTerminal(i, p, Compensated);
    } else if p.phase.Compensating? && p.error.Some? {
      assert ValidTerminal(i, p, CompensationIncomplete);
    }
  }
}
