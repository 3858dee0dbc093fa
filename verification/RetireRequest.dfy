/** The Retire request a coordinator sends to the replica it removed, and when the request holds up. */
module RetireRequest {
  import opened Basics
  import opened Texts
  import opened Sorting
  import opened Configurations
  import opened Removal
  import opened RemovalProgress
  import opened StageRequests
  import opened ConfigurationFence
  import opened RemovalExamples

  function UnsignedRequest(i: RemoveReplicaIntent, commit: Option<int>, expiry: int, version: U64): StageRequest
    requires Reachable(i)
  {
    StageRequest(
      PEER_PROTOCOL_VERSION, Remove, STAGE_SEMANTIC_VERSION, i.operationId, i.attemptId,
      i.attemptId + ":Retire", "", RetireStage,
      Sender(i.primaryReplicaId, i.primaryInstanceId, i.primaryAgentGeneration, i.primaryControlAddress),
      i.actionId, i.inputSignature, i.targetReplicaId, i.targetInstanceId,
      i.expectedTargetAgentGeneration.value, version, i.epoch, FenceText(i),
      None, None, Some(i.mode), commit, Some(expiry), Some(ReducedStatus(i)))
  }

  function RequestOf(i: RemoveReplicaIntent, commit: Option<int>, expiry: int, version: U64): StageRequest
    requires Reachable(i)
  {
    var q := UnsignedRequest(i, commit, expiry, version);
    q.(inputSignature := StageSignature(q))
  }

  // ---------------------------------------------------------------- the signatures

  lemma {:induction false} StageFieldsForgetSignature(q: StageRequest, signature: string, k: nat, last: nat)
    ensures StageFields(q.(inputSignature := signature), k, last) == StageFields(q, k, last)
    decreases last - k
  {
    assert StageField(q.(inputSignature := signature), k) == StageField(q, k);
    if k < last { StageFieldsForgetSignature(q, signature, k + 1, last); }
  }

  lemma {:induction false} SigningSigns(q: StageRequest, signature: string)
    requires q.kind.Remove?
    ensures StageSignature(q.(inputSignature := signature)) == StageSignature(q)
  {
    StageFieldsForgetSignature(q, signature, 0, 24);
  }

  lemma {:induction false} SignaturesAreTexts(q: StageRequest)
    requires q.kind.Remove?
    ensures StageSignature(q) != ""
  {
    assert StageFields(q, 0, 24) == StageField(q, 0) + ":" + StageFields(q, 1, 24);
  }

  lemma {:induction false} BetweenColons(before: string, field: string, after: string)
    ensures Contains(before + ":" + (field + ":" + after), ":" + field + ":")
  {
    var part := ":" + field + ":";
    assert At(part, part, 0);
    InContext(before, part, after, part);
    assert before + ":" + (field + ":" + after) == before + part + after;
  }

  lemma {:induction false} BehindColon(before: string, text: string, part: string)
    requires Contains(text, part)
    ensures Contains(before + ":" + text, part)
  {
    InContext(before + ":", text, "", part);
    assert before + ":" + text == before + ":" + text + "";
  }

  /** The signature of an intent was made over its fence. */
  lemma {:induction false} SignatureHoldsFence(i: RemoveReplicaIntent, k: nat)
    requires k <= 19
    ensures Contains(FieldsFrom(i, k), ":" + Field(i, 20) + ":")
    decreases 19 - k
  {
    if k == 19 {
      BetweenColons(Field(i, 19), Field(i, 20), FieldsFrom(i, 21));
      assert FieldsFrom(i, 19) == Field(i, 19) + ":" + FieldsFrom(i, 20);
      assert FieldsFrom(i, 20) == Field(i, 20) + ":" + FieldsFrom(i, 21);
    } else {
      SignatureHoldsFence(i, k + 1);
      BehindColon(Field(i, k), FieldsFrom(i, k + 1), ":" + Field(i, 20) + ":");
      assert FieldsFrom(i, k) == Field(i, k) + ":" + FieldsFrom(i, k + 1);
    }
  }

  lemma {:induction false} FenceHasItsParts(i: RemoveReplicaIntent)
    ensures PREVIOUS <= FenceText(i) && Contains(FenceText(i), CATCH_UP) && Contains(FenceText(i), CURRENT)
  {
    PartsAreContained(PREVIOUS, Signature(i.previous), CATCH_UP, Signature(i.reducedCatchUp), CURRENT,
                      Signature(i.reducedCurrent));
  }

  lemma {:induction false} PartsAreContained(a: string, x: string, b: string, y: string, c: string, z: string)
    ensures var text := a + x + b + y + c + z; a <= text && Contains(text, b) && Contains(text, c)
  {
    var text := a + x + b + y + c + z;
    assert At(text, b, |a + x|);
    assert At(text, c, |a + x + b + y|);
  }

  // ---------------------------------------------------------------- the request

  lemma {:induction false} ReducedStatusIsProjection(d: ConfigurationDescriptor, endpoint: string -> bool)
    requires StableDescriptor(d, endpoint)
    ensures ValidProjection(StatusOf(d, Current))
  {
    var s := StatusOf(d, Current).members;
    StatusIsStrictlySorted(d, Current);
    forall k | 0 <= k < |s| ensures MemberFits(s, k) {
      StatusMemberIsListed(d, Current, s[k]);
      forall j | 0 <= j < k ensures s[j].instanceId != s[k].instanceId {
        StatusMemberIsListed(d, Current, s[j]);
      }
    }
  }

  lemma {:induction false} ProjectionIsWithoutTarget(i: RemoveReplicaIntent, q: StageRequest)
    requires OneFewer(i) && q.targetReplicaId == i.targetReplicaId
    ensures !ListsTarget(ReducedStatus(i), q)
  {
    forall m | m in ReducedStatus(i).members ensures m.id != i.targetReplicaId {
      StatusMemberIsListed(i.reducedCurrent, Current, m);
    }
  }

  lemma {:induction false} CommittedTimesAreValid(i: RemoveReplicaIntent, p: Progress)
    requires Budgeted(i) && ValidFor(i, p) && p.commitObserved
    ensures ValidTimes(p.commitTime, p.retirementExpiry)
  {
    RetirementExpiryIsSound(i, p.commitTime.value, p.commitTime.value);
  }

  /** The request asks for this removal at these times, whatever its version and signature. */
  predicate Asks(q: StageRequest, i: RemoveReplicaIntent, p: Progress)
    requires Reachable(i) && p.retirementExpiry.Some?
  {
    q == UnsignedRequest(i, p.commitTime, p.retirementExpiry.value, q.expectedPeerVersion)
         .(inputSignature := q.inputSignature)
  }

  lemma {:induction false} FenceIsSignedFor(i: RemoveReplicaIntent, q: StageRequest)
    requires q.fence == FenceText(i) && q.parentActionSignature == IntentSignature(i)
    ensures FenceIsSigned(q)
  {
    FenceHasItsParts(i);
    SignatureHoldsFence(i, 0);
    assert Field(i, 20) == FenceText(i);
  }

  lemma {:induction false} RetireFieldsHold(i: RemoveReplicaIntent, endpoint: string -> bool, p: Progress,
                                            q: StageRequest)
    requires Sound(i, endpoint) && Reachable(i) && ValidFor(i, p) && p.commitObserved
    requires Asks(q, i, p) && FenceIsSigned(q)
    ensures ValidRetire(q) <==> FenceReadable(i)
  {
    SoundIsBudgeted(i, endpoint);
    CommittedTimesAreValid(i, p);
    ReducedStatusIsProjection(i.reducedCurrent, endpoint);
    ProjectionIsWithoutTarget(i, q);
  }

  lemma {:induction false} RequestIsIdentified(i: RemoveReplicaIntent, endpoint: string -> bool, p: Progress,
                                               q: StageRequest)
    requires Sound(i, endpoint) && i.inputSignature != "" && Reachable(i) && p.retirementExpiry.Some?
    requires Asks(q, i, p) && q.inputSignature != "" && q.fence != ""
    ensures Identified(q, endpoint)
  {
  }

  /**
   * For an accepted intent and any valid committed progress, the request made from them passes its own
   * validation, at the sender and at the receiver, exactly when the fence can be read back.
   */
  lemma {:induction false} CommittedProgressRetires(i: RemoveReplicaIntent, endpoint: string -> bool, p: Progress,
                                                    version: U64)
    requires Accepted(i, endpoint) && Reachable(i) && ValidFor(i, p) && p.commitObserved
    ensures ValidRequest(RequestOf(i, p.commitTime, p.retirementExpiry.value, version), endpoint)
            <==> FenceReadable(i)
  {
    var u := UnsignedRequest(i, p.commitTime, p.retirementExpiry.value, version);
    var q := RequestOf(i, p.commitTime, p.retirementExpiry.value, version);
    SigningSigns(u, q.inputSignature);
    SignaturesAreTexts(u);
    FenceHasItsParts(i);
    FenceIsSignedFor(i, q);
    RequestIsIdentified(i, endpoint, p, q);
    RetireFieldsHold(i, endpoint, p, q);
  }

  /**
   * Which accepted intents can be read back: unless the text of a member imitates the separator of the fence,
   * exactly those without a comma in a retained name or address.
   */
  lemma {:induction false} AcceptedIsReadable(i: RemoveReplicaIntent, endpoint: string -> bool)
    requires Accepted(i, endpoint) && !HoldsSeparator(i)
    ensures FenceReadable(i) <==> !HoldsComma(i.reducedCurrent)
  {
    FenceIsReadable(i);
  }

  lemma {:induction false} OneAddress(i: RemoveReplicaIntent, address: string)
    requires OneFewer(i) && DistinctIds(i.reducedCurrent.members) && i.reducedCurrent.members != []
    requires forall m :: m in i.previous.members ==> ';' !in m.instanceId && m.replicatorAddress == address
    requires ';' !in address && ',' in address
    ensures !FenceReadable(i)
  {
    SeparatorNeedsSemicolon(i);
    FenceIsReadable(i);
    assert i.reducedCurrent.members[0] in i.reducedCurrent.members;
  }

  lemma {:induction false} CrowdIsNotRead(size: nat, address: string)
    requires size >= 2 && ';' !in address && ',' in address
    ensures !FenceReadable(Crowd(size, address)) && Reachable(Crowd(size, address))
  {
    CrowdHasOneFewer(size, address);
    OneAddress(Crowd(size, address), address);
  }

  /** Addresses with a comma are accepted where they are endpoints, and then no Retire request is ever valid. */
  lemma {:induction false} CommaIsAcceptedButNotRead(size: nat, address: string, endpoint: string -> bool)
    requires size >= 2 && endpoint(address) && ';' !in address && ',' in address
    ensures Accepted(Crowd(size, address), endpoint)
    ensures Reachable(Crowd(size, address)) && !FenceReadable(Crowd(size, address))
  {
    assert address != "";
    CrowdIsNotRead(size, address);
    CrowdIsAccepted(size, address, endpoint);
  }

  lemma {:induction false} SomeAddressHasComma() returns (address: string)
    ensures address == "http://r:1/a,b" && ';' !in address && ',' in address
  {
    address := "http://r:1/a,b";
    assert address[12] == ',';
  }

  /** One such removal: of two secondaries, at an address with a comma in its path. */
  lemma {:induction false} AcceptedRemovalThatCannotRetire(endpoint: string -> bool) returns (i: RemoveReplicaIntent)
    requires endpoint("http://r:1/a,b")
    ensures i == Crowd(2, "http://r:1/a,b") && Accepted(i, endpoint) && Reachable(i) && !FenceReadable(i)
  {
    var address := SomeAddressHasComma();
    i := Crowd(2, address);
    CommaIsAcceptedButNotRead(2, address, endpoint);
  }
}
