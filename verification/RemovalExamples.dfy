/** Accepted intents of every size, for the results that need an input to point at. */
module RemovalExamples {
  import opened Basics
  import opened Texts
  import opened Configurations
  import opened Removal

  function Name(k: nat): (name: string)
    ensures |name| == k + 1 && forall j :: 0 <= j <= k ==> name[j] == 'r'
  {
    seq(k + 1, _ => 'r')
  }

  function CrowdMember(k: nat, address: string): MemberDescriptor
  {
    MemberDescriptor(k + 2, Name(k), ActiveSecondary, Up, address, false, Frozen(0, 0))
  }

  function CrowdMembers(from: nat, size: nat, address: string): (r: seq<MemberDescriptor>)
    ensures |r| == size && forall k :: 0 <= k < size ==> r[k] == CrowdMember(from + k, address)
  {
    seq(size, k requires 0 <= k < size => CrowdMember(from + k, address))
  }

  function CrowdDescriptor(from: nat, size: nat, address: string): ConfigurationDescriptor
  {
    ConfigurationDescriptor(CrowdMembers(from, size, address), MajorityOf(size + 1))
  }

  /** The scale-down of the first of `size` secondaries, all up, all at one address. */
  function Unsigned(size: nat, address: string): RemoveReplicaIntent
    requires size >= 2
  {
    RemoveReplicaIntent(
      PROTOCOL_VERSION, "operation", "action", 1, "attempt", "", ScaleDown, Epoch(0, 1),
      1, "p", "generation", 0, address, address,
      2, Name(0), Name(0), "pod", Some("generation"), Some(address), Some(address), Some(PEER_PROTOCOL_VERSION),
      CrowdDescriptor(0, size, address), CrowdDescriptor(1, size - 1, address),
      CrowdDescriptor(1, size - 1, address),
      MajorityOf(size + 1), 1, MAX_PRE_COMMIT_ATTEMPTS,
      600, COMPENSATION_GRACE_SECONDS, 600 + COMPENSATION_GRACE_SECONDS, CALL_TIMEOUT_SECONDS,
      RETIREMENT_TIMEOUT_SECONDS)
  }

  function Crowd(size: nat, address: string): RemoveReplicaIntent
    requires size >= 2
  {
    var i := Unsigned(size, address);
    i.(inputSignature := IntentSignature(i))
  }

  lemma {:induction false} FieldsForgetSignature(i: RemoveReplicaIntent, signature: string, k: nat)
    ensures FieldsFrom(i.(inputSignature := signature), k) == FieldsFrom(i, k)
    decreases 28 - k
  {
    assert Field(i.(inputSignature := signature), k) == Field(i, k);
    if k < 28 { FieldsForgetSignature(i, signature, k + 1); }
  }

  lemma {:induction false} CrowdIsStable(from: nat, size: nat, address: string, endpoint: string -> bool)
    requires address != "" && endpoint(address)
    ensures StableDescriptor(CrowdDescriptor(from, size, address), endpoint)
  {
    var members := CrowdMembers(from, size, address);
    forall i, j | 0 <= i < j < size ensures members[i].instanceId != members[j].instanceId {
      assert |members[i].instanceId| < |members[j].instanceId|;
    }
  }

  lemma {:induction false} AllUp(members: seq<MemberDescriptor>)
    requires forall m :: m in members ==> m.status.Up?
    ensures UpCount(members) == |members|
  {
    if members != [] {
      assert members[0] in members;
      AllUp(members[1..]);
    }
  }

  lemma {:induction false} PrimaryIsNoMember(i: RemoveReplicaIntent, from: nat, size: nat, address: string)
    requires i.primaryReplicaId == 1 && i.primaryInstanceId == "p"
    ensures !ListsPrimary(i, CrowdDescriptor(from, size, address))
  {
    forall m | m in CrowdMembers(from, size, address)
      ensures m.id != i.primaryReplicaId && m.instanceId != i.primaryInstanceId
    {
      assert m.instanceId[0] == 'r';
    }
  }

  lemma {:induction false} CrowdHasOneFewer(size: nat, address: string)
    requires size >= 2
    ensures OneTarget(Unsigned(size, address)) && OneFewer(Unsigned(size, address))
  {
    var i := Unsigned(size, address);
    var target := i.previous.members[0];
    assert target in i.previous.members && IsTarget(i, target);
    forall m | m in i.reducedCurrent.members
      ensures m in i.previous.members && m.id != i.targetReplicaId && m.instanceId != i.targetInstanceId
    {
      var k :| 0 <= k < size - 1 && i.reducedCurrent.members[k] == m;
      assert i.previous.members[k + 1] == m;
      assert |m.instanceId| == k + 2;
    }
  }

  lemma {:induction false} CrowdIsRelated(size: nat, address: string)
    requires size >= 2
    ensures Related(Unsigned(size, address))
  {
    var i := Unsigned(size, address);
    CrowdHasOneFewer(size, address);
    PrimaryIsNoMember(i, 0, size, address);
    PrimaryIsNoMember(i, 1, size - 1, address);
  }

  lemma {:induction false} CrowdIsLimited(size: nat, address: string)
    requires size >= 2
    ensures WithinLimits(Unsigned(size, address))
  {
    AllUp(CrowdMembers(1, size - 1, address));
    MajoritiesOverlap(size + 1);
    MajoritiesOverlap(size);
  }

  lemma {:induction false} CrowdIsSound(size: nat, address: string, endpoint: string -> bool)
    requires size >= 2 && address != "" && endpoint(address)
    ensures Sound(Unsigned(size, address), endpoint)
  {
    CrowdIsStable(0, size, address, endpoint);
    CrowdIsStable(1, size - 1, address, endpoint);
    CrowdIsRelated(size, address);
    CrowdIsLimited(size, address);
  }

  lemma {:induction false} RelatedIgnoresSignature(i: RemoveReplicaIntent, signature: string)
    requires Related(i)
    ensures Related(i.(inputSignature := signature))
  {
    var signed := i.(inputSignature := signature);
    var target :| target in i.previous.members && IsTarget(i, target) && target.role == ActiveSecondary
                  && (i.mode.ScaleDown? ==> target.status.Up?);
    assert IsTarget(signed, target);
  }

  lemma {:induction false} SoundIgnoresSignature(i: RemoveReplicaIntent, signature: string,
                                                 endpoint: string -> bool)
    requires Sound(i, endpoint)
    ensures Sound(i.(inputSignature := signature), endpoint)
  {
    RelatedIgnoresSignature(i, signature);
    assert WithinLimits(i.(inputSignature := signature)) == WithinLimits(i);
  }

  /** Signing is all that a sound intent lacks. */
  lemma {:induction false} SoundIsAcceptedOnceSigned(i: RemoveReplicaIntent, signature: string,
                                                     endpoint: string -> bool)
    requires Sound(i, endpoint) && signature == IntentSignature(i)
    ensures Accepted(i.(inputSignature := signature), endpoint)
  {
    FieldsForgetSignature(i, signature, 0);
    SoundIgnoresSignature(i, signature, endpoint);
  }

  /** Every crowd is an intent that is accepted, whatever its size. */
  lemma {:induction false} CrowdIsAccepted(size: nat, address: string, endpoint: string -> bool)
    requires size >= 2 && address != "" && endpoint(address)
    ensures Accepted(Crowd(size, address), endpoint)
  {
    CrowdIsSound(size, address, endpoint);
    SoundIsAcceptedOnceSigned(Unsigned(size, address), IntentSignature(Unsigned(size, address)), endpoint);
  }

  /** With 2^32 replicas the quorum computed for the previous set is one replica, and misses half of the others. */
  lemma {:induction false} QuorumsApartInLargeCrowd(endpoint: string -> bool)
    requires endpoint("http://r:1")
    ensures var i := Crowd(U32_MAX, "http://r:1");
            && Accepted(i, endpoint) && |i.previous.members| + 1 == 0x1_0000_0000
            && i.previous.writeQuorum == 1 && !QuorumsIntersect(i)
  {
    CrowdIsAccepted(U32_MAX, "http://r:1", endpoint);
    QuorumsMeet(Crowd(U32_MAX, "http://r:1"), endpoint);
  }
}
