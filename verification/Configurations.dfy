/** Frozen replica-set configurations: what is installed, what the runtime reports, and the signature. */
module Configurations {
  import opened Basics
  import opened Sorting
  import opened Texts

  datatype Role = Unknown | Primary | ActiveSecondary | IdleSecondary | NoRole

  datatype ReplicaStatus = Up | Down

  datatype Epoch = Epoch(dataLossNumber: int, configurationNumber: int)

  datatype ProgressSource = Frozen(currentProgress: int, catchUpCapability: int) | BuildCopyLsn

  datatype MemberDescriptor = MemberDescriptor(
    id: int, instanceId: string, role: Role, status: ReplicaStatus, replicatorAddress: string,
    mustCatchUp: bool, progress: ProgressSource)

  datatype ConfigurationDescriptor = ConfigurationDescriptor(members: seq<MemberDescriptor>, writeQuorum: U32)

  datatype ReplicaInfo = ReplicaInfo(
    id: int, instanceId: string, role: Role, status: ReplicaStatus, replicatorAddress: string,
    currentProgress: int, catchUpCapability: int, mustCatchUp: bool)

  datatype ReplicaSetConfig = ReplicaSetConfig(members: seq<ReplicaInfo>, writeQuorum: U32)

  datatype ConfigurationMode = CatchUp | Current

  datatype MemberStatus = MemberStatus(id: int, instanceId: string, role: Role)

  datatype ConfigurationStatus = ConfigurationStatus(
    mode: ConfigurationMode, members: seq<MemberStatus>, writeQuorum: U32)

  predicate InfoLe(a: ReplicaInfo, b: ReplicaInfo) { a.id <= b.id }

  predicate StatusLe(a: MemberStatus, b: MemberStatus) { a.id <= b.id }

  // ---------------------------------------------------------------- installing and observing

  /** A member with its progress fixed, unless it waits for a copy that has no LSN yet. */
  function InfoOf(m: MemberDescriptor, copyLsn: Option<int>): Option<ReplicaInfo>
  {
    if m.progress.BuildCopyLsn? && copyLsn.None? then None
    else
      var lsns := if m.progress.Frozen? then (m.progress.currentProgress, m.progress.catchUpCapability)
                  else (copyLsn.value, copyLsn.value);
      Some(ReplicaInfo(m.id, m.instanceId, m.role, m.status, m.replicatorAddress, lsns.0, lsns.1, m.mustCatchUp))
  }

  predicate Ready(members: seq<MemberDescriptor>, copyLsn: Option<int>)
  {
    forall i :: 0 <= i < |members| ==> InfoOf(members[i], copyLsn).Some?
  }

  function InfosOf(members: seq<MemberDescriptor>, copyLsn: Option<int>): (r: seq<ReplicaInfo>)
    requires Ready(members, copyLsn)
    ensures |r| == |members|
  {
    seq(|members|, i requires 0 <= i < |members| => InfoOf(members[i], copyLsn).value)
  }

  /** The configuration to install; the error names the first member without a copy LSN. */
  method Materialize(d: ConfigurationDescriptor, copyLsn: Option<int>) returns (r: Result<ReplicaSetConfig, int>)
    ensures r.Ok? <==> Ready(d.members, copyLsn)
    ensures r.Ok? ==> r.value == ReplicaSetConfig(Sort(InfosOf(d.members, copyLsn), InfoLe), d.writeQuorum)
    ensures r.Err? ==> exists i :: 0 <= i < |d.members| && InfoOf(d.members[i], copyLsn).None?
                         && r.error == d.members[i].id && Ready(d.members[..i], copyLsn)
  {
    var members := [];
    for i := 0 to |d.members|
      invariant Ready(d.members[..i], copyLsn)
      invariant members == InfosOf(d.members[..i], copyLsn)
    {
      var info := InfoOf(d.members[i], copyLsn);
      if info.None? { return Err(d.members[i].id); }
      members := members + [info.value];
    }
    assert d.members[..|d.members|] == d.members;
    r := Ok(ReplicaSetConfig(Sort(members, InfoLe), d.writeQuorum));
  }

  function StatusOfInfo(m: ReplicaInfo): MemberStatus { MemberStatus(m.id, m.instanceId, m.role) }

  function StatusOfMember(m: MemberDescriptor): MemberStatus { MemberStatus(m.id, m.instanceId, m.role) }

  /** What the runtime reports once it has installed a configuration. */
  function FromConfig(mode: ConfigurationMode, config: ReplicaSetConfig): ConfigurationStatus
  {
    ConfigurationStatus(mode, Sort(Map(StatusOfInfo, config.members), StatusLe), config.writeQuorum)
  }

  /** What a descriptor expects the runtime to report. */
  function StatusOf(d: ConfigurationDescriptor, mode: ConfigurationMode): ConfigurationStatus
  {
    ConfigurationStatus(mode, Sort(Map(StatusOfMember, d.members), StatusLe), d.writeQuorum)
  }

  /** Installing a materialized descriptor is always recognised, whatever its members and their order. */
  lemma {:induction false} InstallingIsRecognised(d: ConfigurationDescriptor, copyLsn: Option<int>,
                                                  mode: ConfigurationMode)
    requires Ready(d.members, copyLsn)
    ensures FromConfig(mode, ReplicaSetConfig(Sort(InfosOf(d.members, copyLsn), InfoLe), d.writeQuorum))
            == StatusOf(d, mode)
  {
    var infos := InfosOf(d.members, copyLsn);
    SortMaps(infos, StatusOfInfo, InfoLe, StatusLe);
    assert Map(StatusOfInfo, infos) == Map(StatusOfMember, d.members);
    SortIsSorted(Map(StatusOfMember, d.members), StatusLe);
    SortOfSorted(Sort(Map(StatusOfMember, d.members), StatusLe), StatusLe);
  }

  // ---------------------------------------------------------------- order of members

  predicate DistinctIds(members: seq<MemberDescriptor>)
  {
    forall i, j :: 0 <= i < j < |members| ==> members[i].id != members[j].id
  }

  /** With distinct ids, the order in which a descriptor lists its members cannot be observed. */
  lemma {:induction false} StatusForgetsOrder(a: ConfigurationDescriptor, b: ConfigurationDescriptor,
                                              mode: ConfigurationMode)
    requires DistinctIds(a.members) && multiset(a.members) == multiset(b.members) && a.writeQuorum == b.writeQuorum
    ensures StatusOf(a, mode) == StatusOf(b, mode)
  {
    MapKeepsElements(StatusOfMember, a.members, b.members);
    SortForgetsOrder(Map(StatusOfMember, a.members), Map(StatusOfMember, b.members), StatusLe);
  }

  /** The expected status lists strictly increasing ids, and exactly the members' identities. */
  lemma {:induction false} StatusIsStrictlySorted(d: ConfigurationDescriptor, mode: ConfigurationMode)
    requires DistinctIds(d.members)
    ensures var s := StatusOf(d, mode).members;
            && multiset(s) == multiset(Map(StatusOfMember, d.members))
            && |s| == |d.members|
            && forall i, j :: 0 <= i < j < |s| ==> s[i].id < s[j].id
  {
    var raw, s := Map(StatusOfMember, d.members), StatusOf(d, mode).members;
    SortKeepsElements(raw, StatusLe);
    SortIsSorted(raw, StatusLe);
    assert |multiset(s)| == |multiset(raw)|;
    forall i, j | 0 <= i < j < |s| ensures s[i].id != s[j].id { IdsStayDistinct(d.members, s, i, j); }
  }

  lemma {:induction false} IdsStayDistinct(members: seq<MemberDescriptor>, s: seq<MemberStatus>, i: nat, j: nat)
    requires DistinctIds(members) && multiset(s) == multiset(Map(StatusOfMember, members))
    requires i < j < |s|
    ensures s[i].id != s[j].id
  {
    var raw := Map(StatusOfMember, members);
    assert s[i] in multiset(raw) && s[j] in multiset(raw);
    var p :| 0 <= p < |raw| && raw[p] == s[i];
    var q :| 0 <= q < |raw| && raw[q] == s[j];
    assert NoDuplicates(raw);
    SameElementsNoDuplicates(raw, s);
    assert p != q;
  }

  // ---------------------------------------------------------------- signature

  function IntText(n: int): string { if n < 0 then "-" + Dec(-n) else Dec(n) }

  function RoleText(r: Role): string
  {
    match r
    case Unknown => "Unknown"
    case Primary => "Primary"
    case ActiveSecondary => "ActiveSecondary"
    case IdleSecondary => "IdleSecondary"
    case NoRole => "None"
  }

  function ProgressText(p: ProgressSource): string
  {
    if p.Frozen? then "frozen:" + IntText(p.currentProgress) + ":" + IntText(p.catchUpCapability)
    else "build-copy-lsn"
  }

  function MemberText(m: MemberDescriptor): string
  {
    IntText(m.id) + "@" + m.instanceId + ":" + RoleText(m.role) + ":" + (if m.status.Up? then "Up" else "Down")
    + ":" + m.replicatorAddress + ":" + (if m.mustCatchUp then "true" else "false") + ":"
    + ProgressText(m.progress)
  }

  function Signature(d: ConfigurationDescriptor): string
  {
    "q" + Dec(d.writeQuorum) + "[" + Joined(Sort(Map(MemberText, d.members), TextLe), ',') + "]"
  }

  /** The signature never depends on the order of the members, distinct ids or not. */
  lemma {:induction false} SignatureForgetsOrder(a: ConfigurationDescriptor, b: ConfigurationDescriptor)
    requires multiset(a.members) == multiset(b.members) && a.writeQuorum == b.writeQuorum
    ensures Signature(a) == Signature(b)
  {
    var x, y := Map(MemberText, a.members), Map(MemberText, b.members);
    MapKeepsElements(MemberText, a.members, b.members);
    TextLeIsOrder();
    forall i, j | 0 <= i < |x| && 0 <= j < |x| && TextLe(x[i], x[j]) && TextLe(x[j], x[i]) ensures x[i] == x[j] {
      TextLeTotal(x[i], x[j]);
    }
    SortForgetsOrder(x, y, TextLe);
  }
}
