/**
 * The configuration fence of a removal as text, and when the check of a projection against that text succeeds.
 * The text is taken apart at separators that member names and addresses may hold themselves.
 */
module ConfigurationFence {
  import opened Basics
  import opened Texts
  import opened Sorting
  import opened Configurations
  import opened Removal
  import opened StageRequests

  /** The check a Retire request for this intent has to pass. */
  predicate FenceReadable(i: RemoveReplicaIntent)
  {
    FenceAdmits(ReducedStatus(i), FenceText(i))
  }

  /** A member of the previous set whose text holds the separator in front of the reduced configuration. */
  predicate HoldsSeparator(i: RemoveReplicaIntent)
  {
    exists m :: m in i.previous.members && Contains(MemberText(m), CURRENT)
  }

  /** A member whose name or address holds a comma. */
  predicate HoldsComma(d: ConfigurationDescriptor)
  {
    exists m :: m in d.members && (',' in m.instanceId || ',' in m.replicatorAddress)
  }

  function MemberTexts(d: ConfigurationDescriptor): seq<string> { Sort(Map(MemberText, d.members), TextLe) }

  lemma {:induction false} TextIsOfMember(d: ConfigurationDescriptor, t: string)
    requires t in MemberTexts(d)
    ensures exists m :: m in d.members && MemberText(m) == t
  {
    var raw := Map(MemberText, d.members);
    SortKeepsElements(raw, TextLe);
    assert t in multiset(MemberTexts(d));
    var k :| 0 <= k < |raw| && raw[k] == t;
    assert d.members[k] in d.members;
  }

  lemma {:induction false} MemberHasText(d: ConfigurationDescriptor, m: MemberDescriptor)
    requires m in d.members
    ensures MemberText(m) in MemberTexts(d)
  {
    var raw := Map(MemberText, d.members);
    SortKeepsElements(raw, TextLe);
    var k :| 0 <= k < |d.members| && d.members[k] == m;
    assert raw[k] in multiset(raw);
  }

  lemma {:induction false} TextsCount(d: ConfigurationDescriptor)
    ensures |MemberTexts(d)| == |d.members|
  {
    var raw := Map(MemberText, d.members);
    SortKeepsElements(raw, TextLe);
    assert |multiset(raw)| == |multiset(MemberTexts(d))|;
  }

  // ---------------------------------------------------------------- taking the text apart

  predicate Free(text: string) { !Contains(text, CURRENT) }

  lemma {:induction false} JoinedIsFree(d: ConfigurationDescriptor)
    requires forall m :: m in d.members ==> Free(MemberText(m))
    ensures Free(Joined(MemberTexts(d), ','))
  {
    forall t | t in MemberTexts(d) ensures Free(t) { TextIsOfMember(d, t); }
    WithinOneText(MemberTexts(d), ',', CURRENT);
  }

  lemma {:induction false} CatchUpIsFree(quorum: nat)
    ensures Free(CATCH_UP + ("q" + Dec(quorum)))
  {
    var before, after := ";reduced-catch-u", "=q" + Dec(quorum);
    NeedsItsFirst(after, CURRENT);
    OnOneSide(before, 'p', after, CURRENT);
    assert CATCH_UP + ("q" + Dec(quorum)) == before + ['p'] + after;
  }

  lemma {:induction false} Regroup(head: string, a: string, x: string, middle: string, b: string, y: string,
                                   separator: string, tail: string)
    ensures head + (a + "[" + x + "]") + middle + (b + "[" + y + "]") + separator + tail
            == head + a + ['['] + x + [']'] + (middle + b) + ['['] + y + [']'] + (separator + tail)
  {
  }

  /** Two bracketed lists in front of the separator do not hide it. */
  lemma {:induction false} PieceAfterLists(head: string, a: string, x: string, middle: string, b: string, y: string,
                                           separator: string, tail: string)
    requires '[' !in separator && ']' !in separator && separator != ""
    requires !Contains(head + a, separator) && !Contains(x, separator) && !Contains(middle + b, separator)
    requires !Contains(y, separator) && !Contains(tail, separator)
    ensures SecondPiece(head + (a + "[" + x + "]") + middle + (b + "[" + y + "]") + separator + tail, separator)
            == Some(tail)
  {
    OnOneSide(head + a, '[', x, separator);
    OnOneSide(head + a + ['['] + x, ']', middle + b, separator);
    var front := head + a + ['['] + x + [']'] + (middle + b) + ['['] + y;
    OnOneSide(head + a + ['['] + x + [']'] + (middle + b), '[', y, separator);
    PieceIsTail(front, ']', separator, tail);
    Regroup(head, a, x, middle, b, y, separator, tail);
  }

  lemma {:induction false} SignatureIsFree(d: ConfigurationDescriptor)
    requires Free(Joined(MemberTexts(d), ','))
    ensures Free(Signature(d))
  {
    var a, x := "q" + Dec(d.writeQuorum), Joined(MemberTexts(d), ',');
    NeedsItsFirst(a, CURRENT);
    OnOneSide(a, '[', x, CURRENT);
    NeedsItsFirst("", CURRENT);
    OnOneSide(a + ['['] + x, ']', "", CURRENT);
    assert Signature(d) == a + ['['] + x + [']'] + "";
  }

  lemma {:induction false} ListsAreFree(i: RemoveReplicaIntent)
    requires OneFewer(i) && !HoldsSeparator(i)
    ensures Free(Joined(MemberTexts(i.previous), ',')) && Free(Joined(MemberTexts(i.reducedCurrent), ','))
  {
    JoinedIsFree(i.previous);
    JoinedIsFree(i.reducedCurrent);
  }

  lemma {:induction false} PieceOfDescriptors(a: ConfigurationDescriptor, b: ConfigurationDescriptor, tail: string)
    requires Free(Joined(MemberTexts(a), ',')) && Free(Joined(MemberTexts(b), ',')) && Free(tail)
    ensures SecondPiece(PREVIOUS + Signature(a) + CATCH_UP + Signature(b) + CURRENT + tail, CURRENT) == Some(tail)
  {
    NeedsItsFirst(PREVIOUS + ("q" + Dec(a.writeQuorum)), CURRENT);
    CatchUpIsFree(b.writeQuorum);
    PieceAfterLists(PREVIOUS, "q" + Dec(a.writeQuorum), Joined(MemberTexts(a), ','),
                    CATCH_UP, "q" + Dec(b.writeQuorum), Joined(MemberTexts(b), ','), CURRENT, tail);
  }

  lemma {:induction false} PieceIsReduced(i: RemoveReplicaIntent)
    requires OneFewer(i) && !HoldsSeparator(i)
    ensures SecondPiece(FenceText(i), CURRENT) == Some(Signature(i.reducedCurrent))
  {
    ListsAreFree(i);
    SignatureIsFree(i.reducedCurrent);
    PieceOfDescriptors(i.previous, i.reducedCatchUp, Signature(i.reducedCurrent));
  }

  // ---------------------------------------------------------------- reading the configuration

  /** The characters the texts are taken apart at. */
  predicate Splits(c: char) { c == ',' || c == ';' }

  lemma {:induction false} InRow(c: char, id: string, name: string, role: string, status: string, address: string,
                                 flag: string, progress: string)
    requires Splits(c)
    requires c !in id && c !in role && c !in status && c !in flag && c !in progress
    ensures c in id + "@" + name + ":" + role + ":" + status + ":" + address + ":" + flag + ":" + progress
            <==> c in name || c in address
  {
  }

  lemma {:induction false} NotInNumbers(c: char, n: int)
    requires Splits(c)
    ensures c !in IntText(n)
  {
  }

  lemma {:induction false} NotInProgress(c: char, p: ProgressSource)
    requires Splits(c)
    ensures c !in ProgressText(p)
  {
    if p.Frozen? {
      NotInNumbers(c, p.currentProgress);
      NotInNumbers(c, p.catchUpCapability);
    }
  }

  lemma {:induction false} InMember(c: char, m: MemberDescriptor)
    requires Splits(c)
    ensures c in MemberText(m) <==> c in m.instanceId || c in m.replicatorAddress
  {
    NotInNumbers(c, m.id);
    NotInProgress(c, m.progress);
    InRow(c, IntText(m.id), m.instanceId, RoleText(m.role), if m.status.Up? then "Up" else "Down",
          m.replicatorAddress, if m.mustCatchUp then "true" else "false", ProgressText(m.progress));
  }

  /** A name or an address imitates the separator only with a semicolon. */
  lemma {:induction false} SeparatorNeedsSemicolon(i: RemoveReplicaIntent)
    requires forall m :: m in i.previous.members ==> ';' !in m.instanceId && ';' !in m.replicatorAddress
    ensures !HoldsSeparator(i)
  {
    forall m | m in i.previous.members ensures !Contains(MemberText(m), CURRENT) {
      InMember(';', m);
      NeedsItsFirst(MemberText(m), CURRENT);
    }
  }

  lemma {:induction false} ContainsThrough(text: string, middle: string, part: string)
    requires Contains(text, middle) && Contains(middle, part)
    ensures Contains(text, part)
  {
    var k :| 0 <= k <= |text| && At(text, middle, k);
    assert text == text[..k] + middle + text[k + |middle|..];
    InContext(text[..k], middle, text[k + |middle|..], part);
  }

  lemma {:induction false} IdentityIsInText(m: MemberDescriptor)
    ensures Contains(MemberText(m), IdentityText(StatusOfMember(m)))
  {
    assert At(MemberText(m), IdentityText(StatusOfMember(m)), 0);
  }

  lemma {:induction false} TextIsInSignature(d: ConfigurationDescriptor, t: string)
    requires t in MemberTexts(d)
    ensures Contains(Signature(d), t)
  {
    var k :| 0 <= k < |MemberTexts(d)| && MemberTexts(d)[k] == t;
    JoinedContains(MemberTexts(d), ',', k);
    InContext("q" + Dec(d.writeQuorum) + "[", Joined(MemberTexts(d), ','), "]", t);
  }

  lemma {:induction false} MemberIsListed(d: ConfigurationDescriptor, m: MemberDescriptor)
    requires m in d.members
    ensures Contains(Signature(d), IdentityText(StatusOfMember(m)))
  {
    MemberHasText(d, m);
    TextIsInSignature(d, MemberText(m));
    IdentityIsInText(m);
    ContainsThrough(Signature(d), MemberText(m), IdentityText(StatusOfMember(m)));
  }

  lemma {:induction false} CommasAreInTexts(d: ConfigurationDescriptor)
    ensures HoldsComma(d) <==> exists t :: t in MemberTexts(d) && ',' in t
  {
    if HoldsComma(d) {
      var m :| m in d.members && (',' in m.instanceId || ',' in m.replicatorAddress);
      MemberHasText(d, m);
      InMember(',', m);
    }
    if t :| t in MemberTexts(d) && ',' in t {
      TextIsOfMember(d, t);
      var m :| m in d.members && MemberText(m) == t;
      InMember(',', m);
    }
  }

  lemma {:induction false} CountBetweenBrackets(prefix: string, texts: seq<string>)
    requires forall t :: t in texts ==> t != ""
    ensures prefix <= prefix + Joined(texts, ',') + "]"
    ensures ListedCount(prefix + Joined(texts, ',') + "]", prefix) == |texts|
            <==> forall t :: t in texts ==> ',' !in t
  {
    var joined := Joined(texts, ',');
    assert (prefix + joined + "]")[|prefix|..] == joined + "]";
    assert (joined + "]")[..|joined|] == joined;
    if texts != [] {
      assert texts[0] in texts;
      SeparatorsAreBetween(texts, ',');
    }
  }

  /** The members are counted right exactly when no name and no address holds a comma. */
  lemma {:induction false} CountIsRight(d: ConfigurationDescriptor, prefix: string)
    requires prefix == "q" + Dec(d.writeQuorum) + "["
    ensures prefix <= Signature(d)
    ensures ListedCount(Signature(d), prefix) == |d.members| <==> !HoldsComma(d)
  {
    TextsCount(d);
    forall t | t in MemberTexts(d) ensures t != "" { TextIsOfMember(d, t); }
    CommasAreInTexts(d);
    CountBetweenBrackets(prefix, MemberTexts(d));
    assert Signature(d) == prefix + Joined(MemberTexts(d), ',') + "]";
  }

  lemma {:induction false} StatusMemberIsListed(d: ConfigurationDescriptor, mode: ConfigurationMode, s: MemberStatus)
    requires s in StatusOf(d, mode).members
    ensures exists m :: m in d.members && StatusOfMember(m) == s
  {
    var raw := Map(StatusOfMember, d.members);
    SortKeepsElements(raw, StatusLe);
    assert s in multiset(Sort(raw, StatusLe));
    var k :| 0 <= k < |raw| && raw[k] == s;
    assert d.members[k] in d.members;
  }

  /**
   * Unless a member's text imitates the fence, the check of the reduced projection against the fence succeeds
   * exactly when no retained name and no retained address holds a comma.
   */
  lemma {:induction false} FenceIsReadable(i: RemoveReplicaIntent)
    requires OneFewer(i) && DistinctIds(i.reducedCurrent.members) && !HoldsSeparator(i)
    ensures FenceReadable(i) <==> !HoldsComma(i.reducedCurrent)
  {
    var d := i.reducedCurrent;
    PieceIsReduced(i);
    CountIsRight(d, QuorumPrefix(ReducedStatus(i)));
    StatusIsStrictlySorted(d, Current);
    var p := ReducedStatus(i);
    forall k | 0 <= k < |p.members| ensures Contains(Signature(d), Map(IdentityText, p.members)[k]) {
      StatusMemberIsListed(d, Current, p.members[k]);
      var m :| m in d.members && StatusOfMember(m) == p.members[k];
      MemberIsListed(d, m);
    }
  }
}
