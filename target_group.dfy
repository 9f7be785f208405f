/**
 * `TargetGroup`, the internal Group record, and the two explicit conversions
 * between it and the canonical `Core2Group`.
 */
module TargetGroups {
  import opened Wrappers
  import opened DotNet
  import opened Guids
  import opened Scim

  /** The internal Group record; `members` may be null. */
  datatype TargetGroup = TargetGroup(identifier: Guid, displayName: Str, objectId: Str, members: Option<seq<Guid>>)

  /** The member type written for every member: only users are members. */
  const UserMemberType := "User"

  /** The canonical member entry for a user identifier. */
  function UserMember(id: Guid): Member {
    Member(Some(UserMemberType), Some(ToString(id)))
  }

  // ---------------------------------------------------------------------------
  // TargetGroup -> Core2Group
  // ---------------------------------------------------------------------------

  /** One member entry per identifier, in the same order, each typed "User". */
  function MembersToCanonical(ids: seq<Guid>): (r: seq<Member>)
    ensures |r| == |ids|
    ensures forall i :: 0 <= i < |ids| ==> r[i] == UserMember(ids[i])
  {
    if |ids| == 0 then [] else [UserMember(ids[0])] + MembersToCanonical(ids[1..])
  }

  /** The `foreach` that fills the member list, as a loop. */
  method BuildMembers(ids: Option<seq<Guid>>) returns (members: seq<Member>)
    ensures members == MembersToCanonical(ids.GetOr([]))
  {
    members := [];
    if ids.Some? {
      var i := 0;
      while i < |ids.value|
        invariant 0 <= i <= |ids.value|
        invariant members == MembersToCanonical(ids.value[..i])
      {
        ghost var done := ids.value[..i];
        assert ids.value[..i + 1] == done + [ids.value[i]];
        members := members + [UserMember(ids.value[i])];
        assert members == MembersToCanonical(ids.value[..i + 1]);
        i := i + 1;
      }
      assert ids.value[..i] == ids.value;
    }
  }

  /**
   * The explicit conversion to `Core2Group`; a null member list becomes an
   * empty one.
   */
  function ToCore2Group(group: TargetGroup): (r: Core2Group)
    ensures r.identifier == Some(ToString(group.identifier))
    ensures r.displayName == group.displayName && r.externalIdentifier == group.objectId
    ensures r.members == Some(MembersToCanonical(group.members.GetOr([])))
    ensures group.members.None? ==> r.members == Some([])
  {
    Core2Group(
      Some(ToString(group.identifier)),
      group.displayName,
      group.objectId,
      Some(MembersToCanonical(group.members.GetOr([]))))
  }

  // ---------------------------------------------------------------------------
  // Core2Group -> TargetGroup
  // ---------------------------------------------------------------------------

  /** Member `i` is the first whose value `new Guid` rejects. */
  predicate IsFirstBadMember(members: seq<Member>, i: int) {
    && 0 <= i < |members|
    && NewGuid(members[i].value).Failure?
    && forall j :: 0 <= j < i ==> NewGuid(members[j].value).Success?
  }

  /**
   * `new Guid(member.Value)` for each member in order; the type is never
   * looked at. The first value that does not parse throws.
   */
  function ParseMembers(members: seq<Member>): (r: Result<seq<Guid>, Exception>)
    ensures r.Success? <==> forall i :: 0 <= i < |members| ==> NewGuid(members[i].value).Success?
    ensures r.Success? ==> |r.value| == |members|
    ensures r.Success? ==> forall i :: 0 <= i < |members| ==> NewGuid(members[i].value) == Success(r.value[i])
    ensures r.Failure? ==> exists i :: IsFirstBadMember(members, i) && NewGuid(members[i].value) == Failure(r.error)
  {
    if |members| == 0 then Success([])
    else
      var head := NewGuid(members[0].value);
      if head.Failure? then
        assert IsFirstBadMember(members, 0);
        Failure(head.error)
      else
        var rest := ParseMembers(members[1..]);
        if rest.Failure? then
          var i :| IsFirstBadMember(members[1..], i) && NewGuid(members[1..][i].value) == Failure(rest.error);
          assert IsFirstBadMember(members, i + 1);
          Failure(rest.error)
        else
          assert forall i :: 1 <= i < |members| ==> members[i] == members[1..][i - 1];
          Success([head.value] + rest.value)
  }

  /** The `foreach` that parses the members, as a loop that stops at the first exception. */
  method ParseMemberList(members: seq<Member>) returns (r: Result<seq<Guid>, Exception>)
    ensures r == ParseMembers(members)
  {
    var ids: seq<Guid> := [];
    var i := 0;
    while i < |members|
      invariant 0 <= i <= |members|
      invariant |ids| == i
      invariant forall j :: 0 <= j < i ==> NewGuid(members[j].value) == Success(ids[j])
    {
      var parsed := NewGuid(members[i].value);
      if parsed.Failure? {
        assert IsFirstBadMember(members, i);
        ghost var k :| IsFirstBadMember(members, k) && NewGuid(members[k].value) == Failure(ParseMembers(members).error);
        FirstBadMemberUnique(members, i);
        return Failure(parsed.error);
      }
      ids := ids + [parsed.value];
      i := i + 1;
    }
    assert ParseMembers(members).value == ids;
    r := Success(ids);
  }

  /** Only one member can be the first bad one. */
  lemma FirstBadMemberUnique(members: seq<Member>, i: int)
    requires IsFirstBadMember(members, i)
    ensures forall k :: IsFirstBadMember(members, k) ==> k == i
  {
  }

  /**
   * The explicit conversion to `TargetGroup`. A null identifier leaves
   * `Guid.Empty`; a null member list becomes an empty one.
   */
  function FromCore2Group(group: Core2Group): (r: Result<TargetGroup, Exception>)
    ensures group.identifier.None? && r.Success? ==> r.value.identifier == Empty
    ensures group.identifier.Some? && r.Success? ==> Parse(group.identifier.value) == Some(r.value.identifier)
    ensures group.identifier.Some? && Parse(group.identifier.value).None? ==> r == Failure(BadGuidFormat)
    ensures r.Success? <==>
      && (group.identifier.Some? ==> Parse(group.identifier.value).Some?)
      && (group.members.Some? ==> ParseMembers(group.members.value).Success?)
    ensures r.Failure? ==> r.error in {ArgumentNull, BadGuidFormat}
    ensures r.Success? ==> r.value.displayName == group.displayName && r.value.objectId == group.externalIdentifier
    ensures r.Success? ==> r.value.members == Some(if group.members.None? then [] else ParseMembers(group.members.value).value)
  {
    var identifier :- if group.identifier.None? then Success(Empty) else NewGuid(group.identifier);
    var members :- if group.members.None? then Success([]) else ParseMembers(group.members.value);
    Success(TargetGroup(identifier, group.displayName, group.externalIdentifier, Some(members)))
  }

  // ---------------------------------------------------------------------------
  // Properties
  // ---------------------------------------------------------------------------

  /** Converting the canonical members of some identifiers gives those identifiers back. */
  lemma ParseMembersToCanonical(ids: seq<Guid>)
    ensures ParseMembers(MembersToCanonical(ids)) == Success(ids)
  {
    var members := MembersToCanonical(ids);
    forall i | 0 <= i < |ids| ensures NewGuid(members[i].value) == Success(ids[i]) {
      NewGuidOfToString(ids[i]);
    }
    var parsed := ParseMembers(members);
    assert parsed.Success?;
    assert parsed.value == ids;
  }

  /**
   * Internal -> canonical -> internal keeps the identifier, display name,
   * object id and member sequence (duplicates and order included); only a
   * null member list comes back empty.
   */
  lemma RoundTrip(group: TargetGroup)
    ensures FromCore2Group(ToCore2Group(group)) == Success(group.(members := Some(group.members.GetOr([]))))
  {
    NewGuidOfToString(group.identifier);
    ParseMembersToCanonical(group.members.GetOr([]));
  }

  /** The member type plays no part: members differing only in their type convert alike. */
  lemma {:induction false} MemberTypeIgnored(members: seq<Member>, others: seq<Member>)
    requires |members| == |others|
    requires forall i :: 0 <= i < |members| ==> members[i].value == others[i].value
    ensures ParseMembers(members) == ParseMembers(others)
  {
    if |members| > 0 {
      MemberTypeIgnored(members[1..], others[1..]);
    }
  }

  /** Duplicate members are kept: equal member values give equal identifiers at both positions. */
  lemma DuplicatesRetained(members: seq<Member>, i: int, j: int)
    requires ParseMembers(members).Success?
    requires 0 <= i < |members| && 0 <= j < |members| && members[i].value == members[j].value
    ensures ParseMembers(members).value[i] == ParseMembers(members).value[j]
  {
  }

  /** A group whose members carry a type other than "User" converts all the same. */
  lemma NonUserMemberAccepted(id: Guid)
    ensures FromCore2Group(Core2Group(None, Some("g"), None, Some([Member(Some("Group"), Some(ToString(id)))])))
         == Success(TargetGroup(Empty, Some("g"), None, Some([id])))
  {
    NewGuidOfToString(id);
    ParseMembersToCanonical([id]);
    MemberTypeIgnored([Member(Some("Group"), Some(ToString(id)))], MembersToCanonical([id]));
  }
}
