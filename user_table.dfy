/**
 * The `Users` dictionary of the in-memory storage service, keyed by the string
 * form of each user's identifier, and the effect of each storage operation on
 * it. The class `InMemoryStorageService` performs these steps in place.
 */
module UserTable {
  import opened Wrappers
  import opened DotNet
  import opened Guids
  import opened TargetUsers

  type Users = map<string, TargetUser>

  /** Every key is the string form of its record's identifier. */
  predicate KeysMatchIdentifiers(users: Users) {
    forall k :: k in users ==> k == ToString(users[k].identifier)
  }

  /** No two records have ordinal-equal user names (two nulls are equal). */
  predicate UserNamesUnique(users: Users) {
    forall k, k' :: k in users && k' in users && k != k' ==> users[k].userName != users[k'].userName
  }

  /** The invariant the storage operations keep. */
  function Valid(users: Users): (r: bool)
    ensures r ==> forall k :: k in users ==> !UserNameTakenByOther(users, users[k])
  {
    KeysMatchIdentifiers(users) && UserNamesUnique(users)
  }

  /** Some stored user's name is ordinal-equal to `name`. */
  function UserNameTaken(users: Users, name: Str): (r: bool)
    ensures r <==> exists u :: u in users.Values && u.userName == name
  {
    exists k :: k in users && users[k].userName == name
  }

  /** Some stored user other than `user` (by identifier) has `user`'s name. */
  function UserNameTakenByOther(users: Users, user: TargetUser): (r: bool)
    ensures r ==> UserNameTaken(users, user.userName)
  {
    exists k :: k in users && users[k].userName == user.userName && users[k].identifier != user.identifier
  }

  /** The dictionary after an operation, and what the operation returned or threw. */
  datatype Step<+T> = Step(users: Users, result: Result<T, Exception>)

  const ConflictError := Exception(ConflictMessage)
  const NotFoundError := Exception(NotFoundMessage)

  /**
   * `CreateUser`: Conflict if the name is taken; otherwise the record, with
   * the new identifier written into it, is added under that identifier's
   * string form (and `Dictionary.Add` throws if that key is already there).
   */
  function Create(users: Users, user: TargetUser, newId: Guid): (s: Step<TargetUser>)
    ensures UserNameTaken(users, user.userName) ==> s == Step(users, Failure(ConflictError))
    ensures !UserNameTaken(users, user.userName) && ToString(newId) in users ==> s == Step(users, Failure(DuplicateKey))
    ensures s.result.Failure? ==> s.users == users
    ensures s.result.Success? <==> !UserNameTaken(users, user.userName) && ToString(newId) !in users
    ensures s.result.Success? ==>
      && s.result.value == user.(identifier := newId)
      && ToString(newId) !in users
      && s.users == users[ToString(newId) := s.result.value]
      && s.users.Keys == users.Keys + {ToString(newId)}
      && |s.users| == |users| + 1
  {
    if UserNameTaken(users, user.userName) then Step(users, Failure(ConflictError))
    else
      var key := ToString(newId);
      var stored := user.(identifier := newId);
      if key in users then Step(users, Failure(DuplicateKey))
      else Step(users[key := stored], Success(stored))
  }

  /** `DeleteUser`: NotFound when absent; otherwise exactly that key goes. */
  function Delete(users: Users, id: Guid): (s: Step<()>)
    ensures ToString(id) !in users ==> s == Step(users, Failure(NotFoundError))
    ensures ToString(id) in users ==> s.result.Success?
    ensures s.result.Success? ==>
      && s.users.Keys == users.Keys - {ToString(id)}
      && |s.users| == |users| - 1
      && forall k :: k in s.users ==> s.users[k] == users[k]
  {
    var key := ToString(id);
    if key in users then Step(users - {key}, Success(())) else Step(users, Failure(NotFoundError))
  }

  /**
   * `UpdateUser`: Conflict if another identifier holds the name, checked
   * before NotFound for an absent identifier; otherwise the entry is replaced.
   */
  function Update(users: Users, user: TargetUser): (s: Step<TargetUser>)
    ensures UserNameTakenByOther(users, user) ==> s == Step(users, Failure(ConflictError))
    ensures !UserNameTakenByOther(users, user) && ToString(user.identifier) !in users ==> s == Step(users, Failure(NotFoundError))
    ensures s.result.Failure? ==> s.users == users
    ensures s.result.Success? <==> !UserNameTakenByOther(users, user) && ToString(user.identifier) in users
    ensures s.result.Success? ==>
      && s.result.value == user
      && s.users == users[ToString(user.identifier) := user]
      && s.users.Keys == users.Keys
  {
    var key := ToString(user.identifier);
    if UserNameTakenByOther(users, user) then Step(users, Failure(ConflictError))
    else if key !in users then Step(users, Failure(NotFoundError))
    else Step(users[key := user], Success(user))
  }

  /** `RetrieveUser`: the stored record, whose identifier is the one asked for. */
  function Retrieve(users: Users, id: Guid): (r: Result<TargetUser, Exception>)
    ensures r.Failure? <==> ToString(id) !in users
    ensures r.Failure? ==> r.error == NotFoundError
    ensures r.Success? ==> r.value == users[ToString(id)]
    ensures r.Success? && Valid(users) ==> r.value.identifier == id
  {
    var key := ToString(id);
    if key in users then
      ToStringInjective(id, users[key].identifier);
      Success(users[key])
    else
      Failure(NotFoundError)
  }

  /** The record matches a query value: equal user names, ignoring case. */
  predicate Matches(user: TargetUser, value: Str) {
    EqualsIgnoreCase(user.userName, value)
  }

  /**
   * `QueryUsers`: with a user name, the users whose name equals it ignoring
   * case; otherwise with an external id, the users whose NAME equals that
   * ignoring case; with neither, every user.
   */
  function Query(users: Users, userName: Str, externalId: Str): (r: set<TargetUser>)
    ensures r <= users.Values
    ensures userName.None? && externalId.None? ==> r == users.Values
    ensures userName.Some? ==> forall u :: u in users.Values ==> (u in r <==> EqualsIgnoreCase(u.userName, userName))
    ensures userName.None? && externalId.Some? ==>
      forall u :: u in users.Values ==> (u in r <==> EqualsIgnoreCase(u.userName, externalId))
  {
    if userName.Some? then set u | u in users.Values && Matches(u, userName)
    else if externalId.Some? then set u | u in users.Values && Matches(u, externalId)
    else users.Values
  }

  // ---------------------------------------------------------------------------
  // The invariant is preserved
  // ---------------------------------------------------------------------------

  /** Create keeps keys matching identifiers and user names unique. */
  lemma CreatePreservesValid(users: Users, user: TargetUser, newId: Guid)
    requires Valid(users)
    ensures Valid(Create(users, user, newId).users)
  {
    var s := Create(users, user, newId);
    if s.result.Success? {
      var key := ToString(newId);
      forall k, k' | k in s.users && k' in s.users && k != k'
        ensures s.users[k].userName != s.users[k'].userName
      {
        if k == key {
          assert k' in users;
        } else if k' == key {
          assert k in users;
        }
      }
    }
  }

  /** Delete keeps the invariant: it only removes an entry. */
  lemma DeletePreservesValid(users: Users, id: Guid)
    requires Valid(users)
    ensures Valid(Delete(users, id).users)
  {
  }

  /**
   * Update keeps the invariant: the entry written is stored under its own
   * identifier, and no other identifier holds its name.
   */
  lemma UpdatePreservesValid(users: Users, user: TargetUser)
    requires Valid(users)
    ensures Valid(Update(users, user).users)
  {
    var s := Update(users, user);
    if s.result.Success? {
      var key := ToString(user.identifier);
      forall k, k' | k in s.users && k' in s.users && k != k'
        ensures s.users[k].userName != s.users[k'].userName
      {
        if k == key {
          assert users[k'].identifier != user.identifier;
        } else if k' == key {
          assert users[k].identifier != user.identifier;
        }
      }
    }
  }

  // ---------------------------------------------------------------------------
  // Properties across operations
  // ---------------------------------------------------------------------------

  /** A stored record keeping its own user name can always be replaced. */
  lemma UpdateKeepingOwnNameSucceeds(users: Users, user: TargetUser)
    requires Valid(users)
    requires ToString(user.identifier) in users
    requires user.userName == users[ToString(user.identifier)].userName
    ensures Update(users, user) == Step(users[ToString(user.identifier) := user], Success(user))
  {
    var key := ToString(user.identifier);
    if UserNameTakenByOther(users, user) {
      var k :| k in users && users[k].userName == user.userName && users[k].identifier != user.identifier;
      ToStringInjective(users[k].identifier, user.identifier);
      assert false;
    }
  }

  /** An unknown identifier with a colliding name yields Conflict, not NotFound. */
  lemma UnknownIdWithTakenNameIsConflict(users: Users, user: TargetUser, other: string)
    requires Valid(users)
    requires ToString(user.identifier) !in users
    requires other in users && users[other].userName == user.userName
    ensures Update(users, user).result == Failure(ConflictError)
  {
    if users[other].identifier == user.identifier {
      assert false;
    }
  }

  /** After a successful create the new identifier retrieves the created record. */
  lemma CreateThenRetrieve(users: Users, user: TargetUser, newId: Guid)
    requires Create(users, user, newId).result.Success?
    ensures Retrieve(Create(users, user, newId).users, newId) == Success(user.(identifier := newId))
  {
  }

  /** A second create with the same user name fails with Conflict. */
  lemma CreateSameNameTwiceConflicts(users: Users, user: TargetUser, other: TargetUser, id1: Guid, id2: Guid)
    requires Create(users, user, id1).result.Success?
    requires other.userName == user.userName
    ensures Create(Create(users, user, id1).users, other, id2) == Step(Create(users, user, id1).users, Failure(ConflictError))
  {
    var after := Create(users, user, id1).users;
    assert after[ToString(id1)].userName == other.userName;
  }

  /** Deleting the same identifier twice: the second delete fails with NotFound. */
  lemma DeleteTwiceNotFound(users: Users, id: Guid)
    requires ToString(id) in users
    ensures Delete(Delete(users, id).users, id) == Step(Delete(users, id).users, Failure(NotFoundError))
  {
  }

  /** The external-id query compares against the user name. */
  lemma ExternalIdQueriesUserName(users: Users, value: string)
    ensures Query(users, None, Some(value)) == Query(users, Some(value), None)
  {
  }

  /** A user-name filter takes precedence over an external-id filter. */
  lemma UserNameTakesPrecedence(users: Users, userName: string, externalId: Str)
    ensures Query(users, Some(userName), externalId) == Query(users, Some(userName), None)
  {
  }

  /** Querying a stored name finds its record, and at most one record has exactly that name. */
  lemma QueryFindsExactName(users: Users, k: string)
    requires Valid(users) && k in users && users[k].userName.Some?
    ensures users[k] in Query(users, users[k].userName, None)
    ensures forall u :: u in Query(users, users[k].userName, None) && u.userName == users[k].userName ==> u == users[k]
  {
    OrdinalImpliesIgnoreCase(users[k].userName, users[k].userName);
    forall u | u in Query(users, users[k].userName, None) && u.userName == users[k].userName
      ensures u == users[k]
    {
      var k' :| k' in users && users[k'] == u;
    }
  }

  /**
   * Names differing only in case may coexist, and a query for either returns
   * both records.
   */
  lemma CaseVariantsCoexist(a: Guid, b: Guid, alice: TargetUser, lower: TargetUser)
    requires a != b
    requires alice.identifier == a && alice.userName == Some("Alice")
    requires lower.identifier == b && lower.userName == Some("alice")
    ensures var users := map[ToString(a) := alice, ToString(b) := lower];
      && Valid(users)
      && Query(users, Some("ALICE"), None) == {alice, lower}
  {
    ToStringInjective(a, b);
    CaseVariantsDifferOrdinally();
    var users := map[ToString(a) := alice, ToString(b) := lower];
    assert EqualsIgnoreCase(Some("Alice"), Some("ALICE"));
    assert EqualsIgnoreCase(Some("alice"), Some("ALICE"));
    assert ToString(a) != ToString(b);
    assert users[ToString(a)] == alice && users[ToString(b)] == lower;
    assert users.Values == {alice, lower};
  }
}
