/**
 * `InMemoryStorageService`: the user operations over a `Users` dictionary
 * that the service changes in place.
 */
module InMemoryStorage {
  import opened Wrappers
  import opened DotNet
  import opened Guids
  import opened TargetUsers
  import opened UserTable

  class InMemoryStorageService {
    var users: Users

    /** Keys match identifiers and user names are unique. */
    ghost predicate Valid()
      reads this
    {
      UserTable.Valid(users)
    }

    constructor()
      ensures Valid() && users == map[]
    {
      users := map[];
    }

    /** `QueryUsers`; it changes nothing. */
    method QueryUsers(userName: Str, externalId: Str) returns (r: set<TargetUser>)
      ensures r == Query(users, userName, externalId)
    {
      if userName.Some? {
        return set u | u in users.Values && EqualsIgnoreCase(u.userName, userName);
      } else if externalId.Some? {
        return set u | u in users.Values && EqualsIgnoreCase(u.userName, externalId);
      }
      return users.Values;
    }

    /** `CreateUser`; `newId` is the value `Guid.NewGuid()` returned. */
    method CreateUser(user: TargetUser, newId: Guid) returns (r: Result<TargetUser, Exception>)
      requires Valid()
      modifies this
      ensures Valid()
      ensures Step(users, r) == Create(old(users), user, newId)
    {
      if exists k :: k in users && users[k].userName == user.userName {
        return Failure(ConflictError);
      }
      CreatePreservesValid(users, user, newId);
      var resourceIdentifier := newId;
      var stored := user.(identifier := resourceIdentifier);
      var key := ToString(resourceIdentifier);
      if key in users {
        return Failure(DuplicateKey);
      }
      users := users[key := stored];
      r := Success(users[key]);
    }

    /** `DeleteUser`. */
    method DeleteUser(identifier: Guid) returns (r: Result<(), Exception>)
      requires Valid()
      modifies this
      ensures Valid()
      ensures Step(users, r) == Delete(old(users), identifier)
    {
      DeletePreservesValid(users, identifier);
      var key := ToString(identifier);
      if key in users {
        users := users - {key};
        r := Success(());
      } else {
        r := Failure(NotFoundError);
      }
    }

    /** `UpdateUser`: the name check first, then the existence check. */
    method UpdateUser(user: TargetUser) returns (r: Result<TargetUser, Exception>)
      requires Valid()
      modifies this
      ensures Valid()
      ensures Step(users, r) == Update(old(users), user)
    {
      UpdatePreservesValid(users, user);
      if exists k :: k in users && users[k].userName == user.userName && users[k].identifier != user.identifier {
        return Failure(ConflictError);
      }
      var key := ToString(user.identifier);
      if key !in users {
        return Failure(NotFoundError);
      }
      users := users[key := user];
      r := Success(users[key]);
    }

    /** `RetrieveUser`; it changes nothing. */
    method RetrieveUser(identifier: Guid) returns (r: Result<TargetUser, Exception>)
      ensures r == Retrieve(users, identifier)
    {
      var key := ToString(identifier);
      if key !in users {
        return Failure(NotFoundError);
      }
      r := Success(users[key]);
    }
  }
}
