/**
 * What each operation of `ScimUserProvider` does to the `Users` dictionary
 * and what it reports: pre-validation, a call into the storage service, and
 * the translation of the service's exception messages into HTTP statuses.
 */
module UserProvider {
  import opened Wrappers
  import opened DotNet
  import opened Guids
  import opened Scim
  import opened TargetUsers
  import UserTable

  type Users = UserTable.Users

  /** The dictionary after an operation, and the operation's outcome. */
  datatype Response<+T> = Response(users: Users, outcome: Outcome<T>)

  /** The canonical form of each user in a set. */
  function Project(users: set<TargetUser>): (r: set<Core2EnterpriseUser>)
    ensures forall u :: u in users ==> ToCore2EnterpriseUser(u) in r
    ensures forall c :: c in r ==> exists u :: u in users && c == ToCore2EnterpriseUser(u)
  {
    set u | u in users :: ToCore2EnterpriseUser(u)
  }

  /** The statuses the create path handles by name. */
  const CreateHandled: set<StatusCode> := {Conflict}
  /** The statuses the replace and patch paths handle by name. */
  const ReplaceHandled: set<StatusCode> := {Conflict, NotFound}
  /** The statuses the retrieve path handles by name. */
  const RetrieveHandled: set<StatusCode> := {NotFound}

  /** The status a storage failure on the create path is reported as. */
  function CreateStatus(e: Exception): (s: StatusCode)
    ensures s == (if e == UserTable.ConflictError then Conflict else InternalServerError)
  {
    Translate(e, CreateHandled)
  }

  /** The status a failure on the replace or patch path is reported as. */
  function ReplaceStatus(e: Exception): (s: StatusCode)
    ensures s == (if e == UserTable.ConflictError then Conflict
                  else if e == UserTable.NotFoundError then NotFound
                  else InternalServerError)
  {
    Translate(e, ReplaceHandled)
  }

  // ---------------------------------------------------------------------------
  // Create
  // ---------------------------------------------------------------------------

  /**
   * `CreateAsync`: 400 for a resource that carries an identifier or a blank
   * user name; otherwise convert (inside the try block) and store, reporting
   * Conflict as 409 and any other exception as 500.
   */
  function Create(users: Users, resource: Core2EnterpriseUser, newId: Guid): (r: Response<Core2EnterpriseUser>)
    ensures resource.identifier.Some? ==> r == Response(users, Http(BadRequest))
    ensures IsNullOrWhiteSpace(resource.userName) ==> r == Response(users, Http(BadRequest))
    ensures r.outcome.Http? && r.outcome.status == Conflict ==> UserTable.UserNameTaken(users, resource.userName)
  {
    if resource.identifier.Some? then Response(users, Http(BadRequest))
    else if IsNullOrWhiteSpace(resource.userName) then Response(users, Http(BadRequest))
    else
      match FromCore2EnterpriseUser(resource)
      case Failure(e) => Response(users, Http(CreateStatus(e)))
      case Success(target) =>
        var s := UserTable.Create(users, target, newId);
        match s.result
        case Failure(e) => Response(s.users, Http(CreateStatus(e)))
        case Success(stored) => Response(s.users, Ok(ToCore2EnterpriseUser(stored)))
  }

  /**
   * Every create ends in an error and leaves the dictionary unchanged: one
   * that passes validation has a null identifier, which the conversion hands
   * to `new Guid`, so it ends in 500 without reaching the store.
   */
  lemma CreateNeverStores(users: Users, resource: Core2EnterpriseUser, newId: Guid)
    ensures Create(users, resource, newId).users == users
    ensures Create(users, resource, newId).outcome in {Http(BadRequest), Http(InternalServerError)}
    ensures resource.identifier.None? && !IsNullOrWhiteSpace(resource.userName) ==>
      Create(users, resource, newId).outcome == Http(InternalServerError)
  {
    if resource.identifier.None? {
      RuntimeExceptionsAreServerErrors(ArgumentNull, CreateHandled);
    }
  }

  /**
   * The create the handler evidently intends: the same validation, then the
   * conversion with a null check on the identifier, then the store, which
   * writes the new identifier into the record.
   */
  function CreateIntended(users: Users, resource: Core2EnterpriseUser, newId: Guid): (r: Response<Core2EnterpriseUser>)
    ensures resource.identifier.Some? || IsNullOrWhiteSpace(resource.userName) ==> r == Response(users, Http(BadRequest))
    ensures !r.outcome.Ok? ==> r.users == users
    ensures r.outcome == Http(Conflict) <==>
      && resource.identifier.None? && !IsNullOrWhiteSpace(resource.userName)
      && FromCore2EnterpriseUserGuarded(resource).Success?
      && UserTable.UserNameTaken(users, resource.userName)
    ensures r.outcome.Ok? ==> FromCore2EnterpriseUserGuarded(resource).Success?
    ensures r.outcome.Ok? && FromCore2EnterpriseUserGuarded(resource).Success? ==>
      var stored := FromCore2EnterpriseUserGuarded(resource).value.(identifier := newId);
      && ToString(newId) !in users
      && r.users == users[ToString(newId) := stored]
      && r.outcome.value == ToCore2EnterpriseUser(stored)
  {
    if resource.identifier.Some? then Response(users, Http(BadRequest))
    else if IsNullOrWhiteSpace(resource.userName) then Response(users, Http(BadRequest))
    else
      match FromCore2EnterpriseUserGuarded(resource)
      case Failure(e) =>
        assert IsRuntimeException(e);
        RuntimeExceptionsAreServerErrors(e, CreateHandled);
        Response(users, Http(CreateStatus(e)))
      case Success(target) =>
        var s := UserTable.Create(users, target, newId);
        match s.result
        case Failure(e) =>
          assert e == UserTable.ConflictError || e == DuplicateKey;
          Response(s.users, Http(CreateStatus(e)))
        case Success(stored) => Response(s.users, Ok(ToCore2EnterpriseUser(stored)))
  }

  /**
   * With the null check in place, a valid new user whose name is free and
   * whose fresh identifier is unused is stored, and retrieving it by that
   * identifier gives back what create returned.
   */
  lemma CreateIntendedStores(users: Users, resource: Core2EnterpriseUser, newId: Guid, correlationIdentifier: Str)
    requires UserTable.Valid(users)
    requires resource.identifier.None? && !IsNullOrWhiteSpace(resource.userName)
    requires FromCore2EnterpriseUserGuarded(resource).Success?
    requires !UserTable.UserNameTaken(users, resource.userName)
    requires ToString(newId) !in users
    requires !IsNullOrWhiteSpace(correlationIdentifier)
    ensures var r := CreateIntended(users, resource, newId);
      && r.outcome.Ok?
      && UserTable.Valid(r.users)
      && r.outcome.value.identifier == Some(ToString(newId))
      && Retrieve(r.users, Some(RetrievalParameters(Some(ResourceIdentifier(Some(ToString(newId)))))), correlationIdentifier)
           == r.outcome
  {
    var target := FromCore2EnterpriseUserGuarded(resource).value;
    UserTable.CreatePreservesValid(users, target, newId);
    ToStringNotBlank(newId);
    NewGuidOfToString(newId);
  }

  // ---------------------------------------------------------------------------
  // Delete
  // ---------------------------------------------------------------------------

  /**
   * `DeleteAsync`: 404 for a blank identifier; a malformed identifier or the
   * store's NotFound are both reported as 400.
   */
  function Delete(users: Users, resourceIdentifier: Option<ResourceIdentifier>): (r: Response<()>)
    ensures var id := IdentifierOf(resourceIdentifier);
      && (IsNullOrWhiteSpace(id) ==> r == Response(users, Http(NotFound)))
      && (!IsNullOrWhiteSpace(id) && !r.outcome.Ok? ==> r == Response(users, Http(BadRequest)))
      && (r.outcome.Ok? <==>
            !IsNullOrWhiteSpace(id) && NewGuid(id).Success? && ToString(NewGuid(id).value) in users)
      && (r.outcome.Ok? ==> r.users == users - {ToString(NewGuid(id).value)})
  {
    var id := IdentifierOf(resourceIdentifier);
    if IsNullOrWhiteSpace(id) then Response(users, Http(NotFound))
    else
      match NewGuid(id)
      case Failure(_) => Response(users, Http(BadRequest))
      case Success(identifier) =>
        var s := UserTable.Delete(users, identifier);
        if s.result.Failure? then Response(s.users, Http(BadRequest)) else Response(s.users, Ok(()))
  }

  // ---------------------------------------------------------------------------
  // Query
  // ---------------------------------------------------------------------------

  /**
   * `QueryAsync`: the argument checks, then `SingleOrDefault` on the filters
   * (more than one throws), then the filter checks. Without a filter every
   * user is returned; an equality filter on `userName` or `externalId`
   * selects by user name, ignoring case.
   */
  function Query(users: Users, parameters: Option<QueryParameters>, correlationIdentifier: Str)
    : (r: Outcome<set<Core2EnterpriseUser>>)
    ensures !ParametersAccepted(parameters, correlationIdentifier) ==> r == ArgumentError
    ensures ParametersAccepted(parameters, correlationIdentifier) ==>
      var filters := parameters.value.alternateFilters.value;
      && (|filters| > 1 ==> r == InvalidOperation)
      && (|filters| == 0 ==> r == Ok(Project(users.Values)))
      && ((|filters| == 1 && (IsNullOrWhiteSpace(filters[0].attributePath) || IsNullOrWhiteSpace(filters[0].comparisonValue)))
            ==> r == ArgumentError)
      && ((|filters| == 1 && !IsNullOrWhiteSpace(filters[0].attributePath) && !IsNullOrWhiteSpace(filters[0].comparisonValue)
           && filters[0].filterOperator != Equals)
            ==> r == NotSupported)
      && (EqualityFilterOn(filters, UserNameAttribute) || EqualityFilterOn(filters, ExternalIdentifierAttribute) ==>
            r == Ok(Project(set u | u in users.Values && EqualsIgnoreCase(u.userName, filters[0].comparisonValue))))
      && ((|filters| == 1 && !IsNullOrWhiteSpace(filters[0].attributePath) && !IsNullOrWhiteSpace(filters[0].comparisonValue)
           && filters[0].filterOperator == Equals
           && filters[0].attributePath != Some(UserNameAttribute)
           && filters[0].attributePath != Some(ExternalIdentifierAttribute))
            ==> r == NotSupported)
    ensures r.Ok? ==> r.value <= Project(users.Values)
  {
    if !ParametersAccepted(parameters, correlationIdentifier) then ArgumentError
    else
      var filters := parameters.value.alternateFilters.value;
      if |filters| > 1 then InvalidOperation
      else if |filters| == 0 then Ok(Project(UserTable.Query(users, None, None)))
      else
        var filter := filters[0];
        assert !IsWhiteSpace(UserNameAttribute[0]) && !IsWhiteSpace(ExternalIdentifierAttribute[0]);
        if IsNullOrWhiteSpace(filter.attributePath) then ArgumentError
        else if IsNullOrWhiteSpace(filter.comparisonValue) then ArgumentError
        else if filter.filterOperator != Equals then NotSupported
        else if filter.attributePath == Some(UserNameAttribute) then
          var selected := UserTable.Query(users, filter.comparisonValue, None);
          assert selected == set u | u in users.Values && EqualsIgnoreCase(u.userName, filter.comparisonValue);
          Ok(Project(selected))
        else if filter.attributePath == Some(ExternalIdentifierAttribute) then
          var selected := UserTable.Query(users, None, filter.comparisonValue);
          assert selected == set u | u in users.Values && EqualsIgnoreCase(u.userName, filter.comparisonValue);
          Ok(Project(selected))
        else NotSupported
  }

  // ---------------------------------------------------------------------------
  // Replace
  // ---------------------------------------------------------------------------

  /**
   * `ReplaceAsync`: 400 for a missing identifier or a blank user name;
   * otherwise convert and update, reporting Conflict as 409, NotFound as 404
   * and anything else, conversion failures included, as 500.
   */
  function Replace(users: Users, resource: Core2EnterpriseUser): (r: Response<Core2EnterpriseUser>)
    ensures resource.identifier.None? || IsNullOrWhiteSpace(resource.userName) ==> r == Response(users, Http(BadRequest))
    ensures !r.outcome.Ok? ==> r.users == users
    ensures resource.identifier.Some? && !IsNullOrWhiteSpace(resource.userName) ==>
      match FromCore2EnterpriseUser(resource)
      case Failure(_) => r == Response(users, Http(InternalServerError))
      case Success(target) =>
        && (r.outcome == Http(Conflict) <==> UserTable.UserNameTakenByOther(users, target))
        && (r.outcome == Http(NotFound) <==>
              !UserTable.UserNameTakenByOther(users, target) && ToString(target.identifier) !in users)
        && (r.outcome.Ok? ==>
              r.outcome.value == ToCore2EnterpriseUser(target)
              && r.users == users[ToString(target.identifier) := target])
        && (r.outcome.Ok? || r.outcome == Http(Conflict) || r.outcome == Http(NotFound))
  {
    if resource.identifier.None? then Response(users, Http(BadRequest))
    else if IsNullOrWhiteSpace(resource.userName) then Response(users, Http(BadRequest))
    else
      match FromCore2EnterpriseUser(resource)
      case Failure(e) =>
        RuntimeExceptionsAreServerErrors(e, ReplaceHandled);
        Response(users, Http(ReplaceStatus(e)))
      case Success(target) =>
        var s := UserTable.Update(users, target);
        match s.result
        case Failure(e) => Response(s.users, Http(ReplaceStatus(e)))
        case Success(stored) => Response(s.users, Ok(ToCore2EnterpriseUser(stored)))
  }

  // ---------------------------------------------------------------------------
  // Retrieve
  // ---------------------------------------------------------------------------

  /** `parameters?.ResourceIdentifier?.Identifier`. */
  function RetrievedIdentifier(parameters: RetrievalParameters): Str {
    IdentifierOf(parameters.resourceIdentifier)
  }

  /**
   * `RetrieveAsync`: argument errors for missing parameters, a blank
   * correlation identifier or an empty identifier; NotFound is reported as
   * 404, anything else (a malformed identifier) as 500.
   */
  function Retrieve(users: Users, parameters: Option<RetrievalParameters>, correlationIdentifier: Str)
    : (r: Outcome<Core2EnterpriseUser>)
    ensures parameters.None? || IsNullOrWhiteSpace(correlationIdentifier) ==> r == ArgumentError
    ensures parameters.Some? && IsNullOrEmpty(RetrievedIdentifier(parameters.value)) ==> r == ArgumentError
    ensures parameters.Some? && !IsNullOrWhiteSpace(correlationIdentifier) && !IsNullOrEmpty(RetrievedIdentifier(parameters.value)) ==>
      var id := RetrievedIdentifier(parameters.value);
      && (NewGuid(id).Failure? ==> r == Http(InternalServerError))
      && (NewGuid(id).Success? && ToString(NewGuid(id).value) !in users ==> r == Http(NotFound))
      && (NewGuid(id).Success? && ToString(NewGuid(id).value) in users ==>
            r == Ok(ToCore2EnterpriseUser(users[ToString(NewGuid(id).value)])))
  {
    if parameters.None? then ArgumentError
    else if IsNullOrWhiteSpace(correlationIdentifier) then ArgumentError
    else
      var id := RetrievedIdentifier(parameters.value);
      if IsNullOrEmpty(id) then ArgumentError
      else
        match NewGuid(id)
        case Failure(e) =>
          RuntimeExceptionsAreServerErrors(e, RetrieveHandled);
          Http(Translate(e, RetrieveHandled))
        case Success(identifier) =>
          match UserTable.Retrieve(users, identifier)
          case Failure(e) => Http(Translate(e, RetrieveHandled))
          case Success(user) => Ok(ToCore2EnterpriseUser(user))
  }

  // ---------------------------------------------------------------------------
  // Update (patch)
  // ---------------------------------------------------------------------------

  /**
   * `UpdateAsync`: validate the patch, then retrieve the stored user, project
   * it, let the patch engine `apply` the request's operations, convert the
   * result back and replace; Conflict is 409, NotFound 404, anything else 500.
   */
  function Update(
    users: Users,
    patch: Option<Patch>,
    apply: (Core2EnterpriseUser, seq<string>) -> Result<Core2EnterpriseUser, Exception>)
    : (r: Response<()>)
    ensures !PatchAccepted(patch) ==> r == Response(users, ArgumentError)
    ensures PatchAccepted(patch) && !patch.value.patchRequest.value.PatchRequest2? ==> r == Response(users, NotSupported)
    ensures !r.outcome.Ok? ==> r.users == users
    ensures PatchAccepted(patch) && patch.value.patchRequest.value.PatchRequest2? ==>
      var id := patch.value.resourceIdentifier.value.identifier;
      && (NewGuid(id).Failure? ==> r.outcome == Http(InternalServerError))
      && (NewGuid(id).Success? && ToString(NewGuid(id).value) !in users ==> r.outcome == Http(NotFound))
      && (NewGuid(id).Success? && ToString(NewGuid(id).value) in users ==>
            var patched := apply(ToCore2EnterpriseUser(users[ToString(NewGuid(id).value)]),
                                 patch.value.patchRequest.value.operations);
            && (patched.Failure? ==> r.outcome == Http(ReplaceStatus(patched.error)))
            && (patched.Success? && FromCore2EnterpriseUser(patched.value).Failure? ==>
                  r.outcome == Http(InternalServerError))
            && (patched.Success? && FromCore2EnterpriseUser(patched.value).Success? ==>
                  var s := UserTable.Update(users, FromCore2EnterpriseUser(patched.value).value);
                  && r.users == s.users
                  && (s.result.Success? ==> r.outcome == Ok(()))
                  && (s.result.Failure? ==> r.outcome == Http(ReplaceStatus(s.result.error)))))
  {
    if !PatchAccepted(patch) then Response(users, ArgumentError)
    else
      var request := patch.value.patchRequest.value;
      if !request.PatchRequest2? then Response(users, NotSupported)
      else
        match NewGuid(patch.value.resourceIdentifier.value.identifier)
        case Failure(e) =>
          RuntimeExceptionsAreServerErrors(e, ReplaceHandled);
          Response(users, Http(ReplaceStatus(e)))
        case Success(identifier) =>
          match UserTable.Retrieve(users, identifier)
          case Failure(e) => Response(users, Http(ReplaceStatus(e)))
          case Success(target) =>
            match apply(ToCore2EnterpriseUser(target), request.operations)
            case Failure(e) => Response(users, Http(ReplaceStatus(e)))
            case Success(patched) =>
              match FromCore2EnterpriseUser(patched)
              case Failure(e) =>
                RuntimeExceptionsAreServerErrors(e, ReplaceHandled);
                Response(users, Http(ReplaceStatus(e)))
              case Success(user) =>
                var s := UserTable.Update(users, user);
                match s.result
                case Failure(e) => Response(s.users, Http(ReplaceStatus(e)))
                case Success(_) => Response(s.users, Ok(()))
  }

  /**
   * A patch whose operations change nothing still rewrites the record: it
   * succeeds on any stored user and clears its `PhysicalDeliveryOfficeName`,
   * which the round trip through the canonical form does not carry.
   */
  lemma NoOpPatchClearsOfficeName(users: Users, id: Guid, operations: seq<string>)
    requires UserTable.Valid(users)
    requires ToString(id) in users
    ensures var patch := Some(Patch(Some(ResourceIdentifier(Some(ToString(id)))), Some(PatchRequest2(operations))));
      var key := ToString(id);
      Update(users, patch, (c, ops) => Success(c))
        == Response(users[key := users[key].(physicalDeliveryOfficeName := None)], Ok(()))
  {
    var key := ToString(id);
    var stored := users[key];
    ToStringNotBlank(id);
    NewGuidOfToString(id);
    ToStringInjective(id, stored.identifier);
    RoundTrip(stored);
    var cleared := stored.(physicalDeliveryOfficeName := None);
    UserTable.UpdateKeepingOwnNameSucceeds(users, cleared);
  }

  // ---------------------------------------------------------------------------
  // Properties across operations
  // ---------------------------------------------------------------------------

  /**
   * Deleting a stored user by its identifier succeeds; afterwards retrieving
   * it is 404, and deleting it again is 400, not 404.
   */
  lemma DeleteThenRetrieveOrDeleteAgain(users: Users, id: Guid, correlationIdentifier: Str)
    requires ToString(id) in users
    requires !IsNullOrWhiteSpace(correlationIdentifier)
    ensures var target := Some(ResourceIdentifier(Some(ToString(id))));
      var r := Delete(users, target);
      && r.outcome.Ok?
      && Retrieve(r.users, Some(RetrievalParameters(target)), correlationIdentifier) == Http(NotFound)
      && Delete(r.users, target) == Response(r.users, Http(BadRequest))
  {
    ToStringNotBlank(id);
    NewGuidOfToString(id);
  }

  /**
   * Replacing a stored user with its own canonical form succeeds and
   * changes only its `PhysicalDeliveryOfficeName`, which becomes null.
   */
  lemma ReplaceWithRetrievedClearsOfficeName(users: Users, id: Guid)
    requires UserTable.Valid(users)
    requires ToString(id) in users
    requires !IsNullOrWhiteSpace(users[ToString(id)].userName)
    ensures var key := ToString(id);
      var cleared := users[key].(physicalDeliveryOfficeName := None);
      Replace(users, ToCore2EnterpriseUser(users[key]))
        == Response(users[key := cleared], Ok(ToCore2EnterpriseUser(cleared)))
  {
    var key := ToString(id);
    var stored := users[key];
    ToStringInjective(id, stored.identifier);
    RoundTrip(stored);
    UserTable.UpdateKeepingOwnNameSucceeds(users, stored.(physicalDeliveryOfficeName := None));
  }
}
