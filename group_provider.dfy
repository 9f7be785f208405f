/**
 * `ScimGroupProvider`: the SCIM group endpoints. The group half of the
 * storage interface has no implementation, so the facade is stated over any
 * store: a state `S` and five functions standing for the interface's group
 * operations. Each operation threads the store's state and reports an
 * outcome.
 */
module GroupProvider {
  import opened Wrappers
  import opened DotNet
  import opened Guids
  import opened Scim
  import opened TargetGroups

  /** A store operation's new state, and what it returned or threw. */
  datatype StoreStep<S, +T> = StoreStep(state: S, result: Result<T, Exception>)

  /**
   * `QueryGroups(displayName, externalId)`, `CreateGroup`, `DeleteGroup`,
   * `UpdateGroup` and `RetrieveGroup`; the queries only read the state.
   */
  datatype GroupStore<!S> = GroupStore(
    queryGroups: (S, Str, Str) -> seq<TargetGroup>,
    createGroup: (S, TargetGroup) -> StoreStep<S, TargetGroup>,
    deleteGroup: (S, Guid) -> StoreStep<S, ()>,
    updateGroup: (S, TargetGroup) -> StoreStep<S, TargetGroup>,
    retrieveGroup: (S, Guid) -> Result<TargetGroup, Exception>)

  /** The store's state after an operation, and the operation's outcome. */
  datatype Response<S, +T> = Response(state: S, outcome: Outcome<T>)

  /** The statuses each path's catch block handles by name. */
  const CreateHandled: set<StatusCode> := {Conflict, NotAcceptable}
  const ReplaceHandled: set<StatusCode> := {Conflict, NotFound}
  const RetrieveHandled: set<StatusCode> := {NotFound}
  const PatchHandled: set<StatusCode> := {Conflict, NotFound, NotAcceptable}

  /** The store step failed with an exception whose message is `message`. */
  predicate FailedWith<S, T>(s: StoreStep<S, T>, message: string) {
    s.result.Failure? && s.result.error.message == message
  }

  // ---------------------------------------------------------------------------
  // Create
  // ---------------------------------------------------------------------------

  /** A create request that passes validation: no identifier, a non-blank display name. */
  predicate CreateAccepted(resource: Core2Group) {
    resource.identifier.None? && !IsNullOrWhiteSpace(resource.displayName)
  }

  /**
   * `CreateAsync`: 400 for a present identifier or a blank display name;
   * otherwise convert and store, reporting Conflict as 409, InvalidMemberType
   * as 406 and anything else as 500.
   */
  function Create<S>(store: GroupStore<S>, state: S, resource: Core2Group): (r: Response<S, Core2Group>)
    ensures !CreateAccepted(resource) ==> r == Response(state, Http(BadRequest))
    ensures CreateAccepted(resource) && FromCore2Group(resource).Failure? ==> r == Response(state, Http(InternalServerError))
    ensures CreateAccepted(resource) && FromCore2Group(resource).Success? ==>
      var s := store.createGroup(state, FromCore2Group(resource).value);
      && r.state == s.state
      && (r.outcome.Ok? <==> s.result.Success?)
      && (r.outcome.Ok? ==> r.outcome.value == ToCore2Group(s.result.value))
      && (r.outcome == Http(Conflict) <==> FailedWith(s, ConflictMessage))
      && (r.outcome == Http(NotAcceptable) <==> FailedWith(s, InvalidMemberTypeMessage))
      && (s.result.Failure? && !FailedWith(s, ConflictMessage) && !FailedWith(s, InvalidMemberTypeMessage) ==>
            r.outcome == Http(InternalServerError))
  {
    if resource.identifier.Some? then Response(state, Http(BadRequest))
    else if IsNullOrWhiteSpace(resource.displayName) then Response(state, Http(BadRequest))
    else
      match FromCore2Group(resource)
      case Failure(e) =>
        RuntimeExceptionsAreServerErrors(e, CreateHandled);
        Response(state, Http(Translate(e, CreateHandled)))
      case Success(target) =>
        var s := store.createGroup(state, target);
        match s.result
        case Failure(e) => Response(s.state, Http(Translate(e, CreateHandled)))
        case Success(group) => Response(s.state, Ok(ToCore2Group(group)))
  }

  // ---------------------------------------------------------------------------
  // Delete
  // ---------------------------------------------------------------------------

  /**
   * `DeleteAsync`: 400 for a blank identifier, and 400 again for any failure
   * while parsing or deleting, the store's NotFound included.
   */
  function Delete<S>(store: GroupStore<S>, state: S, resourceIdentifier: Option<ResourceIdentifier>): (r: Response<S, ()>)
    ensures r.outcome == Ok(()) || r.outcome == Http(BadRequest)
    ensures var id := IdentifierOf(resourceIdentifier);
      && (IsNullOrWhiteSpace(id) || NewGuid(id).Failure? ==> r == Response(state, Http(BadRequest)))
      && (!IsNullOrWhiteSpace(id) && NewGuid(id).Success? ==>
            var s := store.deleteGroup(state, NewGuid(id).value);
            r.state == s.state && (r.outcome.Ok? <==> s.result.Success?))
  {
    var id := IdentifierOf(resourceIdentifier);
    if IsNullOrWhiteSpace(id) then Response(state, Http(BadRequest))
    else
      match NewGuid(id)
      case Failure(_) => Response(state, Http(BadRequest))
      case Success(identifier) =>
        var s := store.deleteGroup(state, identifier);
        if s.result.Failure? then Response(s.state, Http(BadRequest)) else Response(s.state, Ok(()))
  }

  // ---------------------------------------------------------------------------
  // Query
  // ---------------------------------------------------------------------------

  /** Some excluded attribute path is "members", ignoring case. */
  function ExcludesMembers(parameters: QueryParameters): (r: bool)
    ensures parameters.excludedAttributePaths.None? ==> !r
    ensures parameters.excludedAttributePaths.Some? && MembersAttribute in parameters.excludedAttributePaths.value ==> r
    ensures parameters.excludedAttributePaths.Some? && "MEMBERS" in parameters.excludedAttributePaths.value ==> r
  {
    && parameters.excludedAttributePaths.Some?
    && exists i :: 0 <= i < |parameters.excludedAttributePaths.value| &&
         EqualsIgnoreCase(Some(parameters.excludedAttributePaths.value[i]), Some(MembersAttribute))
  }

  /** The canonical form of a group, with its members set to null when they are excluded. */
  function Shape(group: TargetGroup, excludeMembers: bool): (r: Core2Group)
    ensures excludeMembers ==> r.members.None?
    ensures !excludeMembers ==> r == ToCore2Group(group)
    ensures r.(members := None) == ToCore2Group(group).(members := None)
  {
    var canonical := ToCore2Group(group);
    if excludeMembers then canonical.(members := None) else canonical
  }

  /** The results are the groups, in order, shaped as `Shape` says. */
  predicate ShapedAs(results: seq<Core2Group>, groups: seq<TargetGroup>, excludeMembers: bool) {
    |results| == |groups| && forall i :: 0 <= i < |groups| ==> results[i] == Shape(groups[i], excludeMembers)
  }

  /**
   * `QueryAsync`: the argument checks, then `SingleOrDefault` on the
   * filters, then the filter checks. Without a filter every group is
   * returned; an equality filter on `displayName` is passed to the store's
   * display-name query; no other attribute, `externalId` included, is
   * supported.
   */
  function Query<S>(store: GroupStore<S>, state: S, parameters: Option<QueryParameters>, correlationIdentifier: Str)
    : (r: Outcome<seq<Core2Group>>)
    ensures !ParametersAccepted(parameters, correlationIdentifier) ==> r == ArgumentError
    ensures ParametersAccepted(parameters, correlationIdentifier) ==>
      var filters := parameters.value.alternateFilters.value;
      var excluded := ExcludesMembers(parameters.value);
      && (|filters| > 1 ==> r == InvalidOperation)
      && (|filters| == 0 ==> r.Ok? && ShapedAs(r.value, store.queryGroups(state, None, None), excluded))
      && ((|filters| == 1 && (IsNullOrWhiteSpace(filters[0].attributePath) || IsNullOrWhiteSpace(filters[0].comparisonValue)))
            ==> r == ArgumentError)
      && ((|filters| == 1 && !IsNullOrWhiteSpace(filters[0].attributePath) && !IsNullOrWhiteSpace(filters[0].comparisonValue)
           && filters[0].filterOperator != Equals)
            ==> r == NotSupported)
      && (EqualityFilterOn(filters, DisplayNameAttribute) ==>
            r.Ok? && ShapedAs(r.value, store.queryGroups(state, filters[0].comparisonValue, None), excluded))
      && ((|filters| == 1 && !IsNullOrWhiteSpace(filters[0].attributePath) && !IsNullOrWhiteSpace(filters[0].comparisonValue)
           && filters[0].filterOperator == Equals && filters[0].attributePath != Some(DisplayNameAttribute))
            ==> r == NotSupported)
    ensures r.Ok? && ParametersAccepted(parameters, correlationIdentifier) && ExcludesMembers(parameters.value) ==>
      forall i :: 0 <= i < |r.value| ==> r.value[i].members.None?
  {
    if !ParametersAccepted(parameters, correlationIdentifier) then ArgumentError
    else
      var filters := parameters.value.alternateFilters.value;
      if |filters| > 1 then InvalidOperation
      else
        var excluded := ExcludesMembers(parameters.value);
        if |filters| == 0 then
          var buffer := store.queryGroups(state, None, None);
          Ok(seq(|buffer|, i requires 0 <= i < |buffer| => Shape(buffer[i], excluded)))
        else
          var filter := filters[0];
          assert !IsWhiteSpace(DisplayNameAttribute[0]);
          if IsNullOrWhiteSpace(filter.attributePath) then ArgumentError
          else if IsNullOrWhiteSpace(filter.comparisonValue) then ArgumentError
          else if filter.filterOperator != Equals then NotSupported
          else if filter.attributePath == Some(DisplayNameAttribute) then
            var buffer := store.queryGroups(state, filter.comparisonValue, None);
            Ok(seq(|buffer|, i requires 0 <= i < |buffer| => Shape(buffer[i], excluded)))
          else NotSupported
  }

  // ---------------------------------------------------------------------------
  // Replace
  // ---------------------------------------------------------------------------

  /**
   * `ReplaceAsync`: 400 for a missing identifier or a blank display name;
   * otherwise convert and update, reporting Conflict as 409, NotFound as
   * 404 and anything else, InvalidMemberType included, as 500.
   */
  function Replace<S>(store: GroupStore<S>, state: S, resource: Core2Group): (r: Response<S, Core2Group>)
    ensures resource.identifier.None? || IsNullOrWhiteSpace(resource.displayName) ==> r == Response(state, Http(BadRequest))
    ensures r.outcome != Http(NotAcceptable)
    ensures resource.identifier.Some? && !IsNullOrWhiteSpace(resource.displayName) ==>
      match FromCore2Group(resource)
      case Failure(_) => r == Response(state, Http(InternalServerError))
      case Success(target) =>
        var s := store.updateGroup(state, target);
        && r.state == s.state
        && (r.outcome.Ok? <==> s.result.Success?)
        && (r.outcome.Ok? ==> r.outcome.value == ToCore2Group(s.result.value))
        && (r.outcome == Http(Conflict) <==> FailedWith(s, ConflictMessage))
        && (r.outcome == Http(NotFound) <==> FailedWith(s, NotFoundMessage))
        && (s.result.Failure? && !FailedWith(s, ConflictMessage) && !FailedWith(s, NotFoundMessage) ==>
              r.outcome == Http(InternalServerError))
  {
    if resource.identifier.None? then Response(state, Http(BadRequest))
    else if IsNullOrWhiteSpace(resource.displayName) then Response(state, Http(BadRequest))
    else
      match FromCore2Group(resource)
      case Failure(e) =>
        RuntimeExceptionsAreServerErrors(e, ReplaceHandled);
        Response(state, Http(Translate(e, ReplaceHandled)))
      case Success(target) =>
        var s := store.updateGroup(state, target);
        match s.result
        case Failure(e) => Response(s.state, Http(Translate(e, ReplaceHandled)))
        case Success(group) => Response(s.state, Ok(ToCore2Group(group)))
  }

  // ---------------------------------------------------------------------------
  // Retrieve
  // ---------------------------------------------------------------------------

  /**
   * `RetrieveAsync`: argument errors for missing parameters, a blank
   * correlation identifier or an empty identifier; NotFound is reported as
   * 404, anything else as 500.
   */
  function Retrieve<S>(store: GroupStore<S>, state: S, parameters: Option<RetrievalParameters>, correlationIdentifier: Str)
    : (r: Outcome<Core2Group>)
    ensures parameters.None? || IsNullOrWhiteSpace(correlationIdentifier) ==> r == ArgumentError
    ensures parameters.Some? && IsNullOrEmpty(IdentifierOf(parameters.value.resourceIdentifier)) ==> r == ArgumentError
    ensures parameters.Some? && !IsNullOrWhiteSpace(correlationIdentifier)
            && !IsNullOrEmpty(IdentifierOf(parameters.value.resourceIdentifier)) ==>
      var id := IdentifierOf(parameters.value.resourceIdentifier);
      && (NewGuid(id).Failure? ==> r == Http(InternalServerError))
      && (NewGuid(id).Success? ==>
            var found := store.retrieveGroup(state, NewGuid(id).value);
            && (found.Success? ==> r == Ok(ToCore2Group(found.value)))
            && (found.Failure? ==> r == Http(if found.error.message == NotFoundMessage then NotFound else InternalServerError)))
  {
    if parameters.None? then ArgumentError
    else if IsNullOrWhiteSpace(correlationIdentifier) then ArgumentError
    else
      var id := IdentifierOf(parameters.value.resourceIdentifier);
      if IsNullOrEmpty(id) then ArgumentError
      else
        match NewGuid(id)
        case Failure(e) =>
          RuntimeExceptionsAreServerErrors(e, RetrieveHandled);
          Http(Translate(e, RetrieveHandled))
        case Success(identifier) =>
          match store.retrieveGroup(state, identifier)
          case Failure(e) => Http(Translate(e, RetrieveHandled))
          case Success(group) => Ok(ToCore2Group(group))
  }

  // ---------------------------------------------------------------------------
  // Update (patch)
  // ---------------------------------------------------------------------------

  /** The status a failure on the patch path is reported as. */
  function PatchStatus(e: Exception): (s: StatusCode)
    ensures s == (if e.message == ConflictMessage then Conflict
                  else if e.message == NotFoundMessage then NotFound
                  else if e.message == InvalidMemberTypeMessage then NotAcceptable
                  else InternalServerError)
  {
    Translate(e, PatchHandled)
  }

  /**
   * `UpdateAsync`: validate the patch, then retrieve the group, project it,
   * let the patch engine `apply` the request's operations, convert the
   * result back and update; Conflict is 409, NotFound 404, InvalidMemberType
   * 406 and anything else 500.
   */
  function Update<S>(
    store: GroupStore<S>,
    state: S,
    patch: Option<Patch>,
    apply: (Core2Group, seq<string>) -> Result<Core2Group, Exception>)
    : (r: Response<S, ()>)
    ensures !PatchAccepted(patch) ==> r == Response(state, ArgumentError)
    ensures PatchAccepted(patch) && !patch.value.patchRequest.value.PatchRequest2? ==> r == Response(state, NotSupported)
    ensures PatchAccepted(patch) && patch.value.patchRequest.value.PatchRequest2? ==>
      var id := patch.value.resourceIdentifier.value.identifier;
      && (NewGuid(id).Failure? ==> r == Response(state, Http(InternalServerError)))
      && (NewGuid(id).Success? && store.retrieveGroup(state, NewGuid(id).value).Failure? ==>
            r == Response(state, Http(PatchStatus(store.retrieveGroup(state, NewGuid(id).value).error))))
      && (NewGuid(id).Success? && store.retrieveGroup(state, NewGuid(id).value).Success? ==>
            var patched := apply(ToCore2Group(store.retrieveGroup(state, NewGuid(id).value).value),
                                 patch.value.patchRequest.value.operations);
            && (patched.Failure? ==> r == Response(state, Http(PatchStatus(patched.error))))
            && (patched.Success? && FromCore2Group(patched.value).Failure? ==>
                  r == Response(state, Http(InternalServerError)))
            && (patched.Success? && FromCore2Group(patched.value).Success? ==>
                  var s := store.updateGroup(state, FromCore2Group(patched.value).value);
                  && r.state == s.state
                  && (s.result.Success? ==> r.outcome == Ok(()))
                  && (s.result.Failure? ==> r.outcome == Http(PatchStatus(s.result.error)))))
  {
    if !PatchAccepted(patch) then Response(state, ArgumentError)
    else
      var request := patch.value.patchRequest.value;
      if !request.PatchRequest2? then Response(state, NotSupported)
      else
        match NewGuid(patch.value.resourceIdentifier.value.identifier)
        case Failure(e) =>
          RuntimeExceptionsAreServerErrors(e, PatchHandled);
          Response(state, Http(PatchStatus(e)))
        case Success(identifier) =>
          match store.retrieveGroup(state, identifier)
          case Failure(e) => Response(state, Http(PatchStatus(e)))
          case Success(target) =>
            match apply(ToCore2Group(target), request.operations)
            case Failure(e) => Response(state, Http(PatchStatus(e)))
            case Success(patched) =>
              match FromCore2Group(patched)
              case Failure(e) =>
                RuntimeExceptionsAreServerErrors(e, PatchHandled);
                Response(state, Http(PatchStatus(e)))
              case Success(group) =>
                var s := store.updateGroup(state, group);
                match s.result
                case Failure(e) => Response(s.state, Http(PatchStatus(e)))
                case Success(_) => Response(s.state, Ok(()))
  }

  // ---------------------------------------------------------------------------
  // Properties across operations
  // ---------------------------------------------------------------------------

  /**
   * The same store failure is reported differently by path: an update that
   * throws InvalidMemberType is 500 through replace but 406 through patch.
   */
  lemma InvalidMemberTypeByPath<S>(
    store: GroupStore<S>, state: S, group: TargetGroup, operations: seq<string>,
    apply: (Core2Group, seq<string>) -> Result<Core2Group, Exception>)
    requires !IsNullOrWhiteSpace(group.displayName)
    requires store.retrieveGroup(state, group.identifier) == Success(group)
    requires apply(ToCore2Group(group), operations) == Success(ToCore2Group(group))
    requires forall g :: FailedWith(store.updateGroup(state, g), InvalidMemberTypeMessage)
    ensures Replace(store, state, ToCore2Group(group)).outcome == Http(InternalServerError)
    ensures Update(store, state, Some(Patch(Some(ResourceIdentifier(Some(ToString(group.identifier)))), Some(PatchRequest2(operations)))), apply).outcome
         == Http(NotAcceptable)
  {
    RoundTrip(group);
    ToStringNotBlank(group.identifier);
    NewGuidOfToString(group.identifier);
    var normalised := group.(members := Some(group.members.GetOr([])));
    assert FailedWith(store.updateGroup(state, normalised), InvalidMemberTypeMessage);
  }

  /**
   * Replacing a group with its own canonical form hands the store the same
   * group, with a null member list made empty.
   */
  lemma ReplaceWithRetrievedPassesGroupBack<S>(store: GroupStore<S>, state: S, group: TargetGroup)
    requires !IsNullOrWhiteSpace(group.displayName)
    ensures var s := store.updateGroup(state, group.(members := Some(group.members.GetOr([]))));
      && Replace(store, state, ToCore2Group(group)).state == s.state
      && (Replace(store, state, ToCore2Group(group)).outcome.Ok? <==> s.result.Success?)
  {
    RoundTrip(group);
  }

  /**
   * The group query supports an equality filter on `displayName` only: the
   * same filter on `externalId` is not supported, although the store's
   * query takes an external id.
   */
  lemma ExternalIdFilterNotSupported<S>(
    store: GroupStore<S>, state: S, parameters: QueryParameters, correlationIdentifier: Str, value: string)
    requires ParametersAccepted(Some(parameters), correlationIdentifier)
    requires !IsNullOrWhiteSpace(Some(value))
    requires parameters.alternateFilters == Some([Filter(Some(ExternalIdentifierAttribute), Equals, Some(value))])
    ensures Query(store, state, Some(parameters), correlationIdentifier) == NotSupported
  {
    assert !IsWhiteSpace(ExternalIdentifierAttribute[0]);
    assert ExternalIdentifierAttribute[0] != DisplayNameAttribute[0];
  }
}
