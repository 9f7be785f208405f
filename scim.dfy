/**
 * The canonical SCIM 2.0 resources exchanged with the protocol engine
 * (section 4.1, 4.2 and 4.3 of RFC 7643), the query and patch parameters the
 * engine hands to a provider, and the outcomes a provider reports back.
 * Every reference-typed member of the library classes may be null (`None`).
 */
module Scim {
  import opened Wrappers
  import opened DotNet

  /** An `ElectronicMailAddress` or a `PhoneNumber`: a tagged single value. */
  datatype TypedValue = TypedValue(itemType: Str, primary: bool, value: Str)

  /** An `Address` entry of a User. */
  datatype Address = Address(
    itemType: Str,
    primary: bool,
    formatted: Str,
    streetAddress: Str,
    locality: Str,
    region: Str,
    postalCode: Str,
    country: Str)

  /** The `name` sub-object of a User. */
  datatype Name = Name(givenName: Str, familyName: Str, formatted: Str)

  /** The `manager` attribute of the Enterprise User extension. */
  datatype Manager = Manager(value: Str)

  /** The Enterprise User extension. */
  datatype EnterpriseExtension = EnterpriseExtension(
    employeeNumber: Str,
    department: Str,
    manager: Option<Manager>)

  /** `Core2EnterpriseUser`: the User resource with the enterprise extension. */
  datatype Core2EnterpriseUser = Core2EnterpriseUser(
    identifier: Str,
    userName: Str,
    active: bool,
    displayName: Str,
    title: Str,
    emails: Option<seq<TypedValue>>,
    preferredLanguage: Str,
    name: Option<Name>,
    addresses: Option<seq<Address>>,
    phoneNumbers: Option<seq<TypedValue>>,
    externalIdentifier: Str,
    enterpriseExtension: Option<EnterpriseExtension>)

  /** A `members` entry of a Group. */
  datatype Member = Member(typeName: Str, value: Str)

  /** `Core2Group`. */
  datatype Core2Group = Core2Group(
    identifier: Str,
    displayName: Str,
    externalIdentifier: Str,
    members: Option<seq<Member>>)

  /** Attribute names as the library spells them. */
  const UserNameAttribute := "userName"
  const ExternalIdentifierAttribute := "externalId"
  const DisplayNameAttribute := "displayName"
  const MembersAttribute := "members"

  /** Filter operators of section 3.4.2.2 of RFC 7644. */
  datatype ComparisonOperator =
    | Equals | NotEquals | Contains | StartsWith | EndsWith | Present
    | GreaterThan | GreaterThanOrEqual | LessThan | LessThanOrEqual

  /** One filter predicate `attributePath operator comparisonValue`. */
  datatype Filter = Filter(attributePath: Str, filterOperator: ComparisonOperator, comparisonValue: Str)

  /** `IQueryParameters`: the alternate filters, the schema, the excluded attributes. */
  datatype QueryParameters = QueryParameters(
    alternateFilters: Option<seq<Filter>>,
    schemaIdentifier: Str,
    excludedAttributePaths: Option<seq<string>>)

  /** `IResourceIdentifier`. */
  datatype ResourceIdentifier = ResourceIdentifier(identifier: Str)

  /** `IResourceRetrievalParameters`. */
  datatype RetrievalParameters = RetrievalParameters(resourceIdentifier: Option<ResourceIdentifier>)

  /**
   * The patch request carried by an `IPatch`: a `PatchRequest2` whose
   * operations the library applies, or a request of some other type.
   */
  datatype PatchRequest = PatchRequest2(operations: seq<string>) | OtherPatchRequest

  /** `IPatch`. */
  datatype Patch = Patch(resourceIdentifier: Option<ResourceIdentifier>, patchRequest: Option<PatchRequest>)

  /** The HTTP statuses a provider raises through `HttpResponseException`: 400, 404, 406, 409 and 500. */
  datatype StatusCode = BadRequest | NotFound | NotAcceptable | Conflict | InternalServerError

  /**
   * What a provider operation ends in: a value, an `HttpResponseException`,
   * an `ArgumentException` (or `ArgumentNullException`), a
   * `NotSupportedException`, or the `InvalidOperationException` that
   * `SingleOrDefault` throws on more than one filter.
   */
  datatype Outcome<+T> =
    | Ok(value: T)
    | Http(status: StatusCode)
    | ArgumentError
    | NotSupported
    | InvalidOperation

  /** The status a recognised exception message stands for. */
  function StatusOf(message: string): (r: Option<StatusCode>)
    ensures r == Some(Conflict) <==> message == ConflictMessage
    ensures r == Some(NotFound) <==> message == NotFoundMessage
    ensures r == Some(NotAcceptable) <==> message == InvalidMemberTypeMessage
    ensures r.None? || r.value in {Conflict, NotFound, NotAcceptable}
  {
    if message == ConflictMessage then Some(Conflict)
    else if message == NotFoundMessage then Some(NotFound)
    else if message == InvalidMemberTypeMessage then Some(NotAcceptable)
    else None
  }

  /**
   * A `catch (Exception err) { switch (err.Message) ... }` block: the
   * statuses in `handled` have a case of their own, every other message
   * falls to `default` and becomes 500.
   */
  function Translate(e: Exception, handled: set<StatusCode>): (s: StatusCode)
    ensures s == InternalServerError || (s in handled && StatusOf(e.message) == Some(s))
    ensures StatusOf(e.message).Some? && StatusOf(e.message).value in handled ==> s == StatusOf(e.message).value
  {
    match StatusOf(e.message)
    case Some(s) => if s in handled then s else InternalServerError
    case None => InternalServerError
  }

  /** An exception the runtime raises is always reported as 500, whatever the catch block handles. */
  lemma RuntimeExceptionsAreServerErrors(e: Exception, handled: set<StatusCode>)
    requires IsRuntimeException(e)
    ensures Translate(e, handled) == InternalServerError
  {
    RuntimeMessagesAreNotRecognised(e);
  }

  // ---------------------------------------------------------------------------
  // Argument checks shared by the providers
  // ---------------------------------------------------------------------------

  /** `resourceIdentifier?.Identifier`. */
  function IdentifierOf(resourceIdentifier: Option<ResourceIdentifier>): Str {
    if resourceIdentifier.None? then None else resourceIdentifier.value.identifier
  }

  /**
   * The argument checks that precede the filter: parameters present, a
   * non-blank correlation identifier, a filter list present, a non-blank
   * schema.
   */
  function ParametersAccepted(parameters: Option<QueryParameters>, correlationIdentifier: Str): (r: bool)
    ensures parameters.None? || IsNullOrEmpty(correlationIdentifier) ==> !r
    ensures r ==> parameters.value.schemaIdentifier.Some? && |parameters.value.schemaIdentifier.value| > 0
  {
    && parameters.Some?
    && !IsNullOrWhiteSpace(correlationIdentifier)
    && parameters.value.alternateFilters.Some?
    && !IsNullOrWhiteSpace(parameters.value.schemaIdentifier)
  }

  /** The single filter is an equality on `attribute` with a non-blank value. */
  predicate EqualityFilterOn(filters: seq<Filter>, attribute: string) {
    && |filters| == 1
    && filters[0].attributePath == Some(attribute)
    && !IsNullOrWhiteSpace(filters[0].comparisonValue)
    && filters[0].filterOperator == Equals
  }

  /** The checks on the patch's shape: present, with a non-blank identifier and a request. */
  function PatchAccepted(patch: Option<Patch>): (r: bool)
    ensures r ==>
      && patch.Some? && patch.value.resourceIdentifier.Some?
      && patch.value.resourceIdentifier.value.identifier.Some?
      && |patch.value.resourceIdentifier.value.identifier.value| > 0
  {
    && patch.Some?
    && patch.value.resourceIdentifier.Some?
    && !IsNullOrWhiteSpace(patch.value.resourceIdentifier.value.identifier)
    && patch.value.patchRequest.Some?
  }
}
