/**
 * `TargetUser`, the flat internal User record, and the two explicit
 * conversions between it and the canonical `Core2EnterpriseUser`.
 */
module TargetUsers {
  import opened Wrappers
  import opened DotNet
  import opened Guids
  import opened Scim

  /** The internal User record; every string may be null. */
  datatype TargetUser = TargetUser(
    identifier: Guid,
    userName: Str,
    active: bool,
    displayName: Str,
    jobTitle: Str,
    mail: Str,
    preferredLanguage: Str,
    givenName: Str,
    surname: Str,
    formattedName: Str,
    physicalDeliveryOfficeName: Str,
    streetAddress: Str,
    city: Str,
    state: Str,
    postalCode: Str,
    country: Str,
    telephoneNumber: Str,
    mobile: Str,
    facsimileTelephoneNumber: Str,
    externalId: Str,
    employeeId: Str,
    department: Str,
    manager: Str)

  const Work := "work"
  const Mobile := "mobile"
  const Fax := "fax"

  // ---------------------------------------------------------------------------
  // First match by tag (`FirstOrDefault(i => i.ItemType == tag)`)
  // ---------------------------------------------------------------------------

  /** The type tag of an email or a phone number. */
  function ValueType(entry: TypedValue): Str {
    entry.itemType
  }

  /** The type tag of an address. */
  function AddressType(address: Address): Str {
    address.itemType
  }

  /** Entry `i` is the first entry of `entries` whose type, read by `typeOf`, is `tag`. */
  predicate IsFirstOfType<T>(entries: seq<T>, typeOf: T -> Str, tag: string, i: int) {
    && 0 <= i < |entries|
    && typeOf(entries[i]) == Some(tag)
    && forall j :: 0 <= j < i ==> typeOf(entries[j]) != Some(tag)
  }

  /** `FirstOrDefault(i => i.ItemType == tag)`: the first entry tagged `tag`, or null. */
  function FirstOfType<T(==)>(entries: seq<T>, typeOf: T -> Str, tag: string): (r: Option<T>)
    ensures r.None? <==> forall i :: 0 <= i < |entries| ==> typeOf(entries[i]) != Some(tag)
    ensures r.Some? ==> exists i :: IsFirstOfType(entries, typeOf, tag, i) && r.value == entries[i]
  {
    if |entries| == 0 then None
    else if typeOf(entries[0]) == Some(tag) then
      assert IsFirstOfType(entries, typeOf, tag, 0);
      Some(entries[0])
    else
      var r := FirstOfType(entries[1..], typeOf, tag);
      if r.Some? then
        var i :| IsFirstOfType(entries[1..], typeOf, tag, i) && r.value == entries[1..][i];
        assert IsFirstOfType(entries, typeOf, tag, i + 1);
        r
      else
        r
  }

  /** Whatever precedes or follows the first entry of a tag, that entry is the one picked. */
  lemma {:induction false} FirstOfTypeAt<T>(entries: seq<T>, typeOf: T -> Str, tag: string, i: int)
    requires IsFirstOfType(entries, typeOf, tag, i)
    ensures FirstOfType(entries, typeOf, tag) == Some(entries[i])
  {
    if i > 0 {
      assert typeOf(entries[0]) != Some(tag);
      assert IsFirstOfType(entries[1..], typeOf, tag, i - 1);
      FirstOfTypeAt(entries[1..], typeOf, tag, i - 1);
    }
  }

  /**
   * `FirstOrDefault(i => i.ItemType == tag).Value`: the value of the first
   * entry tagged `tag`; with no such entry the null result is dereferenced.
   */
  function TaggedValue(entries: seq<TypedValue>, tag: string): (r: Result<Str, Exception>)
    ensures r.Failure? <==> FirstOfType(entries, ValueType, tag).None?
    ensures r.Failure? ==> r.error == NullReference
    ensures r.Success? ==> r.value == FirstOfType(entries, ValueType, tag).value.value
  {
    match FirstOfType(entries, ValueType, tag)
    case None => Failure(NullReference)
    case Some(entry) => Success(entry.value)
  }

  // ---------------------------------------------------------------------------
  // TargetUser -> Core2EnterpriseUser
  // ---------------------------------------------------------------------------

  /**
   * The explicit conversion to `Core2EnterpriseUser`. Every single-valued
   * internal contact field becomes exactly one tagged entry, present even when
   * the field is null.
   */
  function ToCore2EnterpriseUser(user: TargetUser): (r: Core2EnterpriseUser)
    ensures r.identifier == Some(ToString(user.identifier))
    ensures r.userName == user.userName && r.active == user.active && r.displayName == user.displayName
    ensures r.title == user.jobTitle && r.preferredLanguage == user.preferredLanguage
    ensures r.externalIdentifier == user.externalId
    // exactly one email: work, primary, the mail address
    ensures r.emails.Some? && |r.emails.value| == 1
    ensures r.emails.value[0] == TypedValue(Some(Work), true, user.mail)
    // a name sub-object carrying the three name fields
    ensures r.name == Some(Name(user.givenName, user.surname, user.formattedName))
    // exactly one address: work, primary, carrying the six address fields
    ensures r.addresses.Some? && |r.addresses.value| == 1
    ensures r.addresses.value[0] == Address(Some(Work), true, user.physicalDeliveryOfficeName,
      user.streetAddress, user.city, user.state, user.postalCode, user.country)
    // exactly three phone numbers, in the order work (primary), mobile, fax
    ensures r.phoneNumbers.Some? && |r.phoneNumbers.value| == 3
    ensures r.phoneNumbers.value[0] == TypedValue(Some(Work), true, user.telephoneNumber)
    ensures r.phoneNumbers.value[1] == TypedValue(Some(Mobile), false, user.mobile)
    ensures r.phoneNumbers.value[2] == TypedValue(Some(Fax), false, user.facsimileTelephoneNumber)
    // an enterprise extension with the manager wrapped in a Manager object
    ensures r.enterpriseExtension == Some(EnterpriseExtension(user.employeeId, user.department, Some(Manager(user.manager))))
  {
    Core2EnterpriseUser(
      Some(ToString(user.identifier)),
      user.userName,
      user.active,
      user.displayName,
      user.jobTitle,
      Some([TypedValue(Some(Work), true, user.mail)]),
      user.preferredLanguage,
      Some(Name(user.givenName, user.surname, user.formattedName)),
      Some([Address(Some(Work), true, user.physicalDeliveryOfficeName,
        user.streetAddress, user.city, user.state, user.postalCode, user.country)]),
      Some([
        TypedValue(Some(Work), true, user.telephoneNumber),
        TypedValue(Some(Mobile), false, user.mobile),
        TypedValue(Some(Fax), false, user.facsimileTelephoneNumber)]),
      user.externalId,
      Some(EnterpriseExtension(user.employeeId, user.department, Some(Manager(user.manager)))))
  }

  // ---------------------------------------------------------------------------
  // Core2EnterpriseUser -> TargetUser
  // ---------------------------------------------------------------------------

  /** The value of the first entry tagged `tag`, or null when there is none. */
  function FirstValue(entries: seq<TypedValue>, tag: string): Str {
    match FirstOfType(entries, ValueType, tag)
    case None => None
    case Some(e) => e.value
  }

  /** The mail field: the first work email; a null list leaves it unset. */
  function ConvertMail(emails: Option<seq<TypedValue>>): (r: Result<Str, Exception>)
    ensures emails.None? ==> r == Success(None)
    ensures emails.Some? ==> r == TaggedValue(emails.value, Work)
  {
    if emails.None? then Success(None) else TaggedValue(emails.value, Work)
  }

  /** The work, mobile and fax phone fields; a null list leaves them unset. */
  function ConvertPhones(phones: Option<seq<TypedValue>>): (r: Result<(Str, Str, Str), Exception>)
    ensures phones.None? ==> r == Success((None, None, None))
    ensures phones.Some? ==>
      (r.Success? <==>
        && FirstOfType(phones.value, ValueType, Work).Some?
        && FirstOfType(phones.value, ValueType, Mobile).Some?
        && FirstOfType(phones.value, ValueType, Fax).Some?)
    ensures r.Failure? ==> r.error == NullReference
    ensures phones.Some? && r.Success? ==>
      r.value == (FirstValue(phones.value, Work), FirstValue(phones.value, Mobile), FirstValue(phones.value, Fax))
  {
    if phones.None? then Success((None, None, None))
    else
      var work :- TaggedValue(phones.value, Work);
      var mobile :- TaggedValue(phones.value, Mobile);
      var fax :- TaggedValue(phones.value, Fax);
      Success((work, mobile, fax))
  }

  /** The street, city, state, postal code and country fields, from the first work address. */
  function ConvertAddress(addresses: Option<seq<Address>>): (r: (Str, Str, Str, Str, Str))
    ensures var a := if addresses.None? then None else FirstOfType(addresses.value, AddressType, Work);
      && (a.None? ==> r == (None, None, None, None, None))
      && (a.Some? ==> r == (a.value.streetAddress, a.value.locality, a.value.region, a.value.postalCode, a.value.country))
  {
    var address := if addresses.None? then None else FirstOfType(addresses.value, AddressType, Work);
    match address
    case None => (None, None, None, None, None)
    case Some(a) => (a.streetAddress, a.locality, a.region, a.postalCode, a.country)
  }

  /** The employee id, department and manager fields; a null extension leaves them unset. */
  function ConvertEnterprise(extension: Option<EnterpriseExtension>): (r: Result<(Str, Str, Str), Exception>)
    ensures extension.None? ==> r == Success((None, None, None))
    ensures extension.Some? && extension.value.manager.None? ==> r == Failure(NullReference)
    ensures extension.Some? && extension.value.manager.Some? ==>
      r == Success((extension.value.employeeNumber, extension.value.department, extension.value.manager.value.value))
  {
    match extension
    case None => Success((None, None, None))
    case Some(ext) =>
      if ext.manager.None? then Failure(NullReference)
      else Success((ext.employeeNumber, ext.department, ext.manager.value.value))
  }

  /**
   * The canonical users the conversion accepts: the identifier is present and
   * well formed; a present email list has a work entry; a present phone list
   * has work, mobile and fax entries; a present enterprise extension has a
   * manager.
   */
  function Convertible(user: Core2EnterpriseUser): (r: bool)
    ensures r ==> user.identifier.Some? && |user.identifier.value| in {32, 36, 38}
  {
    && user.identifier.Some? && Parse(user.identifier.value).Some?
    && (user.emails.Some? ==> FirstOfType(user.emails.value, ValueType, Work).Some?)
    && (user.phoneNumbers.Some? ==>
          && FirstOfType(user.phoneNumbers.value, ValueType, Work).Some?
          && FirstOfType(user.phoneNumbers.value, ValueType, Mobile).Some?
          && FirstOfType(user.phoneNumbers.value, ValueType, Fax).Some?)
    && (user.enterpriseExtension.Some? ==> user.enterpriseExtension.value.manager.Some?)
  }

  /**
   * The explicit conversion to `TargetUser`, starting from a default record
   * whose strings are null and whose `Active` is false. It throws on a null
   * or malformed identifier, and dereferences a null when a present email or
   * phone list lacks a requested tag or a present extension lacks a manager.
   */
  function FromCore2EnterpriseUser(user: Core2EnterpriseUser): (r: Result<TargetUser, Exception>)
    ensures r.Success? <==> Convertible(user)
    // the identifier is parsed first
    ensures user.identifier.None? ==> r == Failure(ArgumentNull)
    ensures user.identifier.Some? && Parse(user.identifier.value).None? ==> r == Failure(BadGuidFormat)
    ensures r.Failure? ==> r.error in {ArgumentNull, BadGuidFormat, NullReference}
    ensures r.Success? ==> Some(r.value.identifier) == Parse(user.identifier.value)
    // scalars copy one to one
    ensures r.Success? ==>
      && r.value.userName == user.userName && r.value.active == user.active
      && r.value.displayName == user.displayName && r.value.jobTitle == user.title
      && r.value.preferredLanguage == user.preferredLanguage
      && r.value.externalId == user.externalIdentifier
    // a null name leaves the name fields unset
    ensures r.Success? && user.name.None? ==> r.value.givenName == r.value.surname == r.value.formattedName == None
    ensures r.Success? && user.name.Some? ==>
      && r.value.givenName == user.name.value.givenName
      && r.value.surname == user.name.value.familyName
      && r.value.formattedName == user.name.value.formatted
    // the formatted address is never read back
    ensures r.Success? ==> r.value.physicalDeliveryOfficeName == None
    // the collections and the extension, through the helpers above
    ensures r.Success? ==> ConvertMail(user.emails) == Success(r.value.mail)
    ensures r.Success? ==>
      ConvertPhones(user.phoneNumbers) == Success((r.value.telephoneNumber, r.value.mobile, r.value.facsimileTelephoneNumber))
    ensures r.Success? ==>
      ConvertAddress(user.addresses) == (r.value.streetAddress, r.value.city, r.value.state, r.value.postalCode, r.value.country)
    ensures r.Success? ==>
      ConvertEnterprise(user.enterpriseExtension) == Success((r.value.employeeId, r.value.department, r.value.manager))
  {
    var identifier :- NewGuid(user.identifier);
    var mail :- ConvertMail(user.emails);
    var name := user.name.GetOr(Name(None, None, None));
    var (street, city, state, postalCode, country) := ConvertAddress(user.addresses);
    var (work, mobile, fax) :- ConvertPhones(user.phoneNumbers);
    var (employeeId, department, manager) :- ConvertEnterprise(user.enterpriseExtension);
    Success(TargetUser(
      identifier,
      user.userName,
      user.active,
      user.displayName,
      user.title,
      mail,
      user.preferredLanguage,
      name.givenName,
      name.familyName,
      name.formatted,
      None,
      street,
      city,
      state,
      postalCode,
      country,
      work,
      mobile,
      fax,
      user.externalIdentifier,
      employeeId,
      department,
      manager))
  }

  // ---------------------------------------------------------------------------
  // Round trips
  // ---------------------------------------------------------------------------

  /**
   * Internal -> canonical -> internal gives back every field except
   * `PhysicalDeliveryOfficeName`, which is written as the formatted work
   * address and never read back.
   */
  lemma RoundTrip(user: TargetUser)
    ensures FromCore2EnterpriseUser(ToCore2EnterpriseUser(user)) == Success(user.(physicalDeliveryOfficeName := None))
  {
    var c := ToCore2EnterpriseUser(user);
    NewGuidOfToString(user.identifier);
    assert FirstOfType(c.emails.value, ValueType, Work) == Some(c.emails.value[0]);
    assert FirstOfType(c.phoneNumbers.value, ValueType, Work) == Some(c.phoneNumbers.value[0]);
    assert FirstOfType(c.phoneNumbers.value, ValueType, Mobile) == Some(c.phoneNumbers.value[1]);
    assert FirstOfType(c.phoneNumbers.value, ValueType, Fax) == Some(c.phoneNumbers.value[2]);
    assert FirstOfType(c.addresses.value, AddressType, Work) == Some(c.addresses.value[0]);
  }

  /** So the round trip is exact precisely for records without an office name. */
  lemma RoundTripExactIff(user: TargetUser)
    ensures FromCore2EnterpriseUser(ToCore2EnterpriseUser(user)) == Success(user) <==> user.physicalDeliveryOfficeName.None?
  {
    RoundTrip(user);
  }

  /**
   * Canonical -> internal -> canonical keeps the scalar attributes; the
   * identifier comes back in its normalised string form, and only the first
   * work email survives.
   */
  lemma CanonicalRoundTrip(user: Core2EnterpriseUser)
    requires Convertible(user)
    ensures var back := ToCore2EnterpriseUser(FromCore2EnterpriseUser(user).value);
      && back.userName == user.userName && back.active == user.active
      && back.displayName == user.displayName && back.title == user.title
      && back.preferredLanguage == user.preferredLanguage
      && back.externalIdentifier == user.externalIdentifier
      && back.identifier == Some(ToString(Parse(user.identifier.value).value))
      && (user.emails.Some? ==> back.emails == Some([TypedValue(Some(Work), true, FirstOfType(user.emails.value, ValueType, Work).value.value)]))
  {
  }

  /**
   * The conversion with the null check the group conversion has: a null
   * identifier leaves `Guid.Empty` instead of reaching `new Guid`.
   */
  function FromCore2EnterpriseUserGuarded(user: Core2EnterpriseUser): (r: Result<TargetUser, Exception>)
    ensures user.identifier.Some? ==> r == FromCore2EnterpriseUser(user)
    ensures user.identifier.None? ==>
      && (r.Success? <==> Convertible(user.(identifier := Some(ToString(Empty)))))
      && (r.Success? ==> r.value.identifier == Empty && r.value.userName == user.userName)
  {
    if user.identifier.Some? then FromCore2EnterpriseUser(user)
    else
      ParseToString(Empty);
      FromCore2EnterpriseUser(user.(identifier := Some(ToString(Empty))))
  }
}
