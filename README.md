# SCIM WebHostSample: a Dafny model of the user and group providers

This project models the core of the SCIM 2.0 sample web host:

- **Projection.** The explicit conversions between the flat internal records
  (`TargetUser`, `TargetGroup`) and the canonical SCIM resources
  (`Core2EnterpriseUser`, `Core2Group`, sections 4.1 to 4.3 of RFC 7643).
- **User store.** `InMemoryStorageService`, which keeps the users in a
  dictionary keyed by the string form of each user's `Guid` identifier.
- **Provider facades.** `ScimUserProvider` and `ScimGroupProvider`. They
  validate each request, call the store, and turn the store's exception
  messages ("Conflict", "NotFound", "InvalidMemberType") into HTTP statuses
  (section 3.12 of RFC 7644).

How the model is built:

- **Null.** A C# reference that may be null is an `Option` (`Str` is a
  nullable string).
- **Exceptions.** A thrown exception is a `Result` failure carrying the
  exception's message.
- **Provider outcomes.** A provider operation ends in an `Outcome`: a value,
  an HTTP status, an argument error, a not-supported error, or the
  `InvalidOperationException` that `SingleOrDefault` throws.
- **Guid.** `Guid` is 32 hex digits. `ToString` writes the lower-case
  hyphenated form. `new Guid(s)` reads the plain-digit spellings of the 32-digit,
  hyphenated, braced and parenthesised forms, and it is proved to invert
  `ToString`.

Files:

- `wrappers.dfy`: `Option` and `Result`.
- `dotnet.dfy`: `string.IsNullOrWhiteSpace`, ordinal-ignore-case comparison,
  and the runtime exceptions.
- `guid.dfy`: `Guid`, `ToString`, `new Guid`.
- `scim.dfy`: the canonical resources, the query and patch parameters, the
  statuses, and the message-to-status translation.
- `target_user.dfy`, `target_group.dfy`: the conversions.
- `user_table.dfy`: the effect of each storage operation on the dictionary,
  and the invariant it keeps (keys match identifiers, user names are unique).
- `in_memory_storage.dfy`: the `InMemoryStorageService` class. Its methods
  update the dictionary field in place and are proved equal to the steps in
  `user_table.dfy`.
- `user_provider.dfy`: what each user operation does to the dictionary and
  reports.
- `scim_user_provider.dfy`: the `ScimUserProvider` class. Its methods call
  the storage service and are proved equal to the functions in
  `user_provider.dfy`.
- `group_provider.dfy`: the group operations, over any store. The group half
  of the storage interface has no implementation.

## Model

| member | source | states |
|---|---|---|
| DotNet.IsNullOrWhiteSpace | Microsoft.SCIM.WebHostSample/Provider/ScimUserProvider.cs:33 | `string.IsNullOrWhiteSpace`, the guard behind every blank-argument 400 and ArgumentException: a string whose first character is not white space is never blank |
| DotNet.IsNullOrEmpty | Microsoft.SCIM.WebHostSample/Provider/ScimUserProvider.cs:196 | `string.IsNullOrEmpty`: every null-or-empty string is also null-or-white-space, and a string that passes has at least one character |
| DotNet.EqualsIgnoreCase | Microsoft.SCIM.WebHostSample/Services/InMemoryStorageService.cs:42 | `string.Equals(…, OrdinalIgnoreCase)`: two nulls are equal, null and non-null are not, otherwise equal length and equal characters after upper-casing |
| DotNet.OrdinalImpliesIgnoreCase | Microsoft.SCIM.WebHostSample/Services/InMemoryStorageService.cs:42-61 | names equal ordinally are also equal ignoring case |
| DotNet.IgnoreCaseIsEquivalence | Microsoft.SCIM.WebHostSample/Services/InMemoryStorageService.cs:42 | comparison ignoring case is reflexive, symmetric and transitive |
| DotNet.CaseVariantsDifferOrdinally | Microsoft.SCIM.WebHostSample/Services/InMemoryStorageService.cs:61 | "Alice" and "alice" are different under the ordinal comparison the uniqueness check uses |
| DotNet.RuntimeMessagesAreNotRecognised | Microsoft.SCIM.WebHostSample/Provider/ScimUserProvider.cs:46-52 | no runtime exception (null argument, bad Guid format, null dereference, duplicate key) carries a message the catch blocks recognise |
| Guids.ToString | Microsoft.SCIM.WebHostSample/Models/TargetUser.cs:49 | the string form of an identifier is 36 characters long |
| Guids.Parse | Microsoft.SCIM.WebHostSample/Models/TargetUser.cs:126 | the strings `new Guid(s)` reads here have the length of the "N", "D", or "B"/"P" layouts (32, 36 or 38 characters) |
| Guids.NewGuid | Microsoft.SCIM.WebHostSample/Models/TargetUser.cs:126 | `new Guid(s)`: null throws ArgumentNullException, an unreadable string throws FormatException, otherwise the parsed value |
| Guids.ParseToString | Microsoft.SCIM.WebHostSample/Models/TargetUser.cs:49-126 | reading back the string form of an identifier gives the same identifier |
| Guids.ToStringInjective | Microsoft.SCIM.WebHostSample/Services/InMemoryStorageService.cs:70-100 | distinct identifiers have distinct string forms, so they are distinct dictionary keys |
| Guids.ToStringNotBlank | Microsoft.SCIM.WebHostSample/Provider/ScimUserProvider.cs:60-196 | the string form of an identifier passes the provider's blank and empty checks |
| Guids.NewGuidOfToString | Microsoft.SCIM.WebHostSample/Provider/ScimUserProvider.cs:68-205 | `new Guid(g.ToString())` succeeds with `g` |
| Scim.StatusOf | Microsoft.SCIM.WebHostSample/Provider/ScimGroupProvider.cs:47-54 | "Conflict" stands for 409, "NotFound" for 404, "InvalidMemberType" for 406, and no other message for any status |
| Scim.Translate | Microsoft.SCIM.WebHostSample/Provider/ScimGroupProvider.cs:281-290 | a `switch (err.Message)` block: a recognised message with its own case gives its status, every other one 500 |
| Scim.RuntimeExceptionsAreServerErrors | Microsoft.SCIM.WebHostSample/Provider/ScimUserProvider.cs:44-52 | a runtime exception is reported as 500 by every catch block |
| Scim.ParametersAccepted | Microsoft.SCIM.WebHostSample/Provider/ScimUserProvider.cs:81-99 | the query argument checks: null parameters or a null or empty correlation identifier are refused, and accepted parameters carry a non-empty schema identifier |
| Scim.PatchAccepted | Microsoft.SCIM.WebHostSample/Provider/ScimUserProvider.cs:223-241 | the patch argument checks: an accepted patch is present, with a resource identifier whose identifier is a non-empty string |
| TargetUsers.FirstOfType | Microsoft.SCIM.WebHostSample/Models/TargetUser.cs:134-163 | `FirstOrDefault` by tag, over typed values (mail, phones) and addresses alike: null exactly when no entry has the tag, otherwise the first entry with it |
| TargetUsers.FirstOfTypeAt | Microsoft.SCIM.WebHostSample/Models/TargetUser.cs:134-163 | whatever follows the first entry with a tag, that entry is the one picked, for values and addresses alike |
| TargetUsers.TaggedValue | Microsoft.SCIM.WebHostSample/Models/TargetUser.cs:134-163 | `.Value` of the first match: that entry's value, or a NullReferenceException exactly when no entry has the tag |
| TargetUsers.ToCore2EnterpriseUser | Microsoft.SCIM.WebHostSample/Models/TargetUser.cs:45-119 | identifier as its string form; scalars copied; exactly one primary work email; a name; exactly one primary work address holding the six address fields; exactly three phones in the order work (primary), mobile, fax; the enterprise extension with the manager wrapped |
| TargetUsers.ConvertMail | Microsoft.SCIM.WebHostSample/Models/TargetUser.cs:132-135 | a null email list leaves the mail unset; otherwise the first work email's value, or a null dereference |
| TargetUsers.ConvertPhones | Microsoft.SCIM.WebHostSample/Models/TargetUser.cs:159-164 | a null phone list leaves the three fields unset; otherwise it succeeds exactly when work, mobile and fax entries all exist, taking the first of each |
| TargetUsers.ConvertAddress | Microsoft.SCIM.WebHostSample/Models/TargetUser.cs:146-157 | a null list or one with no work address leaves the address fields unset; otherwise they come from the first work address |
| TargetUsers.ConvertEnterprise | Microsoft.SCIM.WebHostSample/Models/TargetUser.cs:168-173 | a null extension leaves the fields unset; a null manager is a null dereference |
| TargetUsers.Convertible | Microsoft.SCIM.WebHostSample/Models/TargetUser.cs:122-176 | the conditions under which the conversion does not throw; a convertible user has an identifier of a Guid layout's length |
| TargetUsers.FromCore2EnterpriseUser | Microsoft.SCIM.WebHostSample/Models/TargetUser.cs:122-176 | succeeds exactly on convertible users; the identifier is parsed first (null: ArgumentNullException, malformed: FormatException); scalars copied; a null name leaves the name fields unset; the office name is never set |
| TargetUsers.RoundTrip | Microsoft.SCIM.WebHostSample/Models/TargetUser.cs:45-176 | internal, then canonical, then internal gives back every field except `PhysicalDeliveryOfficeName`, which becomes null |
| TargetUsers.RoundTripExactIff | Microsoft.SCIM.WebHostSample/Models/TargetUser.cs:80-157 | the round trip is exact if and only if the office name was null |
| TargetUsers.CanonicalRoundTrip | Microsoft.SCIM.WebHostSample/Models/TargetUser.cs:45-176 | canonical, then internal, then canonical keeps the scalars, writes the identifier back in its normalised string form, and keeps only the first work email |
| TargetUsers.FromCore2EnterpriseUserGuarded | Microsoft.SCIM.WebHostSample/Models/TargetUser.cs:126 | the conversion with a null check on the identifier: a null identifier leaves `Guid.Empty` and the user name is kept |
| TargetGroups.UserMember | Microsoft.SCIM.WebHostSample/Models/TargetGroup.cs:31-37 | a member of type "User" whose value is the id's string form |
| TargetGroups.MembersToCanonical | Microsoft.SCIM.WebHostSample/Models/TargetGroup.cs:26-40 | one "User" member per id, in the same order |
| TargetGroups.BuildMembers | Microsoft.SCIM.WebHostSample/Models/TargetGroup.cs:26-40 | the `foreach` loop builds exactly the canonical members of the ids; a null list gives an empty one |
| TargetGroups.ToCore2Group | Microsoft.SCIM.WebHostSample/Models/TargetGroup.cs:18-43 | identifier as its string form; display name copied; object id to external identifier; members canonical; a null member list becomes empty |
| TargetGroups.ParseMembers | Microsoft.SCIM.WebHostSample/Models/TargetGroup.cs:56-67 | every member's value parsed, in order; fails with the first bad member's exception |
| TargetGroups.ParseMemberList | Microsoft.SCIM.WebHostSample/Models/TargetGroup.cs:56-67 | the `foreach` loop over the members gives the same result as `ParseMembers` |
| TargetGroups.FirstBadMemberUnique | Microsoft.SCIM.WebHostSample/Models/TargetGroup.cs:59-65 | there is at most one first member that `new Guid` rejects |
| TargetGroups.FromCore2Group | Microsoft.SCIM.WebHostSample/Models/TargetGroup.cs:46-70 | a null identifier leaves `Guid.Empty`, a present one is parsed; it succeeds exactly when the identifier and every member parse; a null member list becomes empty; display name and object id copied |
| TargetGroups.ParseMembersToCanonical | Microsoft.SCIM.WebHostSample/Models/TargetGroup.cs:26-67 | parsing the canonical members of some ids gives those ids back |
| TargetGroups.RoundTrip | Microsoft.SCIM.WebHostSample/Models/TargetGroup.cs:18-70 | internal, then canonical, then internal keeps the identifier, display name, object id and members exactly; only a null member list comes back empty |
| TargetGroups.MemberTypeIgnored | Microsoft.SCIM.WebHostSample/Models/TargetGroup.cs:61-64 | members that differ only in type convert alike |
| TargetGroups.DuplicatesRetained | Microsoft.SCIM.WebHostSample/Models/TargetGroup.cs:59-65 | equal member values give equal ids at both positions, so nothing is de-duplicated |
| TargetGroups.NonUserMemberAccepted | Microsoft.SCIM.WebHostSample/Models/TargetGroup.cs:61-64 | a member of type "Group" is accepted like a "User" one |
| UserTable.Valid | Microsoft.SCIM.WebHostSample/Services/InMemoryStorageService.cs:15 | the dictionary invariant (key is the identifier's string, names unique); in a valid dictionary no record's name is taken by another identifier |
| UserTable.UserNameTaken | Microsoft.SCIM.WebHostSample/Services/InMemoryStorageService.cs:59-61 | `Users.Values.Any(name ordinal-equal)`: holds exactly when some stored value has the name |
| UserTable.UserNameTakenByOther | Microsoft.SCIM.WebHostSample/Services/InMemoryStorageService.cs:88-93 | a name taken under a different identifier is in particular a taken name |
| UserTable.Create | Microsoft.SCIM.WebHostSample/Services/InMemoryStorageService.cs:54-73 | Conflict with no change when the name is taken ordinally; otherwise, when the new identifier's key is free, the record with that identifier written into it is added under exactly that one new key and returned |
| UserTable.Delete | Microsoft.SCIM.WebHostSample/Services/InMemoryStorageService.cs:75-83 | NotFound when the key is absent; otherwise exactly that key goes and every other entry is unchanged |
| UserTable.Update | Microsoft.SCIM.WebHostSample/Services/InMemoryStorageService.cs:85-109 | Conflict when another identifier holds the name, checked before NotFound; otherwise only that entry is replaced and the keys are unchanged |
| UserTable.Retrieve | Microsoft.SCIM.WebHostSample/Services/InMemoryStorageService.cs:111-118 | NotFound exactly when the key is absent; otherwise the stored record, whose identifier is the one asked for |
| UserTable.Query | Microsoft.SCIM.WebHostSample/Services/InMemoryStorageService.cs:36-52 | a subset of the stored users; no filter gives all; a user-name filter selects the names equal to it ignoring case; an external-id filter also compares against the user name |
| UserTable.CreatePreservesValid | Microsoft.SCIM.WebHostSample/Services/InMemoryStorageService.cs:57-72 | create keeps the keys matching the identifiers and the user names unique |
| UserTable.DeletePreservesValid | Microsoft.SCIM.WebHostSample/Services/InMemoryStorageService.cs:75-83 | delete keeps the invariant |
| UserTable.UpdatePreservesValid | Microsoft.SCIM.WebHostSample/Services/InMemoryStorageService.cs:88-108 | update keeps the invariant |
| UserTable.UpdateKeepingOwnNameSucceeds | Microsoft.SCIM.WebHostSample/Services/InMemoryStorageService.cs:88-108 | replacing a stored record that keeps its own user name always succeeds |
| UserTable.UnknownIdWithTakenNameIsConflict | Microsoft.SCIM.WebHostSample/Services/InMemoryStorageService.cs:88-103 | an unknown identifier with a colliding name yields Conflict, not NotFound |
| UserTable.CreateThenRetrieve | Microsoft.SCIM.WebHostSample/Services/InMemoryStorageService.cs:68-118 | after a successful create, the new identifier retrieves the created record |
| UserTable.CreateSameNameTwiceConflicts | Microsoft.SCIM.WebHostSample/Services/InMemoryStorageService.cs:57-65 | a second create with the same user name fails with Conflict |
| UserTable.DeleteTwiceNotFound | Microsoft.SCIM.WebHostSample/Services/InMemoryStorageService.cs:75-83 | a second delete of the same identifier fails with NotFound |
| UserTable.ExternalIdQueriesUserName | Microsoft.SCIM.WebHostSample/Services/InMemoryStorageService.cs:44-48 | an external-id query returns the same users as a user-name query for the same value |
| UserTable.UserNameTakesPrecedence | Microsoft.SCIM.WebHostSample/Services/InMemoryStorageService.cs:39-43 | with both filters, the external id is ignored |
| UserTable.QueryFindsExactName | Microsoft.SCIM.WebHostSample/Services/InMemoryStorageService.cs:39-65 | querying a stored name finds its record, and no other result has exactly that name |
| UserTable.CaseVariantsCoexist | Microsoft.SCIM.WebHostSample/Services/InMemoryStorageService.cs:42-61 | "Alice" and "alice" can both be stored under the invariant, and a query for "ALICE" returns both |
| InMemoryStorage.InMemoryStorageService.constructor | Microsoft.SCIM.WebHostSample/Services/InMemoryStorageService.cs:17-21 | starts with an empty dictionary, which satisfies the invariant |
| InMemoryStorage.InMemoryStorageService.QueryUsers | Microsoft.SCIM.WebHostSample/Services/InMemoryStorageService.cs:36-52 | returns `UserTable.Query` of the dictionary |
| InMemoryStorage.InMemoryStorageService.CreateUser | Microsoft.SCIM.WebHostSample/Services/InMemoryStorageService.cs:54-73 | keeps the invariant; the new dictionary and the result are those of `UserTable.Create` |
| InMemoryStorage.InMemoryStorageService.DeleteUser | Microsoft.SCIM.WebHostSample/Services/InMemoryStorageService.cs:75-83 | keeps the invariant; the new dictionary and the result are those of `UserTable.Delete` |
| InMemoryStorage.InMemoryStorageService.UpdateUser | Microsoft.SCIM.WebHostSample/Services/InMemoryStorageService.cs:85-109 | keeps the invariant; the new dictionary and the result are those of `UserTable.Update` |
| InMemoryStorage.InMemoryStorageService.RetrieveUser | Microsoft.SCIM.WebHostSample/Services/InMemoryStorageService.cs:111-118 | returns `UserTable.Retrieve` of the dictionary |
| UserProvider.Project | Microsoft.SCIM.WebHostSample/Provider/ScimUserProvider.cs:108-109 | the results are exactly the canonical forms of the selected users |
| UserProvider.CreateStatus | Microsoft.SCIM.WebHostSample/Provider/ScimUserProvider.cs:44-52 | the create path reports the store's Conflict as 409 and everything else as 500 |
| UserProvider.ReplaceStatus | Microsoft.SCIM.WebHostSample/Provider/ScimUserProvider.cs:168-178 | the replace and patch paths report Conflict as 409, NotFound as 404 and everything else as 500 |
| UserProvider.Create | Microsoft.SCIM.WebHostSample/Provider/ScimUserProvider.cs:25-56 | 400 with no change for a present identifier or a blank user name; 409 only when the name is taken |
| UserProvider.CreateNeverStores | Microsoft.SCIM.WebHostSample/Provider/ScimUserProvider.cs:27-53 | every create leaves the dictionary unchanged and ends in 400 or 500; one that passes validation ends in 500 |
| UserProvider.CreateIntended | Microsoft.SCIM.WebHostSample/Provider/ScimUserProvider.cs:25-56 | with the null check: 400 as before; 409 exactly when the name is taken; on success, the converted user is added under the fresh identifier only and returned in canonical form |
| UserProvider.CreateIntendedStores | Microsoft.SCIM.WebHostSample/Provider/ScimUserProvider.cs:25-219 | with the null check, a valid user with a free name and a fresh identifier is stored, the invariant holds, and retrieving by the new identifier gives what create returned |
| UserProvider.Delete | Microsoft.SCIM.WebHostSample/Provider/ScimUserProvider.cs:58-77 | 404 for a blank identifier; succeeds exactly when the identifier parses and is stored, removing only that key; any other failure, the store's NotFound included, is 400 with no change |
| UserProvider.Query | Microsoft.SCIM.WebHostSample/Provider/ScimUserProvider.cs:79-146 | argument errors for null parameters, a blank correlation id, null filters or a blank schema; more than one filter fails; a blank attribute or value is an argument error; a non-equality operator is not supported; no filter gives every user; an equality filter on `userName` or `externalId` gives the users whose name equals the value ignoring case; any other attribute is not supported |
| UserProvider.Replace | Microsoft.SCIM.WebHostSample/Provider/ScimUserProvider.cs:148-182 | 400 for a null identifier or a blank user name; a failed conversion is 500; 409 exactly when another user holds the name; 404 exactly when it is free and the identifier is unknown; on success only that entry is replaced; no failure changes anything |
| UserProvider.Retrieve | Microsoft.SCIM.WebHostSample/Provider/ScimUserProvider.cs:184-219 | argument errors for null parameters, a blank correlation id or an empty identifier; a malformed identifier is 500; an unknown one 404; otherwise the stored user's canonical form |
| UserProvider.Update | Microsoft.SCIM.WebHostSample/Provider/ScimUserProvider.cs:221-279 | argument errors for a malformed patch; a request of another kind is not supported; a malformed identifier is 500, an unknown one 404; otherwise the patched, converted user goes through the store's update, whose Conflict and NotFound give 409 and 404; no failure changes anything |
| UserProvider.NoOpPatchClearsOfficeName | Microsoft.SCIM.WebHostSample/Provider/ScimUserProvider.cs:252-263 | a patch that changes nothing succeeds on any stored user and clears its office name |
| UserProvider.DeleteThenRetrieveOrDeleteAgain | Microsoft.SCIM.WebHostSample/Provider/ScimUserProvider.cs:58-219 | deleting a stored user succeeds; retrieving it afterwards is 404; deleting it again is 400 |
| UserProvider.ReplaceWithRetrievedClearsOfficeName | Microsoft.SCIM.WebHostSample/Provider/ScimUserProvider.cs:148-182 | replacing a stored user with its own canonical form succeeds and changes only its office name, which becomes null |
| ScimUserProviders.ScimUserProvider.constructor | Microsoft.SCIM.WebHostSample/Provider/ScimUserProvider.cs:20-23 | the provider holds the storage service it is given |
| ScimUserProviders.ScimUserProvider.CreateAsync | Microsoft.SCIM.WebHostSample/Provider/ScimUserProvider.cs:25-56 | outcome and dictionary are those of `UserProvider.Create`; the store is never reached |
| ScimUserProviders.ScimUserProvider.DeleteAsync | Microsoft.SCIM.WebHostSample/Provider/ScimUserProvider.cs:58-77 | keeps the invariant; outcome and new dictionary are those of `UserProvider.Delete` |
| ScimUserProviders.ScimUserProvider.QueryAsync | Microsoft.SCIM.WebHostSample/Provider/ScimUserProvider.cs:79-146 | returns `UserProvider.Query` of the dictionary |
| ScimUserProviders.ScimUserProvider.ReplaceAsync | Microsoft.SCIM.WebHostSample/Provider/ScimUserProvider.cs:148-182 | keeps the invariant; outcome and new dictionary are those of `UserProvider.Replace` |
| ScimUserProviders.ScimUserProvider.RetrieveAsync | Microsoft.SCIM.WebHostSample/Provider/ScimUserProvider.cs:184-219 | returns `UserProvider.Retrieve` of the dictionary |
| ScimUserProviders.ScimUserProvider.UpdateAsync | Microsoft.SCIM.WebHostSample/Provider/ScimUserProvider.cs:221-279 | keeps the invariant; outcome and new dictionary are those of `UserProvider.Update` |
| GroupProvider.Create | Microsoft.SCIM.WebHostSample/Provider/ScimGroupProvider.cs:25-59 | 400 with no change for a present identifier or a blank display name; a failed conversion is 500; otherwise the store's create decides: success returns the canonical group, "Conflict" is 409, "InvalidMemberType" 406, anything else 500 |
| GroupProvider.Delete | Microsoft.SCIM.WebHostSample/Provider/ScimGroupProvider.cs:61-80 | always succeeds or reports 400: for a blank or malformed identifier with no change, and for any failure of the store's delete, NotFound included |
| GroupProvider.ExcludesMembers | Microsoft.SCIM.WebHostSample/Provider/ScimGroupProvider.cs:146-149 | `ExcludedAttributePaths?.Any(equals "members", ignore case) == true`: false when the list is null, true when it holds "members" in any case spelling |
| GroupProvider.Shape | Microsoft.SCIM.WebHostSample/Provider/ScimGroupProvider.cs:142-155 | the canonical group, with null members when members are excluded, and nothing else changed |
| GroupProvider.Query | Microsoft.SCIM.WebHostSample/Provider/ScimGroupProvider.cs:82-159 | the same argument checks as for users; no filter gives every group; an equality filter on `displayName` gives the store's display-name query; any other attribute, `externalId` included, is not supported; results keep the store's order, and all have null members when "members" is excluded, compared ignoring case |
| GroupProvider.Replace | Microsoft.SCIM.WebHostSample/Provider/ScimGroupProvider.cs:161-195 | 400 for a null identifier or a blank display name; a failed conversion is 500; otherwise the store's update decides: "Conflict" is 409, "NotFound" 404, anything else, "InvalidMemberType" included, 500; never 406 |
| GroupProvider.Retrieve | Microsoft.SCIM.WebHostSample/Provider/ScimGroupProvider.cs:197-232 | argument errors for null parameters, a blank correlation id or an empty identifier; a malformed identifier is 500; the store's "NotFound" is 404 and any other failure 500; otherwise the canonical group |
| GroupProvider.PatchStatus | Microsoft.SCIM.WebHostSample/Provider/ScimGroupProvider.cs:278-290 | the patch path reports "Conflict" as 409, "NotFound" as 404, "InvalidMemberType" as 406 and anything else as 500 |
| GroupProvider.Update | Microsoft.SCIM.WebHostSample/Provider/ScimGroupProvider.cs:234-294 | argument errors for a malformed patch; a request of another kind is not supported; then retrieve, apply, convert and update, each failure reported by the patch path's translation, only the store's update changing the state |
| GroupProvider.InvalidMemberTypeByPath | Microsoft.SCIM.WebHostSample/Provider/ScimGroupProvider.cs:181-290 | the same "InvalidMemberType" failure of the store's update is 500 through replace but 406 through patch |
| GroupProvider.ReplaceWithRetrievedPassesGroupBack | Microsoft.SCIM.WebHostSample/Provider/ScimGroupProvider.cs:176-194 | replacing a group with its own canonical form hands the store that same group, with a null member list made empty |
| GroupProvider.ExternalIdFilterNotSupported | Microsoft.SCIM.WebHostSample/Provider/ScimGroupProvider.cs:130-137 | an equality filter on `externalId` is not supported for groups |

## Left out

- `Guid.NewGuid()` is not modelled as a generator. The identifier it would return is a parameter (`newId`) of the create operations.
- `new Guid(s)`: the hexadecimal-structure ("X") format, surrounding white space and the "0x", "0X" and "+" prefixes .NET tolerates inside a group are not accepted, so some strings .NET reads are rejected here.
- ScimUserProviders.ScimUserProvider.CreateAsync: does not call `storage.CreateUser` (the source's `_storageService.CreateUser`), because the conversion before it always throws, so the call is unreachable and the store is never modified; `UserProvider.CreateIntended` models the path with the call.
- Case folding covers ASCII letters only. `OrdinalIgnoreCase` on other characters is not modelled.
- Users held in a `Dictionary` are a map, and query results over them are sets. The order in which `Dictionary.Values` enumerates them, and any duplicate entries in the result array, are not modelled. Group query results keep the store's order.
- `InMemoryStorageService.CreateUser` writes the new identifier into the caller's object. The model returns an updated copy, so aliasing of that object is not modelled.
- The `resource as Core2EnterpriseUser` and `resource as Core2Group` downcasts are not modelled: resources are typed values. A resource of another type, which would cause a null dereference, cannot be expressed.
- Null elements inside lists (a null email entry, a null excluded-attribute path) are not modelled. The elements of a list are never null.
- `Task`, `async` and `HttpResponseException` are not modelled as such: each operation returns its outcome as a value. `correlationIdentifier` is checked where the source checks it and otherwise dropped.
- Concurrency: the dictionary is unsynchronised and has no locks. Concurrent calls are not modelled.
- The process-wide `InMemoryStorage` singleton is lifetime plumbing with no behaviour, and is not modelled. So are the `Instance` property of `InMemoryStorageService` and its unused `Groups` dictionary.
- The group half of `IStorageService` has no implementation. `GroupProvider.GroupStore` stands for any implementation: a state and five functions. Its queries and retrieve read the state, and its create, delete and update return a new one. Exceptions thrown by its queries are not modelled.
- The user provider calls the concrete `InMemoryStorageService` rather than the `IStorageService` interface.
- The group facade is modelled as functions that pass the store's state along, not as a class. Its store has no implementation to hold.
- Patch application (`Apply` on a canonical resource) belongs to the SCIM library. It is a function parameter `apply` from resource and operations to a new resource or an exception, and patch operations are opaque strings.
- The message texts of the `ArgumentException`s and `NotSupportedException`s the providers raise come from a resource file. They are all modelled as `ArgumentError` and `NotSupported`.

## Findings

| source | as written | input that shows it | evidently intended | confidence | as-written member | corrected member |
|---|---|---|---|---|---|---|
| Microsoft.SCIM.WebHostSample/Provider/ScimUserProvider.cs:27-53 | validation requires a null identifier; inside the try block the resource is then converted with `new Guid(user.Identifier)` (Microsoft.SCIM.WebHostSample/Models/TargetUser.cs:126), which throws `ArgumentNullException` on that null; the catch block reports it as 500 | any create request with no identifier and a non-blank `userName`, e.g. `{"userName": "alice"}` | the user is stored under a fresh identifier, as the store's `CreateUser` is written to do; the group conversion has the null check (Microsoft.SCIM.WebHostSample/Models/TargetGroup.cs:50) | high (not executed) | UserProvider.CreateNeverStores | UserProvider.CreateIntendedStores |

`ScimUserProviders.ScimUserProvider.CreateAsync` follows the code as written. `UserProvider.CreateIntended` is the corrected create, with the null check added through `TargetUsers.FromCore2EnterpriseUserGuarded`.
