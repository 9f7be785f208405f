/**
 * `ScimUserProvider`: the SCIM user endpoints over an injected
 * `InMemoryStorageService`, whose dictionary its create, replace, delete and
 * patch operations change. Each method is tied to the function of the same
 * name in `UserProvider`, where the properties are stated.
 */
module ScimUserProviders {
  import opened Wrappers
  import opened DotNet
  import opened Guids
  import opened Scim
  import opened TargetUsers
  import opened InMemoryStorage
  import UserProvider

  class ScimUserProvider {
    const storage: InMemoryStorageService

    constructor(storage: InMemoryStorageService)
      ensures this.storage == storage
    {
      this.storage := storage;
    }

    /**
     * `CreateAsync`; `newId` is the value `Guid.NewGuid()` would return.
     * It never reaches the store (see `UserProvider.CreateNeverStores`).
     */
    method CreateAsync(resource: Core2EnterpriseUser, newId: Guid) returns (r: Outcome<Core2EnterpriseUser>)
      ensures UserProvider.Response(storage.users, r) == UserProvider.Create(storage.users, resource, newId)
    {
      if resource.identifier.Some? {
        return Http(BadRequest);
      }
      if IsNullOrWhiteSpace(resource.userName) {
        return Http(BadRequest);
      }
      var converted := FromCore2EnterpriseUser(resource);
      if converted.Success? {
        // The source calls `_storageService.CreateUser(target)` here; that call
        // is unreachable, because the conversion hands the identifier, which
        // validation has just required to be null, to `new Guid`, which throws.
        assert false;
      }
      r := Http(UserProvider.CreateStatus(converted.error));
    }

    /** `DeleteAsync`. */
    method DeleteAsync(resourceIdentifier: Option<ResourceIdentifier>) returns (r: Outcome<()>)
      requires storage.Valid()
      modifies storage
      ensures storage.Valid()
      ensures UserProvider.Response(storage.users, r) == UserProvider.Delete(old(storage.users), resourceIdentifier)
    {
      var id := IdentifierOf(resourceIdentifier);
      if IsNullOrWhiteSpace(id) {
        return Http(NotFound);
      }
      var identifier := NewGuid(id);
      if identifier.Failure? {
        return Http(BadRequest);
      }
      var deleted := storage.DeleteUser(identifier.value);
      if deleted.Failure? {
        return Http(BadRequest);
      }
      r := Ok(());
    }

    /** `QueryAsync`; it changes nothing. */
    method QueryAsync(parameters: Option<QueryParameters>, correlationIdentifier: Str)
      returns (r: Outcome<set<Core2EnterpriseUser>>)
      ensures r == UserProvider.Query(storage.users, parameters, correlationIdentifier)
    {
      if !ParametersAccepted(parameters, correlationIdentifier) {
        return ArgumentError;
      }
      var filters := parameters.value.alternateFilters.value;
      if |filters| > 1 {
        return InvalidOperation;
      }
      var buffer: set<TargetUser>;
      if |filters| == 0 {
        buffer := storage.QueryUsers(None, None);
      } else {
        var filter := filters[0];
        if IsNullOrWhiteSpace(filter.attributePath) || IsNullOrWhiteSpace(filter.comparisonValue) {
          return ArgumentError;
        }
        if filter.filterOperator != Equals {
          return NotSupported;
        }
        if filter.attributePath == Some(UserNameAttribute) {
          buffer := storage.QueryUsers(filter.comparisonValue, None);
        } else if filter.attributePath == Some(ExternalIdentifierAttribute) {
          buffer := storage.QueryUsers(None, filter.comparisonValue);
        } else {
          return NotSupported;
        }
      }
      r := Ok(UserProvider.Project(buffer));
    }

    /** `ReplaceAsync`. */
    method ReplaceAsync(resource: Core2EnterpriseUser) returns (r: Outcome<Core2EnterpriseUser>)
      requires storage.Valid()
      modifies storage
      ensures storage.Valid()
      ensures UserProvider.Response(storage.users, r) == UserProvider.Replace(old(storage.users), resource)
    {
      if resource.identifier.None? || IsNullOrWhiteSpace(resource.userName) {
        return Http(BadRequest);
      }
      var converted := FromCore2EnterpriseUser(resource);
      if converted.Failure? {
        return Http(UserProvider.ReplaceStatus(converted.error));
      }
      var updated := storage.UpdateUser(converted.value);
      if updated.Failure? {
        return Http(UserProvider.ReplaceStatus(updated.error));
      }
      r := Ok(ToCore2EnterpriseUser(updated.value));
    }

    /** `RetrieveAsync`; it changes nothing. */
    method RetrieveAsync(parameters: Option<RetrievalParameters>, correlationIdentifier: Str)
      returns (r: Outcome<Core2EnterpriseUser>)
      ensures r == UserProvider.Retrieve(storage.users, parameters, correlationIdentifier)
    {
      if parameters.None? || IsNullOrWhiteSpace(correlationIdentifier) {
        return ArgumentError;
      }
      var id := UserProvider.RetrievedIdentifier(parameters.value);
      if IsNullOrEmpty(id) {
        return ArgumentError;
      }
      var identifier := NewGuid(id);
      if identifier.Failure? {
        return Http(Translate(identifier.error, UserProvider.RetrieveHandled));
      }
      var found := storage.RetrieveUser(identifier.value);
      if found.Failure? {
        return Http(Translate(found.error, UserProvider.RetrieveHandled));
      }
      r := Ok(ToCore2EnterpriseUser(found.value));
    }

    /** `UpdateAsync`; `apply` stands for the library's patch engine. */
    method UpdateAsync(
      patch: Option<Patch>,
      apply: (Core2EnterpriseUser, seq<string>) -> Result<Core2EnterpriseUser, Exception>)
      returns (r: Outcome<()>)
      requires storage.Valid()
      modifies storage
      ensures storage.Valid()
      ensures UserProvider.Response(storage.users, r) == UserProvider.Update(old(storage.users), patch, apply)
    {
      if !PatchAccepted(patch) {
        return ArgumentError;
      }
      var request := patch.value.patchRequest.value;
      if !request.PatchRequest2? {
        return NotSupported;
      }
      var identifier := NewGuid(patch.value.resourceIdentifier.value.identifier);
      if identifier.Failure? {
        return Http(UserProvider.ReplaceStatus(identifier.error));
      }
      var target := storage.RetrieveUser(identifier.value);
      if target.Failure? {
        return Http(UserProvider.ReplaceStatus(target.error));
      }
      var patched := apply(ToCore2EnterpriseUser(target.value), request.operations);
      if patched.Failure? {
        return Http(UserProvider.ReplaceStatus(patched.error));
      }
      var user := FromCore2EnterpriseUser(patched.value);
      if user.Failure? {
        return Http(UserProvider.ReplaceStatus(user.error));
      }
      var updated := storage.UpdateUser(user.value);
      if updated.Failure? {
        return Http(UserProvider.ReplaceStatus(updated.error));
      }
      r := Ok(());
    }
  }
}
