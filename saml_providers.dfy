// SAML identity providers of the cloudid service
// (pkg/cloudid/models/saml_providers.go and the create and delete tasks in
// pkg/cloudid/tasks): the create-request check chain, the task starters
// and what each task does to the provider row.
module SamlProviders {
  import opened Wrappers

  // Provider statuses (pkg/apis/cloudid/saml_provider.go).
  const StatusReady := "ready"
  const StatusCreating := "creating"
  const StatusCreateFailed := "create_failed"
  const StatusDeleting := "deleting"
  const StatusDeleteFailed := "delete_failed"

  datatype SamlProvider = SamlProvider(name: string, accountId: string, entityId: string,
                                       metadataDocument: string, status: string, externalId: string)

  datatype CreateInput = CreateInput(name: string, cloudaccountId: string, entityId: string,
                                     metadataDocument: string)

  datatype Account = Account(id: string, name: string)

  /** What the tasks ask of the account's provider factory. */
  datatype Factory = Factory(samlLocalize: bool)

  datatype SamlTask = SamlProviderCreateTask(providerId: string) | SamlProviderDeleteTask(providerId: string)

  /** The metadata collaborators: base64 decoding and SAML metadata parsing
      (which yields the entity id), both opaque. */
  datatype MetadataCodec = MetadataCodec(decode: string -> Option<string>, parseEntityId: string -> Option<string>)

  /** `GetEntityDescripter`: decode the stored document, then parse it. */
  function EntityDescriptor(codec: MetadataCodec, document: string): (r: Result<string>)
    ensures r.Ok? <==> codec.decode(document).Some? && codec.parseEntityId(codec.decode(document).value).Some?
    ensures r.Ok? ==> r.value == codec.parseEntityId(codec.decode(document).value).value
  {
    var metadata := codec.decode(document);
    if metadata.None? then Err(InputParameter("invalid base64 metadata document"))
    else
      var ed := codec.parseEntityId(metadata.value);
      if ed.None? then Err(InputParameter("invalid entity descriptor")) else Ok(ed.value)
  }

  /** The provider rows and the tasks scheduled on them. */
  class SamlProviderTable {
    var providers: map<string, SamlProvider>
    var tasks: seq<SamlTask>

    constructor(rows: map<string, SamlProvider>)
      ensures providers == rows && tasks == []
    {
      providers, tasks := rows, [];
    }

    /** A ready provider already registers this entity id for this account. */
    predicate HasReady(entityId: string, accountId: string)
      reads this
    {
      exists id :: id in providers && providers[id].entityId == entityId &&
        providers[id].accountId == accountId && providers[id].status == StatusReady
    }

    /** `ValidateCreateData`, a chain of checks in this order: the account
        id is given and names an account (`fetchAccount`), the metadata
        document is given, decodes and parses; the entity id is taken from
        the metadata and must be the service's own (`serviceEntityId`); no
        ready provider of that entity id and account exists (`queryOk` is
        the query); then the base checks (`baseErr`). */
    function ValidateCreateData(input: CreateInput, fetchAccount: string -> Result<Account>, codec: MetadataCodec,
                                serviceEntityId: string, queryOk: bool, baseErr: Option<Error>): (r: Result<CreateInput>)
      reads this
      ensures input.cloudaccountId == "" ==> r == Err(MissingParameter("cloudaccount_id"))
      ensures input.cloudaccountId != "" && fetchAccount(input.cloudaccountId).Err? ==>
        r == Err(fetchAccount(input.cloudaccountId).error)
      ensures input.cloudaccountId != "" && fetchAccount(input.cloudaccountId).Ok? ==>
        (input.metadataDocument == "" ==> r == Err(MissingParameter("metadata_document"))) &&
        (input.metadataDocument != "" && codec.decode(input.metadataDocument).None? ==>
           r == Err(InputParameter("invalid base64 metadata document"))) &&
        (input.metadataDocument != "" && EntityDescriptor(codec, input.metadataDocument).Ok? &&
         EntityDescriptor(codec, input.metadataDocument).value != serviceEntityId ==>
           r == Err(InputParameter(""))) &&
        (input.metadataDocument != "" && EntityDescriptor(codec, input.metadataDocument) == Ok(serviceEntityId) &&
         queryOk && HasReady(serviceEntityId, fetchAccount(input.cloudaccountId).value.id) ==>
           r.Err? && r.error.DuplicateResource?)
      ensures r.Ok? <==>
        input.cloudaccountId != "" && fetchAccount(input.cloudaccountId).Ok? && input.metadataDocument != "" &&
        EntityDescriptor(codec, input.metadataDocument) == Ok(serviceEntityId) && queryOk &&
        !HasReady(serviceEntityId, fetchAccount(input.cloudaccountId).value.id) && baseErr.None?
      ensures r.Ok? ==>
        r.value == input.(cloudaccountId := fetchAccount(input.cloudaccountId).value.id, entityId := serviceEntityId)
    {
      if input.cloudaccountId == "" then Err(MissingParameter("cloudaccount_id"))
      else
        var account := fetchAccount(input.cloudaccountId);
        if account.Err? then Err(account.error)
        else
          var input := input.(cloudaccountId := account.value.id);
          if input.metadataDocument == "" then Err(MissingParameter("metadata_document"))
          else
            var ed := EntityDescriptor(codec, input.metadataDocument);
            if ed.Err? then Err(ed.error)
            else
              var input := input.(entityId := ed.value);
              if input.entityId != serviceEntityId then Err(InputParameter(""))
              else if !queryOk then Err(General("db.FetchModelObjects"))
              else if HasReady(input.entityId, input.cloudaccountId) then Err(DuplicateResource("saml provider"))
              else if baseErr.Some? then Err(baseErr.value)
              else Ok(input)
    }

    /** `StartSamlProviderCreateTask`: once the task is created the
        provider becomes creating; a failing `NewTask` changes nothing. */
    method StartCreateTask(id: string, newTaskOk: bool) returns (err: Option<Error>)
      requires id in providers
      modifies this
      ensures err.None? <==> newTaskOk
      ensures newTaskOk ==> providers == old(providers)[id := old(providers)[id].(status := StatusCreating)] &&
                            tasks == old(tasks) + [SamlProviderCreateTask(id)]
      ensures !newTaskOk ==> providers == old(providers) && tasks == old(tasks)
    {
      if !newTaskOk {
        return Some(Opaque("NewTask"));
      }
      tasks := tasks + [SamlProviderCreateTask(id)];
      providers := providers[id := providers[id].(status := StatusCreating)];
      err := None;
    }

    /** `StartSamlProviderDeleteTask`: the provider becomes deleting. */
    method StartDeleteTask(id: string, newTaskOk: bool) returns (err: Option<Error>)
      requires id in providers
      modifies this
      ensures err.None? <==> newTaskOk
      ensures newTaskOk ==> providers == old(providers)[id := old(providers)[id].(status := StatusDeleting)] &&
                            tasks == old(tasks) + [SamlProviderDeleteTask(id)]
      ensures !newTaskOk ==> providers == old(providers) && tasks == old(tasks)
    {
      if !newTaskOk {
        return Some(Opaque("NewTask"));
      }
      tasks := tasks + [SamlProviderDeleteTask(id)];
      providers := providers[id := providers[id].(status := StatusDeleting)];
      err := None;
    }

    /** `Delete`: a user delete only starts the delete task, so the row
        itself is left alone and no error is returned. */
    method Delete(id: string) returns (err: Option<Error>)
      ensures err == None
    {
      err := None;
    }

    /** `RealDelete`: removes the row. */
    method RealDelete(id: string)
      modifies this`providers
      ensures providers == old(providers) - {id}
    {
      providers := providers - {id};
    }

    /** `taskFailed` of either task: the status is set, the row kept. */
    method SetStatus(id: string, status: string)
      requires id in providers
      modifies this`providers
      ensures providers == old(providers)[id := old(providers)[id].(status := status)]
    {
      providers := providers[id := providers[id].(status := status)];
    }

    /** `SamlProviderCreateTask.OnInit`. `account` and `factory` are the
        lookups of the provider's cloud account and its factory,
        `providerOk` is `GetProvider`, and `createRemote` the cloud's
        `CreateSAMLProvider` (its global id or an error). `remoteCalled`
        tells whether the cloud create was issued. `setExternalIdFails`
        says whether `db.SetExternalId` fails; its error is ignored, so the
        task still completes, without the external id. */
    method CreateTaskOnInit(id: string, account: Result<Account>, factory: Result<Factory>, providerOk: bool,
                            codec: MetadataCodec, createRemote: Result<string>, setExternalIdFails: bool)
      returns (outcome: TaskOutcome, remoteCalled: bool)
      requires id in providers
      modifies this`providers
      ensures account.Err? || factory.Err? ==>
        outcome.StageFailed? && !remoteCalled &&
        providers == old(providers)[id := old(providers)[id].(status := StatusCreateFailed)]
      ensures account.Ok? && factory.Ok? && factory.value.samlLocalize ==>
        outcome == StageComplete && !remoteCalled &&
        providers == old(providers)[id := old(providers)[id].(status := StatusReady)]
      ensures account.Ok? && factory.Ok? && !factory.value.samlLocalize ==>
        var ed := EntityDescriptor(codec, old(providers)[id].metadataDocument);
        (remoteCalled <==> providerOk && ed.Ok?) &&
        (outcome == StageComplete <==> remoteCalled && createRemote.Ok?) &&
        (outcome == StageComplete && !setExternalIdFails ==>
           providers == old(providers)[id := old(providers)[id].(externalId := createRemote.value)]) &&
        (outcome == StageComplete && setExternalIdFails ==> providers == old(providers)) &&
        (outcome.StageFailed? ==>
           providers == old(providers)[id := old(providers)[id].(status := StatusCreateFailed)])
    {
      remoteCalled := false;
      if account.Err? {
        SetStatus(id, StatusCreateFailed);
        return StageFailed(account.error), remoteCalled;
      }
      if factory.Err? {
        SetStatus(id, StatusCreateFailed);
        return StageFailed(factory.error), remoteCalled;
      }
      if factory.value.samlLocalize {
        SetStatus(id, StatusReady);
        return StageComplete, remoteCalled;
      }
      if !providerOk {
        SetStatus(id, StatusCreateFailed);
        return StageFailed(Opaque("GetProvider")), remoteCalled;
      }
      var metadata := EntityDescriptor(codec, providers[id].metadataDocument);
      if metadata.Err? {
        SetStatus(id, StatusCreateFailed);
        return StageFailed(metadata.error), remoteCalled;
      }
      remoteCalled := true;
      if createRemote.Err? {
        SetStatus(id, StatusCreateFailed);
        return StageFailed(createRemote.error), remoteCalled;
      }
      if !setExternalIdFails {
        providers := providers[id := providers[id].(externalId := createRemote.value)];
      }
      outcome := StageComplete;
    }

    /** `SamlProviderDeleteTask.OnInit`. `account` and `factory` as for the
        create task (an account error whose cause is `sql.ErrNoRows` means
        the account is gone), `lookupErr` the error of
        `GetICloudSAMLProvider` if any, and `remoteDeleteOk` the cloud
        `Delete`. A provider that is gone in the cloud, or whose account is
        gone, is deleted locally as if the cloud delete had succeeded. */
    method DeleteTaskOnInit(id: string, account: Result<Account>, factory: Result<Factory>,
                            lookupErr: Option<Error>, remoteDeleteOk: bool)
      returns (outcome: TaskOutcome, remoteCalled: bool)
      requires id in providers
      modifies this`providers
      ensures outcome == StageComplete <==> providers == old(providers) - {id}
      ensures outcome.StageFailed? ==>
        providers == old(providers)[id := old(providers)[id].(status := StatusDeleteFailed)]
      ensures account == Err(NoRows) ==> outcome == StageComplete && !remoteCalled
      ensures account.Err? && account != Err(NoRows) ==> outcome.StageFailed? && !remoteCalled
      ensures account.Ok? && factory.Err? ==> outcome.StageFailed? && !remoteCalled
      ensures account.Ok? && factory.Ok? && factory.value.samlLocalize ==> outcome == StageComplete && !remoteCalled
      ensures account.Ok? && factory.Ok? && !factory.value.samlLocalize ==>
        (lookupErr == Some(CloudNotFound) || lookupErr == Some(NoRows) ==> outcome == StageComplete && !remoteCalled) &&
        (lookupErr.Some? && lookupErr != Some(CloudNotFound) && lookupErr != Some(NoRows) ==>
           outcome.StageFailed? && !remoteCalled) &&
        (lookupErr.None? ==> remoteCalled && (outcome == StageComplete <==> remoteDeleteOk))
    {
      remoteCalled := false;
      if account.Err? {
        if account.error == NoRows {
          RealDelete(id);
          return StageComplete, remoteCalled;
        }
        SetStatus(id, StatusDeleteFailed);
        return StageFailed(account.error), remoteCalled;
      }
      if factory.Err? {
        SetStatus(id, StatusDeleteFailed);
        return StageFailed(factory.error), remoteCalled;
      }
      if factory.value.samlLocalize {
        RealDelete(id);
        return StageComplete, remoteCalled;
      }
      if lookupErr.Some? {
        if lookupErr.value == CloudNotFound || lookupErr.value == NoRows {
          RealDelete(id);
          return StageComplete, remoteCalled;
        }
        SetStatus(id, StatusDeleteFailed);
        return StageFailed(lookupErr.value), remoteCalled;
      }
      remoteCalled := true;
      if !remoteDeleteOk {
        SetStatus(id, StatusDeleteFailed);
        return StageFailed(Opaque("Delete")), remoteCalled;
      }
      RealDelete(id);
      outcome := StageComplete;
    }
  }
}
