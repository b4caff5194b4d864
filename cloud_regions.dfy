// Cloud regions of the compute service (pkg/compute/models/cloudregions.go):
// the delete check, choosing the default VPC, the bookkeeping of a region
// sync, the region driver, the NIC limit, and the start-up migration of
// private-cloud region ids.
module CloudRegions {
  import opened Wrappers
  import opened GoStrings

  /** `api.DEFAULT_REGION_ID` and `api.CLOUD_PROVIDER_ONECLOUD`. */
  const DefaultRegionId := "default"
  const CloudProviderOneCloud := "OneCloud"

  datatype Region = Region(id: string, name: string, provider: string, externalId: string,
                           managerId: string, cloudaccountId: string)

  /** A region as a cloud reports it. */
  datatype CloudRegion = CloudRegion(globalId: string, name: string)

  // ---------------------------------------------------------------------
  // Delete check

  /** `ValidateDeleteCondition`: counting the region's zones and VPCs
      (either count may fail), then refusing a region that still has any,
      then protecting the default region, then the base checks. */
  function ValidateDeleteCondition(region: Region, zoneCnt: Result<nat>, vpcCnt: Result<nat>,
                                   baseErr: Option<Error>): (err: Option<Error>)
    ensures zoneCnt.Err? || vpcCnt.Err? ==> err.Some? && err.value.InternalServer?
    ensures zoneCnt.Ok? && vpcCnt.Ok? && (zoneCnt.value > 0 || vpcCnt.value > 0) ==>
      err == Some(NotEmpty("not empty cloud region"))
    ensures zoneCnt == Ok(0) && vpcCnt == Ok(0) && region.id == DefaultRegionId ==>
      err == Some(ProtectedResource("not allow to delete default cloud region"))
    ensures err.None? <==>
      zoneCnt == Ok(0) && vpcCnt == Ok(0) && region.id != DefaultRegionId && baseErr.None?
  {
    if zoneCnt.Err? then Some(InternalServer("GetZoneCount fail"))
    else if vpcCnt.Err? then Some(InternalServer("GetVpcCount fail"))
    else if zoneCnt.value > 0 || vpcCnt.value > 0 then Some(NotEmpty("not empty cloud region"))
    else if region.id == DefaultRegionId then Some(ProtectedResource("not allow to delete default cloud region"))
    else baseErr
  }

  // ---------------------------------------------------------------------
  // Driver and NIC limits

  /** `GetDriver`: the region driver is chosen by provider, an empty
      provider meaning OneCloud; a provider outside `cloudProviders` stops
      the process (log.Fatalf), shown here as an error. */
  function GetDriver(region: Region, cloudProviders: set<string>): (r: Result<string>)
    ensures r.Ok? ==> r.value != "" && (region.provider != "" ==> r.value == region.provider)
    ensures region.provider == "" ==> (r.Ok? <==> CloudProviderOneCloud in cloudProviders)
    ensures region.provider == "" && r.Ok? ==> r.value == CloudProviderOneCloud
    ensures region.provider != "" ==> (r.Ok? <==> region.provider in cloudProviders)
  {
    var provider := if region.provider == "" then CloudProviderOneCloud else region.provider;
    if provider !in cloudProviders then Err(Opaque("Unsupported region provider")) else Ok(provider)
  }

  /** `isManaged`: a region with a cloud id belongs to a cloud account. */
  predicate IsManaged(region: Region)
  {
    |region.externalId| > 0
  }

  datatype NicOptions = NicOptions(maxManagedNicCount: int, maxNormalNicCount: int)

  /** `getMaxNicCount`: the managed limit for managed regions, the normal
      limit otherwise. */
  function GetMaxNicCount(region: Region, opts: NicOptions): (n: int)
    ensures region.externalId != "" ==> n == opts.maxManagedNicCount
    ensures region.externalId == "" ==> n == opts.maxNormalNicCount
  {
    if IsManaged(region) then opts.maxManagedNicCount else opts.maxNormalNicCount
  }

  // ---------------------------------------------------------------------
  // Region sync bookkeeping

  /** What `compare.CompareSets` splits the local and remote regions into:
      local-only, the aligned pairs present on both sides, remote-only. */
  datatype Compared = Compared(removed: seq<Region>, commondb: seq<Region>, commonext: seq<CloudRegion>,
                               added: seq<CloudRegion>)

  /** How many of the first n steps fail. */
  function Failures(step: nat -> Option<Error>, n: nat): (c: nat)
    ensures c <= n
  {
    if n == 0 then 0 else Failures(step, n - 1) + (if step(n - 1).Some? then 1 else 0)
  }

  /** The values of the successful steps among the first n, in order. */
  function OkValues<T>(step: nat -> Result<T>, n: nat): (vs: seq<T>)
    ensures |vs| <= n
  {
    if n == 0 then [] else OkValues(step, n - 1) + (if step(n - 1).Ok? then [step(n - 1).value] else [])
  }

  /** The items of `xs` whose step succeeded, among the first n. */
  function OkItems<T, U>(xs: seq<U>, step: nat -> Result<T>, n: nat): (ys: seq<U>)
    requires n <= |xs|
    ensures |ys| == |OkValues(step, n)|
    ensures forall y :: y in ys ==> y in xs
  {
    if n == 0 then [] else OkItems(xs, step, n - 1) + (if step(n - 1).Ok? then [xs[n - 1]] else [])
  }

  /** The removal loop: each of the n local-only regions counts as deleted
      or as an error. */
  method RemoveEach(remove: nat -> Option<Error>, n: nat) returns (deleted: nat, deleteErrors: nat)
    ensures deleteErrors == Failures(remove, n) && deleted + deleteErrors == n
  {
    deleted, deleteErrors := 0, 0;
    var i := 0;
    while i < n
      invariant 0 <= i <= n
      invariant deleteErrors == Failures(remove, i) && deleted + deleteErrors == i
    {
      if remove(i).Some? {
        deleteErrors := deleteErrors + 1;
      } else {
        deleted := deleted + 1;
      }
      i := i + 1;
    }
  }

  /** The update or the create loop over `items`: the rows of the successful
      steps and their remote regions are collected, aligned, and the
      failures are counted. */
  method SyncEach(items: seq<CloudRegion>, step: nat -> Result<Region>)
    returns (rows: seq<Region>, remote: seq<CloudRegion>, errors: nat)
    ensures rows == OkValues(step, |items|) && remote == OkItems(items, step, |items|)
    ensures |rows| + errors == |items|
  {
    rows, remote, errors := [], [], 0;
    var i := 0;
    while i < |items|
      invariant 0 <= i <= |items|
      invariant rows == OkValues(step, i) && remote == OkItems(items, step, i)
      invariant |rows| + errors == i
    {
      var r := step(i);
      if r.Err? {
        errors := errors + 1;
      } else {
        rows := rows + [r.value];
        remote := remote + [items[i]];
      }
      i := i + 1;
    }
  }

  /** The bookkeeping loops of `SyncRegions`. `remove(k)` is the outcome of
      removing the k-th local-only region, `update(k)` that of syncing the
      k-th common pair (the updated row), `create(k)` that of creating a row
      for the k-th remote-only region. A failing fetch or comparison
      (`compared`) is recorded and nothing else happens. Every item moves
      one counter, success or error; only successes enter the two output
      lists, which stay aligned: the k-th local row goes with the k-th
      remote region. */
  method SyncRegions(compared: Result<Compared>, remove: nat -> Option<Error>, update: nat -> Result<Region>,
                     create: nat -> Result<Region>)
    returns (localRegions: seq<Region>, remoteRegions: seq<CloudRegion>, result: SyncResult)
    requires compared.Ok? ==> |compared.value.commondb| == |compared.value.commonext|
    ensures compared.Err? ==>
      localRegions == [] && remoteRegions == [] && result == EmptyResult.(failure := Some(compared.error))
    ensures compared.Ok? ==>
      var c := compared.value;
      result.failure.None? &&
      result.deleted + result.deleteErrors == |c.removed| &&
      result.updated + result.updateErrors == |c.commondb| &&
      result.added + result.addErrors == |c.added| &&
      result.deleteErrors == Failures(remove, |c.removed|) &&
      result.updated == |OkValues(update, |c.commondb|)| &&
      result.added == |OkValues(create, |c.added|)| &&
      localRegions == OkValues(update, |c.commondb|) + OkValues(create, |c.added|) &&
      remoteRegions == OkItems(c.commonext, update, |c.commondb|) + OkItems(c.added, create, |c.added|) &&
      |localRegions| == |remoteRegions| == result.updated + result.added
  {
    localRegions, remoteRegions := [], [];
    if compared.Err? {
      return localRegions, remoteRegions, EmptyResult.(failure := Some(compared.error));
    }
    var c := compared.value;
    var deleted, deleteErrors := RemoveEach(remove, |c.removed|);
    var updatedRows, updatedRemote, updateErrors := SyncEach(c.commonext, update);
    var createdRows, createdRemote, addErrors := SyncEach(c.added, create);
    localRegions := updatedRows + createdRows;
    remoteRegions := updatedRemote + createdRemote;
    var updated, added := |updatedRows|, |createdRows|;
    result := SyncResult(added, addErrors, deleted, deleteErrors, updated, updateErrors, None);
  }

  // ---------------------------------------------------------------------
  // Default VPC

  /** A VPC of the region as `GetVpcs` lists it. */
  datatype RegionVpc = RegionVpc(id: string, name: string)

  predicate Names(vpc: RegionVpc, v: string)
  {
    vpc.id == v || vpc.name == v
  }

  /** The `is_default` column of the VPC table, by VPC id. */
  class VpcTable {
    var isDefault: map<string, bool>

    constructor(rows: map<string, bool>)
      ensures isDefault == rows
    {
      isDefault := rows;
    }

    /** `PerformDefaultVpc`: with the `vpc` parameter given and naming (by
        id or name) a VPC of the region, every VPC of the region in list
        order gets its default flag set to whether it is so named; the
        updates stop at the first one that fails (`setFails(k)`). A missing
        parameter or an unknown VPC changes nothing. */
    method PerformDefaultVpc(vpcs: Result<seq<RegionVpc>>, v: string, setFails: nat -> bool)
      returns (err: Option<Error>)
      requires vpcs.Ok? ==> forall k :: 0 <= k < |vpcs.value| ==> vpcs.value[k].id in isDefault
      requires vpcs.Ok? ==> forall k, l :: 0 <= k < l < |vpcs.value| ==> vpcs.value[k].id != vpcs.value[l].id
      modifies this
      ensures vpcs.Err? ==> err == Some(vpcs.error) && isDefault == old(isDefault)
      ensures vpcs.Ok? && v == "" ==> err == Some(MissingParameter("vpc")) && isDefault == old(isDefault)
      ensures vpcs.Ok? && v != "" && (forall k :: 0 <= k < |vpcs.value| ==> !Names(vpcs.value[k], v)) ==>
        err.Some? && err.value.ResourceNotFound? && isDefault == old(isDefault)
      ensures vpcs.Ok? && v != "" && (exists k :: 0 <= k < |vpcs.value| && Names(vpcs.value[k], v)) ==>
        var list := vpcs.value;
        var n := FirstFailure(setFails, |list|);
        isDefault.Keys == old(isDefault).Keys &&
        (forall k :: 0 <= k < n ==> isDefault[list[k].id] == Names(list[k], v)) &&
        (forall k :: n <= k < |list| ==> isDefault[list[k].id] == old(isDefault)[list[k].id]) &&
        (forall id :: id in old(isDefault) && (forall k :: 0 <= k < |list| ==> list[k].id != id) ==>
           isDefault[id] == old(isDefault)[id]) &&
        (err.None? <==> n == |list|)
    {
      if vpcs.Err? {
        return Some(vpcs.error);
      }
      var list := vpcs.value;
      if v == "" {
        return Some(MissingParameter("vpc"));
      }
      var k := 0;
      while k < |list| && !Names(list[k], v)
        invariant 0 <= k <= |list|
        invariant forall j :: 0 <= j < k ==> !Names(list[j], v)
      {
        k := k + 1;
      }
      if k == |list| {
        return Some(ResourceNotFound("VPC not found"));
      }
      k := 0;
      while k < |list|
        invariant 0 <= k <= |list|
        invariant forall j :: 0 <= j < k ==> !setFails(j)
        invariant isDefault.Keys == old(isDefault).Keys
        invariant forall j :: 0 <= j < k ==> isDefault[list[j].id] == Names(list[j], v)
        invariant forall id :: id in old(isDefault) && (forall j :: 0 <= j < k ==> list[j].id != id) ==>
          isDefault[id] == old(isDefault)[id]
      {
        if setFails(k) {
          return Some(Opaque("setDefault"));
        }
        isDefault := isDefault[list[k].id := Names(list[k], v)];
        k := k + 1;
      }
      err := None;
    }
  }

  // ---------------------------------------------------------------------
  // Private-cloud region migration

  /** The cloud provider (manager) of a region: its id and its account. */
  datatype CloudProvider = CloudProvider(id: string, cloudaccountId: string)

  /** The regions the migration query selects: a private-cloud provider, a
      manager, and no account yet. */
  predicate NeedsMigration(r: Region, privateProviders: set<string>)
  {
    r.provider in privateProviders && r.managerId != "" && r.cloudaccountId == ""
  }

  /** The rewrite of one selected region: when its cloud id contains its
      manager id and the manager is found, every occurrence of the
      provider id in the cloud id becomes the account id, and the region
      takes the account. */
  function Migrated(r: Region, p: Option<CloudProvider>): (m: Region)
    requires p.Some? ==> p.value.id != ""
    ensures !Contains(r.externalId, r.managerId) || p.None? ==> m == r
    ensures Contains(r.externalId, r.managerId) && p.Some? ==>
      m == r.(externalId := ReplaceAll(r.externalId, p.value.id, p.value.cloudaccountId),
              cloudaccountId := p.value.cloudaccountId)
  {
    if Contains(r.externalId, r.managerId) && p.Some? then
      r.(externalId := ReplaceAll(r.externalId, p.value.id, p.value.cloudaccountId),
         cloudaccountId := p.value.cloudaccountId)
    else r
  }

  /** A rewritten region has its account set, so the migration query does
      not select it again; a selected region that is not rewritten stays
      as it is. Either way a second run changes nothing. */
  lemma MigrationSettles(r: Region, privateProviders: set<string>, p: Option<CloudProvider>)
    requires p.Some? ==> p.value.id != "" && p.value.cloudaccountId != ""
    requires NeedsMigration(r, privateProviders)
    ensures var m := Migrated(r, p);
      m == r || !NeedsMigration(m, privateProviders)
    ensures var m := Migrated(r, p);
      NeedsMigration(m, privateProviders) ==> Migrated(m, p) == m
  {
  }

  /** The region table, by id. */
  class RegionTable {
    var regions: map<string, Region>

    constructor(rows: map<string, Region>)
      ensures regions == rows
    {
      regions := rows;
    }

    /** `migratePrivateCloudregion`: the selected regions, in an order the
        database picks, are rewritten one by one (`providerOf` finds a
        region's manager); the first failing update (`updateFails`) stops
        the run. Rows that need no rewrite are not updated at all. */
    method MigratePrivateCloudregion(privateProviders: set<string>, providerOf: string -> Option<CloudProvider>,
                                     fetchOk: bool, updateFails: string -> bool)
      returns (err: Option<Error>)
      requires forall m :: providerOf(m).Some? ==> providerOf(m).value.id != ""
      modifies this
      ensures !fetchOk ==> err.Some? && regions == old(regions)
      ensures regions.Keys == old(regions).Keys
      ensures forall id :: id in old(regions) ==>
        regions[id] == old(regions)[id] ||
        (NeedsMigration(old(regions)[id], privateProviders) &&
         regions[id] == Migrated(old(regions)[id], providerOf(old(regions)[id].managerId)))
      ensures err.None? ==> forall id :: id in old(regions) && NeedsMigration(old(regions)[id], privateProviders) ==>
        regions[id] == Migrated(old(regions)[id], providerOf(old(regions)[id].managerId))
      ensures (fetchOk && forall id :: id in old(regions) && NeedsMigration(old(regions)[id], privateProviders) ==>
                 !updateFails(id)) ==> err.None?
    {
      if !fetchOk {
        return Some(Opaque("db.FetchModelObjects"));
      }
      var pending := set id | id in regions && NeedsMigration(regions[id], privateProviders);
      ghost var selected := pending;
      while pending != {}
        invariant pending <= selected
        invariant selected == set id | id in old(regions) && NeedsMigration(old(regions)[id], privateProviders)
        invariant regions.Keys == old(regions).Keys
        invariant forall id :: id in old(regions) && id !in selected - pending ==> regions[id] == old(regions)[id]
        invariant forall id :: id in selected - pending ==>
          regions[id] == Migrated(old(regions)[id], providerOf(old(regions)[id].managerId))
        decreases pending
      {
        var id :| id in pending;
        var r := regions[id];
        var p := providerOf(r.managerId);
        if Contains(r.externalId, r.managerId) && p.Some? {
          if updateFails(id) {
            return Some(Opaque("db.Update"));
          }
          regions := regions[id := Migrated(r, p)];
        }
        pending := pending - {id};
      }
      err := None;
    }
  }
}
