// DNS zones (pkg/compute/models/dns_zones.go): create validation, the
// status-guarded actions, deletion, and the two sync steps that reconcile a
// zone with its cloud copy (VPC links and record sets).
module DnsZones {
  import opened Wrappers
  import opened DnsRecordDiff
  import opened DnsModel
  import opened DnsRecordSets

  // ---------------------------------------------------------------------
  // Create validation

  datatype ZoneCreateInput = ZoneCreateInput(name: string, zoneType: string, vpcIds: seq<string>,
                                             cloudaccountId: string, status: string)

  /** `FetchByIdOrName` on the VPC table: an id first, else the one VPC of
      that name. */
  function FetchVpcByIdOrName(vpcs: map<string, Vpc>, idOrName: string): (r: Result<string>)
    ensures r.Ok? ==> r.value in vpcs
    ensures idOrName in vpcs ==> r == Ok(idOrName)
    ensures r.Ok? && r.value != idOrName ==> vpcs[r.value].name == idOrName
  {
    if idOrName in vpcs then Ok(idOrName)
    else
      var named := set v | v in vpcs && vpcs[v].name == idOrName;
      if named == {} then Err(NoRows)
      else if |named| == 1 then Ok(Single(named))
      else Err(DuplicateEntry)
  }

  /** The VPC loop of the PrivateZone branch, from a position where the
      manager id seen so far is `managerId`: each VPC must exist, its account
      (if any) must support private zones (`supportsPrivate` stands for the
      account's provider factory: an error, or whether PrivateZone is among
      its DNS types), and its ManagerId must equal the manager id, which is
      taken from the first VPC that has one. The result lists the resolved
      VPC ids. */
  function ValidatePrivateVpcs(vpcs: map<string, Vpc>, ids: seq<string>, managerId: string,
                               supportsPrivate: string -> Result<bool>): Result<seq<string>>
    decreases |ids|
  {
    if ids == [] then Ok([])
    else
      match CheckVpc(vpcs, ids[0], managerId, supportsPrivate)
      case Err(e) => Err(e)
      case Ok(step) => Prepend([step.0], ValidatePrivateVpcs(vpcs, ids[1..], step.1, supportsPrivate))
  }

  /** One VPC of that loop: the resolved id and the manager id from then on. */
  function CheckVpc(vpcs: map<string, Vpc>, idOrName: string, managerId: string,
                    supportsPrivate: string -> Result<bool>): Result<(string, string)>
  {
    var found := FetchVpcByIdOrName(vpcs, idOrName);
    if found.Err? then
      if found.error == NoRows then Err(ResourceNotFound("vpc")) else Err(General("fetch vpc"))
    else
      var vpc := vpcs[found.value];
      var m := if managerId == "" then vpc.managerId else managerId;
      var factory := if vpc.accountId.Some? then supportsPrivate(vpc.accountId.value) else Ok(true);
      if factory.Err? then Err(General("GetProviderFactory"))
      else if !factory.value then Err(NotSupported("PrivateZone"))
      else if m != vpc.managerId then Err(Conflict("vpc ids not with same account"))
      else Ok((found.value, m))
  }

  /** Accepted VPCs resolve one for one to existing rows, and once a VPC with
      a manager has been seen every later VPC has that same manager (an
      unmanaged VPC may still come before it). */
  lemma {:induction false} PrivateVpcsShareManager(vpcs: map<string, Vpc>, ids: seq<string>, managerId: string,
                                                  supportsPrivate: string -> Result<bool>)
    requires ValidatePrivateVpcs(vpcs, ids, managerId, supportsPrivate).Ok?
    ensures var r := ValidatePrivateVpcs(vpcs, ids, managerId, supportsPrivate).value;
      |r| == |ids| &&
      (forall k :: 0 <= k < |r| ==> r[k] in vpcs) &&
      (managerId != "" ==> forall k :: 0 <= k < |r| ==> vpcs[r[k]].managerId == managerId) &&
      (forall k, l :: 0 <= k < l < |r| && vpcs[r[k]].managerId != "" ==>
         vpcs[r[l]].managerId == vpcs[r[k]].managerId)
  {
    if ids != [] {
      var found := FetchVpcByIdOrName(vpcs, ids[0]);
      var vpc := vpcs[found.value];
      var m := if managerId == "" then vpc.managerId else managerId;
      PrivateVpcsShareManager(vpcs, ids[1..], m, supportsPrivate);
      var rest := ValidatePrivateVpcs(vpcs, ids[1..], m, supportsPrivate).value;
      var r := ValidatePrivateVpcs(vpcs, ids, managerId, supportsPrivate).value;
      assert r == [found.value] + rest;
      forall k, l | 0 <= k < l < |r| && vpcs[r[k]].managerId != ""
        ensures vpcs[r[l]].managerId == vpcs[r[k]].managerId
      {
        if k == 0 {
          assert vpcs[r[k]].managerId == m;
        } else {
          assert r[k] == rest[k - 1] && r[l] == rest[l - 1];
        }
      }
    }
  }

  /** The manager check depends on the order: for any VPC `u` without a
      manager and any VPC `m` with one, both of which pass the account
      check, `u` then `m` is accepted while `m` then `u` is a conflict. */
  lemma PrivateVpcsOrderMatters(vpcs: map<string, Vpc>, u: string, m: string,
                                supportsPrivate: string -> Result<bool>)
    requires u in vpcs && m in vpcs && vpcs[u].managerId == "" && vpcs[m].managerId != ""
    requires CheckVpc(vpcs, u, "", supportsPrivate).Ok? && CheckVpc(vpcs, m, "", supportsPrivate).Ok?
    ensures ValidatePrivateVpcs(vpcs, [u, m], "", supportsPrivate) == Ok([u, m])
    ensures ValidatePrivateVpcs(vpcs, [m, u], "", supportsPrivate) == Err(Conflict("vpc ids not with same account"))
  {
    var mgr := vpcs[m].managerId;
    assert CheckVpc(vpcs, u, "", supportsPrivate) == Ok((u, ""));
    assert CheckVpc(vpcs, m, "", supportsPrivate) == Ok((m, mgr));
    assert CheckVpc(vpcs, u, mgr, supportsPrivate) == Err(Conflict("vpc ids not with same account"));
    assert [u, m][1..] == [m] && [m][1..] == [] && [m, u][1..] == [u];
    assert ValidatePrivateVpcs(vpcs, [], mgr, supportsPrivate) == Ok([]);
    assert [m] + [] == [m];
    assert ValidatePrivateVpcs(vpcs, [m], "", supportsPrivate) == Ok([m]);
    assert [u] + [m] == [u, m];
  }

  /** The loop of CheckPrivateVpcs starts with nothing accepted. */
  lemma CheckPrivateStart(vpcs: map<string, Vpc>, ids: seq<string>, supportsPrivate: string -> Result<bool>)
    ensures ValidatePrivateVpcs(vpcs, ids, "", supportsPrivate) ==
      Prepend([], ValidatePrivateVpcs(vpcs, ids[0..], "", supportsPrivate))
  {
    assert ids[0..] == ids;
    PrependNothing(ValidatePrivateVpcs(vpcs, ids, "", supportsPrivate));
  }

  /** One turn of that loop: a failed check is the result, a passed one
      moves the VPC to the accepted ids. */
  lemma CheckPrivateStep(vpcs: map<string, Vpc>, ids: seq<string>, k: nat, managerId: string,
                         supportsPrivate: string -> Result<bool>, done: seq<string>)
    requires k < |ids|
    ensures var step := CheckVpc(vpcs, ids[k], managerId, supportsPrivate);
      var whole := Prepend(done, ValidatePrivateVpcs(vpcs, ids[k..], managerId, supportsPrivate));
      (step.Err? ==> whole == Err(step.error)) &&
      (step.Ok? ==> whole == Prepend(done + [step.value.0],
                                        ValidatePrivateVpcs(vpcs, ids[k + 1..], step.value.1, supportsPrivate)))
  {
    assert ids[k..][0] == ids[k] && ids[k..][1..] == ids[k + 1..];
    var step := CheckVpc(vpcs, ids[k], managerId, supportsPrivate);
    if step.Ok? {
      PrependTwice(done, [step.value.0], ValidatePrivateVpcs(vpcs, ids[k + 1..], step.value.1, supportsPrivate));
    }
  }

  /** The end of that loop: nothing is left to check. */
  lemma CheckPrivateEnd(vpcs: map<string, Vpc>, ids: seq<string>, managerId: string,
                        supportsPrivate: string -> Result<bool>, done: seq<string>)
    ensures Prepend(done, ValidatePrivateVpcs(vpcs, ids[|ids|..], managerId, supportsPrivate)) == Ok(done)
  {
    assert ids[|ids|..] == [];
    assert done + [] == done;
  }

  /** The VPC loop of the PrivateZone branch of ValidateCreateData; the
      first VPC that fails its check ends it with that error. */
  method CheckPrivateVpcs(vpcs: map<string, Vpc>, ids: seq<string>, supportsPrivate: string -> Result<bool>)
    returns (r: Result<seq<string>>)
    ensures r == ValidatePrivateVpcs(vpcs, ids, "", supportsPrivate)
  {
    var vpcIds: seq<string> := [];
    var managerId := "";
    var k := 0;
    CheckPrivateStart(vpcs, ids, supportsPrivate);
    while k < |ids|
      invariant 0 <= k <= |ids|
      invariant ValidatePrivateVpcs(vpcs, ids, "", supportsPrivate) ==
        Prepend(vpcIds, ValidatePrivateVpcs(vpcs, ids[k..], managerId, supportsPrivate))
    {
      CheckPrivateStep(vpcs, ids, k, managerId, supportsPrivate, vpcIds);
      var step := CheckVpc(vpcs, ids[k], managerId, supportsPrivate);
      if step.Err? {
        return Err(step.error);
      }
      vpcIds, managerId := vpcIds + [step.value.0], step.value.1;
      k := k + 1;
    }
    CheckPrivateEnd(vpcs, ids, managerId, supportsPrivate, vpcIds);
    return Ok(vpcIds);
  }

  /** `SDnsZoneManager.ValidateCreateData`. `isDomainName` is
      `regutils.MatchDomainName`; `fetchAccount` is the cloud-account lookup
      by id or name. */
  method ValidateCreateData(db: DnsDatabase, input: ZoneCreateInput, isDomainName: string -> bool,
                            supportsPrivate: string -> Result<bool>, fetchAccount: string -> Result<string>)
    returns (r: Result<ZoneCreateInput>)
    ensures !isDomainName(input.name) ==> r.Err? && r.error.InputParameter?
    ensures isDomainName(input.name) && input.zoneType == "" ==> r == Err(MissingParameter("zone_type"))
    ensures input.zoneType != "" && input.zoneType != PrivateZone && input.zoneType != PublicZone ==>
      r.Err? && r.error.InputParameter?
    ensures isDomainName(input.name) && input.zoneType == PrivateZone ==>
      r == match ValidatePrivateVpcs(db.vpcs, input.vpcIds, "", supportsPrivate)
           case Ok(ids) => Ok(input.(vpcIds := ids))
           case Err(e) => Err(e)
    ensures isDomainName(input.name) && input.zoneType == PublicZone && input.cloudaccountId == "" ==>
      r == Ok(input.(status := "available"))
    ensures isDomainName(input.name) && input.zoneType == PublicZone && input.cloudaccountId != "" ==>
      r == match fetchAccount(input.cloudaccountId)
           case Ok(id) => Ok(input.(cloudaccountId := id))
           case Err(e) => if e == NoRows then Err(ResourceNotFound("cloudaccount")) else Err(General("fetch cloudaccount"))
  {
    if !isDomainName(input.name) {
      return Err(InputParameter("invalid domain name"));
    }
    if input.zoneType == "" {
      return Err(MissingParameter("zone_type"));
    }
    if input.zoneType == PrivateZone {
      var checked := CheckPrivateVpcs(db.vpcs, input.vpcIds, supportsPrivate);
      if checked.Err? {
        return Err(checked.error);
      }
      return Ok(input.(vpcIds := checked.value));
    } else if input.zoneType == PublicZone {
      if input.cloudaccountId != "" {
        var account := fetchAccount(input.cloudaccountId);
        if account.Err? {
          if account.error == NoRows {
            return Err(ResourceNotFound("cloudaccount"));
          }
          return Err(General("fetch cloudaccount"));
        }
        return Ok(input.(cloudaccountId := account.value));
      }
      return Ok(input.(status := "available"));
    }
    r := Err(InputParameter("unknown zone type"));
  }

  /** `PostCreate`: a private zone links its VPCs and, when it has any,
      starts the create task without an account; a public zone with an
      account starts the create task for that account. */
  method PostCreate(db: DnsDatabase, zoneId: string, input: ZoneCreateInput, taskOk: bool)
    requires zoneId in db.zones
    modifies db`zoneVpcs, db`zones, db`tasks
    ensures input.zoneType == PrivateZone ==>
      db.zoneVpcs == old(db.zoneVpcs) + set v | v in input.vpcIds :: (zoneId, v)
    ensures input.zoneType != PrivateZone ==> db.zoneVpcs == old(db.zoneVpcs)
    ensures var starts := (input.zoneType == PrivateZone && |input.vpcIds| > 0) ||
                          (input.zoneType == PublicZone && input.cloudaccountId != "");
      var accountId := if input.zoneType == PrivateZone then "" else input.cloudaccountId;
      if starts && taskOk then
        db.tasks == old(db.tasks) + [Task(DnsZoneCreateTask(accountId), zoneId)] &&
        db.zones == old(db.zones)[zoneId := old(db.zones)[zoneId].(status := ZoneCreating)]
      else db.tasks == old(db.tasks) && db.zones == old(db.zones)
  {
    if input.zoneType == PrivateZone {
      var k := 0;
      while k < |input.vpcIds|
        invariant 0 <= k <= |input.vpcIds|
        invariant db.zoneVpcs == old(db.zoneVpcs) + set j | 0 <= j < k :: (zoneId, input.vpcIds[j])
        invariant db.zones == old(db.zones) && db.tasks == old(db.tasks)
      {
        db.AddVpc(zoneId, input.vpcIds[k]);
        assert (set j | 0 <= j < k + 1 :: (zoneId, input.vpcIds[j])) ==
               (set j | 0 <= j < k :: (zoneId, input.vpcIds[j])) + {(zoneId, input.vpcIds[k])};
        k := k + 1;
      }
      assert (set j | 0 <= j < k :: (zoneId, input.vpcIds[j])) == set v | v in input.vpcIds :: (zoneId, v) by {
        forall v | v in input.vpcIds ensures (zoneId, v) in set j | 0 <= j < k :: (zoneId, input.vpcIds[j]) {
          var j :| 0 <= j < k && input.vpcIds[j] == v;
        }
      }
      if |input.vpcIds| > 0 {
        var _ := db.StartDnsZoneCreateTask(zoneId, "", taskOk);
      }
    } else if input.zoneType == PublicZone {
      if input.cloudaccountId != "" {
        var _ := db.StartDnsZoneCreateTask(zoneId, input.cloudaccountId, taskOk);
      }
    }
  }

  // ---------------------------------------------------------------------
  // Status-guarded actions. Each rejects a zone that is not available
  // before it changes anything.

  /** `PerformSyncRecordSets`. */
  method PerformSyncRecordSets(db: DnsDatabase, zoneId: string, taskOk: bool) returns (err: Option<Error>)
    requires zoneId in db.zones
    modifies db`zones, db`tasks
    ensures old(db.zones[zoneId].status) != ZoneAvailable ==>
      err.Some? && err.value.InvalidStatus? && db.zones == old(db.zones) && db.tasks == old(db.tasks)
    ensures old(db.zones[zoneId].status) == ZoneAvailable ==>
      (err.None? <==> taskOk) &&
      (taskOk ==> db.tasks == old(db.tasks) + [Task(DnsZoneSyncRecordSetsTask, zoneId)] &&
                  db.zones == old(db.zones)[zoneId := old(db.zones)[zoneId].(status := SyncingRecordSets)])
  {
    if db.zones[zoneId].status != ZoneAvailable {
      return Some(InvalidStatus("can not sync record sets"));
    }
    err := db.StartDnsZoneSyncRecordSetsTask(zoneId, taskOk);
  }

  /** `PerformCache`: a public zone registers a cache for the account and
      starts the cache-create task, unless that cache already has a cloud
      copy. `cacheInsertFails` says whether inserting a new cache row fails. */
  method PerformCache(db: DnsDatabase, zoneId: string, accountInput: string,
                      fetchAccount: string -> Result<string>, taskOk: bool, cacheInsertFails: bool)
    returns (err: Option<Error>)
    requires zoneId in db.zones
    modifies db`zones, db`caches, db`tasks
    ensures var z := old(db.zones[zoneId]);
      z.status != ZoneAvailable || z.zoneType != PublicZone || accountInput == "" ||
      fetchAccount(accountInput).Err? ==>
        err.Some? && db.zones == old(db.zones) && db.caches == old(db.caches) && db.tasks == old(db.tasks)
    ensures old(db.zones[zoneId].status) != ZoneAvailable ==> err.Some? && err.value.InvalidStatus?
    ensures old(db.zones[zoneId].status) == ZoneAvailable && old(db.zones[zoneId].zoneType) != PublicZone ==>
      err.Some? && err.value.UnsupportedOperation?
    ensures (old(db.zones[zoneId].status) == ZoneAvailable && old(db.zones[zoneId].zoneType) == PublicZone &&
             accountInput == "") ==> err == Some(MissingParameter("cloudaccount_id"))
    ensures err.None? ==>
      old(db.zones[zoneId].status) == ZoneAvailable && old(db.zones[zoneId].zoneType) == PublicZone &&
      fetchAccount(accountInput).Ok? && taskOk &&
      exists c :: c in db.caches && db.caches[c].zoneId == zoneId &&
                  db.caches[c].accountId == fetchAccount(accountInput).value &&
                  db.caches[c].externalId == "" && db.caches[c].status == CacheCreating &&
                  db.tasks == old(db.tasks) + [Task(DnsZoneCacheCreateTask, c)] &&
                  db.zones == old(db.zones)[zoneId := old(db.zones)[zoneId].(status := ZoneCaching)]
    ensures fetchAccount(accountInput).Ok? &&
            old(db.GetDnsZoneCache(zoneId, fetchAccount(accountInput).value)).Ok? &&
            old(db.caches[db.GetDnsZoneCache(zoneId, fetchAccount(accountInput).value).value].externalId) != "" ==>
      err.Some?
    ensures fetchAccount(accountInput).Ok? &&
            old(db.GetDnsZoneCache(zoneId, fetchAccount(accountInput).value)) == Err(NoRows) && cacheInsertFails ==>
      err.Some? && db.zones == old(db.zones) && db.caches == old(db.caches) && db.tasks == old(db.tasks)
  {
    if db.zones[zoneId].status != ZoneAvailable {
      return Some(InvalidStatus("dns zone can not cache"));
    }
    if db.zones[zoneId].zoneType != PublicZone {
      return Some(UnsupportedOperation("Only PublicZone support cache for account"));
    }
    if accountInput == "" {
      return Some(MissingParameter("cloudaccount_id"));
    }
    var account := fetchAccount(accountInput);
    if account.Err? {
      if account.error == NoRows {
        return Some(ResourceNotFound("cloudaccount"));
      }
      return Some(General("fetch cloudaccount"));
    }
    var cache := db.RegisterCache(zoneId, account.value, cacheInsertFails);
    if cache.Err? {
      return Some(General("RegisterCache"));
    }
    if db.caches[cache.value].externalId != "" {
      return Some(Conflict("account has been cached"));
    }
    err := db.StartDnsZoneCacheCreateTask(cache.value, taskOk);
  }

  /** `PerformUnache`: a public zone registers (or finds) the account's
      cache and starts the cache-delete task. There is no check that
      cloudaccount_id was given: the lookup of the empty name decides.
      `cacheInsertFails` says whether inserting a new cache row fails. */
  method PerformUnache(db: DnsDatabase, zoneId: string, accountInput: string,
                       fetchAccount: string -> Result<string>, taskOk: bool, cacheInsertFails: bool)
    returns (err: Option<Error>)
    requires zoneId in db.zones
    modifies db`zones, db`caches, db`tasks
    ensures var z := old(db.zones[zoneId]);
      z.status != ZoneAvailable || z.zoneType != PublicZone || fetchAccount(accountInput).Err? ==>
        err.Some? && db.zones == old(db.zones) && db.caches == old(db.caches) && db.tasks == old(db.tasks)
    ensures old(db.zones[zoneId].status) != ZoneAvailable ==> err.Some? && err.value.InvalidStatus?
    ensures err.None? ==>
      old(db.zones[zoneId].status) == ZoneAvailable && old(db.zones[zoneId].zoneType) == PublicZone &&
      fetchAccount(accountInput).Ok? && taskOk &&
      exists c :: c in db.caches && db.caches[c].zoneId == zoneId &&
                  db.caches[c].accountId == fetchAccount(accountInput).value &&
                  db.caches[c].status == CacheDeleting &&
                  db.tasks == old(db.tasks) + [Task(DnsZoneCacheDeleteTask, c)] &&
                  db.zones == old(db.zones)[zoneId := old(db.zones)[zoneId].(status := ZoneUncaching)]
    ensures fetchAccount(accountInput).Ok? &&
            old(db.GetDnsZoneCache(zoneId, fetchAccount(accountInput).value)) == Err(NoRows) && cacheInsertFails ==>
      err.Some? && db.zones == old(db.zones) && db.caches == old(db.caches) && db.tasks == old(db.tasks)
  {
    if db.zones[zoneId].status != ZoneAvailable {
      return Some(InvalidStatus("dns zone can not uncache"));
    }
    if db.zones[zoneId].zoneType != PublicZone {
      return Some(UnsupportedOperation("Only PublicZone support cache for account"));
    }
    var account := fetchAccount(accountInput);
    if account.Err? {
      if account.error == NoRows {
        return Some(ResourceNotFound("cloudaccount"));
      }
      return Some(General("fetch cloudaccount"));
    }
    var cache := db.RegisterCache(zoneId, account.value, cacheInsertFails);
    if cache.Err? {
      return Some(General("RegisterCache"));
    }
    err := db.StartDnsZoneCacheDeleteTask(cache.value, taskOk);
  }

  /** `PerformAddVpcs`: a private zone accepts VPCs that exist and are not
      yet linked; when the zone already has VPCs, every new VPC must have
      the manager of the first linked one. With no VPCs yet there is no
      manager check at all. */
  method PerformAddVpcs(db: DnsDatabase, zoneId: string, vpcIds: seq<string>, taskOk: bool)
    returns (err: Option<Error>)
    requires zoneId in db.zones
    modifies db`zones, db`tasks
    ensures var z := old(db.zones[zoneId]);
      z.status != ZoneAvailable || z.zoneType != PrivateZone || vpcIds == [] ==>
        err.Some? && db.zones == old(db.zones) && db.tasks == old(db.tasks)
    ensures old(db.zones[zoneId].status) != ZoneAvailable ==> err.Some? && err.value.InvalidStatus?
    ensures old(db.zones[zoneId].status) == ZoneAvailable && old(db.zones[zoneId].zoneType) != PrivateZone ==>
      err.Some? && err.value.UnsupportedOperation?
    ensures (old(db.zones[zoneId].status) == ZoneAvailable && old(db.zones[zoneId].zoneType) == PrivateZone &&
             vpcIds == []) ==> err == Some(MissingParameter("vpc_ids"))
    ensures err.None? ==>
      taskOk && vpcIds != [] &&
      (forall k :: 0 <= k < |vpcIds| ==> vpcIds[k] in db.vpcs && vpcIds[k] !in db.VpcIdsOf(zoneId)) &&
      (db.VpcIdsOf(zoneId) != {} ==>
         exists e :: e in db.VpcIdsOf(zoneId) &&
           forall k :: 0 <= k < |vpcIds| ==> db.vpcs[vpcIds[k]].managerId == db.vpcs[e].managerId) &&
      db.tasks == old(db.tasks) + [Task(DnsZoneAddVpcsTask(vpcIds), zoneId)] &&
      db.zones == old(db.zones)[zoneId := old(db.zones)[zoneId].(status := ZoneAddVpcs)]
    ensures old(db.zones[zoneId].status) == ZoneAvailable && old(db.zones[zoneId].zoneType) == PrivateZone &&
            vpcIds != [] && taskOk &&
            (forall k :: 0 <= k < |vpcIds| ==> vpcIds[k] in db.vpcs && vpcIds[k] !in db.VpcIdsOf(zoneId)) &&
            (forall e, k :: e in db.VpcIdsOf(zoneId) && 0 <= k < |vpcIds| ==>
               db.vpcs[vpcIds[k]].managerId == db.vpcs[e].managerId) ==>
      err.None?
    ensures (exists k :: 0 <= k < |vpcIds| && vpcIds[k] in db.VpcIdsOf(zoneId)) ==> err.Some?
  {
    if db.zones[zoneId].status != ZoneAvailable {
      return Some(InvalidStatus("dns zone can not add vpcs"));
    }
    if db.zones[zoneId].zoneType != PrivateZone {
      return Some(UnsupportedOperation("Only PrivateZone support vpcs"));
    }
    var managerId := "";
    var vpcs := db.GetVpcs(zoneId);
    if |vpcs| > 0 {
      managerId := db.vpcs[vpcs[0]].managerId;
    }
    if |vpcIds| == 0 {
      return Some(MissingParameter("vpc_ids"));
    }
    var first := if |vpcs| > 0 then vpcs[0] else "";
    var k := 0;
    while k < |vpcIds|
      invariant 0 <= k <= |vpcIds|
      invariant forall j :: 0 <= j < k ==> vpcIds[j] in db.vpcs && vpcIds[j] !in db.VpcIdsOf(zoneId)
      invariant |vpcs| > 0 ==> first in db.VpcIdsOf(zoneId) && managerId == db.vpcs[first].managerId
      invariant |vpcs| > 0 ==> forall j :: 0 <= j < k ==> db.vpcs[vpcIds[j]].managerId == db.vpcs[first].managerId
    {
      if vpcIds[k] !in db.vpcs {
        return Some(ResourceNotFound("vpc"));
      }
      var vpc := db.vpcs[vpcIds[k]];
      if managerId != vpc.managerId && |vpcs| != 0 {
        return Some(Conflict("vpc not with same account"));
      }
      managerId := vpc.managerId;
      if vpcIds[k] in vpcs {
        return Some(Conflict("vpc has already in this dns zone"));
      }
      k := k + 1;
    }
    err := db.StartDnsZoneAddVpcsTask(zoneId, vpcIds, taskOk);
  }

  /** The VPC check of `PerformRemoveVpcs` as written: a request gets
      through when none of its VPCs is linked to the zone. */
  predicate RemoveAllowedAsWritten(linked: set<string>, vpcIds: seq<string>)
  {
    forall k :: 0 <= k < |vpcIds| ==> vpcIds[k] !in linked
  }

  /** The check its error message describes: every requested VPC is linked
      to the zone. */
  predicate RemoveAllowed(linked: set<string>, vpcIds: seq<string>)
  {
    forall k :: 0 <= k < |vpcIds| ==> vpcIds[k] in linked
  }

  /** The two checks never both let a non-empty request through: as
      written, no remove task is ever started for a request the intended
      check accepts, and the other way round. */
  lemma InvertedRemoveCheck(linked: set<string>, vpcIds: seq<string>)
    requires |vpcIds| > 0
    ensures !(RemoveAllowedAsWritten(linked, vpcIds) && RemoveAllowed(linked, vpcIds))
  {
    var first := vpcIds[0];
    assert first in linked ==> !RemoveAllowedAsWritten(linked, vpcIds);
  }

  /** `PerformRemoveVpcs` as written: the membership test is inverted, so a
      requested VPC that IS linked to the zone is rejected as not found, and
      only VPCs outside the zone get through to the remove task. */
  method PerformRemoveVpcs(db: DnsDatabase, zoneId: string, vpcIds: seq<string>, taskOk: bool)
    returns (err: Option<Error>)
    requires zoneId in db.zones
    modifies db`zones, db`tasks
    ensures var z := old(db.zones[zoneId]);
      err.None? <==> z.status == ZoneAvailable && z.zoneType == PrivateZone &&
                     RemoveAllowedAsWritten(db.VpcIdsOf(zoneId), vpcIds) && taskOk
    ensures old(db.zones[zoneId].status) != ZoneAvailable ==> err.Some? && err.value.InvalidStatus?
    ensures old(db.zones[zoneId].status) == ZoneAvailable && old(db.zones[zoneId].zoneType) == PrivateZone &&
            (exists k :: 0 <= k < |vpcIds| && vpcIds[k] in db.VpcIdsOf(zoneId)) ==>
      err.Some? && err.value.ResourceNotFound? && db.zones == old(db.zones) && db.tasks == old(db.tasks)
    ensures err.None? ==>
      db.tasks == old(db.tasks) + [Task(DnsZoneRemoveVpcsTask(vpcIds), zoneId)] &&
      db.zones == old(db.zones)[zoneId := old(db.zones)[zoneId].(status := ZoneRemoveVpcs)]
    ensures old(db.zones[zoneId].status) != ZoneAvailable || old(db.zones[zoneId].zoneType) != PrivateZone ==>
      db.zones == old(db.zones) && db.tasks == old(db.tasks)
  {
    if db.zones[zoneId].status != ZoneAvailable {
      return Some(InvalidStatus("dns zone can not remove vpcs"));
    }
    if db.zones[zoneId].zoneType != PrivateZone {
      return Some(UnsupportedOperation("Only PrivateZone support vpcs"));
    }
    var vpcs := db.GetVpcs(zoneId);
    var k := 0;
    while k < |vpcIds|
      invariant 0 <= k <= |vpcIds|
      invariant forall j :: 0 <= j < k ==> vpcIds[j] !in db.VpcIdsOf(zoneId)
    {
      if vpcIds[k] in vpcs {
        return Some(ResourceNotFound("vpc not in dns zone"));
      }
      k := k + 1;
    }
    err := db.StartDnsZoneRemoveVpcsTask(zoneId, vpcIds, taskOk);
  }

  /** `PerformRemoveVpcs` with the membership test its error message
      describes: a requested VPC that is not linked to the zone is rejected
      as not found, so the remove task only ever starts for VPCs the zone
      has. */
  method PerformRemoveVpcsIntended(db: DnsDatabase, zoneId: string, vpcIds: seq<string>, taskOk: bool)
    returns (err: Option<Error>)
    requires zoneId in db.zones
    modifies db`zones, db`tasks
    ensures var z := old(db.zones[zoneId]);
      err.None? <==> z.status == ZoneAvailable && z.zoneType == PrivateZone &&
                     RemoveAllowed(db.VpcIdsOf(zoneId), vpcIds) && taskOk
    ensures old(db.zones[zoneId].status) != ZoneAvailable ==> err.Some? && err.value.InvalidStatus?
    ensures old(db.zones[zoneId].status) == ZoneAvailable && old(db.zones[zoneId].zoneType) == PrivateZone &&
            (exists k :: 0 <= k < |vpcIds| && vpcIds[k] !in db.VpcIdsOf(zoneId)) ==>
      err.Some? && err.value.ResourceNotFound? && db.zones == old(db.zones) && db.tasks == old(db.tasks)
    ensures err.None? ==>
      db.tasks == old(db.tasks) + [Task(DnsZoneRemoveVpcsTask(vpcIds), zoneId)] &&
      db.zones == old(db.zones)[zoneId := old(db.zones)[zoneId].(status := ZoneRemoveVpcs)]
    ensures old(db.zones[zoneId].status) != ZoneAvailable || old(db.zones[zoneId].zoneType) != PrivateZone ==>
      db.zones == old(db.zones) && db.tasks == old(db.tasks)
  {
    if db.zones[zoneId].status != ZoneAvailable {
      return Some(InvalidStatus("dns zone can not remove vpcs"));
    }
    if db.zones[zoneId].zoneType != PrivateZone {
      return Some(UnsupportedOperation("Only PrivateZone support vpcs"));
    }
    var vpcs := db.GetVpcs(zoneId);
    var k := 0;
    while k < |vpcIds|
      invariant 0 <= k <= |vpcIds|
      invariant forall j :: 0 <= j < k ==> vpcIds[j] in db.VpcIdsOf(zoneId)
    {
      if vpcIds[k] !in vpcs {
        return Some(ResourceNotFound("vpc not in dns zone"));
      }
      k := k + 1;
    }
    err := db.StartDnsZoneRemoveVpcsTask(zoneId, vpcIds, taskOk);
  }

  /** `PerformPurge`: the delete task with purge set (no status guard). */
  method PerformPurge(db: DnsDatabase, zoneId: string, taskOk: bool) returns (err: Option<Error>)
    requires zoneId in db.zones
    modifies db`zones, db`tasks
    ensures err.None? <==> taskOk
    ensures taskOk ==> (db.tasks == old(db.tasks) + [Task(DnsZoneDeleteTask(true), zoneId)] &&
                        db.zones == old(db.zones)[zoneId := old(db.zones)[zoneId].(status := ZoneRemoveVpcs)])
    ensures !taskOk ==> db.tasks == old(db.tasks) && db.zones == old(db.zones)
  {
    err := db.StartDnsZoneDeleteTask(zoneId, true, taskOk);
  }

  // ---------------------------------------------------------------------
  // Deletion

  /** `SDnsZone.Delete` does nothing: the row stays until RealDelete. */
  method Delete(db: DnsDatabase, zoneId: string) returns (err: Option<Error>)
    ensures err.None?
  {
    err := None;
  }

  /** `RealDelete`: deletes the zone's record sets one by one (each with its
      policy links) and then the zone row; a failing record delete stops it
      with the zone still there. */
  method RealDelete(db: DnsDatabase, zoneId: string, detachFails: (string, string) -> bool)
    returns (err: Option<Error>)
    modifies db`zones, db`records, db`recordPolicies
    ensures err.None? ==> db.zones == old(db.zones) - {zoneId} && db.RecordIdsOf(zoneId) == {}
    ensures err.None? ==> db.records == old(db.records) - old(db.RecordIdsOf(zoneId))
    ensures err.Some? ==> db.zones == old(db.zones)
    ensures db.records.Keys <= old(db.records.Keys)
    ensures forall r :: r in db.records ==> db.records[r] == old(db.records[r])
  {
    var ids := db.GetDnsRecordSets(zoneId);
    var k := 0;
    while k < |ids|
      invariant 0 <= k <= |ids|
      invariant db.zones == old(db.zones)
      invariant db.records == old(db.records) - Listed(ids, k)
    {
      var e := DnsRecordSets.Delete(db, ids[k], detachFails);
      if e.Some? {
        return Some(Opaque("Delete record"));
      }
      ListedStep(ids, k);
      k := k + 1;
    }
    ListedAll(ids, old(db.RecordIdsOf(zoneId)), k);
    db.zones := db.zones - {zoneId};
    err := None;
  }

  // ---------------------------------------------------------------------
  // Reconciling the VPC links with the cloud copy

  /** The external ids of the zone's linked VPCs. */
  function LocalExternalIds(db: DnsDatabase, zoneId: string): set<string>
    reads db
  {
    set v | v in db.VpcIdsOf(zoneId) :: db.vpcs[v].externalId
  }

  /** The links the sync removes: one local VPC for each external id that the
      cloud no longer lists (`vpcMaps` keeps one VPC per external id). */
  function RemovedLinks(zoneId: string, vpcMaps: map<string, string>, gone: set<string>): set<(string, string)>
  {
    set e | e in gone && e in vpcMaps :: (zoneId, vpcMaps[e])
  }

  /** The links the sync adds: the local VPC found for each new external id. */
  function AddedLinks(zoneId: string, gained: set<string>, accountId: string,
                      fetchByExternal: (string, string) -> Result<string>): set<(string, string)>
  {
    set e | e in gained && fetchByExternal(e, accountId).Ok? :: (zoneId, fetchByExternal(e, accountId).value)
  }

  /** Adding one external id to a set adds the link of its VPC when it is
      found, and a subset never gives more links. */
  lemma AddedLinksGrow(zoneId: string, s: set<string>, t: set<string>, e: string, accountId: string,
                       fetchByExternal: (string, string) -> Result<string>)
    ensures fetchByExternal(e, accountId).Ok? ==>
      AddedLinks(zoneId, s + {e}, accountId, fetchByExternal) ==
      AddedLinks(zoneId, s, accountId, fetchByExternal) + {(zoneId, fetchByExternal(e, accountId).value)}
    ensures s <= t ==> AddedLinks(zoneId, s, accountId, fetchByExternal) <= AddedLinks(zoneId, t, accountId, fetchByExternal)
  {
  }

  /** The `vpcMaps` loop of `syncWithCloudDnsZone`: external id to local VPC
      id over the zone's VPCs, a later VPC with the same external id winning. */
  method MapLocalVpcs(db: DnsDatabase, zoneId: string) returns (vpcMaps: map<string, string>)
    ensures vpcMaps.Keys == LocalExternalIds(db, zoneId)
    ensures forall e :: e in vpcMaps ==> vpcMaps[e] in db.VpcIdsOf(zoneId) && db.vpcs[vpcMaps[e]].externalId == e
  {
    var localVpcs := db.GetVpcs(zoneId);
    ghost var linked := db.VpcIdsOf(zoneId);
    vpcMaps := map[];
    var k := 0;
    while k < |localVpcs|
      invariant 0 <= k <= |localVpcs|
      invariant forall j :: 0 <= j < k ==> db.vpcs[localVpcs[j]].externalId in vpcMaps
      invariant forall e :: e in vpcMaps ==> vpcMaps[e] in linked && db.vpcs[vpcMaps[e]].externalId == e
    {
      vpcMaps := vpcMaps[db.vpcs[localVpcs[k]].externalId := localVpcs[k]];
      k := k + 1;
    }
    forall e | e in vpcMaps ensures e in LocalExternalIds(db, zoneId) {
      var v := vpcMaps[e];
      assert v in linked && db.vpcs[v].externalId == e;
    }
    forall v | v in linked ensures db.vpcs[v].externalId in vpcMaps {
      var j :| 0 <= j < |localVpcs| && localVpcs[j] == v;
    }
  }

  /** The removal loop: unlinks the local VPC of every external id in `gone`. */
  method UnlinkGone(db: DnsDatabase, zoneId: string, vpcMaps: map<string, string>, gone: set<string>)
    modifies db`zoneVpcs
    ensures db.zoneVpcs == old(db.zoneVpcs) - RemovedLinks(zoneId, vpcMaps, gone)
  {
    var order := Enumerate(gone);
    var k := 0;
    while k < |order|
      invariant 0 <= k <= |order|
      invariant db.zoneVpcs == old(db.zoneVpcs) - RemovedLinks(zoneId, vpcMaps, Listed(order, k))
    {
      if order[k] in vpcMaps {
        db.RemoveVpc(zoneId, vpcMaps[order[k]]);
      }
      ListedStep(order, k);
      k := k + 1;
    }
    ListedAll(order, gone, k);
  }

  /** The addition loop: links the local VPC found for every external id in
      `gained`; the first failed lookup stops it. */
  method LinkGained(db: DnsDatabase, zoneId: string, gained: set<string>, accountId: string,
                    fetchByExternal: (string, string) -> Result<string>)
    returns (err: Option<Error>)
    modifies db`zoneVpcs
    ensures err.None? <==> forall e :: e in gained ==> fetchByExternal(e, accountId).Ok?
    ensures err.None? ==> db.zoneVpcs == old(db.zoneVpcs) + AddedLinks(zoneId, gained, accountId, fetchByExternal)
    ensures old(db.zoneVpcs) <= db.zoneVpcs <= old(db.zoneVpcs) + AddedLinks(zoneId, gained, accountId, fetchByExternal)
  {
    var order := Enumerate(gained);
    var k := 0;
    while k < |order|
      invariant 0 <= k <= |order|
      invariant forall j :: 0 <= j < k ==> fetchByExternal(order[j], accountId).Ok?
      invariant db.zoneVpcs == old(db.zoneVpcs) + AddedLinks(zoneId, Listed(order, k), accountId, fetchByExternal)
    {
      ListedAll(order, gained, k);
      var vpc := fetchByExternal(order[k], accountId);
      if vpc.Err? {
        AddedLinksGrow(zoneId, Listed(order, k), gained, order[k], accountId, fetchByExternal);
        return Some(Opaque("vpc.FetchByExternalIdAndManagerId"));
      }
      ListedStep(order, k);
      AddedLinksGrow(zoneId, Listed(order, k), gained, order[k], accountId, fetchByExternal);
      db.AddVpc(zoneId, vpc.value);
      k := k + 1;
    }
    ListedAll(order, gained, k);
    err := None;
  }

  /** `syncWithCloudDnsZone`: takes the remote options, unlinks the VPCs the
      cloud zone no longer has and links the ones it has gained (looked up
      by external id among the account's VPCs by `fetchByExternal`); the
      first failed lookup stops the loop. The options `db.Update` may fail
      (`updateFails`): its error is dropped and the old options stay. */
  method SyncWithCloudDnsZone(db: DnsDatabase, zoneId: string, options: Option<Params>,
                              remoteVpcIds: Result<seq<string>>, accountId: string,
                              fetchByExternal: (string, string) -> Result<string>, updateFails: bool)
    returns (err: Option<Error>, vpcMaps: map<string, string>)
    requires zoneId in db.zones
    modifies db`zones, db`zoneVpcs
    ensures updateFails ==> db.zones == old(db.zones)
    ensures !updateFails ==> db.zones == old(db.zones)[zoneId := old(db.zones)[zoneId].(options := options)]
    ensures remoteVpcIds.Err? ==> err.Some? && db.zoneVpcs == old(db.zoneVpcs)
    ensures vpcMaps.Keys == old(LocalExternalIds(db, zoneId))
    ensures forall e :: e in vpcMaps ==> vpcMaps[e] in old(db.VpcIdsOf(zoneId)) && db.vpcs[vpcMaps[e]].externalId == e
    ensures remoteVpcIds.Ok? ==>
      var local, remote := old(LocalExternalIds(db, zoneId)), set e | e in remoteVpcIds.value;
      var kept := old(db.zoneVpcs) - RemovedLinks(zoneId, vpcMaps, local - remote);
      var added := AddedLinks(zoneId, remote - local, accountId, fetchByExternal);
      (err.None? <==> forall e :: e in remote - local ==> fetchByExternal(e, accountId).Ok?) &&
      (err.None? ==> db.zoneVpcs == kept + added) &&
      kept <= db.zoneVpcs <= kept + added
  {
    if !updateFails {
      db.zones := db.zones[zoneId := db.zones[zoneId].(options := options)];
    }
    vpcMaps := MapLocalVpcs(db, zoneId);
    if remoteVpcIds.Err? {
      return Some(Opaque("GetICloudVpcIds")), vpcMaps;
    }
    var local := vpcMaps.Keys;
    var remote := set e | e in remoteVpcIds.value;
    UnlinkGone(db, zoneId, vpcMaps, local - remote);
    err := LinkGained(db, zoneId, remote - local, accountId, fetchByExternal);
  }

  // ---------------------------------------------------------------------
  // Applying a record-set sync

  /** The row `newFromCloudDnsRecordSet` inserts for a remote record: a row
      of the zone with the remote name, type, value, TTL and status. The
      engine's record carries no Enabled flag, so the row is enabled. */
  function NewRow(zoneId: string, ext: DnsRecordSet): (r: Record)
    ensures r.zoneId == zoneId && r.enabled
    ensures r.name == ext.dnsName && r.status == ext.status && r.ttl == ext.ttl
    ensures r.dnsType == ext.dnsType && r.dnsValue == ext.dnsValue
  {
    Record(zoneId, ext.dnsName, ext.dnsType, ext.dnsValue, ext.ttl, ext.status, true)
  }

  /** `newFromCloudDnsRecordSet`: inserts the remote record as a new row of
      the zone under a fresh id, then sets its policy (PolicySet); the
      policy step's error (`policyErr`) is ignored. */
  method NewFromCloudDnsRecordSet(db: DnsDatabase, zoneId: string, provider: string, ext: DnsRecordSet,
                                  insertFails: DnsRecordSet -> bool,
                                  isEqual: (Option<Params>, Option<Params>) -> bool,
                                  registerFails: (string, string, Option<Params>) -> bool,
                                  detachFails: (string, string) -> bool)
    returns (r: Result<string>, ghost policyErr: Option<Error>)
    modifies db`records, db`recordPolicies, db`policies
    ensures insertFails(ext) ==>
      r.Err? && db.records == old(db.records) &&
      db.recordPolicies == old(db.recordPolicies) && db.policies == old(db.policies)
    ensures !insertFails(ext) ==>
      r.Ok? && r.value !in old(db.records) && db.records == old(db.records)[r.value := NewRow(zoneId, ext)] &&
      PolicySet(db, r.value, provider, ext.policyType, ext.policyParms, isEqual, registerFails, detachFails, policyErr)
    ensures forall x :: x in old(db.records) ==> LinkedPolicies(db, x) == old(LinkedPolicies(db, x))
  {
    policyErr := None;
    if insertFails(ext) {
      return Err(Opaque("Insert")), policyErr;
    }
    var id := FreshId(db.records.Keys);
    db.records := db.records[id := NewRow(zoneId, ext)];
    var e := SetTrafficPolicy(db, id, provider, ext.policyType, ext.policyParms, isEqual, registerFails, detachFails);
    policyErr := e;
    r := Ok(id);
  }

  /** The engine entry of a local record row, with its default policy. */
  function LocalEntry(id: string, row: Record, policy: (string, Option<Params>)): DnsRecordSet
  {
    DnsRecordSet(id, None, row.name, row.dnsType, row.dnsValue, row.status, row.ttl, policy.0, policy.1)
  }

  /** The engine entries of the first n local rows of `ids`, in order: each
      entry is its row under its own id, with the row's default policy. */
  function EntriesOf(db: DnsDatabase, ids: seq<string>, n: nat, provider: string): (r: seq<DnsRecordSet>)
    reads db
    requires n <= |ids|
    requires forall j :: 0 <= j < n ==> ids[j] in db.records && GetDefaultDnsTrafficPolicy(db, ids[j], provider).Ok?
    ensures |r| == n
    ensures forall j :: 0 <= j < n ==>
      r[j] == LocalEntry(ids[j], db.records[ids[j]], GetDefaultDnsTrafficPolicy(db, ids[j], provider).value)
  {
    if n == 0 then []
    else
      EntriesOf(db, ids, n - 1, provider) +
      [LocalEntry(ids[n - 1], db.records[ids[n - 1]], GetDefaultDnsTrafficPolicy(db, ids[n - 1], provider).value)]
  }

  /** The first loop of SyncDnsRecordSets: the engine entry of each local
      row with its default policy; None when a policy lookup fails. */
  method LocalEntries(db: DnsDatabase, ids: seq<string>, provider: string) returns (local: Option<seq<DnsRecordSet>>)
    requires forall j :: 0 <= j < |ids| ==> ids[j] in db.records
    ensures local.Some? <==> forall j :: 0 <= j < |ids| ==> GetDefaultDnsTrafficPolicy(db, ids[j], provider).Ok?
    ensures local.Some? ==> local.value == EntriesOf(db, ids, |ids|, provider) && Ids(local.value) == ids
  {
    var entries: seq<DnsRecordSet> := [];
    var k := 0;
    while k < |ids|
      invariant 0 <= k <= |ids|
      invariant |entries| == k
      invariant forall j :: 0 <= j < k ==>
        GetDefaultDnsTrafficPolicy(db, ids[j], provider).Ok? &&
        entries[j] == LocalEntry(ids[j], db.records[ids[j]], GetDefaultDnsTrafficPolicy(db, ids[j], provider).value)
    {
      var policy := GetDefaultDnsTrafficPolicy(db, ids[k], provider);
      if policy.Err? {
        return None;
      }
      entries := entries + [LocalEntry(ids[k], db.records[ids[k]], policy.value)];
      k := k + 1;
    }
    EntriesIds(db, ids, provider);
    local := Some(entries);
  }

  /** The entries of all of `ids` are listed under those ids, in order. */
  lemma EntriesIds(db: DnsDatabase, ids: seq<string>, provider: string)
    requires forall j :: 0 <= j < |ids| ==> ids[j] in db.records && GetDefaultDnsTrafficPolicy(db, ids[j], provider).Ok?
    ensures Ids(EntriesOf(db, ids, |ids|, provider)) == ids
  {
    var r := EntriesOf(db, ids, |ids|, provider);
    forall j | 0 <= j < |ids| ensures Ids(r)[j] == ids[j] {
      assert r[j].id == ids[j];
    }
  }

  /** The first n remote-only records whose insert succeeds, in order. */
  function Inserted(add: seq<DnsRecordSet>, n: nat, insertFails: DnsRecordSet -> bool): (r: seq<DnsRecordSet>)
    requires n <= |add|
    ensures |r| <= n
  {
    if n == 0 then []
    else Inserted(add, n - 1, insertFails) + (if insertFails(add[n - 1]) then [] else [add[n - 1]])
  }

  /** `rows` with one new row of the zone per inserted record, the k-th
      under `ids[k]`. */
  function AddRows(rows: map<string, Record>, ids: seq<string>, recs: seq<DnsRecordSet>, zoneId: string)
    : (r: map<string, Record>)
    requires |ids| == |recs|
    ensures rows.Keys <= r.Keys
    ensures forall k :: 0 <= k < |ids| ==> ids[k] in r
  {
    if ids == [] then rows
    else AddRows(rows, ids[..|ids| - 1], recs[..|recs| - 1], zoneId)[ids[|ids| - 1] := NewRow(zoneId, recs[|recs| - 1])]
  }

  /** One turn of the insert loop, on values: `ok` says the insert of
      `add[k]` succeeded under the fresh id `id`. */
  lemma InsertStep(rows0: map<string, Record>, newIds: seq<string>, add: seq<DnsRecordSet>, k: nat,
                   insertFails: DnsRecordSet -> bool, zoneId: string,
                   rows: map<string, Record>, ok: bool, id: string, rows1: map<string, Record>)
    requires k < |add| && |newIds| == |Inserted(add, k, insertFails)| && Distinct(newIds)
    requires forall m :: 0 <= m < |newIds| ==> newIds[m] !in rows0
    requires rows == AddRows(rows0, newIds, Inserted(add, k, insertFails), zoneId)
    requires ok <==> !insertFails(add[k])
    requires ok ==> id !in rows && rows1 == rows[id := NewRow(zoneId, add[k])]
    requires !ok ==> rows1 == rows
    ensures var ids1 := if ok then newIds + [id] else newIds;
      |ids1| == |Inserted(add, k + 1, insertFails)| && Distinct(ids1) &&
      (forall m :: 0 <= m < |ids1| ==> ids1[m] !in rows0) &&
      rows1 == AddRows(rows0, ids1, Inserted(add, k + 1, insertFails), zoneId)
  {
    var ins := Inserted(add, k, insertFails);
    if ok {
      assert Inserted(add, k + 1, insertFails) == ins + [add[k]];
      assert (newIds + [id])[..|newIds|] == newIds;
      assert (ins + [add[k]])[..|ins|] == ins;
    } else {
      assert Inserted(add, k + 1, insertFails) == ins;
    }
  }

  /** NewFromCloudDnsRecordSet as the insert loop sees it: the row, its
      fresh id, and the links of the existing rows `keep`. */
  method InsertRow(db: DnsDatabase, zoneId: string, provider: string, ext: DnsRecordSet,
                   insertFails: DnsRecordSet -> bool,
                   isEqual: (Option<Params>, Option<Params>) -> bool,
                   registerFails: (string, string, Option<Params>) -> bool,
                   detachFails: (string, string) -> bool, ghost keep: set<string>)
    returns (r: Result<string>)
    requires keep <= db.records.Keys
    modifies db`records, db`recordPolicies, db`policies
    ensures r.Ok? <==> !insertFails(ext)
    ensures r.Err? ==> db.records == old(db.records)
    ensures r.Ok? ==> r.value !in old(db.records) && db.records == old(db.records)[r.value := NewRow(zoneId, ext)]
    ensures LinkMap(db, keep) == old(LinkMap(db, keep))
  {
    ghost var policyErr;
    r, policyErr := NewFromCloudDnsRecordSet(db, zoneId, provider, ext, insertFails, isEqual, registerFails, detachFails);
  }

  /** One turn of the insert loop: NewFromCloudDnsRecordSet on `add[k]`,
      with the loop's account of the rows (`rows0` plus the rows inserted so
      far under `newIds`) carried one step on; the links of the rows of
      `rows0` stay. */
  method InsertNext(db: DnsDatabase, zoneId: string, provider: string, add: seq<DnsRecordSet>, k: nat,
                    insertFails: DnsRecordSet -> bool,
                    isEqual: (Option<Params>, Option<Params>) -> bool,
                    registerFails: (string, string, Option<Params>) -> bool,
                    detachFails: (string, string) -> bool,
                    ghost rows0: map<string, Record>, ghost newIds: seq<string>)
    returns (ok: bool, ghost newIds1: seq<string>)
    requires k < |add| && |newIds| == |Inserted(add, k, insertFails)|
    requires Distinct(newIds) && forall m :: 0 <= m < |newIds| ==> newIds[m] !in rows0
    requires db.records == AddRows(rows0, newIds, Inserted(add, k, insertFails), zoneId)
    modifies db`records, db`recordPolicies, db`policies
    ensures ok ==> |newIds1| == |newIds| + 1
    ensures !ok ==> newIds1 == newIds
    ensures |newIds1| == |Inserted(add, k + 1, insertFails)|
    ensures Distinct(newIds1) && forall m :: 0 <= m < |newIds1| ==> newIds1[m] !in rows0
    ensures db.records == AddRows(rows0, newIds1, Inserted(add, k + 1, insertFails), zoneId)
    ensures LinkMap(db, rows0.Keys) == old(LinkMap(db, rows0.Keys))
  {
    ghost var rows := db.records;
    var r := InsertRow(db, zoneId, provider, add[k], insertFails, isEqual, registerFails, detachFails, rows0.Keys);
    ok := r.Ok?;
    if ok {
      InsertStep(rows0, newIds, add, k, insertFails, zoneId, rows, true, r.value, db.records);
      newIds1 := newIds + [r.value];
    } else {
      InsertStep(rows0, newIds, add, k, insertFails, zoneId, rows, false, "", db.records);
      newIds1 := newIds;
    }
  }

  /** The insert loop: each remote-only record whose insert succeeds becomes
      a new row under a fresh id (`newIds`, in order), every other one
      counts as an error; the links of the existing rows stay. */
  method InsertEach(db: DnsDatabase, zoneId: string, provider: string, add: seq<DnsRecordSet>,
                    insertFails: DnsRecordSet -> bool,
                    isEqual: (Option<Params>, Option<Params>) -> bool,
                    registerFails: (string, string, Option<Params>) -> bool,
                    detachFails: (string, string) -> bool)
    returns (added: nat, addErrors: nat, ghost newIds: seq<string>)
    modifies db`records, db`recordPolicies, db`policies
    ensures added + addErrors == |add| && added == |newIds| == |Inserted(add, |add|, insertFails)|
    ensures db.records == AddRows(old(db.records), newIds, Inserted(add, |add|, insertFails), zoneId)
    ensures Distinct(newIds) && forall m :: 0 <= m < |newIds| ==> newIds[m] !in old(db.records)
    ensures LinkMap(db, old(db.records).Keys) == old(LinkMap(db, db.records.Keys))
  {
    added, addErrors, newIds := 0, 0, [];
    var k := 0;
    while k < |add|
      invariant 0 <= k <= |add|
      invariant added + addErrors == k && added == |newIds| == |Inserted(add, k, insertFails)|
      invariant db.records == AddRows(old(db.records), newIds, Inserted(add, k, insertFails), zoneId)
      invariant Distinct(newIds) && forall m :: 0 <= m < |newIds| ==> newIds[m] !in old(db.records)
      invariant LinkMap(db, old(db.records).Keys) == old(LinkMap(db, db.records.Keys))
    {
      var ok;
      ok, newIds := InsertNext(db, zoneId, provider, add, k, insertFails, isEqual, registerFails, detachFails,
                               old(db.records), newIds);
      if ok {
        added := added + 1;
      } else {
        addErrors := addErrors + 1;
      }
      k := k + 1;
    }
  }

  /** The ids among the first n local-only entries that the removal loop
      deletes, given the policies each row links (`links`): the lookup
      succeeds and no linked policy fails to detach. */
  function RemovedIds(del: seq<DnsRecordSet>, n: nat, fetchFails: string -> bool,
                      detachFails: (string, string) -> bool, links: map<string, set<string>>): (r: set<string>)
    requires n <= |del| && forall k :: 0 <= k < n ==> del[k].id in links
    ensures forall x :: x in r ==> exists k :: 0 <= k < n && del[k].id == x
  {
    if n == 0 then {}
    else
      var id := del[n - 1].id;
      RemovedIds(del, n - 1, fetchFails, detachFails, links) +
      (if !fetchFails(id) && Detachable(links[id], id, detachFails) then {id} else {})
  }

  /** One turn of the removal loop: the lookup of `id`, then SyncRemove;
      `removed` says the row went. Links of other rows stay. */
  method RemoveRow(db: DnsDatabase, id: string, fetchFails: string -> bool, detachFails: (string, string) -> bool)
    returns (removed: bool)
    modifies db`records, db`recordPolicies
    ensures removed <==> !fetchFails(id) && id in old(db.records) &&
                         Detachable(old(LinkedPolicies(db, id)), id, detachFails)
    ensures removed ==> db.records == old(db.records) - {id}
    ensures !removed ==> db.records == old(db.records)
    ensures forall x :: x != id ==> LinkedPolicies(db, x) == old(LinkedPolicies(db, x))
  {
    if fetchFails(id) || id !in db.records {
      return false;
    }
    var err := SyncRemove(db, id, detachFails);
    removed := err.None?;
  }

  /** One turn of the removal loop, on values: `removed` says whether the
      row of `del[k]` went. */
  lemma RemoveStep(del: seq<DnsRecordSet>, k: nat, fetchFails: string -> bool,
                   detachFails: (string, string) -> bool, links: map<string, set<string>>,
                   rows0: map<string, Record>, rows: map<string, Record>, removed: bool, rows1: map<string, Record>)
    requires k < |del| && Distinct(Ids(del)) && forall j :: 0 <= j < |del| ==> del[j].id in links
    requires del[k].id in rows0 && rows == rows0 - RemovedIds(del, k, fetchFails, detachFails, links)
    requires removed <==> !fetchFails(del[k].id) && del[k].id in rows &&
                          Detachable(links[del[k].id], del[k].id, detachFails)
    requires removed ==> rows1 == rows - {del[k].id}
    requires !removed ==> rows1 == rows
    ensures rows1 == rows0 - RemovedIds(del, k + 1, fetchFails, detachFails, links)
    ensures |RemovedIds(del, k + 1, fetchFails, detachFails, links)| ==
            |RemovedIds(del, k, fetchFails, detachFails, links)| + (if removed then 1 else 0)
  {
    var id := del[k].id;
    var before := RemovedIds(del, k, fetchFails, detachFails, links);
    assert id !in before by {
      forall m | 0 <= m < k ensures del[m].id != id {
        assert Ids(del)[m] != Ids(del)[k];
      }
    }
    assert id in rows;
    if removed {
      assert RemovedIds(del, k + 1, fetchFails, detachFails, links) == before + {id};
      assert rows1 == rows0 - (before + {id});
    } else {
      assert RemovedIds(del, k + 1, fetchFails, detachFails, links) == before;
    }
  }

  /** The rows of `del` from position k on still have the linked policies
      `links` gives. */
  ghost predicate LinksKept(db: DnsDatabase, del: seq<DnsRecordSet>, k: nat, links: map<string, set<string>>)
    reads db
    requires forall j :: 0 <= j < |del| ==> del[j].id in links
  {
    forall j :: k <= j < |del| ==> LinkedPolicies(db, del[j].id) == links[del[j].id]
  }

  /** One turn of the removal loop, with the loop's account of the rows
      (`rows0` less the RemovedIds so far) and of the counts carried one
      step on. */
  method RemoveNext(db: DnsDatabase, del: seq<DnsRecordSet>, k: nat, fetchFails: string -> bool,
                    detachFails: (string, string) -> bool, ghost links: map<string, set<string>>,
                    ghost rows0: map<string, Record>, deleted: nat, deleteErrors: nat)
    returns (deleted1: nat, deleteErrors1: nat)
    requires k < |del| && Distinct(Ids(del)) && forall j :: 0 <= j < |del| ==> del[j].id in links
    requires del[k].id in rows0 && LinksKept(db, del, k, links)
    requires db.records == rows0 - RemovedIds(del, k, fetchFails, detachFails, links)
    requires deleted == |RemovedIds(del, k, fetchFails, detachFails, links)| && deleted + deleteErrors == k
    modifies db`records, db`recordPolicies
    ensures db.records == rows0 - RemovedIds(del, k + 1, fetchFails, detachFails, links)
    ensures deleted1 == |RemovedIds(del, k + 1, fetchFails, detachFails, links)| && deleted1 + deleteErrors1 == k + 1
    ensures LinksKept(db, del, k + 1, links)
  {
    var id := del[k].id;
    ghost var rows := db.records;
    var removed := RemoveRow(db, id, fetchFails, detachFails);
    RemoveStep(del, k, fetchFails, detachFails, links, rows0, rows, removed, db.records);
    if removed {
      deleted1, deleteErrors1 := deleted + 1, deleteErrors;
    } else {
      deleted1, deleteErrors1 := deleted, deleteErrors + 1;
    }
    forall j | k < j < |del| ensures LinkedPolicies(db, del[j].id) == links[del[j].id] {
      assert Ids(del)[k] != Ids(del)[j];
    }
  }

  /** The removal loop over local-only entries with distinct ids of existing
      rows, whose linked policies `links` gives: exactly the RemovedIds rows
      go, each counting as deleted; every other entry counts as an error (a
      failed lookup or a failed detach). */
  method RemoveEach(db: DnsDatabase, del: seq<DnsRecordSet>, fetchFails: string -> bool,
                    detachFails: (string, string) -> bool, ghost links: map<string, set<string>>)
    returns (deleted: nat, deleteErrors: nat)
    requires Distinct(Ids(del))
    requires forall k :: 0 <= k < |del| ==>
      del[k].id in db.records && del[k].id in links && links[del[k].id] == LinkedPolicies(db, del[k].id)
    modifies db`records, db`recordPolicies
    ensures db.records == old(db.records) - RemovedIds(del, |del|, fetchFails, detachFails, links)
    ensures deleted == |RemovedIds(del, |del|, fetchFails, detachFails, links)|
    ensures deleted + deleteErrors == |del|
  {
    ghost var rows0 := db.records;
    assert db.records == rows0 - RemovedIds(del, 0, fetchFails, detachFails, links);
    deleted, deleteErrors := 0, 0;
    var k := 0;
    while k < |del|
      invariant 0 <= k <= |del|
      invariant db.records == rows0 - RemovedIds(del, k, fetchFails, detachFails, links)
      invariant deleted == |RemovedIds(del, k, fetchFails, detachFails, links)| && deleted + deleteErrors == k
      invariant LinksKept(db, del, k, links)
    {
      deleted, deleteErrors := RemoveNext(db, del, k, fetchFails, detachFails, links, rows0, deleted, deleteErrors);
      k := k + 1;
    }
  }

  /** The update loop's lookup of `id` fails: the fetch fails or no row has
      that id. */
  predicate Lost(id: string, fetchFails: string -> bool, keys: set<string>)
  {
    fetchFails(id) || id !in keys
  }

  /** Where the update loop stops: the first position from `delCount` on
      whose lookup fails (there the Go code reads past the end of "del"),
      or the end of the list. */
  function UpdateStop(update: seq<DnsRecordSet>, from: nat, delCount: nat, fetchFails: string -> bool,
                      keys: set<string>): (k: nat)
    requires from <= |update|
    ensures from <= k <= |update|
    ensures k < |update| ==> k >= delCount && Lost(update[k].id, fetchFails, keys)
    ensures forall j :: from <= j < k && j >= delCount ==> !Lost(update[j].id, fetchFails, keys)
    decreases |update| - from
  {
    if from == |update| then from
    else if from >= delCount && Lost(update[from].id, fetchFails, keys) then from
    else UpdateStop(update, from + 1, delCount, fetchFails, keys)
  }

  /** The rows after the first n updates: each record the lookup finds takes
      the remote fields; no row appears or disappears, and a row no update
      names keeps its value. */
  function ApplyUpdates(rows: map<string, Record>, update: seq<DnsRecordSet>, n: nat, fetchFails: string -> bool)
    : (r: map<string, Record>)
    requires n <= |update|
    ensures r.Keys == rows.Keys
  {
    if n == 0 then rows
    else
      var r := ApplyUpdates(rows, update, n - 1, fetchFails);
      var id := update[n - 1].id;
      if Lost(id, fetchFails, r.Keys) then r else r[id := Synced(r[id], update[n - 1])]
  }

  /** SyncWithCloudDnsRecord as the update loop sees it: the row takes the
      remote fields; `ok` says the policy step succeeded. */
  method UpdateRow(db: DnsDatabase, id: string, provider: string, ext: DnsRecordSet,
                   isEqual: (Option<Params>, Option<Params>) -> bool,
                   registerFails: (string, string, Option<Params>) -> bool,
                   detachFails: (string, string) -> bool)
    returns (ok: bool)
    requires id in db.records
    modifies db`records, db`recordPolicies, db`policies
    ensures db.records == old(db.records)[id := Synced(old(db.records)[id], ext)]
  {
    var err := SyncWithCloudDnsRecord(db, id, provider, ext, isEqual, registerFails, detachFails);
    ok := err.None?;
  }

  /** The update loop of a private zone: each changed record the lookup
      finds takes the remote fields and policy, and counts as updated or as
      an error; a failed lookup before position `delCount` counts as an
      error, and one at or past it is the Go index error (`panics`), which
      ends the sync there (UpdateStop). */
  method UpdateEach(db: DnsDatabase, provider: string, update: seq<DnsRecordSet>, delCount: nat,
                    fetchFails: string -> bool,
                    isEqual: (Option<Params>, Option<Params>) -> bool,
                    registerFails: (string, string, Option<Params>) -> bool,
                    detachFails: (string, string) -> bool)
    returns (updated: nat, updateErrors: nat, panics: bool)
    modifies db`records, db`recordPolicies, db`policies
    ensures var stop := UpdateStop(update, 0, delCount, fetchFails, old(db.records).Keys);
      (panics <==> stop < |update|) && updated + updateErrors == stop &&
      db.records == ApplyUpdates(old(db.records), update, stop, fetchFails)
  {
    ghost var stop := UpdateStop(update, 0, delCount, fetchFails, db.records.Keys);
    updated, updateErrors, panics := 0, 0, false;
    var k := 0;
    while k < |update|
      invariant 0 <= k <= stop
      invariant updated + updateErrors == k
      invariant db.records == ApplyUpdates(old(db.records), update, k, fetchFails)
    {
      var id := update[k].id;
      if fetchFails(id) || id !in db.records {
        if k >= delCount {
          return updated, updateErrors, true;
        }
        updateErrors := updateErrors + 1;
      } else {
        var ok := UpdateRow(db, id, provider, update[k], isEqual, registerFails, detachFails);
        if ok {
          updated := updated + 1;
        } else {
          updateErrors := updateErrors + 1;
        }
      }
      k := k + 1;
    }
  }

  /** When every update names an existing row, the update loop stops early
      exactly when the fetch of some update at or past `delCount` fails. */
  lemma StopsAtFailedFetch(update: seq<DnsRecordSet>, delCount: nat, fetchFails: string -> bool, keys: set<string>)
    requires forall k :: 0 <= k < |update| ==> update[k].id in keys
    ensures UpdateStop(update, 0, delCount, fetchFails, keys) < |update| <==>
            exists k :: delCount <= k < |update| && fetchFails(update[k].id)
  {
  }

  /** The ids the sync removes and updates: with the local entries listing
      the distinct rows `order`, the local-only ids are distinct, no updated
      id is local-only, and all of them are rows of `order`. */
  lemma SyncedIds(order: seq<string>, entries: seq<DnsRecordSet>, sortedLocal: seq<DnsRecordSet>,
                  remote: seq<DnsRecordSet>, ops: ParamsOps)
    requires Ids(entries) == order && Distinct(order)
    requires multiset(sortedLocal) == multiset(entries)
    ensures var d := MergeFrom(sortedLocal, remote, 0, 0, ops);
      Distinct(Ids(d.add)) &&
      (forall k :: 0 <= k < |d.add| ==> d.add[k].id in order) &&
      (forall k :: 0 <= k < |d.update| ==> d.update[k].id in order && d.update[k].id !in Ids(d.add))
  {
    var d := MergeFrom(sortedLocal, remote, 0, 0, ops);
    PermutedIds(sortedLocal, entries);
    LocalSidesDisjoint(sortedLocal, remote, ops);
    DistinctSplit(Ids(d.update), Ids(d.add));
    forall k | 0 <= k < |d.add|
      ensures d.add[k].id in order
    {
      assert Ids(d.add)[k] in Ids(d.update) + Ids(d.add);
    }
    forall k | 0 <= k < |d.update|
      ensures d.update[k].id in order
    {
      assert Ids(d.update)[k] in Ids(d.update) + Ids(d.add);
    }
  }

  /** Every local record of the zone has a readable default policy, so the
      sync gets past its first loop. */
  ghost predicate LocalPoliciesOk(db: DnsDatabase, zoneId: string, provider: string)
    reads db
  {
    forall r :: r in db.RecordIdsOf(zoneId) ==> GetDefaultDnsTrafficPolicy(db, r, provider).Ok?
  }

  /** What applying the diff leaves behind, on values: the remote-only
      records `diff.del` whose insert succeeds are added as new rows under
      the fresh, distinct `newIds`; the local-only rows RemovedIds names
      (`links` holds each row's linked policies before the sync) are
      removed; on a private zone the changed records are then updated up to
      UpdateStop, where a failed lookup past the end of "del" panics; and
      the counts say how many of each step succeeded and failed. */
  ghost predicate Applied(rows0: map<string, Record>, links: map<string, set<string>>, rows: map<string, Record>,
                          zoneId: string, private: bool, diff: Diff, newIds: seq<string>,
                          result: SyncResult, panics: bool, insertFails: DnsRecordSet -> bool,
                          fetchFails: string -> bool, detachFails: (string, string) -> bool)
    requires forall k :: 0 <= k < |diff.add| ==> diff.add[k].id in links
  {
    var inserted := Inserted(diff.del, |diff.del|, insertFails);
    var removed := RemovedIds(diff.add, |diff.add|, fetchFails, detachFails, links);
    |newIds| == |inserted| && Distinct(newIds) && (forall m :: 0 <= m < |newIds| ==> newIds[m] !in rows0) &&
    result.failure.None? &&
    result.added == |inserted| && result.added + result.addErrors == |diff.del| &&
    result.deleted == |removed| && result.deleted + result.deleteErrors == |diff.add| &&
    var kept := AddRows(rows0, newIds, inserted, zoneId) - removed;
    var stop := UpdateStop(diff.update, 0, |diff.add|, fetchFails, kept.Keys);
    (private ==>
       rows == ApplyUpdates(kept, diff.update, stop, fetchFails) &&
       (panics <==> stop < |diff.update|) && result.updated + result.updateErrors == stop) &&
    (!private ==> rows == kept && !panics && result.updated == 0 && result.updateErrors == 0)
  }

  /** The insert and the removal loops of the sync: the remote-only records
      whose insert succeeds become new rows under the fresh, distinct
      `newIds`, then the local-only rows RemovedIds names go. */
  method InsertAndRemove(db: DnsDatabase, zoneId: string, provider: string, add: seq<DnsRecordSet>,
                         del: seq<DnsRecordSet>, insertFails: DnsRecordSet -> bool, fetchFails: string -> bool,
                         isEqual: (Option<Params>, Option<Params>) -> bool,
                         registerFails: (string, string, Option<Params>) -> bool,
                         detachFails: (string, string) -> bool, ghost links: map<string, set<string>>)
    returns (added: nat, addErrors: nat, deleted: nat, deleteErrors: nat, ghost newIds: seq<string>)
    requires links == LinkMap(db, db.records.Keys)
    requires Distinct(Ids(del)) && forall k :: 0 <= k < |del| ==> del[k].id in db.records
    modifies db`records, db`recordPolicies, db`policies
    ensures var inserted := Inserted(add, |add|, insertFails);
      |newIds| == |inserted| && Distinct(newIds) && (forall m :: 0 <= m < |newIds| ==> newIds[m] !in old(db.records)) &&
      db.records == AddRows(old(db.records), newIds, inserted, zoneId) -
                    RemovedIds(del, |del|, fetchFails, detachFails, links) &&
      added == |inserted| && added + addErrors == |add|
    ensures deleted == |RemovedIds(del, |del|, fetchFails, detachFails, links)| && deleted + deleteErrors == |del|
  {
    added, addErrors, newIds := InsertEach(db, zoneId, provider, add, insertFails, isEqual, registerFails, detachFails);
    assert links == LinkMap(db, old(db.records).Keys);
    forall k | 0 <= k < |del|
      ensures del[k].id in db.records && del[k].id in links && links[del[k].id] == LinkedPolicies(db, del[k].id)
    {
      assert del[k].id in old(db.records);
    }
    deleted, deleteErrors := RemoveEach(db, del, fetchFails, detachFails, links);
  }

  /** The second half of SyncDnsRecordSets: applies a diff whose local-only
      rows are distinct rows of the database and whose changed rows are
      other rows of it. The call site binds the engine's lists as
      `_, del, add, update`, so its "add" is the engine's remote-only list
      `diff.del` and its "del" the engine's local-only list `diff.add`.
      `panics` is the Go index error on the update path: it happens exactly
      when, on a private zone, a changed record past the end of "del" fails
      its lookup. */
  method ApplyDiff(db: DnsDatabase, zoneId: string, provider: string, diff: Diff,
                   insertFails: DnsRecordSet -> bool, fetchFails: string -> bool,
                   isEqual: (Option<Params>, Option<Params>) -> bool,
                   registerFails: (string, string, Option<Params>) -> bool,
                   detachFails: (string, string) -> bool)
    returns (result: SyncResult, panics: bool, ghost newIds: seq<string>)
    requires zoneId in db.zones
    requires Distinct(Ids(diff.add)) && forall k :: 0 <= k < |diff.add| ==> diff.add[k].id in db.records
    requires forall k :: 0 <= k < |diff.update| ==> diff.update[k].id in db.records && diff.update[k].id !in Ids(diff.add)
    modifies db`records, db`recordPolicies, db`policies
    ensures Applied(old(db.records), old(LinkMap(db, db.records.Keys)), db.records, zoneId,
                    db.zones[zoneId].zoneType == PrivateZone, diff, newIds, result, panics,
                    insertFails, fetchFails, detachFails)
    ensures panics <==> db.zones[zoneId].zoneType == PrivateZone &&
                        exists k :: |diff.add| <= k < |diff.update| && fetchFails(diff.update[k].id)
  {
    var private := db.zones[zoneId].zoneType == PrivateZone;
    ghost var rows0 := db.records;
    ghost var links := LinkMap(db, db.records.Keys);
    var added, addErrors, deleted, deleteErrors;
    added, addErrors, deleted, deleteErrors, newIds :=
      InsertAndRemove(db, zoneId, provider, diff.del, diff.add, insertFails, fetchFails, isEqual, registerFails,
                      detachFails, links);
    ghost var kept := db.records;
    forall k | 0 <= k < |diff.update|
      ensures diff.update[k].id in kept
    {
      assert diff.update[k].id in rows0;
      forall m | 0 <= m < |diff.add| ensures diff.add[m].id != diff.update[k].id {
        assert diff.add[m].id in Ids(diff.add);
      }
    }
    var updated, updateErrors := 0, 0;
    panics := false;
    if private {
      updated, updateErrors, panics := UpdateEach(db, provider, diff.update, |diff.add|, fetchFails, isEqual,
                                                  registerFails, detachFails);
      StopsAtFailedFetch(diff.update, |diff.add|, fetchFails, kept.Keys);
    }
    result := SyncResult(added, addErrors, deleted, deleteErrors, updated, updateErrors, None);
    assert private == (db.zones[zoneId].zoneType == PrivateZone);
    AppliedSteps(rows0, links, kept, db.records, zoneId, private, diff, newIds, result, panics,
                 insertFails, fetchFails, detachFails);
  }

  /** Applied, in two steps: the rows after the inserts and the removals,
      and at the end. */
  lemma AppliedSteps(rows0: map<string, Record>, links: map<string, set<string>>,
                     rows2: map<string, Record>, rows: map<string, Record>,
                     zoneId: string, private: bool, diff: Diff, newIds: seq<string>,
                     result: SyncResult, panics: bool, insertFails: DnsRecordSet -> bool,
                     fetchFails: string -> bool, detachFails: (string, string) -> bool)
    requires forall k :: 0 <= k < |diff.add| ==> diff.add[k].id in links
    requires var inserted := Inserted(diff.del, |diff.del|, insertFails);
      var removed := RemovedIds(diff.add, |diff.add|, fetchFails, detachFails, links);
      |newIds| == |inserted| && Distinct(newIds) && (forall m :: 0 <= m < |newIds| ==> newIds[m] !in rows0) &&
      rows2 == AddRows(rows0, newIds, inserted, zoneId) - removed &&
      result.added == |inserted| && result.added + result.addErrors == |diff.del| &&
      result.deleted == |removed| && result.deleted + result.deleteErrors == |diff.add|
    requires result.failure.None?
    requires var stop := UpdateStop(diff.update, 0, |diff.add|, fetchFails, rows2.Keys);
      (private ==>
         rows == ApplyUpdates(rows2, diff.update, stop, fetchFails) &&
         (panics <==> stop < |diff.update|) && result.updated + result.updateErrors == stop) &&
      (!private ==> rows == rows2 && !panics && result.updated == 0 && result.updateErrors == 0)
    ensures Applied(rows0, links, rows, zoneId, private, diff, newIds, result, panics,
                    insertFails, fetchFails, detachFails)
  {
  }

  /** The first half of SyncDnsRecordSets: fetches the remote and the local
      record sets (either failure, or a failing policy lookup for a local
      record, ends the sync) and computes the engine's diff of the local
      entries (the rows `order` lists, as EntriesOf, in the sorted order
      `sortedLocal`) and the remote ones (`sortedRemote`). The diff's
      local-only rows are distinct rows of the database and its changed
      rows other rows of it. */
  method FetchDiff(db: DnsDatabase, zoneId: string, provider: string,
                   iRecords: Result<seq<CloudRecord>>, localListOk: bool, ops: ParamsOps)
    returns (failure: Option<Error>, ghost order: seq<string>, ghost sortedLocal: seq<DnsRecordSet>,
             ghost sortedRemote: seq<DnsRecordSet>, diff: Diff)
    ensures failure.Some? <==> iRecords.Err? || !localListOk || !LocalPoliciesOk(db, zoneId, provider)
    ensures failure.None? ==>
      Enumerates(order, db.RecordIdsOf(zoneId)) &&
      multiset(sortedLocal) == multiset(EntriesOf(db, order, |order|, provider)) &&
      multiset(sortedRemote) == multiset(FromCloudAll(iRecords.value)) &&
      diff == MergeFrom(sortedLocal, sortedRemote, 0, 0, ops)
    ensures failure.None? ==>
      Distinct(Ids(diff.add)) && (forall k :: 0 <= k < |diff.add| ==> diff.add[k].id in db.records) &&
      forall k :: 0 <= k < |diff.update| ==> diff.update[k].id in db.records && diff.update[k].id !in Ids(diff.add)
  {
    diff := Diff([], [], [], []);
    order, sortedLocal, sortedRemote := [], [], [];
    if iRecords.Err? {
      return Some(Opaque("GetIDnsRecordSets")), order, sortedLocal, sortedRemote, diff;
    }
    if !localListOk {
      return Some(Opaque("GetDnsRecordSets")), order, sortedLocal, sortedRemote, diff;
    }
    var dbRecords := db.GetDnsRecordSets(zoneId);
    order := dbRecords;
    var local := LocalEntries(db, dbRecords, provider);
    if local.None? {
      assert !LocalPoliciesOk(db, zoneId, provider) by {
        var j :| 0 <= j < |dbRecords| && GetDefaultDnsTrafficPolicy(db, dbRecords[j], provider).Err?;
        assert dbRecords[j] in db.RecordIdsOf(zoneId);
      }
      return Some(Opaque("GetDefaultDnsTrafficPolicy")), order, sortedLocal, sortedRemote, diff;
    }
    sortedLocal, sortedRemote, diff := EngineDiff(local.value, iRecords.value, ops);
    SyncedIds(order, local.value, sortedLocal, sortedRemote, ops);
    assert forall x :: x in order ==> x in db.records;
    failure := None;
  }

  /** The engine's diff of the local entries and the remote records: the
      local entries go into an array the engine sorts in place
      (`sortedLocal`), the remote ones are converted and sorted
      (`sortedRemote`). */
  method EngineDiff(local: seq<DnsRecordSet>, iRecords: seq<CloudRecord>, ops: ParamsOps)
    returns (ghost sortedLocal: seq<DnsRecordSet>, ghost sortedRemote: seq<DnsRecordSet>, diff: Diff)
    ensures multiset(sortedLocal) == multiset(local)
    ensures multiset(sortedRemote) == multiset(FromCloudAll(iRecords))
    ensures diff == MergeFrom(sortedLocal, sortedRemote, 0, 0, ops)
  {
    var localArray := new DnsRecordSet[|local|](j requires 0 <= j < |local| => local[j]);
    assert localArray[..] == local;
    var common, add, del, update, remote := CompareDnsRecordSet(iRecords, localArray, ops);
    sortedLocal, sortedRemote := localArray[..], remote;
    diff := Diff(common, add, del, update);
  }

  /** `SyncDnsRecordSets`: computes the diff (FetchDiff); a failure there
      ends the sync before any change; otherwise it applies the diff
      (ApplyDiff). */
  method SyncDnsRecordSets(db: DnsDatabase, zoneId: string, provider: string,
                           iRecords: Result<seq<CloudRecord>>, localListOk: bool, ops: ParamsOps,
                           insertFails: DnsRecordSet -> bool, fetchFails: string -> bool,
                           isEqual: (Option<Params>, Option<Params>) -> bool,
                           registerFails: (string, string, Option<Params>) -> bool,
                           detachFails: (string, string) -> bool)
    returns (result: SyncResult, panics: bool, ghost order: seq<string>, ghost sortedLocal: seq<DnsRecordSet>,
             ghost sortedRemote: seq<DnsRecordSet>, ghost diff: Diff, ghost newIds: seq<string>)
    requires zoneId in db.zones
    modifies db`records, db`recordPolicies, db`policies
    ensures iRecords.Err? || !localListOk || !old(LocalPoliciesOk(db, zoneId, provider)) ==>
      result.failure.Some? && result.(failure := None) == EmptyResult && !panics &&
      db.records == old(db.records) && db.recordPolicies == old(db.recordPolicies) && db.policies == old(db.policies)
    ensures iRecords.Ok? && localListOk && old(LocalPoliciesOk(db, zoneId, provider)) ==>
      Enumerates(order, old(db.RecordIdsOf(zoneId))) &&
      multiset(sortedLocal) == multiset(old(EntriesOf(db, order, |order|, provider))) &&
      multiset(sortedRemote) == multiset(FromCloudAll(iRecords.value)) &&
      diff == MergeFrom(sortedLocal, sortedRemote, 0, 0, ops) &&
      (forall k :: 0 <= k < |diff.add| ==> diff.add[k].id in old(db.records)) &&
      Applied(old(db.records), old(LinkMap(db, db.records.Keys)), db.records, zoneId,
              db.zones[zoneId].zoneType == PrivateZone, diff, newIds, result, panics,
              insertFails, fetchFails, detachFails) &&
      (panics <==> db.zones[zoneId].zoneType == PrivateZone &&
                   exists k :: |diff.add| <= k < |diff.update| && fetchFails(diff.update[k].id))
  {
    ghost var links := LinkMap(db, db.records.Keys);
    var failure, computed;
    failure, order, sortedLocal, sortedRemote, computed := FetchDiff(db, zoneId, provider, iRecords, localListOk, ops);
    diff, newIds := computed, [];
    if failure.Some? {
      return EmptyResult.(failure := failure), false, order, sortedLocal, sortedRemote, diff, newIds;
    }
    assert LinkMap(db, db.records.Keys) == links;
    result, panics, newIds := ApplyDiff(db, zoneId, provider, computed, insertFails, fetchFails, isEqual, registerFails, detachFails);
  }
}
