// The two VPC tasks of a private zone (pkg/compute/tasks/dnszone_add_vpcs_task.go
// and dnszone_remove_vpcs_task.go): link or unlink VPCs locally and, for
// VPCs with a cloud manager, in the cloud zone of the account's cache.
module DnsVpcTasks {
  import opened Wrappers
  import opened DnsModel
  import DnsZoneCaches

  /** The cloud zone `CreateICloudDnsZone` returns, as the cache row keeps it. */
  datatype CloudZone = CloudZone(globalId: string, status: string, name: string)

  /** The first loop of OnInit as a function: every VPC must exist, and the
      account comes from the first VPC with a manager (a missing account
      there fails the task; later managed VPCs are not asked). */
  function ScanAccount(vpcs: map<string, Vpc>, ids: seq<string>, accountId: string): Result<string>
    decreases |ids|
  {
    if ids == [] then Ok(accountId)
    else if ids[0] !in vpcs then Err(ResourceNotFound("vpc"))
    else if vpcs[ids[0]].managerId == "" || accountId != "" then ScanAccount(vpcs, ids[1..], accountId)
    else if vpcs[ids[0]].accountId.None? then Err(ResourceNotFound("cloudaccount"))
    else ScanAccount(vpcs, ids[1..], vpcs[ids[0]].accountId.value)
  }

  /** A scan that passes has found every VPC, and the account it returns is
      the one it started with or that of a managed VPC of the list. */
  lemma {:induction false} ScanAccountSound(vpcs: map<string, Vpc>, ids: seq<string>, accountId: string)
    requires ScanAccount(vpcs, ids, accountId).Ok?
    ensures forall k :: 0 <= k < |ids| ==> ids[k] in vpcs
    ensures var a := ScanAccount(vpcs, ids, accountId).value;
      a == accountId ||
      exists k :: 0 <= k < |ids| && vpcs[ids[k]].managerId != "" && vpcs[ids[k]].accountId == Some(a)
    ensures accountId == "" && (forall k :: 0 <= k < |ids| ==> vpcs[ids[k]].managerId == "") ==>
      ScanAccount(vpcs, ids, accountId) == Ok("")
  {
    if ids != [] {
      var next := if vpcs[ids[0]].managerId == "" || accountId != "" then accountId
                  else vpcs[ids[0]].accountId.value;
      ScanAccountSound(vpcs, ids[1..], next);
      assert forall k :: 1 <= k < |ids| ==> ids[k] == ids[1..][k - 1];
      var a := ScanAccount(vpcs, ids, accountId).value;
      if a != accountId && a != next {
        var k :| 0 <= k < |ids[1..]| && vpcs[ids[1..][k]].managerId != "" && vpcs[ids[1..][k]].accountId == Some(a);
        assert ids[k + 1] == ids[1..][k];
      }
    }
  }

  /** Once the account is known, the rest of the scan only checks that the
      VPCs exist. */
  lemma {:induction false} ScanAccountKnown(vpcs: map<string, Vpc>, ids: seq<string>, accountId: string)
    requires accountId != ""
    ensures ScanAccount(vpcs, ids, accountId) ==
      if forall k :: 0 <= k < |ids| ==> ids[k] in vpcs then Ok(accountId) else Err(ResourceNotFound("vpc"))
    decreases |ids|
  {
    if ids != [] {
      ScanAccountKnown(vpcs, ids[1..], accountId);
      assert forall k :: 1 <= k < |ids| ==> ids[k] == ids[1..][k - 1];
      if ids[0] in vpcs && forall k :: 0 <= k < |ids[1..]| ==> ids[1..][k] in vpcs {
        forall k | 0 <= k < |ids| ensures ids[k] in vpcs {
          if k > 0 {
            assert ids[k] == ids[1..][k - 1];
          }
        }
      }
    }
  }

  /** The first VPC with a manager decides the account: when every VPC
      before it exists and has none, a missing account there fails the scan,
      and otherwise the scan returns that account as soon as every later
      VPC exists, whatever their own managers and accounts are. */
  lemma {:induction false} ScanAccountFirstManagedDecides(vpcs: map<string, Vpc>, ids: seq<string>, i: nat)
    requires i < |ids| && forall k :: 0 <= k <= i ==> ids[k] in vpcs
    requires forall k :: 0 <= k < i ==> vpcs[ids[k]].managerId == ""
    requires vpcs[ids[i]].managerId != ""
    ensures vpcs[ids[i]].accountId.None? ==> ScanAccount(vpcs, ids, "") == Err(ResourceNotFound("cloudaccount"))
    ensures vpcs[ids[i]].accountId.Some? && vpcs[ids[i]].accountId.value != "" ==>
      ScanAccount(vpcs, ids, "") ==
        if forall k :: i < k < |ids| ==> ids[k] in vpcs then Ok(vpcs[ids[i]].accountId.value)
        else Err(ResourceNotFound("vpc"))
    decreases i
  {
    if i == 0 {
      var acct := vpcs[ids[0]].accountId;
      if acct.Some? && acct.value != "" {
        ScanAccountKnown(vpcs, ids[1..], acct.value);
        assert forall k :: 1 <= k < |ids| ==> ids[k] == ids[1..][k - 1];
        if forall k :: 0 < k < |ids| ==> ids[k] in vpcs {
          forall k | 0 <= k < |ids[1..]| ensures ids[1..][k] in vpcs {
            assert ids[1..][k] == ids[k + 1];
          }
        }
      }
    } else {
      ScanAccountFirstManagedDecides(vpcs, ids[1..], i - 1);
      assert forall k :: 1 <= k < |ids| ==> ids[k] == ids[1..][k - 1];
    }
  }

  /** The (zone, vpc) rows for a list of VPCs. */
  function Links(zoneId: string, ids: set<string>): set<(string, string)>
  {
    set v | v in ids :: (zoneId, v)
  }

  /** The VPCs of the list that exist, without (resp. with) a manager. */
  function Unmanaged(vpcs: map<string, Vpc>, ids: seq<string>): set<string>
  {
    set v | v in ids && v in vpcs && vpcs[v].managerId == ""
  }

  function Managed(vpcs: map<string, Vpc>, ids: seq<string>): set<string>
  {
    set v | v in ids && v in vpcs && vpcs[v].managerId != ""
  }

  /** The zone-VPC rows after linking (attach) or unlinking the pairs of `links`. */
  function Applied(rows: set<(string, string)>, links: set<(string, string)>, attach: bool): set<(string, string)>
  {
    if attach then rows + links else rows - links
  }

  /** Links or unlinks one VPC locally. */
  method LinkLocal(db: DnsDatabase, zoneId: string, v: string, attach: bool)
    modifies db`zoneVpcs
    ensures db.zoneVpcs == Applied(old(db.zoneVpcs), {(zoneId, v)}, attach)
  {
    if attach {
      db.AddVpc(zoneId, v);
    } else {
      db.RemoveVpc(zoneId, v);
    }
  }

  /** A prefix of the list has no more unmanaged or managed VPCs than the list. */
  lemma PrefixSplitBounded(vpcs: map<string, Vpc>, ids: seq<string>, k: nat)
    requires k <= |ids|
    ensures Unmanaged(vpcs, ids[..k]) <= Unmanaged(vpcs, ids)
    ensures Managed(vpcs, ids[..k]) <= Managed(vpcs, ids)
  {
  }

  /** Extending the prefix by one existing VPC adds it to exactly one side. */
  lemma PrefixSplitStep(vpcs: map<string, Vpc>, ids: seq<string>, k: nat)
    requires k < |ids| && ids[k] in vpcs
    ensures vpcs[ids[k]].managerId == "" ==>
      Unmanaged(vpcs, ids[..k + 1]) == Unmanaged(vpcs, ids[..k]) + {ids[k]} &&
      Managed(vpcs, ids[..k + 1]) == Managed(vpcs, ids[..k])
    ensures vpcs[ids[k]].managerId != "" ==>
      Unmanaged(vpcs, ids[..k + 1]) == Unmanaged(vpcs, ids[..k]) &&
      Managed(vpcs, ids[..k + 1]) == Managed(vpcs, ids[..k]) + {ids[k]}
  {
    assert ids[..k + 1] == ids[..k] + [ids[k]];
  }

  /** Applying the links of a set and then those of one more pair. */
  lemma AppliedStep(rows: set<(string, string)>, zoneId: string, s: set<string>, v: string, attach: bool)
    ensures Applied(Applied(rows, Links(zoneId, s), attach), {(zoneId, v)}, attach) ==
            Applied(rows, Links(zoneId, s + {v}), attach)
  {
    assert Links(zoneId, s + {v}) == Links(zoneId, s) + {(zoneId, v)};
  }

  /** Linking (unlinking) the VPCs of a subset of `t` stays between linking
      (unlinking) none and all of `t`. */
  lemma AppliedWithin(rows: set<(string, string)>, zoneId: string, s: set<string>, t: set<string>, attach: bool)
    requires s <= t
    ensures attach ==> rows <= Applied(rows, Links(zoneId, s), attach) <= rows + Links(zoneId, t)
    ensures !attach ==> rows - Links(zoneId, t) <= Applied(rows, Links(zoneId, s), attach) <= rows
  {
    assert Links(zoneId, s) <= Links(zoneId, t);
  }

  /** The first loop of OnInit: unmanaged VPCs are linked (attach) or
      unlinked (detach) locally straight away, managed ones are collected in
      `vpcMaps` (id to external id) for the cloud step. */
  method ScanVpcs(db: DnsDatabase, zoneId: string, vpcIds: seq<string>, attach: bool)
    returns (scan: Result<string>, vpcMaps: map<string, string>)
    modifies db`zoneVpcs
    ensures scan == ScanAccount(db.vpcs, vpcIds, "")
    ensures vpcMaps.Keys <= Managed(db.vpcs, vpcIds)
    ensures scan.Ok? ==> vpcMaps.Keys == Managed(db.vpcs, vpcIds)
    ensures forall v :: v in vpcMaps ==> vpcMaps[v] == db.vpcs[v].externalId
    ensures attach ==> old(db.zoneVpcs) <= db.zoneVpcs <= old(db.zoneVpcs) + Links(zoneId, Unmanaged(db.vpcs, vpcIds))
    ensures attach && scan.Ok? ==> db.zoneVpcs == old(db.zoneVpcs) + Links(zoneId, Unmanaged(db.vpcs, vpcIds))
    ensures !attach ==> old(db.zoneVpcs) - Links(zoneId, Unmanaged(db.vpcs, vpcIds)) <= db.zoneVpcs <= old(db.zoneVpcs)
    ensures !attach && scan.Ok? ==> db.zoneVpcs == old(db.zoneVpcs) - Links(zoneId, Unmanaged(db.vpcs, vpcIds))
  {
    vpcMaps := map[];
    var accountId := "";
    var k := 0;
    assert vpcIds[0..] == vpcIds;
    while k < |vpcIds|
      invariant 0 <= k <= |vpcIds|
      invariant ScanAccount(db.vpcs, vpcIds, "") == ScanAccount(db.vpcs, vpcIds[k..], accountId)
      invariant vpcMaps.Keys == Managed(db.vpcs, vpcIds[..k])
      invariant forall v :: v in vpcMaps ==> vpcMaps[v] == db.vpcs[v].externalId
      invariant db.zoneVpcs == Applied(old(db.zoneVpcs), Links(zoneId, Unmanaged(db.vpcs, vpcIds[..k])), attach)
    {
      assert vpcIds[k..][1..] == vpcIds[k + 1..];
      var v := vpcIds[k];
      if v !in db.vpcs {
        scan := Err(ResourceNotFound("vpc"));
        PrefixSplitBounded(db.vpcs, vpcIds, k);
        return;
      }
      PrefixSplitStep(db.vpcs, vpcIds, k);
      if db.vpcs[v].managerId == "" {
        AppliedStep(old(db.zoneVpcs), zoneId, Unmanaged(db.vpcs, vpcIds[..k]), v, attach);
        LinkLocal(db, zoneId, v, attach);
      } else {
        vpcMaps := vpcMaps[v := db.vpcs[v].externalId];
        if accountId == "" {
          if db.vpcs[v].accountId.None? {
            scan := Err(ResourceNotFound("cloudaccount"));
            PrefixSplitBounded(db.vpcs, vpcIds, k + 1);
            return;
          }
          accountId := db.vpcs[v].accountId.value;
        }
      }
      k := k + 1;
    }
    assert vpcIds[..k] == vpcIds;
    assert vpcIds[k..] == [];
    scan := Ok(accountId);
  }

  /** The provider loop over `vpcMaps`, in map order: each managed VPC is
      added to (attach) or removed from the cloud zone (`providerCall` tells
      whether that external id is accepted), and then locally; the first
      refusal stops the loop. */
  method CloudLinks(db: DnsDatabase, zoneId: string, vpcMaps: map<string, string>, attach: bool,
                    providerCall: string -> bool)
    returns (ok: bool)
    modifies db`zoneVpcs
    ensures ok <==> forall v :: v in vpcMaps ==> providerCall(vpcMaps[v])
    ensures attach && ok ==> db.zoneVpcs == old(db.zoneVpcs) + Links(zoneId, vpcMaps.Keys)
    ensures attach ==> old(db.zoneVpcs) <= db.zoneVpcs <= old(db.zoneVpcs) + Links(zoneId, vpcMaps.Keys)
    ensures !attach && ok ==> db.zoneVpcs == old(db.zoneVpcs) - Links(zoneId, vpcMaps.Keys)
    ensures !attach ==> old(db.zoneVpcs) - Links(zoneId, vpcMaps.Keys) <= db.zoneVpcs <= old(db.zoneVpcs)
  {
    var order := Enumerate(vpcMaps.Keys);
    var k := 0;
    while k < |order|
      invariant 0 <= k <= |order|
      invariant forall j :: 0 <= j < k ==> providerCall(vpcMaps[order[j]])
      invariant db.zoneVpcs == Applied(old(db.zoneVpcs), Links(zoneId, Listed(order, k)), attach)
    {
      if !providerCall(vpcMaps[order[k]]) {
        ListedAll(order, vpcMaps.Keys, k);
        AppliedWithin(old(db.zoneVpcs), zoneId, Listed(order, k), vpcMaps.Keys, attach);
        return false;
      }
      AppliedStep(old(db.zoneVpcs), zoneId, Listed(order, k), order[k], attach);
      LinkLocal(db, zoneId, order[k], attach);
      ListedStep(order, k);
      k := k + 1;
    }
    ListedAll(order, vpcMaps.Keys, k);
    ok := true;
  }

  /** The first half of the create branch: every managed VPC is linked
      locally and its external id listed, in map order. */
  method LinkForCreate(db: DnsDatabase, zoneId: string, vpcMaps: map<string, string>)
    returns (externalVpcIds: seq<string>)
    modifies db`zoneVpcs
    ensures db.zoneVpcs == old(db.zoneVpcs) + Links(zoneId, vpcMaps.Keys)
    ensures |externalVpcIds| == |vpcMaps|
    ensures forall e :: e in externalVpcIds <==> exists v :: v in vpcMaps && vpcMaps[v] == e
  {
    var order := Enumerate(vpcMaps.Keys);
    externalVpcIds := [];
    var k := 0;
    while k < |order|
      invariant 0 <= k <= |order|
      invariant |externalVpcIds| == k
      invariant forall j :: 0 <= j < k ==> externalVpcIds[j] == vpcMaps[order[j]]
      invariant db.zoneVpcs == old(db.zoneVpcs) + Links(zoneId, Listed(order, k))
    {
      externalVpcIds := externalVpcIds + [vpcMaps[order[k]]];
      AppliedStep(old(db.zoneVpcs), zoneId, Listed(order, k), order[k], true);
      db.AddVpc(zoneId, order[k]);
      ListedStep(order, k);
      k := k + 1;
    }
    ListedAll(order, vpcMaps.Keys, k);
    ExternalIdsListed(vpcMaps, order, externalVpcIds);
  }

  lemma ExternalIdsListed(vpcMaps: map<string, string>, order: seq<string>, externalVpcIds: seq<string>)
    requires Enumerates(order, vpcMaps.Keys)
    requires |externalVpcIds| == |order|
    requires forall j :: 0 <= j < |order| ==> externalVpcIds[j] == vpcMaps[order[j]]
    ensures |externalVpcIds| == |vpcMaps|
    ensures forall e :: e in externalVpcIds <==> exists v :: v in vpcMaps && vpcMaps[v] == e
  {
    assert |vpcMaps| == |vpcMaps.Keys|;
    forall e | e in externalVpcIds
      ensures exists v :: v in vpcMaps && vpcMaps[v] == e
    {
      var j :| 0 <= j < |externalVpcIds| && externalVpcIds[j] == e;
      assert order[j] in vpcMaps;
    }
    forall e | exists v :: v in vpcMaps && vpcMaps[v] == e
      ensures e in externalVpcIds
    {
      var v :| v in vpcMaps && vpcMaps[v] == e;
      var j :| 0 <= j < |order| && order[j] == v;
      assert externalVpcIds[j] == e;
    }
  }

  /** The cloud half of the add task once the account is known: the
      account's cache is registered; when it already has a cloud zone the
      VPCs are added to it, otherwise they are linked locally and a cloud
      zone is created with their external ids, which the cache then takes.
      `cacheInsertFails` says whether inserting a new cache row fails and
      `cacheUpdateFails` whether the cache's update from the cloud zone does. */
  method AttachToAccount(db: DnsDatabase, zoneId: string, accountId: string, vpcMaps: map<string, string>,
                         iZoneOk: bool, providerAdd: string -> bool, providerOk: bool,
                         create: seq<string> -> Result<CloudZone>, cacheInsertFails: bool, cacheUpdateFails: bool)
    returns (err: Option<Error>, cacheId: string, ghost externalVpcIds: seq<string>)
    requires zoneId in db.zones
    modifies db`zoneVpcs, db`caches
    ensures err.None? ==> cacheId in db.caches && db.caches[cacheId].zoneId == zoneId && db.caches[cacheId].accountId == accountId
    ensures old(db.zoneVpcs) <= db.zoneVpcs <= old(db.zoneVpcs) + Links(zoneId, vpcMaps.Keys)
    ensures err.None? ==> db.zoneVpcs == old(db.zoneVpcs) + Links(zoneId, vpcMaps.Keys)
    ensures var cache := old(db.GetDnsZoneCache(zoneId, accountId));
      (cache == Err(DuplicateEntry) ==> err.Some? && db.caches == old(db.caches)) &&
      (cache == Err(NoRows) && cacheInsertFails ==>
         err.Some? && db.caches == old(db.caches) && db.zoneVpcs == old(db.zoneVpcs)) &&
      (cache.Ok? && old(db.caches)[cache.value].externalId != "" ==>
         db.caches == old(db.caches) &&
         (err.None? <==> iZoneOk && forall v :: v in vpcMaps ==> providerAdd(vpcMaps[v]))) &&
      ((cache == Err(NoRows) && !cacheInsertFails) || (cache.Ok? && old(db.caches)[cache.value].externalId == "") ==>
         (err.None? <==> providerOk && create(externalVpcIds).Ok? && !cacheUpdateFails) &&
         |externalVpcIds| == |vpcMaps| &&
         (forall e :: e in externalVpcIds <==> exists v :: v in vpcMaps && vpcMaps[v] == e) &&
         (err.None? ==> db.caches[cacheId].externalId == create(externalVpcIds).value.globalId))
  {
    externalVpcIds := [];
    var cache := db.RegisterCache(zoneId, accountId, cacheInsertFails);
    if cache.Err? {
      return Some(cache.error), "", externalVpcIds;
    }
    cacheId := cache.value;
    if db.caches[cache.value].externalId != "" {
      if !iZoneOk {
        return Some(Opaque("GetICloudDnsZone")), cacheId, externalVpcIds;
      }
      var ok := CloudLinks(db, zoneId, vpcMaps, true, providerAdd);
      if !ok {
        return Some(Opaque("iDnsZone.AddVpc")), cacheId, externalVpcIds;
      }
      return None, cacheId, externalVpcIds;
    }
    var ids := LinkForCreate(db, zoneId, vpcMaps);
    externalVpcIds := ids;
    if !providerOk {
      return Some(Opaque("GetProvider.ForCreate")), cacheId, externalVpcIds;
    }
    var zone := create(ids);
    if zone.Err? {
      return Some(Opaque("CreateICloudDnsZone")), cacheId, externalVpcIds;
    }
    err := DnsZoneCaches.SyncWithCloudDnsZone(db, cache.value, zone.value.globalId, zone.value.status, zone.value.name,
                                              cacheUpdateFails);
  }

  /** `DnsZoneAddVpcsTask.OnInit`. The zone ends available when the task
      completes and add_vpcs_failed otherwise. Unmanaged VPCs are linked
      locally; when a managed VPC gives an account, the rest is
      AttachToAccount. `iZoneOk` is `GetICloudDnsZone`, `providerAdd` the
      provider's AddVpc, `providerOk` `GetProvider`, and `create`
      `CreateICloudDnsZone`; `cacheInsertFails` and `cacheUpdateFails` are
      the cache's insert and update. */
  method AddVpcsOnInit(db: DnsDatabase, zoneId: string, vpcIds: seq<string>, iZoneOk: bool,
                       providerAdd: string -> bool, providerOk: bool, create: seq<string> -> Result<CloudZone>,
                       cacheInsertFails: bool, cacheUpdateFails: bool)
    returns (outcome: TaskOutcome, ghost externalVpcIds: seq<string>)
    requires zoneId in db.zones
    modifies db`zones, db`zoneVpcs, db`caches
    ensures db.zones == old(db.zones)[zoneId := old(db.zones)[zoneId].(
      status := if outcome.StageComplete? then ZoneAvailable else ZoneAddVpcsFailed)]
    ensures old(db.zoneVpcs) <= db.zoneVpcs <= old(db.zoneVpcs) + Links(zoneId, set v | v in vpcIds)
    ensures outcome.StageComplete? ==>
      db.zoneVpcs == old(db.zoneVpcs) + Links(zoneId, Unmanaged(db.vpcs, vpcIds)) +
                     (if ScanAccount(db.vpcs, vpcIds, "") == Ok("") then {} else Links(zoneId, Managed(db.vpcs, vpcIds)))
    ensures ScanAccount(db.vpcs, vpcIds, "").Err? ==> outcome.StageFailed? && db.caches == old(db.caches)
    ensures ScanAccount(db.vpcs, vpcIds, "") == Ok("") ==> outcome == StageComplete && db.caches == old(db.caches)
    ensures var scan := ScanAccount(db.vpcs, vpcIds, "");
      scan.Ok? && scan.value != "" ==>
        var cache := old(db.GetDnsZoneCache(zoneId, scan.value));
        (cache == Err(DuplicateEntry) ==> outcome.StageFailed? && db.caches == old(db.caches)) &&
        (cache == Err(NoRows) && cacheInsertFails ==> outcome.StageFailed? && db.caches == old(db.caches)) &&
        (cache.Ok? && old(db.caches)[cache.value].externalId != "" ==>
           db.caches == old(db.caches) &&
           (outcome.StageComplete? <==> iZoneOk && forall v :: v in Managed(db.vpcs, vpcIds) ==> providerAdd(db.vpcs[v].externalId))) &&
        ((cache == Err(NoRows) && !cacheInsertFails) || (cache.Ok? && old(db.caches)[cache.value].externalId == "") ==>
           (outcome.StageComplete? <==> providerOk && create(externalVpcIds).Ok? && !cacheUpdateFails) &&
           |externalVpcIds| == |Managed(db.vpcs, vpcIds)| &&
           (forall e :: e in externalVpcIds <==> exists v :: v in Managed(db.vpcs, vpcIds) && db.vpcs[v].externalId == e) &&
           (outcome.StageComplete? ==>
              exists c :: c in db.caches && db.caches[c].zoneId == zoneId && db.caches[c].accountId == scan.value &&
                          db.caches[c].externalId == create(externalVpcIds).value.globalId))
  {
    externalVpcIds := [];
    var scan, vpcMaps := ScanVpcs(db, zoneId, vpcIds, true);
    assert Unmanaged(db.vpcs, vpcIds) <= set v | v in vpcIds;
    if scan.Err? {
      db.SetZoneStatus(zoneId, ZoneAddVpcsFailed);
      return StageFailed(scan.error), externalVpcIds;
    }
    assert Managed(db.vpcs, vpcIds) <= set v | v in vpcIds;
    assert |vpcMaps| == |Managed(db.vpcs, vpcIds)|;
    if scan.value != "" {
      var err, cacheId;
      err, cacheId, externalVpcIds := AttachToAccount(db, zoneId, scan.value, vpcMaps, iZoneOk, providerAdd, providerOk, create,
                                                    cacheInsertFails, cacheUpdateFails);
      if err.Some? {
        db.SetZoneStatus(zoneId, ZoneAddVpcsFailed);
        return StageFailed(err.value), externalVpcIds;
      }
      db.SetZoneStatus(zoneId, ZoneAvailable);
      assert cacheId in db.caches && db.caches[cacheId].zoneId == zoneId && db.caches[cacheId].accountId == scan.value;
      return StageComplete, externalVpcIds;
    }
    db.SetZoneStatus(zoneId, ZoneAvailable);
    outcome := StageComplete;
  }

  /** The cloud half of the remove task once the account is known: the
      account's cache is registered; when it has a cloud zone the VPCs are
      removed from it and then locally, otherwise they are only unlinked
      locally. `cacheInsertFails` says whether inserting a new cache row
      fails. */
  method DetachFromAccount(db: DnsDatabase, zoneId: string, accountId: string, vpcMaps: map<string, string>,
                           iZoneOk: bool, providerRemove: string -> bool, cacheInsertFails: bool)
    returns (err: Option<Error>)
    requires zoneId in db.zones
    modifies db`zoneVpcs, db`caches
    ensures old(db.zoneVpcs) - Links(zoneId, vpcMaps.Keys) <= db.zoneVpcs <= old(db.zoneVpcs)
    ensures err.None? ==> db.zoneVpcs == old(db.zoneVpcs) - Links(zoneId, vpcMaps.Keys)
    ensures var cache := old(db.GetDnsZoneCache(zoneId, accountId));
      (cache == Err(DuplicateEntry) ==> err.Some? && db.caches == old(db.caches)) &&
      (cache == Err(NoRows) && cacheInsertFails ==>
         err.Some? && db.caches == old(db.caches) && db.zoneVpcs == old(db.zoneVpcs)) &&
      (cache.Ok? && old(db.caches)[cache.value].externalId != "" ==>
         (err.None? <==> iZoneOk && forall v :: v in vpcMaps ==> providerRemove(vpcMaps[v]))) &&
      ((cache == Err(NoRows) && !cacheInsertFails) || (cache.Ok? && old(db.caches)[cache.value].externalId == "") ==>
         err.None?)
  {
    var cache := db.RegisterCache(zoneId, accountId, cacheInsertFails);
    if cache.Err? {
      return Some(cache.error);
    }
    if db.caches[cache.value].externalId != "" {
      if !iZoneOk {
        return Some(Opaque("GetICloudDnsZone"));
      }
      var ok := CloudLinks(db, zoneId, vpcMaps, false, providerRemove);
      if !ok {
        return Some(Opaque("iDnsZone.RemoveVpc"));
      }
    } else {
      var _ := CloudLinks(db, zoneId, vpcMaps, false, e => true);
    }
    err := None;
  }

  /** `DnsZoneRemoveVpcsTask.OnInit`: the mirror image of the add task; when
      the account's cache has no cloud zone the managed VPCs are only
      unlinked locally. `cacheInsertFails` says whether inserting a new
      cache row fails. */
  method RemoveVpcsOnInit(db: DnsDatabase, zoneId: string, vpcIds: seq<string>, iZoneOk: bool,
                          providerRemove: string -> bool, cacheInsertFails: bool)
    returns (outcome: TaskOutcome)
    requires zoneId in db.zones
    modifies db`zones, db`zoneVpcs, db`caches
    ensures db.zones == old(db.zones)[zoneId := old(db.zones)[zoneId].(
      status := if outcome.StageComplete? then ZoneAvailable else ZoneRemoveVpcsFailed)]
    ensures old(db.zoneVpcs) - Links(zoneId, set v | v in vpcIds) <= db.zoneVpcs <= old(db.zoneVpcs)
    ensures outcome.StageComplete? ==>
      db.zoneVpcs == old(db.zoneVpcs) - Links(zoneId, Unmanaged(db.vpcs, vpcIds)) -
                     (if ScanAccount(db.vpcs, vpcIds, "") == Ok("") then {} else Links(zoneId, Managed(db.vpcs, vpcIds)))
    ensures ScanAccount(db.vpcs, vpcIds, "").Err? ==> outcome.StageFailed? && db.caches == old(db.caches)
    ensures ScanAccount(db.vpcs, vpcIds, "") == Ok("") ==> outcome == StageComplete && db.caches == old(db.caches)
    ensures var scan := ScanAccount(db.vpcs, vpcIds, "");
      scan.Ok? && scan.value != "" ==>
        var cache := old(db.GetDnsZoneCache(zoneId, scan.value));
        (cache == Err(DuplicateEntry) ==> outcome.StageFailed?) &&
        (cache == Err(NoRows) && cacheInsertFails ==> outcome.StageFailed? && db.caches == old(db.caches)) &&
        (cache.Ok? && old(db.caches)[cache.value].externalId != "" ==>
           (outcome.StageComplete? <==> iZoneOk && forall v :: v in Managed(db.vpcs, vpcIds) ==> providerRemove(db.vpcs[v].externalId))) &&
        ((cache == Err(NoRows) && !cacheInsertFails) || (cache.Ok? && old(db.caches)[cache.value].externalId == "") ==>
           outcome == StageComplete)
  {
    var scan, vpcMaps := ScanVpcs(db, zoneId, vpcIds, false);
    assert Unmanaged(db.vpcs, vpcIds) <= set v | v in vpcIds;
    if scan.Err? {
      db.SetZoneStatus(zoneId, ZoneRemoveVpcsFailed);
      return StageFailed(scan.error);
    }
    ScanAccountSound(db.vpcs, vpcIds, "");
    assert (set v | v in vpcIds) == Unmanaged(db.vpcs, vpcIds) + Managed(db.vpcs, vpcIds);
    if scan.value != "" {
      var err := DetachFromAccount(db, zoneId, scan.value, vpcMaps, iZoneOk, providerRemove, cacheInsertFails);
      if err.Some? {
        db.SetZoneStatus(zoneId, ZoneRemoveVpcsFailed);
        return StageFailed(err.value);
      }
    }
    db.SetZoneStatus(zoneId, ZoneAvailable);
    outcome := StageComplete;
  }
}
