// The compute service's DNS tables (pkg/compute/models): zones, the
// zone-VPC join table, caches (one per zone and cloud account), record sets,
// traffic policies and the record-policy join table, plus the queue of
// scheduled tasks. The operations here are the ones several model files
// call: status setters, the task starters, the dirty-flag debounce, VPC
// links and cache registration.
module DnsModel {
  import opened Wrappers
  import opened DnsRecordDiff

  /** DNS zone statuses (pkg/apis/compute/dnszone.go). The status a zone gets
      while its record sets sync is not among the listed constants, so it is
      a value of its own. */
  datatype ZoneStatus = Named(text: string) | SyncingRecordSets

  const ZoneAvailable := Named("available")
  const ZoneCreating := Named("creating")
  const ZoneUncaching := Named("uncaching")
  const ZoneCaching := Named("caching")
  const ZoneAddVpcs := Named("add_vpcs")
  const ZoneAddVpcsFailed := Named("add_vpcs_failed")
  const ZoneRemoveVpcs := Named("remove_vpcs")
  const ZoneRemoveVpcsFailed := Named("remove_vpcs_failed")

  /** Zone-cache statuses (pkg/apis/compute/dnszonecache.go). A freshly
      inserted cache keeps the column default; a synced one takes the remote
      zone's status text. */
  datatype CacheStatus = CacheNamed(text: string) | CacheDefault

  const CacheDeleting := CacheNamed("deleting")
  const CacheCreating := CacheNamed("creating")

  datatype Zone = Zone(name: string, status: ZoneStatus, zoneType: string, isDirty: bool,
                       options: Option<Params>)

  datatype Cache = Cache(zoneId: string, accountId: string, externalId: string,
                         status: CacheStatus, name: string)

  datatype Record = Record(zoneId: string, name: string, dnsType: string, dnsValue: string,
                           ttl: int, status: string, enabled: bool)

  datatype Policy = Policy(provider: string, policyType: string, params: Option<Params>)

  /** A VPC row (keyed by its id) as the DNS code reads it; `accountId` is the cloud account of
      its manager, None when `GetCloudaccount` finds none. */
  datatype Vpc = Vpc(name: string, managerId: string, externalId: string,
                     accountId: Option<string>)

  /** The task kinds the DNS code schedules, with the parameters they carry. */
  datatype TaskKind =
    | DnsZoneCreateTask(accountId: string)
    | DnsZoneDeleteTask(purge: bool)
    | DnsZoneSyncRecordSetsTask
    | DnsZoneAddVpcsTask(vpcIds: seq<string>)
    | DnsZoneRemoveVpcsTask(vpcIds: seq<string>)
    | DnsZoneCacheCreateTask
    | DnsZoneCacheDeleteTask

  datatype Task = Task(kind: TaskKind, objectId: string)

  /** The set has exactly one member. */
  lemma SingletonMembers(s: set<string>)
    requires |s| == 1
    ensures forall a, b :: a in s && b in s ==> a == b
  {
    var y :| y in s;
    assert |s - {y}| == 0;
    assert s == {y};
  }

  /** The only member of a one-element set. */
  function Single(s: set<string>): (x: string)
    requires |s| == 1
    ensures s == {x}
  {
    SingletonMembers(s);
    var x :| x in s; x
  }

  class DnsDatabase {
    var zones: map<string, Zone>
    var zoneVpcs: set<(string, string)>
    var caches: map<string, Cache>
    var records: map<string, Record>
    var policies: map<string, Policy>
    var recordPolicies: set<(string, string)>
    var vpcs: map<string, Vpc>
    var tasks: seq<Task>

    constructor(vpcRows: map<string, Vpc>)
      ensures zones == map[] && zoneVpcs == {} && caches == map[] && records == map[]
      ensures policies == map[] && recordPolicies == {} && vpcs == vpcRows && tasks == []
    {
      zones, zoneVpcs, caches, records := map[], {}, map[], map[];
      policies, recordPolicies, vpcs, tasks := map[], {}, vpcRows, [];
    }

    // -------------------------------------------------------------------
    // Status setters (SetStatus on a zone or a cache row)

    method SetZoneStatus(zoneId: string, s: ZoneStatus)
      requires zoneId in zones
      modifies this`zones
      ensures zones == old(zones)[zoneId := old(zones)[zoneId].(status := s)]
    {
      zones := zones[zoneId := zones[zoneId].(status := s)];
    }

    method SetCacheStatus(cacheId: string, s: CacheStatus)
      requires cacheId in caches
      modifies this`caches
      ensures caches == old(caches)[cacheId := old(caches)[cacheId].(status := s)]
    {
      caches := caches[cacheId := caches[cacheId].(status := s)];
    }

    // -------------------------------------------------------------------
    // Zone-VPC links

    /** `SDnsZone.AddVpc`: inserts the (zone, vpc) row. */
    method AddVpc(zoneId: string, vpcId: string)
      modifies this`zoneVpcs
      ensures zoneVpcs == old(zoneVpcs) + {(zoneId, vpcId)}
    {
      zoneVpcs := zoneVpcs + {(zoneId, vpcId)};
    }

    /** `SDnsZone.RemoveVpc`: deletes every (zone, vpc) row. */
    method RemoveVpc(zoneId: string, vpcId: string)
      modifies this`zoneVpcs
      ensures zoneVpcs == old(zoneVpcs) - {(zoneId, vpcId)}
    {
      zoneVpcs := zoneVpcs - {(zoneId, vpcId)};
    }

    /** The ids `GetVpcs` returns: VPC rows linked to the zone. */
    function VpcIdsOf(zoneId: string): (ids: set<string>)
      reads this
      ensures forall v :: v in ids <==> v in vpcs && (zoneId, v) in zoneVpcs
    {
      set v | v in vpcs && (zoneId, v) in zoneVpcs
    }

    /** `GetVpcs`: the ids of the linked VPC rows, in an order the database
        picks; the rows themselves are `vpcs[id]`. */
    method GetVpcs(zoneId: string) returns (vs: seq<string>)
      ensures Enumerates(vs, VpcIdsOf(zoneId))
    {
      vs := Enumerate(VpcIdsOf(zoneId));
    }

    /** The record sets of a zone. */
    function RecordIdsOf(zoneId: string): (ids: set<string>)
      reads this
      ensures forall r :: r in ids <==> r in records && records[r].zoneId == zoneId
    {
      set r | r in records && records[r].zoneId == zoneId
    }

    /** `SDnsZone.GetDnsRecordSets`: the zone's record ids in database order. */
    method GetDnsRecordSets(zoneId: string) returns (ids: seq<string>)
      ensures Enumerates(ids, RecordIdsOf(zoneId))
    {
      ids := Enumerate(RecordIdsOf(zoneId));
    }

    // -------------------------------------------------------------------
    // Task starters: NewTask may fail; on success the status is set and the
    // task is queued.

    method StartZoneTask(zoneId: string, kind: TaskKind, s: ZoneStatus, taskOk: bool)
      returns (err: Option<Error>)
      requires zoneId in zones
      modifies this`zones, this`tasks
      ensures err.None? <==> taskOk
      ensures taskOk ==> tasks == old(tasks) + [Task(kind, zoneId)]
      ensures taskOk ==> zones == old(zones)[zoneId := old(zones)[zoneId].(status := s)]
      ensures !taskOk ==> tasks == old(tasks) && zones == old(zones)
    {
      if !taskOk {
        return Some(Opaque("NewTask"));
      }
      SetZoneStatus(zoneId, s);
      tasks := tasks + [Task(kind, zoneId)];
      err := None;
    }

    /** `StartDnsZoneCreateTask`: status creating. */
    method StartDnsZoneCreateTask(zoneId: string, accountId: string, taskOk: bool)
      returns (err: Option<Error>)
      requires zoneId in zones
      modifies this`zones, this`tasks
      ensures err.None? <==> taskOk
      ensures taskOk ==> tasks == old(tasks) + [Task(DnsZoneCreateTask(accountId), zoneId)]
      ensures taskOk ==> zones == old(zones)[zoneId := old(zones)[zoneId].(status := ZoneCreating)]
      ensures !taskOk ==> tasks == old(tasks) && zones == old(zones)
    {
      err := StartZoneTask(zoneId, DnsZoneCreateTask(accountId), ZoneCreating, taskOk);
    }

    /** `StartDnsZoneDeleteTask`: as written it sets remove_vpcs, not a
        deleting status. */
    method StartDnsZoneDeleteTask(zoneId: string, purge: bool, taskOk: bool)
      returns (err: Option<Error>)
      requires zoneId in zones
      modifies this`zones, this`tasks
      ensures err.None? <==> taskOk
      ensures taskOk ==> tasks == old(tasks) + [Task(DnsZoneDeleteTask(purge), zoneId)]
      ensures taskOk ==> zones == old(zones)[zoneId := old(zones)[zoneId].(status := ZoneRemoveVpcs)]
      ensures !taskOk ==> tasks == old(tasks) && zones == old(zones)
    {
      err := StartZoneTask(zoneId, DnsZoneDeleteTask(purge), ZoneRemoveVpcs, taskOk);
    }

    /** `StartDnsZoneSyncRecordSetsTask`: status sync-record-sets. */
    method StartDnsZoneSyncRecordSetsTask(zoneId: string, taskOk: bool)
      returns (err: Option<Error>)
      requires zoneId in zones
      modifies this`zones, this`tasks
      ensures err.None? <==> taskOk
      ensures taskOk ==> tasks == old(tasks) + [Task(DnsZoneSyncRecordSetsTask, zoneId)]
      ensures taskOk ==> zones == old(zones)[zoneId := old(zones)[zoneId].(status := SyncingRecordSets)]
      ensures !taskOk ==> tasks == old(tasks) && zones == old(zones)
    {
      err := StartZoneTask(zoneId, DnsZoneSyncRecordSetsTask, SyncingRecordSets, taskOk);
    }

    /** `StartDnsZoneAddVpcsTask`: status add_vpcs, the ids travel with the task. */
    method StartDnsZoneAddVpcsTask(zoneId: string, vpcIds: seq<string>, taskOk: bool)
      returns (err: Option<Error>)
      requires zoneId in zones
      modifies this`zones, this`tasks
      ensures err.None? <==> taskOk
      ensures taskOk ==> tasks == old(tasks) + [Task(DnsZoneAddVpcsTask(vpcIds), zoneId)]
      ensures taskOk ==> zones == old(zones)[zoneId := old(zones)[zoneId].(status := ZoneAddVpcs)]
      ensures !taskOk ==> tasks == old(tasks) && zones == old(zones)
    {
      err := StartZoneTask(zoneId, DnsZoneAddVpcsTask(vpcIds), ZoneAddVpcs, taskOk);
    }

    /** `StartDnsZoneRemoveVpcsTask`: status remove_vpcs. */
    method StartDnsZoneRemoveVpcsTask(zoneId: string, vpcIds: seq<string>, taskOk: bool)
      returns (err: Option<Error>)
      requires zoneId in zones
      modifies this`zones, this`tasks
      ensures err.None? <==> taskOk
      ensures taskOk ==> tasks == old(tasks) + [Task(DnsZoneRemoveVpcsTask(vpcIds), zoneId)]
      ensures taskOk ==> zones == old(zones)[zoneId := old(zones)[zoneId].(status := ZoneRemoveVpcs)]
      ensures !taskOk ==> tasks == old(tasks) && zones == old(zones)
    {
      err := StartZoneTask(zoneId, DnsZoneRemoveVpcsTask(vpcIds), ZoneRemoveVpcs, taskOk);
    }

    /** `SDnsZoneCache.StartDnsZoneCacheCreateTask`: the zone is set to
        caching before NewTask runs, so a NewTask failure leaves the zone in
        caching; on success the cache is set to creating. */
    method StartDnsZoneCacheCreateTask(cacheId: string, taskOk: bool) returns (err: Option<Error>)
      requires cacheId in caches
      modifies this`zones, this`caches, this`tasks
      ensures var z := old(caches)[cacheId].zoneId;
        if z !in old(zones) then
          err.Some? && zones == old(zones) && caches == old(caches) && tasks == old(tasks)
        else
          zones == old(zones)[z := old(zones)[z].(status := ZoneCaching)] &&
          (err.None? <==> taskOk) &&
          (taskOk ==> caches == old(caches)[cacheId := old(caches)[cacheId].(status := CacheCreating)]) &&
          (taskOk ==> tasks == old(tasks) + [Task(DnsZoneCacheCreateTask, cacheId)]) &&
          (!taskOk ==> caches == old(caches) && tasks == old(tasks))
    {
      var z := caches[cacheId].zoneId;
      if z !in zones {
        return Some(NoRows);
      }
      SetZoneStatus(z, ZoneCaching);
      if !taskOk {
        return Some(Opaque("NewTask"));
      }
      SetCacheStatus(cacheId, CacheCreating);
      tasks := tasks + [Task(DnsZoneCacheCreateTask, cacheId)];
      err := None;
    }

    /** `SDnsZoneCache.StartDnsZoneCacheDeleteTask`: zone uncaching first,
        then (if NewTask succeeds) cache deleting. */
    method StartDnsZoneCacheDeleteTask(cacheId: string, taskOk: bool) returns (err: Option<Error>)
      requires cacheId in caches
      modifies this`zones, this`caches, this`tasks
      ensures var z := old(caches)[cacheId].zoneId;
        if z !in old(zones) then
          err.Some? && zones == old(zones) && caches == old(caches) && tasks == old(tasks)
        else
          zones == old(zones)[z := old(zones)[z].(status := ZoneUncaching)] &&
          (err.None? <==> taskOk) &&
          (taskOk ==> caches == old(caches)[cacheId := old(caches)[cacheId].(status := CacheDeleting)]) &&
          (taskOk ==> tasks == old(tasks) + [Task(DnsZoneCacheDeleteTask, cacheId)]) &&
          (!taskOk ==> caches == old(caches) && tasks == old(tasks))
    {
      var z := caches[cacheId].zoneId;
      if z !in zones {
        return Some(NoRows);
      }
      SetZoneStatus(z, ZoneUncaching);
      if !taskOk {
        return Some(Opaque("NewTask"));
      }
      SetCacheStatus(cacheId, CacheDeleting);
      tasks := tasks + [Task(DnsZoneCacheDeleteTask, cacheId)];
      err := None;
    }

    // -------------------------------------------------------------------
    // Dirty-flag debounce. The ten-second timer of DoSyncRecords is not
    // modelled: DelaySync is the step that the timer would later run.

    /** `DoSyncRecords`: marks the zone dirty; a failing `db.Update`
        (`updateFails`) is returned and leaves the zone as it was. */
    method DoSyncRecords(zoneId: string, updateFails: bool) returns (err: Option<Error>)
      requires zoneId in zones
      modifies this`zones
      ensures err.Some? <==> updateFails
      ensures updateFails ==> zones == old(zones)
      ensures !updateFails ==> zones == old(zones)[zoneId := old(zones)[zoneId].(isDirty := true)]
    {
      if updateFails {
        return Some(Opaque("db.Update"));
      }
      zones := zones[zoneId := zones[zoneId].(isDirty := true)];
      err := None;
    }

    /** `DelaySync`: a dirty zone is cleaned and exactly one sync task is
        started (its NewTask result is ignored); a clean zone is left as it
        is. A failing `db.Update` (`updateFails`) is only logged: the zone
        stays dirty and the task is still started. */
    method DelaySync(zoneId: string, taskOk: bool, updateFails: bool)
      requires zoneId in zones
      modifies this`zones, this`tasks
      ensures zoneId in zones && zones[zoneId].isDirty == (old(zones[zoneId].isDirty) && updateFails)
      ensures !old(zones[zoneId].isDirty) ==> zones == old(zones) && tasks == old(tasks)
      ensures old(zones[zoneId].isDirty) && taskOk ==>
        tasks == old(tasks) + [Task(DnsZoneSyncRecordSetsTask, zoneId)] &&
        zones == old(zones)[zoneId := old(zones)[zoneId].(isDirty := updateFails, status := SyncingRecordSets)]
      ensures old(zones[zoneId].isDirty) && !taskOk ==>
        tasks == old(tasks) && zones == old(zones)[zoneId := old(zones)[zoneId].(isDirty := updateFails)]
    {
      var needSync := false;
      if zones[zoneId].isDirty {
        if !updateFails {
          zones := zones[zoneId := zones[zoneId].(isDirty := false)];
        }
        needSync := true;
      }
      if needSync {
        var _ := StartDnsZoneSyncRecordSetsTask(zoneId, taskOk);
      }
    }

    // -------------------------------------------------------------------
    // Traffic policies

    /** The policy ids some record-policy link points at. */
    function LinkTargets(): (ts: set<string>)
      reads this`recordPolicies
      ensures forall r, p :: (r, p) in recordPolicies ==> p in ts
    {
      set l | l in recordPolicies :: l.1
    }

    /** The policy rows of this provider, type and params. */
    function PoliciesMatching(provider: string, policyType: string, params: Option<Params>): (ids: set<string>)
      reads this`policies
      ensures forall p :: p in ids <==> p in policies && policies[p] == Policy(provider, policyType, params)
    {
      set p | p in policies && policies[p] == Policy(provider, policyType, params)
    }

    /** `DnsTrafficPolicyManager.Register` (its body is not part of this
        model): a row of this provider, type and params when there is one,
        otherwise a new row under a fresh id that no link points at yet;
        `insertFails` is the failure of that insert. */
    method RegisterPolicy(provider: string, policyType: string, params: Option<Params>, insertFails: bool)
      returns (r: Result<string>)
      modifies this`policies
      ensures r.Ok? ==> r.value in policies && policies[r.value] == Policy(provider, policyType, params)
      ensures old(PoliciesMatching(provider, policyType, params)) != {} ==>
        r.Ok? && r.value in old(PoliciesMatching(provider, policyType, params)) && policies == old(policies)
      ensures old(PoliciesMatching(provider, policyType, params)) == {} && insertFails ==>
        r.Err? && policies == old(policies)
      ensures old(PoliciesMatching(provider, policyType, params)) == {} && !insertFails ==>
        r.Ok? && r.value !in old(policies) && r.value !in LinkTargets() &&
        policies == old(policies)[r.value := Policy(provider, policyType, params)]
    {
      var matching := PoliciesMatching(provider, policyType, params);
      if matching != {} {
        var p :| p in matching;
        return Ok(p);
      }
      if insertFails {
        return Err(Opaque("Insert"));
      }
      var id := FreshId(policies.Keys + LinkTargets());
      policies := policies[id := Policy(provider, policyType, params)];
      r := Ok(id);
    }

    // -------------------------------------------------------------------
    // Caches

    /** The cache rows of one (zone, account) pair. */
    function CachesFor(zoneId: string, accountId: string): (ids: set<string>)
      reads this
      ensures forall c :: c in ids <==> c in caches && caches[c].zoneId == zoneId && caches[c].accountId == accountId
    {
      set c | c in caches && caches[c].zoneId == zoneId && caches[c].accountId == accountId
    }

    /** `GetDnsZoneCache`: the single cache of the pair, no-rows when there is
        none and a duplicate-entry error when there are several. */
    function GetDnsZoneCache(zoneId: string, accountId: string): (r: Result<string>)
      reads this
      ensures r.Ok? <==> |CachesFor(zoneId, accountId)| == 1
      ensures r.Ok? ==> CachesFor(zoneId, accountId) == {r.value}
      ensures r == Err(NoRows) <==> CachesFor(zoneId, accountId) == {}
      ensures r.Err? && r != Err(NoRows) ==> r == Err(DuplicateEntry) && |CachesFor(zoneId, accountId)| > 1
    {
      var ids := CachesFor(zoneId, accountId);
      if |ids| == 1 then Ok(Single(ids))
      else if |ids| == 0 then Err(NoRows)
      else Err(DuplicateEntry)
    }

    /** `newCache`: inserts a cache row named after the zone; a failing
        insert (`insertFails`) is an error and adds nothing. */
    method NewCache(zoneId: string, accountId: string, externalId: string, insertFails: bool)
      returns (r: Result<string>)
      requires zoneId in zones
      modifies this`caches
      ensures r.Err? <==> insertFails
      ensures insertFails ==> caches == old(caches)
      ensures r.Ok? ==>
        r.value !in old(caches) &&
        caches == old(caches)[r.value := Cache(zoneId, accountId, externalId, CacheDefault, zones[zoneId].name)]
    {
      if insertFails {
        return Err(Opaque("dnsZoneCache.Insert"));
      }
      var id := FreshId(caches.Keys);
      caches := caches[id := Cache(zoneId, accountId, externalId, CacheDefault, zones[zoneId].name)];
      r := Ok(id);
    }

    /** `RegisterCache`: the existing cache of the pair, or a new one with an
        empty external id when there is none; a duplicate and a failing
        insert (`insertFails`) are passed on. */
    method RegisterCache(zoneId: string, accountId: string, insertFails: bool) returns (r: Result<string>)
      requires zoneId in zones
      modifies this`caches
      ensures old(GetDnsZoneCache(zoneId, accountId)).Ok? ==>
        r == old(GetDnsZoneCache(zoneId, accountId)) && caches == old(caches)
      ensures old(GetDnsZoneCache(zoneId, accountId)) == Err(NoRows) && insertFails ==>
        r.Err? && caches == old(caches)
      ensures old(GetDnsZoneCache(zoneId, accountId)) == Err(NoRows) && !insertFails ==>
        r.Ok? && r.value !in old(caches) &&
        caches == old(caches)[r.value := Cache(zoneId, accountId, "", CacheDefault, zones[zoneId].name)]
      ensures old(GetDnsZoneCache(zoneId, accountId)) == Err(DuplicateEntry) ==>
        r == Err(DuplicateEntry) && caches == old(caches)
      ensures r.Ok? ==> r.value in caches && caches[r.value].zoneId == zoneId && caches[r.value].accountId == accountId
    {
      var found := GetDnsZoneCache(zoneId, accountId);
      if found.Err? && found.error != NoRows {
        return found;
      }
      if found.Ok? {
        return found;
      }
      r := NewCache(zoneId, accountId, "", insertFails);
    }
  }
}
