// DNS zone caches (pkg/compute/models/dns_zonecaches.go): the per-account
// cloud copy of a public zone (or the one copy of a private zone), its
// removal, and pushing the local record sets to the cloud.
module DnsZoneCaches {
  import opened Wrappers
  import opened DnsRecordDiff
  import opened DnsModel
  import opened DnsRecordSets
  import DnsZones

  /** Caches are only created by the zone actions: the create API refuses. */
  function ValidateCreateData<T>(input: T): (r: Result<T>)
    ensures r.Err? && r.error.NotSupported?
  {
    Err(NotSupported("Not support"))
  }

  /** `SyncWithCloudDnsZone`: external id, status and name come from the
      cloud zone; nothing else of the row changes. A failing `db.Update`
      (`updateFails`) is returned and changes nothing. */
  method SyncWithCloudDnsZone(db: DnsDatabase, cacheId: string, globalId: string, status: string, name: string,
                              updateFails: bool)
    returns (err: Option<Error>)
    requires cacheId in db.caches
    modifies db`caches
    ensures err.Some? <==> updateFails
    ensures updateFails ==> db.caches == old(db.caches)
    ensures !updateFails ==> db.caches == old(db.caches)[cacheId := old(db.caches)[cacheId].(
      externalId := globalId, status := CacheNamed(status), name := name)]
    ensures cacheId in db.caches
    ensures db.caches[cacheId].zoneId == old(db.caches)[cacheId].zoneId
    ensures db.caches[cacheId].accountId == old(db.caches)[cacheId].accountId
  {
    if updateFails {
      return Some(Opaque("db.Update"));
    }
    db.caches := db.caches[cacheId := db.caches[cacheId].(externalId := globalId, status := CacheNamed(status), name := name)];
    err := None;
  }

  /** `syncRemove`: a cache whose zone is gone or public is simply deleted; a
      private zone lives and dies with its cache, so the zone is deleted
      first (with its record sets) and a failure there keeps both. A zone
      lookup failing other than with no rows (`lookupFails`) is returned
      before any change; a failing delete of the cache row (`deleteFails`)
      is returned with the row kept. */
  method SyncRemove(db: DnsDatabase, cacheId: string, detachFails: (string, string) -> bool,
                    lookupFails: bool, deleteFails: bool)
    returns (err: Option<Error>)
    requires cacheId in db.caches
    modifies db`caches, db`zones, db`records, db`recordPolicies
    ensures lookupFails ==>
      err.Some? && db.caches == old(db.caches) && db.zones == old(db.zones) &&
      db.records == old(db.records) && db.recordPolicies == old(db.recordPolicies)
    ensures var z := old(db.caches)[cacheId].zoneId;
      !lookupFails && (z !in old(db.zones) || old(db.zones)[z].zoneType == PublicZone) ==>
        (err.Some? <==> deleteFails) &&
        db.caches == (if deleteFails then old(db.caches) else old(db.caches) - {cacheId}) &&
        db.zones == old(db.zones) && db.records == old(db.records) && db.recordPolicies == old(db.recordPolicies)
    ensures var z := old(db.caches)[cacheId].zoneId;
      !lookupFails && z in old(db.zones) && old(db.zones)[z].zoneType != PublicZone ==>
        (err.None? <==> z !in db.zones && !deleteFails) &&
        (z in db.zones ==> db.zones == old(db.zones)) &&
        (z !in db.zones ==> db.zones == old(db.zones) - {z} && db.records == old(db.records) - old(db.RecordIdsOf(z)))
    ensures err.None? ==> db.caches == old(db.caches) - {cacheId}
    ensures err.Some? ==> db.caches == old(db.caches)
    ensures db.records.Keys <= old(db.records.Keys)
    ensures db.zones.Keys <= old(db.zones.Keys)
  {
    if lookupFails {
      return Some(Opaque("GetDnsZone"));
    }
    var z := db.caches[cacheId].zoneId;
    if z !in db.zones || db.zones[z].zoneType == PublicZone {
      err := DeleteCache(db, cacheId, deleteFails);
      return;
    }
    err := DnsZones.RealDelete(db, z, detachFails);
    if err.Some? {
      return;
    }
    err := DeleteCache(db, cacheId, deleteFails);
  }

  /** The cache row's own `Delete`; a failure (`deleteFails`) keeps it. */
  method DeleteCache(db: DnsDatabase, cacheId: string, deleteFails: bool) returns (err: Option<Error>)
    modifies db`caches
    ensures err.Some? <==> deleteFails
    ensures db.caches == if deleteFails then old(db.caches) else old(db.caches) - {cacheId}
  {
    if deleteFails {
      return Some(Opaque("Delete"));
    }
    db.caches := db.caches - {cacheId};
    err := None;
  }

  /** The caches of one account. */
  function AccountCaches(db: DnsDatabase, accountId: string): (ids: set<string>)
    reads db
    ensures forall c :: c in ids <==> c in db.caches && db.caches[c].accountId == accountId
  {
    set c | c in db.caches && db.caches[c].accountId == accountId
  }

  /** `removeCaches`: syncRemove for every cache of the account, stopping at
      the first failure; `lookupFails` and `deleteFails` say, per cache,
      whether its zone lookup or its own delete fails. */
  method RemoveCaches(db: DnsDatabase, accountId: string, detachFails: (string, string) -> bool,
                      lookupFails: string -> bool, deleteFails: string -> bool)
    returns (err: Option<Error>)
    modifies db`caches, db`zones, db`records, db`recordPolicies
    ensures err.None? ==> db.caches == old(db.caches) - old(AccountCaches(db, accountId))
    ensures err.None? ==> forall c :: c in old(AccountCaches(db, accountId)) ==> !lookupFails(c) && !deleteFails(c)
    ensures err.None? ==> AccountCaches(db, accountId) == {}
    ensures err.Some? ==> old(db.caches.Keys) - old(AccountCaches(db, accountId)) <= db.caches.Keys
    ensures db.caches.Keys <= old(db.caches.Keys)
    ensures forall c :: c in db.caches ==> db.caches[c] == old(db.caches)[c]
    ensures db.zones.Keys <= old(db.zones.Keys)
  {
    var order := Enumerate(AccountCaches(db, accountId));
    ghost var others := db.caches.Keys - AccountCaches(db, accountId);
    var k := 0;
    while k < |order|
      invariant 0 <= k <= |order|
      invariant db.caches == old(db.caches) - Listed(order, k)
      invariant db.zones.Keys <= old(db.zones.Keys)
      invariant forall j :: 0 <= j < k ==> !lookupFails(order[j]) && !deleteFails(order[j])
    {
      assert order[k] in db.caches by {
        assert order[k] in old(db.caches);
        forall j | 0 <= j < k ensures order[j] != order[k] { }
      }
      err := SyncRemove(db, order[k], detachFails, lookupFails(order[k]), deleteFails(order[k]));
      if err.Some? {
        assert others <= db.caches.Keys;
        return;
      }
      ListedStep(order, k);
      k := k + 1;
    }
    ListedAll(order, old(AccountCaches(db, accountId)), k);
    err := None;
  }

  /** The record sets `GetRecordSetsByDnsType` selects: the zone's records of
      a listed DNS type. */
  function RecordsOfTypes(db: DnsDatabase, zoneId: string, dnsTypes: seq<string>): (ids: set<string>)
    reads db
    ensures ids <= db.RecordIdsOf(zoneId)
    ensures forall r :: r in ids <==> r in db.RecordIdsOf(zoneId) && db.records[r].dnsType in dnsTypes
  {
    set r | r in db.RecordIdsOf(zoneId) && db.records[r].dnsType in dnsTypes
  }

  /** `GetRecordSets`: the zone's record sets of the types the account's
      provider supports for this zone type, each with its default policy for
      the provider. `account` is the account's provider name and
      `factory` its provider factory (either lookup may fail). */
  method GetRecordSets(db: DnsDatabase, cacheId: string, account: Result<string>, factory: Result<ProviderFactory>)
    returns (r: Result<seq<DnsRecordSet>>)
    requires cacheId in db.caches
    ensures account.Err? || factory.Err? || db.caches[cacheId].zoneId !in db.zones ==> r.Err?
    ensures r.Ok? ==>
      var z := db.caches[cacheId].zoneId;
      z in db.zones && db.zones[z].zoneType in factory.value.dnsTypes &&
      var ids := RecordsOfTypes(db, z, factory.value.dnsTypes[db.zones[z].zoneType]);
      (Enumerates(seq(|r.value|, k requires 0 <= k < |r.value| => r.value[k].id), ids)) &&
      forall k :: 0 <= k < |r.value| ==>
        r.value[k].id in db.records && GetDefaultDnsTrafficPolicy(db, r.value[k].id, account.value).Ok? &&
        r.value[k] == DnsZones.LocalEntry(r.value[k].id, db.records[r.value[k].id],
                                          GetDefaultDnsTrafficPolicy(db, r.value[k].id, account.value).value)
    ensures account.Ok? && factory.Ok? && db.caches[cacheId].zoneId in db.zones &&
            db.zones[db.caches[cacheId].zoneId].zoneType in factory.value.dnsTypes ==>
      var z := db.caches[cacheId].zoneId;
      var ids := RecordsOfTypes(db, z, factory.value.dnsTypes[db.zones[z].zoneType]);
      (r.Err? <==> exists id :: id in ids && GetDefaultDnsTrafficPolicy(db, id, account.value).Err?)
  {
    if account.Err? {
      return Err(Opaque("GetCloudaccount"));
    }
    if factory.Err? {
      return Err(Opaque("GetProviderFactory"));
    }
    var z := db.caches[cacheId].zoneId;
    if z !in db.zones {
      return Err(NoRows);
    }
    if db.zones[z].zoneType !in factory.value.dnsTypes {
      return Err(General("invalid zone type"));
    }
    var ids := Enumerate(RecordsOfTypes(db, z, factory.value.dnsTypes[db.zones[z].zoneType]));
    var ret: seq<DnsRecordSet> := [];
    var k := 0;
    while k < |ids|
      invariant 0 <= k <= |ids|
      invariant |ret| == k
      invariant forall j :: 0 <= j < k ==> ret[j].id == ids[j]
      invariant forall j :: 0 <= j < k ==>
        GetDefaultDnsTrafficPolicy(db, ids[j], account.value).Ok? &&
        ret[j] == DnsZones.LocalEntry(ids[j], db.records[ids[j]], GetDefaultDnsTrafficPolicy(db, ids[j], account.value).value)
    {
      var policy := GetDefaultDnsTrafficPolicy(db, ids[k], account.value);
      if policy.Err? {
        return Err(Opaque("GetDefaultDnsTrafficPolicy"));
      }
      ret := ret + [DnsZones.LocalEntry(ids[k], db.records[ids[k]], policy.value)];
      k := k + 1;
    }
    assert seq(|ret|, j requires 0 <= j < |ret| => ret[j].id) == ids;
    r := Ok(ret);
  }

  /** The provider and its record types for the cache's zone are known:
      the account and factory lookups succeeded, the zone exists and its
      type is in the provider's map. */
  ghost predicate TypesKnown(db: DnsDatabase, cacheId: string, account: Result<string>, factory: Result<ProviderFactory>)
    reads db
    requires cacheId in db.caches
  {
    account.Ok? && factory.Ok? && db.caches[cacheId].zoneId in db.zones &&
    db.zones[db.caches[cacheId].zoneId].zoneType in factory.value.dnsTypes
  }

  /** The local rows the cache pushes: the zone's records of the types the
      provider supports for the zone type. */
  ghost function CacheRecords(db: DnsDatabase, cacheId: string, account: Result<string>, factory: Result<ProviderFactory>)
    : set<string>
    reads db
    requires cacheId in db.caches && TypesKnown(db, cacheId, account, factory)
  {
    var z := db.caches[cacheId].zoneId;
    RecordsOfTypes(db, z, factory.value.dnsTypes[db.zones[z].zoneType])
  }

  /** Every local row the cache pushes has a readable default policy. */
  ghost predicate LocalReadable(db: DnsDatabase, cacheId: string, account: Result<string>, factory: Result<ProviderFactory>)
    reads db
    requires cacheId in db.caches
  {
    TypesKnown(db, cacheId, account, factory) &&
    forall id :: id in CacheRecords(db, cacheId, account, factory) ==> GetDefaultDnsTrafficPolicy(db, id, account.value).Ok?
  }

  /** The diff the cache pushes: the engine's merge of the local entries of
      the rows `order` lists (EntriesOf, in the sorted order `sortedLocal`)
      and of the remote records (`sortedRemote`). */
  ghost predicate PushedDiff(db: DnsDatabase, cacheId: string, account: Result<string>, factory: Result<ProviderFactory>,
                             iRecords: seq<CloudRecord>, ops: ParamsOps, order: seq<string>,
                             sortedLocal: seq<DnsRecordSet>, sortedRemote: seq<DnsRecordSet>, diff: Diff)
    reads db
    requires cacheId in db.caches
  {
    LocalReadable(db, cacheId, account, factory) &&
    Enumerates(order, CacheRecords(db, cacheId, account, factory)) &&
    multiset(sortedLocal) == multiset(DnsZones.EntriesOf(db, order, |order|, account.value)) &&
    multiset(sortedRemote) == multiset(FromCloudAll(iRecords)) &&
    diff == MergeFrom(sortedLocal, sortedRemote, 0, 0, ops)
  }

  /** `SyncRecordSets`: pushes the local record sets of the cache's zone to
      the cloud zone. A failed cloud-zone lookup, a failed remote listing or
      a failed local listing (GetRecordSets) ends it with an error; otherwise
      the engine's diff (PushedDiff) is handed to the provider's
      `SyncDnsRecordSets` (the parameter `push`) and its error returned. The
      engine's lists are passed in its own order: remote-only records as
      "add" are the ones the provider removes, local-only ones are those it
      creates. */
  method SyncRecordSets(db: DnsDatabase, cacheId: string, iZoneOk: bool, iRecords: Result<seq<CloudRecord>>,
                        account: Result<string>, factory: Result<ProviderFactory>, ops: ParamsOps,
                        push: Diff -> Option<Error>)
    returns (err: Option<Error>, diff: Diff, ghost order: seq<string>, ghost sortedLocal: seq<DnsRecordSet>,
             ghost sortedRemote: seq<DnsRecordSet>)
    requires cacheId in db.caches
    ensures !iZoneOk || iRecords.Err? || !LocalReadable(db, cacheId, account, factory) ==> err.Some?
    ensures iZoneOk && iRecords.Ok? && LocalReadable(db, cacheId, account, factory) ==>
      err == push(diff) &&
      PushedDiff(db, cacheId, account, factory, iRecords.value, ops, order, sortedLocal, sortedRemote, diff)
  {
    diff := Diff([], [], [], []);
    order, sortedLocal, sortedRemote := [], [], [];
    if !iZoneOk {
      return Some(Opaque("GetICloudDnsZone")), diff, order, sortedLocal, sortedRemote;
    }
    if iRecords.Err? {
      return Some(Opaque("GetIDnsRecordSets")), diff, order, sortedLocal, sortedRemote;
    }
    var local := GetRecordSets(db, cacheId, account, factory);
    if local.Err? {
      return Some(Opaque("GetRecordSets")), diff, order, sortedLocal, sortedRemote;
    }
    order := Ids(local.value);
    assert local.value == DnsZones.EntriesOf(db, order, |order|, account.value);
    sortedLocal, sortedRemote, diff := DnsZones.EngineDiff(local.value, iRecords.value, ops);
    err := push(diff);
  }

}
