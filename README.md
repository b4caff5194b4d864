# onecloud DNS, region and resource-mapping core in Dafny

This project models part of the onecloud (Cloudpods) control plane and proves
properties of the model:

- **The DNS record-set diff engine** (`DnsRecordDiff`): `DnsRecordSet.Equals`,
  its `String` key and the `Less` comparator. It also models
  `CompareDnsRecordSet`, which sorts both sides in place and runs a two-cursor
  merge. The merge splits the records into `common`, `add`, `del` and `update`.
- **The DNS tables of the compute service** (`DnsModel`, `DnsRecordSets`,
  `DnsZones`, `DnsZoneCaches`, `DnsVpcTasks`). The tables are zones, zone
  caches per (zone, account), record sets, traffic-policy links and zone-VPC
  links. One class, `DnsDatabase`, holds them as maps and sets. The model
  covers:
  - status guards and task starters;
  - the dirty-flag debounce;
  - cache registration;
  - traffic-policy attach and detach;
  - applying a record sync;
  - the add-VPC and remove-VPC tasks.
- **The DNS drivers** for AWS Route 53 (`AwsDns`) and Tencent DNSPod
  (`DnsPod`):
  - value joining and splitting;
  - the policy precedence;
  - NS/SOA filtering;
  - the TTL clamp and the sub-domain;
  - record matching;
  - the paging loops.
- **Pure mappings**:
  - `EsxiStorage`: ESXi datastore paths, the volume id, the storage type and the download copy loop;
  - `AzureRedis`: Azure Redis status, capacity, architecture and node type.
- **Smaller state machines elsewhere**:
  - `NotifyRobots`: the migration of robot configs to robots in the notify service;
  - `SamlProviders`: SAML provider validation and its create and delete tasks;
  - `CloudRegions`: the cloud-region delete check, default VPC, sync bookkeeping and id migration;
  - `VideoSources`: the video driver registry and the seeding of video sources.

`GoStrings` models the Go `strings` and `strconv` functions the core calls,
on the inputs it gives them: split on a one-character separator, `TrimSpace`
and `ToLower` on ASCII only, 64-bit `Atoi`/`Itoa`, and comparison of
strings one character at a time (which is byte order only for ASCII). `Wrappers` holds Option, Result, the error kinds, the
sync counters and a few helpers for loops that stop at the first failure.

Several things outside the model become function-typed parameters:
- database calls and provider (cloud SDK) calls;
- task creation;
- the opaque library functions.

Several orders are not fixed by the source. Each is modelled as an arbitrary
choice, and every contract holds for every such choice:
- Go map iteration;
- SQL row order;
- fresh row ids.

## Model

| member | source | states |
|---|---|---|
| DnsRecordDiff.EqualsIgnoresBookkeeping | pkg/cloudprovider/dnszone.go:67-92 | Id, Status and the provider object never change the outcome of Equals |
| DnsRecordDiff.EqualsSymmetric | pkg/cloudprovider/dnszone.go:83-90 | Equals is symmetric for every parameter-equality relation, because the parameter test runs both ways |
| DnsRecordDiff.EqualsWithoutParams | pkg/cloudprovider/dnszone.go:67-92 | with both PolicyParms nil, Equals holds exactly when name, type, value, TTL and policy type agree |
| DnsRecordDiff.EqualsReflexive | pkg/cloudprovider/dnszone.go:67-92 | a record Equals itself whenever the parameter equality is reflexive |
| DnsRecordDiff.KeyFields | pkg/cloudprovider/dnszone.go:94-99 | String prints four fields, five when parameters are present |
| DnsRecordDiff.KeyIsJoin | pkg/cloudprovider/dnszone.go:94-99 | the key is name, type, value, policy type (and the params string when non-nil) joined by '-' |
| DnsRecordDiff.KeyWithParams | pkg/cloudprovider/dnszone.go:94-99 | adding parameters appends "-" and their string to the key |
| DnsRecordDiff.KeyInjective | pkg/cloudprovider/dnszone.go:94-99 | keys of records with no '-' in a printed field are equal only for equal printed fields |
| DnsRecordDiff.KeyCollision | pkg/cloudprovider/dnszone.go:94-99 | two records with different fields can share a key once a field contains '-' |
| DnsRecordDiff.LessIrreflexive | pkg/cloudprovider/dnszone.go:111-128 | Less(a, a) never holds |
| DnsRecordDiff.LessNotAsymmetric | pkg/cloudprovider/dnszone.go:111-128 | there are records with both Less(a, b) and Less(b, a): Less is not a strict weak order |
| DnsRecordDiff.SortRecords | pkg/cloudprovider/dnszone.go:144-145 | sorting with Less only permutes the slice in place |
| DnsRecordDiff.StepAt | pkg/cloudprovider/dnszone.go:148-174 | a pair is formed only on equal String keys; each step consumes an element of the side it names |
| DnsRecordDiff.MergeCounts | pkg/cloudprovider/dnszone.go:148-175 | len(common)+len(update)+len(del) is the remote length and len(common)+len(update)+len(add) the local length |
| DnsRecordDiff.MergeSubMultisets | pkg/cloudprovider/dnszone.go:161-173 | add is a sub-multiset of local and del a sub-multiset of remote |
| DnsRecordDiff.MergePairs | pkg/cloudprovider/dnszone.go:152-160 | every common or update entry is a remote record with the local Id of an equal-key local record; common holds the Equals pairs, update the others |
| DnsRecordDiff.MergeWithItself | pkg/cloudprovider/dnszone.go:148-175 | diffing a list against itself puts every record in common and nothing in add, del or update |
| DnsRecordDiff.Merge | pkg/cloudprovider/dnszone.go:146-176 | the cursor loop terminates and its four slices are the merge specification of the sorted inputs |
| DnsRecordDiff.FromCloud | pkg/cloudprovider/dnszone.go:131-143 | a remote entry keeps its provider object and has no local Id |
| DnsRecordDiff.CompareDnsRecordSet | pkg/cloudprovider/dnszone.go:130-177 | converts and sorts both slices (the caller's local is permuted in place) and returns the merge; the count equations hold against the inputs |
| DnsRecordDiff.MergeLocalIds | pkg/cloudprovider/dnszone.go:148-175 | common, update and add together carry each local id exactly as often as the local list does |
| DnsRecordDiff.PermutedIds | pkg/cloudprovider/dnszone.go:144-145 | sorting a list whose ids are distinct keeps them distinct and introduces no new id |
| DnsRecordDiff.LocalSidesDisjoint | pkg/cloudprovider/dnszone.go:148-175 | with distinct local ids, the ids of update and add are distinct local ids: no record is both updated and local-only |
| DnsModel.DnsDatabase.AddVpc | pkg/compute/models/dns_zones.go:234-240 | inserts the (zone, vpc) link and nothing else |
| DnsModel.DnsDatabase.RemoveVpc | pkg/compute/models/dns_zones.go:218-232 | deletes the (zone, vpc) links and nothing else |
| DnsModel.DnsDatabase.GetVpcs | pkg/compute/models/dns_zones.go:242-251 | lists each linked VPC exactly once, in database order |
| DnsModel.DnsDatabase.GetDnsRecordSets | pkg/compute/models/dns_zones.go:444-452 | lists each of the zone's record sets exactly once |
| DnsModel.DnsDatabase.StartDnsZoneCreateTask | pkg/compute/models/dns_zones.go:150-162 | status creating and one create task, or an unchanged zone when the task cannot be created |
| DnsModel.DnsDatabase.StartDnsZoneDeleteTask | pkg/compute/models/dns_zones.go:370-379 | as written the zone is set to remove_vpcs and one delete task carrying purge is queued |
| DnsModel.DnsDatabase.StartDnsZoneSyncRecordSetsTask | pkg/compute/models/dns_zones.go:605-613 | status sync-record-sets and one sync task |
| DnsModel.DnsDatabase.StartDnsZoneAddVpcsTask | pkg/compute/models/dns_zones.go:731-740 | status add_vpcs and one task carrying the VPC ids |
| DnsModel.DnsDatabase.StartDnsZoneRemoveVpcsTask | pkg/compute/models/dns_zones.go:770-779 | status remove_vpcs and one task carrying the VPC ids |
| DnsModel.DnsDatabase.StartDnsZoneCacheCreateTask | pkg/compute/models/dns_zonecaches.go:196-209 | the zone goes to caching first; on success the cache goes to creating and one task is queued |
| DnsModel.DnsDatabase.StartDnsZoneCacheDeleteTask | pkg/compute/models/dns_zonecaches.go:181-194 | the zone goes to uncaching first; on success the cache goes to deleting and one task is queued |
| DnsModel.DnsDatabase.DoSyncRecords | pkg/compute/models/dns_zones.go:567-579 | a failing update returns its error and leaves the zone clean; otherwise it sets IsDirty on the zone and changes nothing else |
| DnsModel.DnsDatabase.DelaySync | pkg/compute/models/dns_zones.go:581-603 | a dirty zone gets exactly one sync task (status sync-record-sets) and is marked clean unless that update fails, in which case it stays dirty; a clean zone is left unchanged |
| DnsModel.DnsDatabase.GetDnsZoneCache | pkg/compute/models/dns_zones.go:311-325 | not-found for no cache of the (zone, account) pair, duplicate for several, else the single one |
| DnsModel.DnsDatabase.NewCache | pkg/compute/models/dns_zones.go:352-364 | a failing insert is an error and adds nothing; otherwise one fresh cache row for the pair with the given external id |
| DnsModel.DnsDatabase.RegisterCache | pkg/compute/models/dns_zones.go:337-364 | returns the pair's existing cache unchanged; with none, inserts one with an empty external id, and a failing insert is an error with no change; a duplicate is passed on |
| DnsModel.DnsDatabase.RegisterPolicy | pkg/compute/models/dns_recordsets.go:372 | an existing policy row of the provider, type and params is returned unchanged; otherwise a failed insert is an error with no change, and a successful one adds exactly one row with those fields under an id no link points at |
| DnsRecordSets.CheckPolicy | pkg/compute/models/dns_recordsets.go:80-110 | a policy passes only with a provider, a registered factory, a supported dns type and policy type for the zone type, and params among the listed values when values are listed |
| DnsRecordSets.FetchZoneByIdOrName | pkg/compute/models/dns_recordsets.go:72-78 | the zone with that id, else the single zone of that name, else not-found |
| DnsRecordSets.ValidateCreateData | pkg/compute/models/dns_recordsets.go:68-113 | dns_zone_id is required and must name a zone; the first failing policy decides the error; on success the zone id is normalised |
| DnsRecordSets.GetDnsTrafficPolicy | pkg/compute/models/dns_recordsets.go:284-299 | not-found for no linked policy of the provider, duplicate for several, else the single one |
| DnsRecordSets.GetDefaultDnsTrafficPolicy | pkg/compute/models/dns_recordsets.go:301-313 | Simple with nil params when nothing is linked, else the linked policy's type and params |
| DnsRecordSets.RemovePolicy | pkg/compute/models/dns_recordsets.go:338-352 | removes only the links of this record to that policy |
| DnsRecordSets.DetachAll | pkg/compute/models/dns_recordsets.go:178-190 | detaches the linked policies in turn; the first failure stops and keeps the remaining links |
| DnsRecordSets.Delete | pkg/compute/models/dns_recordsets.go:178-190 | every linked policy is detached before the row is deleted; a detach error leaves the row |
| DnsRecordSets.SyncRemove | pkg/compute/models/dns_recordsets.go:234-249 | the same detach loop, then Delete; a failure keeps the row |
| DnsRecordSets.SetTrafficPolicy | pkg/compute/models/dns_recordsets.go:354-383 | a duplicate lookup fails and a linked policy of the same type with equal params returns at once, both with no change; otherwise the provider's old link goes (a failing detach keeps it), the policy is found or inserted and linked, and a failed register returns its error; after a success whose detach worked, the record's default policy is the requested one; other records keep their links |
| DnsRecordSets.LinkPolicy | pkg/compute/models/dns_recordsets.go:372-382 | registers the policy and links it to the record: on success the record's policies of this provider grow by exactly that policy, which has the requested type and params; a failed register adds no link; other records keep their links |
| DnsRecordSets.SyncWithCloudDnsRecord | pkg/compute/models/dns_recordsets.go:323-336 | name, status, TTL, type and value come from the remote record while Enabled and the zone are kept; the remote policy is then set (PolicySet) and its error returned; other records keep their links |
| DnsRecordSets.MarkZoneDirty | pkg/compute/models/dns_recordsets.go:123-128 | the common tail of the hooks: a zone that exists is marked dirty unless its update fails, whose error is dropped; a missing zone changes nothing |
| DnsRecordSets.PostCreate | pkg/compute/models/dns_recordsets.go:115-129 | sets the requested policies in order and then marks the owning zone dirty unless its update fails; when no registration or detach fails and no provider starts with two policies, every provider's policy reads back as the last one requested for it; policy rows and other records' links are kept |
| DnsRecordSets.SetRequestedPolicies | pkg/compute/models/dns_recordsets.go:119-121 | the loop of PostCreate: without failures no provider gets two policies and each request that is the last for its provider reads back; policy rows and other records' links are kept |
| DnsRecordSets.SetRequestedPolicy | pkg/compute/models/dns_recordsets.go:120 | one setTrafficPolicy (PolicySet): every other provider's policies and lookup stay the same, and without failures the request reads back and no provider gets two policies |
| DnsRecordSets.PreDelete | pkg/compute/models/dns_recordsets.go:251-260 | marks the owning zone dirty unless its update fails; a failing update leaves the zones unchanged |
| DnsRecordSets.PostUpdate | pkg/compute/models/dns_recordsets.go:262-271 | marks the owning zone dirty unless its update fails; a failing update leaves the zones unchanged |
| DnsZones.FetchVpcByIdOrName | pkg/compute/models/dns_zones.go:83-89 | the VPC with that id, else the single VPC of that name, else not-found |
| DnsZones.PrivateVpcsShareManager | pkg/compute/models/dns_zones.go:81-109 | accepted VPCs resolve one for one to existing rows, and every VPC after the first managed one has that same manager |
| DnsZones.PrivateVpcsOrderMatters | pkg/compute/models/dns_zones.go:91-107 | for any two checkable VPCs, one without a manager and one with, the unmanaged-then-managed order is accepted and the reverse order is a conflict |
| DnsZones.CheckPrivateVpcs | pkg/compute/models/dns_zones.go:81-110 | the private-zone VPC loop gives the resolved VPC ids in input order, or the error of the first VPC that is missing, whose account does not support private zones, or whose manager differs from the first manager seen |
| DnsZones.ValidateCreateData | pkg/compute/models/dns_zones.go:72-128 | a non-domain name, an empty or unknown zone_type is rejected; private zones go through the VPC check; a public zone without account gets status available |
| DnsZones.PostCreate | pkg/compute/models/dns_zones.go:130-148 | a private zone links its VPCs and starts the create task only when it has some; a public zone starts it only with an account |
| DnsZones.PerformSyncRecordSets | pkg/compute/models/dns_zones.go:560-565 | a zone that is not available is rejected with no change; otherwise one sync task is started |
| DnsZones.PerformCache | pkg/compute/models/dns_zones.go:629-654 | rejects a non-available zone, a private zone, a missing account and a cache that already has an external id; a failing insert of a new cache is an error with no change; otherwise registers the cache and starts its create task |
| DnsZones.PerformUnache | pkg/compute/models/dns_zones.go:661-680 | rejects a non-available or private zone; a failing insert of a new cache is an error with no change; otherwise registers or finds the account's cache and starts its delete task |
| DnsZones.PerformAddVpcs | pkg/compute/models/dns_zones.go:687-729 | rejects a non-available or public zone, empty vpc_ids, a manager conflict (only when the zone already has VPCs) and an already linked VPC; otherwise starts the add task |
| DnsZones.PerformRemoveVpcs | pkg/compute/models/dns_zones.go:747-768 | as written the remove task starts exactly for an available private zone when no requested VPC is linked to it; a requested VPC that IS linked is rejected as not found |
| DnsZones.InvertedRemoveCheck | pkg/compute/models/dns_zones.go:762-766 | the check as written and the intended check never both accept a non-empty request |
| DnsZones.PerformRemoveVpcsIntended | pkg/compute/models/dns_zones.go:747-768 | the remove task starts exactly for an available private zone when every requested VPC is linked to it; a requested VPC outside the zone is rejected as not found with nothing changed |
| DnsZones.PerformPurge | pkg/compute/models/dns_zones.go:789-791 | starts the delete task with purge set |
| DnsZones.Delete | pkg/compute/models/dns_zones.go:381-383 | changes nothing |
| DnsZones.RealDelete | pkg/compute/models/dns_zones.go:385-397 | deletes every record set (with its links) before the zone row; a failing record delete keeps the zone |
| DnsZones.MapLocalVpcs | pkg/compute/models/dns_zones.go:404-413 | maps each external id of a linked VPC to a linked VPC with that external id |
| DnsZones.UnlinkGone | pkg/compute/models/dns_zones.go:422-427 | unlinks the mapped VPC of every external id the cloud no longer lists, and nothing else |
| DnsZones.LinkGained | pkg/compute/models/dns_zones.go:429-439 | links the VPC found for every new external id; the first failed lookup stops with the links made so far |
| DnsZones.SyncWithCloudDnsZone | pkg/compute/models/dns_zones.go:399-442 | takes the remote options unless that update fails (its error is dropped and the old options stay), removes the links the cloud dropped and adds the ones it gained |
| DnsZones.NewFromCloudDnsRecordSet | pkg/compute/models/dns_zones.go:535-553 | a failed insert is an error with no change; otherwise one new row of the zone under a fresh id with the remote fields, whose policy is then set (PolicySet), and the error of that step is dropped |
| DnsZones.SyncDnsRecordSets | pkg/compute/models/dns_zones.go:454-533 | a failed remote listing, local listing or policy lookup returns an error before any change; otherwise the diff is exactly the engine merge of the sorted local entries and remote records, the remote-only records are inserted, the local-only rows whose lookup and detaches succeed are removed, a private zone's changed rows are updated, each counter counts its step, and the del[i] index error happens exactly when an update lookup past the end of del fails on a private zone |
| DnsZones.FetchDiff | pkg/compute/models/dns_zones.go:460-490 | fails exactly when a listing or a policy lookup fails; otherwise the diff is the engine merge of a permutation of the local entries (one per record of the zone) and of the remote records, its local-only ids are distinct rows and no changed id is local-only |
| DnsZones.LocalEntries | pkg/compute/models/dns_zones.go:471-488 | None exactly when some record's default policy lookup fails; otherwise one engine entry per record, in order, under the record's own id |
| DnsZones.EntriesIds | pkg/compute/models/dns_zones.go:471-488 | the local entries list the record ids in the order given |
| DnsZones.EngineDiff | pkg/compute/models/dns_zones.go:490 | the diff is the merge specification of permutations of the local entries and of the converted remote records |
| DnsZones.SyncedIds | pkg/compute/models/dns_zones.go:490-529 | when the local entries list distinct rows, the local-only ids are distinct rows and no changed id is local-only |
| DnsZones.InsertEach | pkg/compute/models/dns_zones.go:491-498 | every remote-only record whose insert succeeds becomes a row under a fresh distinct id, the others count as errors, and the links of existing rows stay |
| DnsZones.RemoveEach | pkg/compute/models/dns_zones.go:500-513 | exactly the local-only rows whose lookup succeeds and whose policies all detach are removed, each counted as deleted; every other entry counts as an error |
| DnsZones.InsertAndRemove | pkg/compute/models/dns_zones.go:491-513 | the rows after both loops are the old rows plus the inserted ones minus the removed ones, with both pairs of counters |
| DnsZones.UpdateEach | pkg/compute/models/dns_zones.go:516-529 | each changed record whose lookup succeeds takes the remote fields and counts once; a failed lookup counts as an error before position len(del) and is the index error at or past it, which ends the loop |
| DnsZones.StopsAtFailedFetch | pkg/compute/models/dns_zones.go:516-520 | when every changed record exists, the update loop stops early exactly when a lookup at or past position len(del) fails |
| DnsZones.ApplyDiff | pkg/compute/models/dns_zones.go:491-532 | the rows and counters after the three loops are those of Applied, and the index error happens exactly on a private zone with a failed lookup past len(del) |
| DnsZoneCaches.ValidateCreateData | pkg/compute/models/dns_zonecaches.go:67-69 | a direct create request is always rejected |
| DnsZoneCaches.SyncWithCloudDnsZone | pkg/compute/models/dns_zonecaches.go:147-155 | a failing update is returned and changes nothing; otherwise external id, status and name come from the cloud zone and nothing else of the row changes |
| DnsZoneCaches.SyncRemove | pkg/compute/models/dns_zonecaches.go:124-145 | a zone lookup failing other than with no rows is returned before any change; a cache of a missing or public zone is deleted alone; a private zone is RealDeleted first and a failure there keeps both rows; a failing delete of the cache row keeps it; no error exactly when the cache row is gone |
| DnsZoneCaches.DeleteCache | pkg/compute/models/dns_zonecaches.go:133-144 | the cache row's delete: removes exactly that row, or fails and keeps it |
| DnsZoneCaches.RemoveCaches | pkg/compute/models/dns_zonecaches.go:285-299 | syncRemove runs on the account's caches in turn and the first failure stops the loop; without error all of the account's caches are gone and none of their zone lookups or deletes failed; other caches are kept |
| DnsZoneCaches.GetRecordSets | pkg/compute/models/dns_zonecaches.go:221-264 | only records whose type the provider supports for the zone type, each with its local Id and default policy; a zone type missing from the map is an error |
| DnsZoneCaches.SyncRecordSets | pkg/compute/models/dns_zonecaches.go:266-283 | a failed zone or record listing, or an unreadable local record, is an error; otherwise the provider receives exactly the merge of a permutation of the cache's local records (those of supported types, with their default policies) against a permutation of the remote records, and its answer is returned |
| DnsVpcTasks.ScanAccountSound | pkg/compute/tasks/dnszone_add_vpcs_task.go:66-86 | a passing scan found every VPC, and its account is the starting one or that of a managed VPC of the list |
| DnsVpcTasks.ScanAccountFirstManagedDecides | pkg/compute/tasks/dnszone_add_vpcs_task.go:66-86 | when VPCs without a manager come first, the first managed VPC decides the scan: a missing account there fails it; otherwise its account is the result exactly when every later VPC exists, whatever the later VPCs' own managers and accounts |
| DnsVpcTasks.ScanAccountKnown | pkg/compute/tasks/dnszone_add_vpcs_task.go:66-86 | once an account is known, the scan returns it exactly when every remaining VPC exists, and a missing VPC is not-found |
| DnsVpcTasks.ScanVpcs | pkg/compute/tasks/dnszone_add_vpcs_task.go:66-86 | unmanaged VPCs are linked (or unlinked) locally at once; managed ones are collected in vpcMaps with their external ids |
| DnsVpcTasks.CloudLinks | pkg/compute/tasks/dnszone_add_vpcs_task.go:100-107 | each managed VPC gets the provider call before its local link; the first refusal stops the loop |
| DnsVpcTasks.LinkForCreate | pkg/compute/tasks/dnszone_add_vpcs_task.go:115-118 | every managed VPC is linked locally and its external id listed |
| DnsVpcTasks.ExternalIdsListed | pkg/compute/tasks/dnszone_add_vpcs_task.go:109-118 | the create options list exactly the external ids of the managed VPCs, one per VPC |
| DnsVpcTasks.AttachToAccount | pkg/compute/tasks/dnszone_add_vpcs_task.go:88-134 | registers the account's cache, and a failing insert of a new one fails with no change; with a cloud zone the VPCs are added to it, otherwise they are linked and one zone is created carrying all their external ids, which the cache then takes; a failing cache update fails the step |
| DnsVpcTasks.AddVpcsOnInit | pkg/compute/tasks/dnszone_add_vpcs_task.go:39-137 | the task ends available with stage complete or add_vpcs_failed with stage failed; with no managed VPCs no cache is registered; a failing cache insert or cache update fails the task |
| DnsVpcTasks.DetachFromAccount | pkg/compute/tasks/dnszone_remove_vpcs_task.go:87-112 | registers the account's cache, and a failing insert of a new one fails with no change; with a cloud zone each VPC is removed there before it is unlinked locally and the first refusal fails, without one every managed VPC is only unlinked locally |
| DnsVpcTasks.RemoveVpcsOnInit | pkg/compute/tasks/dnszone_remove_vpcs_task.go:39-115 | the mirror of the add task: provider RemoveVpc before each local unlink, only local unlinks without a cloud zone, and a failing cache insert fails the task; ends available or remove_vpcs_failed |
| AwsDns.GetTTL | pkg/multicloud/aws/dnsrecordset.go:133-139 | the TTL is an int64 and is 0 when the text does not parse |
| AwsDns.TtlRoundTrip | pkg/multicloud/aws/dnsrecordset.go:133-139 | a TTL written in decimal reads back as the same number |
| AwsDns.GetDnsValue | pkg/multicloud/aws/dnsrecordset.go:126-132 | the resource-record values, in order, joined by '*' |
| AwsDns.PolicyRules | pkg/multicloud/aws/dnsrecordset.go:160-182 | the five precedence rules, each present exactly when its field is set |
| AwsDns.FirstPresent | pkg/multicloud/aws/dnsrecordset.go:160-182 | the index of the first rule whose field is set, None when none is |
| AwsDns.PolicyInfoKeys | pkg/multicloud/aws/dnsrecordset.go:160-183 | policyinfo holds exactly the keys of the chosen branch (Failover with HealthCheckId, GeoLocation, Region, MultiValueAnswer or Weight) and none for Simple |
| AwsDns.PolicyPrecedence | pkg/multicloud/aws/dnsrecordset.go:152-184 | Failover beats GeoLocation beats Region beats MultiValueAnswer beats Weight; Simple when none is set |
| AwsDns.ChosenIsFirstPresent | pkg/multicloud/aws/dnsrecordset.go:160-182 | the first rule whose field is set decides type and parameters |
| AwsDns.GeoJson | pkg/multicloud/aws/dnsrecordset.go:167 | the marshalled location holds exactly its non-empty codes, each under its own field name |
| AwsDns.AwsRecordSet.GetPolicyType | pkg/multicloud/aws/dnsrecordset.go:152-184 | returns the chosen policy type and leaves its parameters in policyinfo (a location carries only its non-empty codes) |
| AwsDns.AwsRecordSet.GetParams | pkg/multicloud/aws/dnsrecordset.go:185-188 | recomputes the policy and returns that same dictionary |
| AwsDns.GetSdnsRecordSets | pkg/multicloud/aws/dnsrecordset.go:77-115 | every record of every page, in page order, each tagged with the queried hosted zone |
| AwsDns.ListAllPages | pkg/multicloud/aws/dnsrecordset.go:83-109 | the paging loop returns the listing specification: the pages followed by NextRecordName until one is not truncated |
| AwsDns.StampZone | pkg/multicloud/aws/dnsrecordset.go:110-112 | the same records in the same order, each tagged with the hosted zone |
| AwsDns.ChangeResourceRecordSets | pkg/multicloud/aws/dnshostedzone.go:262-285 | one change per record set, all with the same action, in the given order, sent as one batch |
| AwsDns.ClientAddDnsRecordSet | pkg/multicloud/aws/dnshostedzone.go:287-304 | one CREATE of a record set whose resource records are the '*'-separated pieces of the value, in order |
| AwsDns.AddedValueReadsBack | pkg/multicloud/aws/dnshostedzone.go:293-297 | what AddDnsRecordSet creates reads back through GetDnsValue as the value given |
| AwsDns.ListedValuesWriteBack | pkg/multicloud/aws/dnshostedzone.go:293-297 | a listed record set without '*' in its values is re-created with the same values |
| AwsDns.StarInValueSplits | pkg/multicloud/aws/dnshostedzone.go:293-297 | a value containing '*' does not survive the round trip |
| AwsDns.WithoutNsSoa | pkg/multicloud/aws/dnshostedzone.go:121-131 | the kept record sets are the non-NS, non-SOA ones, in order |
| AwsDns.WithoutNsSoaKeeps | pkg/multicloud/aws/dnshostedzone.go:121-131 | the filter keeps exactly the record sets that are neither NS nor SOA |
| AwsDns.DeleteHostedZone | pkg/multicloud/aws/dnshostedzone.go:107-145 | one DELETE batch of every record set except NS and SOA, then the zone delete, reached only after the batch went through |
| AwsDns.FindMatch | pkg/multicloud/aws/dnshostedzone.go:311-324 | the index of the first record set that matches, or the first unmarshalling error met before it |
| AwsDns.ClientRemoveDnsRecordSet | pkg/multicloud/aws/dnshostedzone.go:306-326 | deletes only the first matching record set, or answers not-found |
| AwsDns.CreateHostedZoneRequest | pkg/multicloud/aws/dnshostedzone.go:71-95 | the VPC is set only for a private zone; the HostedZoneConfig is never put on the request |
| AwsDns.CreateRequestIgnoresDescription | pkg/multicloud/aws/dnshostedzone.go:82-95 | the description never reaches Route 53, and a public zone's request ignores the VPC options |
| AwsDns.HostedZone.GetZoneType | pkg/multicloud/aws/dnshostedzone.go:328-333 | PrivateZone iff Config.PrivateZone |
| AwsDns.HostedZone.GetICloudVpcIds | pkg/multicloud/aws/dnshostedzone.go:339-348 | a private zone returns its VPC ids in stored order; a public one an empty list and not-supported |
| AwsDns.HostedZone.AddVpc | pkg/multicloud/aws/dnshostedzone.go:350-360 | associates the VPC on a private zone, not-supported on a public one |
| AwsDns.HostedZone.RemoveVpc | pkg/multicloud/aws/dnshostedzone.go:361-371 | disassociates the VPC on a private zone, not-supported on a public one |
| AwsDns.HostedZone.GetIDnsRecordSets | pkg/multicloud/aws/dnshostedzone.go:373-394 | fetches from the client only while no record sets are held, then returns the held ones |
| AwsDns.HostedZone.AddDnsRecordSet | pkg/multicloud/aws/dnshostedzone.go:395-397 | the client's AddDnsRecordSet on this zone |
| AwsDns.HostedZone.RemoveDnsRecordSet | pkg/multicloud/aws/dnshostedzone.go:398-400 | the client's RemoveDnsRecordSet on this zone |
| AwsDns.AsWrittenRepeatsPage | pkg/multicloud/aws/dnshostedzone.go:176-181 | as written, a truncated page that echoes its Marker is requested again forever |
| AwsDns.TwoPageListing | pkg/multicloud/aws/dnshostedzone.go:161-183 | on two pages the NextMarker listing returns both pages' zones, the listing as written never ends |
| AwsDns.ListZonesFollowsNextMarker | pkg/multicloud/aws/dnshostedzone.go:161-183 | a truncated page is followed by the listing from its NextMarker |
| AwsDns.GetHostedZones | pkg/multicloud/aws/dnshostedzone.go:151-186 | the loop returns every zone of every page, following NextMarker |
| DnsPod.GetDnsName | pkg/multicloud/qcloud/dnspod_record.go:132-134 | the record's name followed directly by the domain name, with no separator |
| DnsPod.MatchIdentifiesRecord | pkg/multicloud/qcloud/dnspod_record.go:156-177 | match holds only when name, value, TTL, type and identify all agree, so one change never matches two records of different ids |
| DnsPod.SubDomain | pkg/multicloud/qcloud/dnspod_record.go:103-106 | the name without the ".domain" suffix, or "@" when that leaves nothing |
| DnsPod.CreatedRecordDoesNotMatch | pkg/multicloud/qcloud/dnspod_record.go:103-177 | a record created under its sub-domain is listed with a name that glues on the domain without a dot, so the creating change never matches it |
| DnsPod.ClampTtl | pkg/multicloud/qcloud/dnspod_record.go:97-102 | the TTL moved into [600, 604800], unchanged when already inside |
| DnsPod.CreateDnsRecord | pkg/multicloud/qcloud/dnspod_record.go:94-118 | writes the clamped TTL back into the caller's options and sends one RecordCreate under the sub-domain |
| DnsPod.AddDnsRecordSet | pkg/multicloud/qcloud/dnspod_domain.go:215-225 | one CreateDnsRecord per '*'-separated value, in order, stopping at the first error; the options keep the last value tried |
| DnsPod.CreateParamsFields | pkg/multicloud/qcloud/dnspod_record.go:107-112 | the record goes under its sub-domain on the default line with the decimal TTL |
| DnsPod.MatchingIds | pkg/multicloud/qcloud/dnspod_domain.go:232-239 | at most one id per listed record |
| DnsPod.MatchingIdsExact | pkg/multicloud/qcloud/dnspod_domain.go:232-239 | an id is listed exactly when a record with that id matches |
| DnsPod.RemoveDnsRecordSet | pkg/multicloud/qcloud/dnspod_domain.go:226-241 | deletes every matching record in order, stops at the first failed delete, and answers not-found even after deleting |
| DnsPod.PrefixOfMatching | pkg/multicloud/qcloud/dnspod_domain.go:232-239 | the deletes made so far are a prefix of the matching ids |
| DnsPod.EmptyPageRepeats | pkg/multicloud/qcloud/dnspod_record.go:57-85 | an empty page while record_total is above the count asks for the same offset again: the listing never ends |
| DnsPod.StopsAtTotal | pkg/multicloud/qcloud/dnspod_record.go:76-82 | once record_total is not above the count the page just read is dropped and the listing ends |
| DnsPod.GetDnsRecords | pkg/multicloud/qcloud/dnspod_record.go:54-91 | requests offsets 0, n1, n1+n2, ... and returns every record gathered, tagged with the domain |
| DnsPod.DomainIsPublic | pkg/multicloud/qcloud/dnspod_domain.go:186-201 | every domain is a PublicZone with no VPC ids, and AddVpc/RemoveVpc are not-supported |
| DnsPod.TotalCheckedBeforeAppend | pkg/multicloud/qcloud/dnspod_domain.go:78-82 | domain_total is checked before the page is appended, so a first page larger than the total still arrives whole |
| DnsPod.GetDomains | pkg/multicloud/qcloud/dnspod_domain.go:58-88 | the paged domain listing stops when domain_total is not above the accumulated offset |
| DnsPod.FirstDomain | pkg/multicloud/qcloud/dnspod_domain.go:107-111 | the index of the first domain satisfying the test, None when there is none |
| DnsPod.FindDomain | pkg/multicloud/qcloud/dnspod_domain.go:107-112 | the first domain satisfying the test, or not-found |
| DnsPod.GetDomainById | pkg/multicloud/qcloud/dnspod_domain.go:102-113 | the first listed domain whose decimal id equals the argument, else not-found |
| DnsPod.LookupByDecimalId | pkg/multicloud/qcloud/dnspod_domain.go:107-111 | looking up the decimal form of an id finds the first domain with exactly that id |
| DnsPod.CreateDomian | pkg/multicloud/qcloud/dnspod_domain.go:116-133 | after DomainCreate, the first listed domain with the requested name, else not-found |
| EsxiStorage.CapacityIsWholeMebibytes | pkg/util/esxi/storage.go:61-64 | the capacity in MB is the byte capacity divided by 1024 twice, truncating as Go does; for a non-negative capacity it is the number of whole mebibytes |
| EsxiStorage.GetStorageType | pkg/util/esxi/storage.go:206-221 | local exactly for a local VMFS datastore, NAS exactly for a non-local VMFS one or an NFS, NFS41, CIFS or vsan one, and nothing (the fatal log) for any other summary type |
| EsxiStorage.GetLocalHost | pkg/util/esxi/storage.go:170-179 | succeeds exactly when the datastore is mounted on one host and returns that host; otherwise the lookup's error or an invalid-status error |
| EsxiStorage.VsanId | pkg/util/esxi/storage.go:104-113 | panics exactly when the URL has no "vsan:"; otherwise the id starts with "vsan:", is the URL from there on with only trailing '/' characters cut off, and does not end in '/' |
| EsxiStorage.GetVolumeId | pkg/util/esxi/storage.go:86-116 | a local VMFS datastore yields its single host joined to the VMFS uuid, a shared one its uuid, a NAS one host:path, vsan the url from its first "vsan:" with the trailing slashes cut (panicking without one), and anything else is fatal |
| EsxiStorage.CleanPath | pkg/util/esxi/storage.go:262-271 | strips the "[name] " prefix, else the datastore URL prefix, and trims surrounding white space; the result neither starts nor ends with a space |
| EsxiStorage.StripLeadingSlashes | pkg/util/esxi/storage.go:294-299 | the result is a suffix of the input, everything removed was '/', and it does not start with '/' |
| EsxiStorage.GetPathString | pkg/util/esxi/storage.go:294-299 | the datastore path is "[name] " followed by the path without its leading slashes |
| EsxiStorage.CleanPathOfPathString | pkg/util/esxi/storage.go:262-299 | cleaning a datastore path built by getPathString gives back the relative path, trimmed |
| EsxiStorage.FolderPath | pkg/util/esxi/storage.go:281-286 | the cleaned path with a '/' put in front exactly when it does not start with one; the result always starts with '/' |
| EsxiStorage.EscapedSegments | pkg/util/esxi/storage.go:275-277 | as many segments as given, each one escaped |
| EsxiStorage.PathEscape | pkg/util/esxi/storage.go:273-279 | the in-place loop over the split segments yields the segments each escaped, joined by '/' |
| EsxiStorage.PathEscapeKeepsSegments | pkg/util/esxi/storage.go:273-279 | when escaping produces no '/', splitting the escaped path gives back exactly the original segments, each escaped |
| EsxiStorage.GetPathUrl | pkg/util/esxi/storage.go:281-292 | the browse URL is the manager URI, "/folder", the escaped folder path, "?" and the dsName/dcPath query |
| EsxiStorage.WriteAll | pkg/util/esxi/storage.go:431-438 | the inner write loop never reports more bytes than the chunk holds, and all of it when no write failed |
| EsxiStorage.Copy | pkg/util/esxi/storage.go:428-447 | the bytes the writer took are a prefix of the body up to the first ending read, and the whole of it when nothing failed |
| EsxiStorage.CopyWithWorkingWriter | pkg/util/esxi/storage.go:428-447 | with a writer that never fails the copy delivers the whole body, and the error is exactly the read error that ended it (none at EOF) |
| EsxiStorage.WriteChunk | pkg/util/esxi/storage.go:431-438 | the imperative inner loop computes the bytes taken and the error of WriteAll |
| EsxiStorage.CopyBody | pkg/util/esxi/storage.go:427-448 | the imperative read/write loop computes exactly Copy from the first read |
| EsxiStorage.Download | pkg/util/esxi/storage.go:415-452 | a failed request or an HTTP status of 400 or more writes nothing and returns that error; otherwise the body is copied as Copy describes |
| AzureRedis.LookupState | pkg/multicloud/azure/redis.go:93-122 | no answer exactly when no listed state matches; an answer always comes from a listed (state, status) pair |
| AzureRedis.GetStatus | pkg/multicloud/azure/redis.go:93-122 | each provisioning state the switch lists maps to its status; any other state is returned in lower case |
| AzureRedis.StateStatusKeysDistinct | pkg/multicloud/azure/redis.go:95-119 | the switch lists no provisioning state twice, so every listed state has one status |
| AzureRedis.StatusIsLowerCase | pkg/multicloud/azure/redis.go:93-122 | every status returned is already in lower case |
| AzureRedis.StatusesAreLowerCase | pkg/multicloud/azure/redis.go:95-119 | every status the provisioning-state switch can return has no upper-case letter |
| AzureRedis.GetGlobalId | pkg/multicloud/azure/redis.go:124-126 | the global id is the resource id with every letter in lower case, same length |
| AzureRedis.GlobalIdIgnoresCase | pkg/multicloud/azure/redis.go:124-126 | two ids differing only in letter case give one global id, and the global id is its own global id |
| AzureRedis.GetNetworkId | pkg/multicloud/azure/redis.go:228-230 | the network id is the subnet id with every letter in lower case, same length |
| AzureRedis.GetNetworkType | pkg/multicloud/azure/redis.go:221-226 | vpc exactly when a subnet id is set, classic exactly when it is empty |
| AzureRedis.GetCapacityMB | pkg/multicloud/azure/redis.go:132-177 | never negative; positive exactly for a SKU family and capacity the table lists; a whole number of GB except for C0 and C2 |
| AzureRedis.CapacityGrowsWithSku | pkg/multicloud/azure/redis.go:132-177 | within one family a larger listed SKU capacity gives a larger memory size |
| AzureRedis.GetArchType | pkg/multicloud/azure/redis.go:179-185 | cluster exactly for the E and P families, single otherwise |
| AzureRedis.ClusterSkusAreLarge | pkg/multicloud/azure/redis.go:132-185 | every listed cluster SKU has at least 6 GB |
| AzureRedis.GetNodeType | pkg/multicloud/azure/redis.go:187-203 | one to six instances give the matching node name; any other count gives the shard count in decimal |
| AzureRedis.ItoaIsNoNodeName | pkg/multicloud/azure/redis.go:187-203 | no decimal shard count is spelled like a node name |
| AzureRedis.NodeTypeIsUnambiguous | pkg/multicloud/azure/redis.go:187-203 | the node type is a node name exactly when there are one to six instances, and equal node names mean equal instance counts |
| CloudRegions.ValidateDeleteCondition | pkg/compute/models/cloudregions.go:106-122 | a failing zone or VPC count is an internal error; a region with zones or VPCs is refused as not empty; an empty default region is protected; deletion passes exactly when both counts are zero, the region is not the default one and the base check passes |
| CloudRegions.GetDriver | pkg/compute/models/cloudregions.go:257-266 | the driver is the region's provider, OneCloud when the provider is empty; it exists exactly when that provider is a supported one |
| CloudRegions.GetMaxNicCount | pkg/compute/models/cloudregions.go:911-916 | a region with a cloud id gets the managed NIC limit, any other the normal limit |
| CloudRegions.RemoveEach | pkg/compute/models/cloudregions.go:381-388 | each local-only region moves exactly one of the deleted and delete-error counters, and the errors are the failed removals |
| CloudRegions.SyncEach | pkg/compute/models/cloudregions.go:389-417 | the rows of the successful steps and their remote regions are collected in order and aligned, and every other step is counted as an error |
| CloudRegions.SyncRegions | pkg/compute/models/cloudregions.go:344-419 | a failed listing or comparison is the only failure and changes nothing; otherwise every removed, common and added region moves exactly one success or error counter, and the local and remote output lists hold, aligned, the successfully synced and created regions |
| CloudRegions.VpcTable.PerformDefaultVpc | pkg/compute/models/cloudregions.go:507-537 | a failed listing, a missing vpc parameter or an unknown VPC changes nothing; otherwise each VPC of the region up to the first failed update gets its default flag set to whether it is the one named, and no other row changes |
| CloudRegions.Migrated | pkg/compute/models/cloudregions.go:556-563 | a region whose cloud id contains its manager id and whose manager is found has the provider id replaced by the account id everywhere in its cloud id and takes the account; any other region is unchanged |
| CloudRegions.MigrationSettles | pkg/compute/models/cloudregions.go:549-572 | a rewritten region is no longer selected by the migration query, and rewriting a region that still is selected changes nothing, so a second run is a no-op |
| CloudRegions.RegionTable.MigratePrivateCloudregion | pkg/compute/models/cloudregions.go:549-572 | a failed query changes nothing; every row either stays or is a selected region rewritten as Migrated describes; with no error every selected region is rewritten, and no error occurs when no update fails |
| NotifyRobots.NamingDistinguishesRobotTypes | pkg/notify/models/robot.go:76-96 | the four converted config types get four distinct robot types and four distinct non-empty names |
| NotifyRobots.ConfigRobots | pkg/notify/models/robot.go:66-98 | a non-webhook config yields one robot with its webhook address; a webhook config with k comma-separated addresses yields k robots, the trimmed second to last addresses first and the untrimmed first address last |
| NotifyRobots.ConfigRobotsShareSettings | pkg/notify/models/robot.go:67-96 | every robot of one config has the config's settings, type and name, and differs from the converted robot only in its address |
| NotifyRobots.NotifyStore.ConfigRobotsOf | pkg/notify/models/robot.go:76-97 | the address loop of one config builds exactly ConfigRobots |
| NotifyRobots.NotifyStore.BuildRobots | pkg/notify/models/robot.go:66-98 | the conversion loop builds the robots of every config, in config order |
| NotifyRobots.InsertListAsWrittenPadsWithZeroRobots | pkg/notify/models/robot.go:65-98 | as written, the insert list starts with one zero-valued robot per config before the converted ones |
| NotifyRobots.RobotConfigRows | pkg/notify/models/robot.go:56-58 | the selected rows are exactly the live robot and webhook configs, each once, in table order |
| NotifyRobots.MarkDeleted | pkg/notify/models/robot.go:108-116 | the listed rows are marked deleted and every other row is kept unchanged |
| NotifyRobots.NotifyStore.InsertRobots | pkg/notify/models/robot.go:101-106 | the robots are inserted in order up to the first failing insert |
| NotifyRobots.NotifyStore.MarkRows | pkg/notify/models/robot.go:108-116 | the rows are marked deleted in order up to the first failing update |
| NotifyRobots.NothingSelected | pkg/notify/models/robot.go:62-64 | a table without live robot or webhook configs selects nothing |
| NotifyRobots.ConversionRunsOnce | pkg/notify/models/robot.go:53-118 | after a complete run no config is selected again, so a second start converts nothing |
| NotifyRobots.NotifyStore.InitializeData | pkg/notify/models/robot.go:53-118 | a failed query or an empty selection changes nothing; otherwise the robots of the selected configs are inserted up to the first failing insert, and only when all were inserted are the selected configs marked deleted up to the first failing update; success exactly when every step succeeded |
| NotifyRobots.CheckRobotType | pkg/notify/models/robot.go:126-129 | accepted exactly for the Feishu, Workwx, Dingtalk and webhook robot types |
| NotifyRobots.ValidateCreateData | pkg/notify/models/robot.go:120-149 | the input passes unchanged exactly when the base check passes, the type is a robot type, the language parses and the verification message reports no failed receiver; an unknown type is refused as an input error |
| NotifyRobots.IsEnabledContactType | pkg/notify/models/robot.go:235-237 | a robot accepts exactly the robot contact type |
| NotifyRobots.IsVerifiedContactType | pkg/notify/models/robot.go:239-241 | a robot verifies exactly the contact types it accepts |
| SamlProviders.EntityDescriptor | pkg/cloudid/models/saml_providers.go:218-225 | succeeds exactly when the stored document decodes and the metadata parses, and then yields the parsed entity id; a decoding failure and a parsing failure are reported apart |
| SamlProviders.SamlProviderTable.ValidateCreateData | pkg/cloudid/models/saml_providers.go:86-130 | checks in order: account id given, account found, metadata given, decodable, parseable, entity id equal to the service's own, query succeeds, no ready provider of that entity and account, base checks; passes exactly when all pass, with the account's own id and the entity id filled in |
| SamlProviders.SamlProviderTable.StartCreateTask | pkg/cloudid/models/saml_providers.go:136-144 | with the task created the provider becomes creating and a create task is queued; a failing NewTask changes nothing and is returned |
| SamlProviders.SamlProviderTable.StartDeleteTask | pkg/cloudid/models/saml_providers.go:188-196 | with the task created the provider becomes deleting and a delete task is queued; a failing NewTask changes nothing and is returned |
| SamlProviders.SamlProviderTable.Delete | pkg/cloudid/models/saml_providers.go:198-200 | a user delete removes nothing and reports no error |
| SamlProviders.SamlProviderTable.RealDelete | pkg/cloudid/models/saml_providers.go:202-204 | the row is removed and no other row changes |
| SamlProviders.SamlProviderTable.SetStatus | pkg/cloudid/tasks/saml_provider_create_task.go:39-43 | only the status of the given row changes |
| SamlProviders.SamlProviderTable.CreateTaskOnInit | pkg/cloudid/tasks/saml_provider_create_task.go:45-83 | a missing account or factory marks the provider create-failed without calling the cloud; a localized factory marks it ready; otherwise the cloud create is issued exactly when the provider and the metadata are available, success records the cloud's global id unless that update fails (its error is dropped and the stage still completes), and any failure marks the provider create-failed |
| SamlProviders.SamlProviderTable.DeleteTaskOnInit | pkg/cloudid/tasks/saml_provider_delete_task.go:46-85 | the task completes exactly when the row is removed and otherwise marks it delete-failed; a gone account, a localized factory or a provider gone in the cloud deletes the row without a cloud call; other lookup errors fail; otherwise the cloud delete is issued and its success decides the outcome |
| VideoSources.VideoDriverRegistry.constructor | pkg/video/models/videodriver.go:24-26 | the registry starts empty |
| VideoSources.VideoDriverRegistry.RegisterVideoDriver | pkg/video/models/videodriver.go:28-30 | the driver is stored under its own identity, replacing an earlier one, and every other identity keeps its driver |
| VideoSources.VideoDriverRegistry.GetDriver | pkg/video/models/video_source.go:110-116 | a driver is found exactly when one is registered for the identity, and it has that identity |
| VideoSources.Started | pkg/video/models/video_source.go:84-90 | the sources whose task could be created are exactly the listed ones for which task creation succeeds |
| VideoSources.StartedAppend | pkg/video/models/video_source.go:84-90 | starting one more source extends the started list at its end |
| VideoSources.VideoSourceTable.EnabledIds | pkg/video/models/video_source.go:78-79 | exactly the ids of the enabled sources |
| VideoSources.VideoSourceTable.InitializeData | pkg/video/models/video_source.go:55-75 | existing rows never change; each new row is an enabled source, named from the table, of a supported identity that had no row, and there is at most one new row per identity; without an error every supported identity has a row; no error occurs when every count and needed insert succeeds |
| VideoSources.SeededStep | pkg/video/models/video_source.go:56-73 | handling one more supported identity keeps old rows, adds at most the one missing source of that identity, and leaves every handled identity with a row |
| VideoSources.VideoSourceTable.SeedIdentity | pkg/video/models/video_source.go:57-72 | a failed count fails; an identity with rows is left alone; otherwise a failed insert fails and a successful one adds exactly one enabled source of that identity and name under a new id |
| VideoSources.VideoSourceTable.StartTasks | pkg/video/models/video_source.go:85-91 | the started tasks are appended in order, one for each source whose task could be created |
| VideoSources.VideoSourceTable.SyncVideos | pkg/video/models/video_source.go:77-92 | a failed query starts nothing; otherwise every enabled source, in the database's order, gets a sync task exactly when its task can be created, and the others are skipped |
| GoStrings.JoinSplit | pkg/multicloud/aws/dnshostedzone.go:293 | joining the pieces of a split with the same separator gives back the original string |
| GoStrings.SplitJoin | pkg/multicloud/aws/dnsrecordset.go:131 | splitting a join of pieces that do not contain the separator gives back the pieces |
| GoStrings.SplitPiecesHaveNoSeparator | pkg/notify/models/robot.go:89 | no piece of a split contains the separator |
| GoStrings.AtoiItoa | pkg/multicloud/aws/dnsrecordset.go:134 | parsing the decimal form of a 64-bit integer gives it back |
| GoStrings.ItoaInjective | pkg/multicloud/qcloud/dnspod_domain.go:108 | two integers with the same decimal form are equal |
| GoStrings.ToLowerIdempotent | pkg/multicloud/azure/redis.go:125 | lower-casing twice is lower-casing once |
| GoStrings.ToLowerKeeps | pkg/multicloud/azure/redis.go:121 | lower-casing leaves a string unchanged exactly when it has no upper-case ASCII letter |
| GoStrings.ReplaceAllWithoutOccurrence | pkg/compute/models/cloudregions.go:561 | replacing a pattern that does not occur leaves the string unchanged |
| GoStrings.ReplaceAllBySelf | pkg/compute/models/cloudregions.go:561 | replacing a pattern by itself leaves every string unchanged, so a region whose manager id equals its account id keeps its cloud id |

## Left out

- Database and ORM. Queries, `db.Update`, `FetchModelObjects` and `TableSpec().Insert` become map and set updates on the model's classes. Query builders, list filters and detail columns are not part of this model.
  - Where a failure is modelled, it is a boolean or function parameter that says which call fails. Examples: `updateFails` on DnsModel.DnsDatabase.DoSyncRecords, DnsModel.DnsDatabase.DelaySync, DnsZones.SyncWithCloudDnsZone and DnsZoneCaches.SyncWithCloudDnsZone, `setExternalIdFails` on SamlProviders.SamlProviderTable.CreateTaskOnInit, `insertFails` on DnsModel.DnsDatabase.NewCache, `lookupFails` and `deleteFails` on DnsZoneCaches.SyncRemove, and the record lookups, inserts and policy detaches of DnsZones.SyncDnsRecordSets.
  - These writes are taken to succeed. The zone-VPC link insert and delete (`AddVpc`, `RemoveVpc`), whose errors every caller ignores. The record-policy link insert that ends `setTrafficPolicy` (DnsRecordSets.LinkPolicy). The final row delete of a record (DnsRecordSets.Delete) and of a zone (DnsZones.RealDelete). The `SetStatus` calls, whose errors the source ignores. The `db.Update` calls listed under DnsZones.SyncDnsRecordSets below.
- Concurrency and timing. `lockman` locks, the `time.AfterFunc` that delays `DelaySync`, and the scheduling of `taskman` tasks are out. `DelaySync` and every task's `OnInit` are steps the caller invokes explicitly. Creating a task appends it to a list of queued tasks.
- Cloud SDKs and the network. The Route 53 client, the DNSPod `cnsRequest`, govmomi and HTTP in ESXi, and `NotifyService.SendRobotMessage` are function parameters that may fail.
- Opaque library functions become parameters:
  - the `jsonutils` dictionary equality and printing;
  - `url.PathEscape` and `regutils.MatchDomainName`;
  - `language.Parse`, base64 decoding and SAML metadata parsing;
  - `compare.CompareSets` and `DnsTrafficPolicyManager.Register`;
  - the AWS record-set `match`.
- Status and type constants whose string values live outside the modelled files:
  - The DNS zone sync status, the robot types and the contact types are datatype constructors.
  - The elastic-cache statuses, architectures, node types and network types (`azure_redis.dfy`), `DEFAULT_REGION_ID` and `CLOUD_PROVIDER_ONECLOUD` (`cloud_regions.dfy`) are string constants. Their values are taken from the compute API package, which is not part of this model.
  - AzureRedis.StatusesAreLowerCase, AzureRedis.StatusIsLowerCase, AzureRedis.ItoaIsNoNodeName and AzureRedis.NodeTypeIsUnambiguous depend on those values.
- `log.Fatalf` and panics:
  - In a function they become `None` or an error result.
  - In a method they become a `fatal` or `panics` out-parameter.
  - Where that happens: `GetStorageType`, `GetDriver`, `getVolumeId`, the vsan slice, and `SyncDnsRecordSets` indexing `del[i]`.
- `CompareDnsRecordSet` is the two-argument form in `pkg/cloudprovider/dnszone.go`. Its callers in `dns_zones.go` use a three-argument form with fields this file lacks. `DnsZones.SyncDnsRecordSets` keeps the caller's binding of the result slices on top of the two-argument engine. The fixture in `pkg/cloudprovider/dnszone_test.go` targets that other form and is not part of this model.
- DnsRecordDiff.SortRecords: promises only a permutation, not an order, because `Less` is not a strict weak order and `sort.Sort` promises nothing more for such a comparator. The sort is modelled as an insertion sort driven by `Less`.
- AwsDns.GetSdnsRecordSets: the paging loop is bounded by a `fuel` number of pages. A listing that is still truncated after that many pages is an error here, where the source would keep asking.
- AwsDns.GetHostedZones: bounded by `fuel` pages in the same way. A failure to unmarshal a page is folded into the listing call's error.
- DnsPod.GetDnsRecords: bounded by `fuel` pages. `EmptyPageRepeats` shows that no bound is enough when a page comes back empty while the count is short.
- DnsPod.GetDomains: bounded by `fuel` pages in the same way.
- EsxiStorage.Download: the body is a finite sequence of read results that ends in EOF or a read error. The 4096-byte buffer is modelled only as a bound: `BodyEnds` requires every read result to carry at most 4096 bytes, and each read result is the bytes that read put in the buffer. Building the request cannot fail here.
- EsxiStorage.WriteAll: the writer is required to keep the `io.Writer` contract. It never reports more bytes than offered, and it reports an error whenever it takes nothing of a non-empty chunk. A writer that breaks this would make the source loop forever.
- EsxiStorage.GetVolumeId and EsxiStorage.CleanPath: one `url` field stands for both `Summary.Url` (the vsan branch) and `Info.GetDatastoreInfo().Url` (`GetUrl`). A datastore whose two URLs differ is not modelled.
- CloudRegions.SyncRegions: the accounting and the aligned output lists are modelled. These are not:
  - the `SCloudproviderregion` rows and their capabilities;
  - `syncMetadata`;
  - the body of `syncWithCloudRegion`;
  - the body of `newFromCloudRegion`.
- DnsZones.NewFromCloudDnsRecordSet: the new row is always enabled. The source copies `ext.Enabled`, but the engine's `DnsRecordSet` in `pkg/cloudprovider/dnszone.go` has no Enabled field.
- DnsZones.SyncDnsRecordSets: `syncRemove` and `syncWithCloudDnsRecord` write rows through `db.Update`, and that call is taken to succeed. The errors modelled are the lookups, the inserts, the policy detaches and the policy register.
- DnsModel.DnsDatabase.RegisterPolicy: the body of `DnsTrafficPolicyManager.Register` is not part of this model. It is modelled as find-or-insert: an existing row with the same provider, type and params is reused, otherwise one row is inserted.
- DnsModel.DnsDatabase.AddVpc and DnsModel.DnsDatabase.RemoveVpc: the zone-VPC links are a set of pairs. Linking a pair twice therefore keeps one link, where the joint table could hold two rows.
- GoStrings: `ToLower`, `TrimSpace` and the string order treat characters one at a time and know only ASCII letters and white space. This holds for AzureRedis.GetStatus, AzureRedis.GetGlobalId, AzureRedis.GetNetworkId, NotifyRobots.ConfigRobots and EsxiStorage.CleanPath, which use them on identifiers and URLs. Unicode case mapping and Unicode white space are not modelled.
- Zone and cache rows created from the cloud (`newFromCloudDnsZone`) are not part of this model. Only the record sets of an existing zone are synced.
- SamlProviders.SamlProviderTable.DeleteTaskOnInit: the error of `RealDelete` is ignored, as in the source. A successful create leaves the status as it was, as in the source, because the status is set only on failure or for a localized factory.
- The action logs (`logclient`) and the status reasons passed to `SetStatus` are not modelled.
- The caller-side `SetStageComplete` and `SetStageFailed` are the `TaskOutcome` result.

## Findings

| source | as written | input that shows it | evidently intended | confidence | as-written member | corrected member |
|---|---|---|---|---|---|---|
| pkg/notify/models/robot.go:65 | the robot list is made with length len(configs) and the converted robots are then appended, so the insert loop first inserts one zero-valued robot per config | one Feishu robot config with webhook "https://hook": the insert list is [zero robot, Feishu robot] | a list made with capacity, not length: only the converted robots are inserted | not executed | NotifyRobots.InsertListAsWrittenPadsWithZeroRobots | NotifyRobots.NotifyStore.InitializeData |
| pkg/multicloud/aws/dnshostedzone.go:179-181 | after a truncated page the next request uses the response's Marker, which echoes the request's own marker | two pages, the first truncated with NextMarker "n" (`TwoPages`): the first page is requested forever | continue from the response's NextMarker | not executed | AwsDns.AsWrittenRepeatsPage | AwsDns.GetHostedZones |
| pkg/compute/models/dns_zones.go:763-764 | a requested VPC is rejected with "vpc not in dns zone" when it IS among the zone's VPCs | an available private zone linked to VPC "v1": removing ["v1"] is rejected, removing an unlinked ["v2"] starts the remove task | reject a requested VPC that is not linked to the zone | not executed | DnsZones.PerformRemoveVpcs (with DnsZones.InvertedRemoveCheck) | DnsZones.PerformRemoveVpcsIntended |
