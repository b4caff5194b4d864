// Record sets of a DNS zone and their traffic-policy links
// (pkg/compute/models/dns_recordsets.go). The record methods are written
// against the tables of DnsModel.DnsDatabase: the "self" record is a row id.
module DnsRecordSets {
  import opened Wrappers
  import opened DnsRecordDiff
  import opened DnsModel

  // ---------------------------------------------------------------------
  // Create validation

  /** What a cloud provider factory says it supports: DNS types and policy
      types per zone type, and the admissible values per policy type. */
  datatype ProviderFactory = ProviderFactory(
    dnsTypes: map<string, seq<string>>,
    policyTypes: map<string, seq<string>>,
    policyValues: map<string, seq<Params>>)

  datatype PolicyInput = PolicyInput(provider: string, policyType: string, policyParams: Option<Params>)

  datatype RecordCreateInput = RecordCreateInput(dnsZoneId: string, dnsType: string,
                                                 trafficPolicies: seq<PolicyInput>)

  /** A Go map lookup that yields the nil slice for a missing key. */
  function Lookup<T>(m: map<string, seq<T>>, k: string): seq<T>
  {
    if k in m then m[k] else []
  }

  /** The checks one traffic policy of the create input goes through, in the
      order the validation runs them. `factories` maps the registered
      provider names to their factories. */
  function CheckPolicy(p: PolicyInput, zoneType: string, dnsType: string,
                       factories: map<string, ProviderFactory>): (r: Option<Error>)
    ensures r.None? <==>
      p.provider != "" && p.provider in factories &&
      dnsType in Lookup(factories[p.provider].dnsTypes, zoneType) &&
      p.policyType in Lookup(factories[p.provider].policyTypes, zoneType) &&
      (|Lookup(factories[p.provider].policyValues, p.policyType)| > 0 ==>
         p.policyParams.Some? && p.policyParams.value in Lookup(factories[p.provider].policyValues, p.policyType))
    ensures p.provider == "" || p.provider !in factories ==> r.Some? && r.value.General?
    ensures r.Some? && r.value.MissingParameter? ==>
      p.policyParams.None? && |Lookup(factories[p.provider].policyValues, p.policyType)| > 0
  {
    if p.provider == "" then Some(General("missing traffic policy provider"))
    else if p.provider !in factories then Some(General("invalid provider for traffic policy"))
    else
      var f := factories[p.provider];
      if dnsType !in Lookup(f.dnsTypes, zoneType) then Some(NotSupported("dns type"))
      else if p.policyType !in Lookup(f.policyTypes, zoneType) then Some(NotSupported("policy type"))
      else
        var values := Lookup(f.policyValues, p.policyType);
        if |values| > 0 && p.policyParams.None? then Some(MissingParameter("policy params"))
        else if |values| > 0 && p.policyParams.value !in values then Some(NotSupported("policy params"))
        else None
  }

  /** `FetchByIdOrName` on the zone table: an id first, else the one zone of
      that name. */
  function FetchZoneByIdOrName(db: DnsDatabase, idOrName: string): (r: Result<string>)
    reads db
    ensures r.Ok? ==> r.value in db.zones
    ensures idOrName in db.zones ==> r == Ok(idOrName)
    ensures r == Err(NoRows) <==> idOrName !in db.zones && forall z :: z in db.zones ==> db.zones[z].name != idOrName
  {
    if idOrName in db.zones then Ok(idOrName)
    else
      var named := set z | z in db.zones && db.zones[z].name == idOrName;
      assert forall z :: z in db.zones && db.zones[z].name == idOrName ==> z in named;
      if named == {} then Err(NoRows)
      else if |named| == 1 then Ok(Single(named))
      else Err(DuplicateEntry)
  }

  /** `SDnsRecordSetManager.ValidateCreateData`: dns_zone_id is required and
      must name a zone; each traffic policy passes CheckPolicy, and the first
      one that does not decides the error; the zone id is normalised. */
  method ValidateCreateData(db: DnsDatabase, input: RecordCreateInput,
                            factories: map<string, ProviderFactory>)
    returns (r: Result<RecordCreateInput>)
    ensures input.dnsZoneId == "" ==> r == Err(MissingParameter("dns_zone_id"))
    ensures input.dnsZoneId != "" && FetchZoneByIdOrName(db, input.dnsZoneId) == Err(NoRows) ==>
      r == Err(ResourceNotFound("dns_zone"))
    ensures r.Ok? <==>
      input.dnsZoneId != "" && FetchZoneByIdOrName(db, input.dnsZoneId).Ok? &&
      forall k :: 0 <= k < |input.trafficPolicies| ==>
        CheckPolicy(input.trafficPolicies[k], db.zones[FetchZoneByIdOrName(db, input.dnsZoneId).value].zoneType,
                    input.dnsType, factories).None?
    ensures r.Ok? ==> r.value == input.(dnsZoneId := FetchZoneByIdOrName(db, input.dnsZoneId).value)
    ensures r.Err? && input.dnsZoneId != "" && FetchZoneByIdOrName(db, input.dnsZoneId).Ok? ==>
      exists k :: 0 <= k < |input.trafficPolicies| &&
        CheckPolicy(input.trafficPolicies[k], db.zones[FetchZoneByIdOrName(db, input.dnsZoneId).value].zoneType,
                    input.dnsType, factories) == Some(r.error) &&
        forall j :: 0 <= j < k ==>
          CheckPolicy(input.trafficPolicies[j], db.zones[FetchZoneByIdOrName(db, input.dnsZoneId).value].zoneType,
                      input.dnsType, factories).None?
  {
    if input.dnsZoneId == "" {
      return Err(MissingParameter("dns_zone_id"));
    }
    var zone := FetchZoneByIdOrName(db, input.dnsZoneId);
    if zone.Err? {
      if zone.error == NoRows {
        return Err(ResourceNotFound("dns_zone"));
      }
      return Err(General("fetch dns_zone"));
    }
    var zoneType := db.zones[zone.value].zoneType;
    var k := 0;
    while k < |input.trafficPolicies|
      invariant 0 <= k <= |input.trafficPolicies|
      invariant forall j :: 0 <= j < k ==> CheckPolicy(input.trafficPolicies[j], zoneType, input.dnsType, factories).None?
    {
      var check := CheckPolicy(input.trafficPolicies[k], zoneType, input.dnsType, factories);
      if check.Some? {
        return Err(check.value);
      }
      k := k + 1;
    }
    r := Ok(input.(dnsZoneId := zone.value));
  }

  // ---------------------------------------------------------------------
  // Policy lookups

  /** `GetDnsTrafficPolicies`: policy rows linked to the record. */
  function LinkedPolicies(db: DnsDatabase, recordId: string): (ids: set<string>)
    reads db`policies, db`recordPolicies
    ensures forall p :: p in ids <==> p in db.policies && (recordId, p) in db.recordPolicies
  {
    set p | p in db.policies && (recordId, p) in db.recordPolicies
  }

  /** The linked policies of each row of `rs`. */
  function LinkMap(db: DnsDatabase, rs: set<string>): (m: map<string, set<string>>)
    reads db`policies, db`recordPolicies
    ensures m.Keys == rs && forall x :: x in rs ==> m[x] == LinkedPolicies(db, x)
  {
    map x | x in rs :: LinkedPolicies(db, x)
  }

  /** The linked policies of one provider. */
  function ProviderPolicies(db: DnsDatabase, recordId: string, provider: string): (ids: set<string>)
    reads db`policies, db`recordPolicies
    ensures ids <= LinkedPolicies(db, recordId)
    ensures forall p :: p in ids <==> p in LinkedPolicies(db, recordId) && db.policies[p].provider == provider
  {
    set p | p in LinkedPolicies(db, recordId) && db.policies[p].provider == provider
  }

  /** `GetDnsTrafficPolicy(provider)`: no-rows for no linked policy of the
      provider, duplicate-entry for several, else the single one. */
  function GetDnsTrafficPolicy(db: DnsDatabase, recordId: string, provider: string): (r: Result<string>)
    reads db`policies, db`recordPolicies
    ensures r == Err(NoRows) <==> ProviderPolicies(db, recordId, provider) == {}
    ensures r == Err(DuplicateEntry) <==> |ProviderPolicies(db, recordId, provider)| > 1
    ensures r.Ok? <==> |ProviderPolicies(db, recordId, provider)| == 1
    ensures r.Ok? ==> ProviderPolicies(db, recordId, provider) == {r.value}
    ensures r.Ok? ==> r.value in db.policies && db.policies[r.value].provider == provider
  {
    var ids := ProviderPolicies(db, recordId, provider);
    if |ids| == 0 then Err(NoRows)
    else if |ids| > 1 then Err(DuplicateEntry)
    else Ok(Single(ids))
  }

  /** `GetDefaultDnsTrafficPolicy(provider)`: Simple without params when the
      record has no policy of the provider, the policy's type and params
      when it has one, and the duplicate error otherwise. */
  function GetDefaultDnsTrafficPolicy(db: DnsDatabase, recordId: string, provider: string)
    : (r: Result<(string, Option<Params>)>)
    reads db`policies, db`recordPolicies
    ensures ProviderPolicies(db, recordId, provider) == {} ==> r == Ok((PolicySimple, None))
    ensures r.Err? <==> |ProviderPolicies(db, recordId, provider)| > 1
    ensures GetDnsTrafficPolicy(db, recordId, provider).Ok? ==>
      var p := GetDnsTrafficPolicy(db, recordId, provider).value;
      r == Ok((db.policies[p].policyType, db.policies[p].params))
  {
    var found := GetDnsTrafficPolicy(db, recordId, provider);
    if found.Err? && found.error != NoRows then Err(found.error)
    else if found.Ok? then
      var policy := db.policies[found.value];
      if policy.params.Some? then Ok((policy.policyType, policy.params))
      else Ok((policy.policyType, None))
    else Ok((PolicySimple, None))
  }

  // ---------------------------------------------------------------------
  // Detaching and attaching policies. `detachFails(record, policy)` says
  // whether deleting that link row fails.

  /** `RemovePolicy(policyId)`: detaches the links of this record to that
      policy and no other link. */
  method RemovePolicy(db: DnsDatabase, recordId: string, policyId: string,
                      detachFails: (string, string) -> bool)
    returns (err: Option<Error>)
    modifies db`recordPolicies
    ensures err.None? <==> !((recordId, policyId) in old(db.recordPolicies) && detachFails(recordId, policyId))
    ensures err.None? ==> db.recordPolicies == old(db.recordPolicies) - {(recordId, policyId)}
    ensures err.Some? ==> db.recordPolicies == old(db.recordPolicies)
  {
    if (recordId, policyId) in db.recordPolicies {
      if detachFails(recordId, policyId) {
        return Some(Opaque("Detach"));
      }
      db.recordPolicies := db.recordPolicies - {(recordId, policyId)};
    }
    err := None;
  }

  /** No policy of `ps` fails to detach from the record. */
  predicate Detachable(ps: set<string>, recordId: string, detachFails: (string, string) -> bool)
  {
    forall p :: p in ps ==> !detachFails(recordId, p)
  }

  /** The links of a record to every policy in `ps`. */
  function LinksTo(recordId: string, ps: set<string>): set<(string, string)>
  {
    set p | p in ps :: (recordId, p)
  }

  /** The detach loop of `Delete` and `syncRemove`: every linked policy is
      detached in turn; the first failure stops the loop and leaves that link
      (and the ones not reached) in place. */
  method DetachAll(db: DnsDatabase, recordId: string, detachFails: (string, string) -> bool)
    returns (err: Option<Error>)
    modifies db`recordPolicies
    ensures err.None? ==>
      db.recordPolicies == old(db.recordPolicies) - LinksTo(recordId, old(LinkedPolicies(db, recordId)))
    ensures err.None? ==> LinkedPolicies(db, recordId) == {}
    ensures err.Some? ==>
      (exists p :: p in old(LinkedPolicies(db, recordId)) && detachFails(recordId, p) &&
                   (recordId, p) in db.recordPolicies)
    ensures db.recordPolicies <= old(db.recordPolicies)
    ensures old(db.recordPolicies) - db.recordPolicies <= LinksTo(recordId, old(LinkedPolicies(db, recordId)))
    ensures err.None? <==> Detachable(old(LinkedPolicies(db, recordId)), recordId, detachFails)
  {
    var linked := LinkedPolicies(db, recordId);
    var rest := linked;
    while rest != {}
      invariant rest <= linked
      invariant db.recordPolicies == old(db.recordPolicies) - LinksTo(recordId, linked - rest)
      invariant Detachable(linked - rest, recordId, detachFails)
      decreases rest
    {
      var p :| p in rest;
      assert (recordId, p) in db.recordPolicies by {
        assert (recordId, p) !in LinksTo(recordId, linked - rest);
      }
      var e := RemovePolicy(db, recordId, p, detachFails);
      if e.Some? {
        return Some(Opaque("RemovePolicy"));
      }
      assert LinksTo(recordId, linked - (rest - {p})) == LinksTo(recordId, linked - rest) + {(recordId, p)};
      rest := rest - {p};
    }
    assert linked - rest == linked;
    err := None;
  }

  /** `SDnsRecordSet.Delete`: detaches every linked policy, then deletes the
      row; a detach failure aborts with the row still there. */
  method Delete(db: DnsDatabase, recordId: string, detachFails: (string, string) -> bool)
    returns (err: Option<Error>)
    modifies db`records, db`recordPolicies
    ensures err.None? ==> db.records == old(db.records) - {recordId} && LinkedPolicies(db, recordId) == {}
    ensures err.Some? ==> db.records == old(db.records)
    ensures db.recordPolicies <= old(db.recordPolicies)
    ensures old(db.recordPolicies) - db.recordPolicies <= LinksTo(recordId, old(LinkedPolicies(db, recordId)))
    ensures err.None? <==> Detachable(old(LinkedPolicies(db, recordId)), recordId, detachFails)
  {
    err := DetachAll(db, recordId, detachFails);
    if err.Some? {
      return;
    }
    db.records := db.records - {recordId};
  }

  /** `syncRemove`: the same detach loop, then Delete (whose own loop then
      finds nothing left). */
  method SyncRemove(db: DnsDatabase, recordId: string, detachFails: (string, string) -> bool)
    returns (err: Option<Error>)
    modifies db`records, db`recordPolicies
    ensures err.None? ==> db.records == old(db.records) - {recordId} && LinkedPolicies(db, recordId) == {}
    ensures err.Some? ==> db.records == old(db.records)
    ensures db.recordPolicies <= old(db.recordPolicies)
    ensures old(db.recordPolicies) - db.recordPolicies <= LinksTo(recordId, old(LinkedPolicies(db, recordId)))
    ensures err.None? <==> Detachable(old(LinkedPolicies(db, recordId)), recordId, detachFails)
    ensures forall r :: r != recordId ==> LinkedPolicies(db, r) == old(LinkedPolicies(db, r))
  {
    ghost var linked0 := LinkedPolicies(db, recordId);
    err := DetachAll(db, recordId, detachFails);
    if err.None? {
      ghost var linked1 := LinkedPolicies(db, recordId);
      assert linked1 <= linked0;
      assert LinksTo(recordId, linked1) <= LinksTo(recordId, linked0);
      err := Delete(db, recordId, detachFails);
    }
    forall r | r != recordId
      ensures LinkedPolicies(db, r) == old(LinkedPolicies(db, r))
    {
      forall p ensures (r, p) in db.recordPolicies <==> (r, p) in old(db.recordPolicies) {
        assert (r, p) !in LinksTo(recordId, linked0);
      }
    }
  }

  /** The provider's current policy already has this type and a value
      `IsPolicyValueEqual` accepts. */
  predicate KeepsPolicy(policy: Policy, policyType: string, policyValue: Option<Params>,
                        isEqual: (Option<Params>, Option<Params>) -> bool)
  {
    policy.policyType == policyType && isEqual(policy.params, policyValue)
  }

  /** What `setTrafficPolicy` does to the policy tables, and its error: a
      duplicate lookup fails and a kept policy returns at once, both with
      no change; otherwise the old link is removed (a failing detach keeps
      it, the error being ignored), the policy is registered (found, or
      inserted under a fresh id) and the record is linked to it; a failing
      registration returns its error with the old link already gone. */
  twostate predicate PolicySet(db: DnsDatabase, recordId: string, provider: string, policyType: string,
                               policyValue: Option<Params>,
                               isEqual: (Option<Params>, Option<Params>) -> bool,
                               registerFails: (string, string, Option<Params>) -> bool,
                               detachFails: (string, string) -> bool, new err: Option<Error>)
    reads db
  {
    var cur := old(GetDnsTrafficPolicy(db, recordId, provider));
    var kept := AfterRemoval(old(db.recordPolicies), recordId, cur, detachFails);
    var matching := old(db.PoliciesMatching(provider, policyType, policyValue));
    var row := Policy(provider, policyType, policyValue);
    if cur == Err(DuplicateEntry) || (cur.Ok? && KeepsPolicy(old(db.policies[cur.value]), policyType, policyValue, isEqual)) then
      (err.Some? <==> cur == Err(DuplicateEntry)) &&
      db.policies == old(db.policies) && db.recordPolicies == old(db.recordPolicies)
    else if matching == {} && registerFails(provider, policyType, policyValue) then
      err.Some? && db.policies == old(db.policies) && db.recordPolicies == kept
    else
      err.None? &&
      exists p :: p in db.policies && db.policies[p] == row && db.recordPolicies == kept + {(recordId, p)} &&
        if matching != {} then p in matching && db.policies == old(db.policies)
        else p !in old(db.policies) && p !in old(db.LinkTargets()) && db.policies == old(db.policies)[p := row]
  }

  /** The link table after the old policy of the provider has been removed
      (the removal's error is ignored, so a failing detach keeps it). */
  function AfterRemoval(links: set<(string, string)>, recordId: string, current: Result<string>,
                        detachFails: (string, string) -> bool): set<(string, string)>
  {
    if current.Ok? && !((recordId, current.value) in links && detachFails(recordId, current.value))
    then links - {(recordId, current.value)}
    else links
  }

  /** `setTrafficPolicy` (PolicySet). Unless the old link could not be
      detached, a call without error leaves the record with exactly one
      policy of the provider, which reads back as the requested type and
      value (or, when it was kept, one `IsPolicyValueEqual` accepts). Links
      of other records keep their policies. `isEqual` is
      `IsPolicyValueEqual`, outside this model; `registerFails` says whether
      registering a new policy row fails. */
  method SetTrafficPolicy(db: DnsDatabase, recordId: string, provider: string, policyType: string,
                          policyValue: Option<Params>,
                          isEqual: (Option<Params>, Option<Params>) -> bool,
                          registerFails: (string, string, Option<Params>) -> bool,
                          detachFails: (string, string) -> bool)
    returns (err: Option<Error>)
    modifies db`recordPolicies, db`policies
    ensures PolicySet(db, recordId, provider, policyType, policyValue, isEqual, registerFails, detachFails, err)
    ensures var cur := old(GetDnsTrafficPolicy(db, recordId, provider));
      err.None? && !(cur.Ok? && detachFails(recordId, cur.value)) ==>
        var now := GetDefaultDnsTrafficPolicy(db, recordId, provider);
        now.Ok? && now.value.0 == policyType && (now.value.1 == policyValue || isEqual(now.value.1, policyValue))
    ensures old(db.policies).Keys <= db.policies.Keys
    ensures forall p :: p in old(db.policies) ==> db.policies[p] == old(db.policies)[p]
    ensures forall r :: r != recordId ==> LinkedPolicies(db, r) == old(LinkedPolicies(db, r))
  {
    var cur := GetDnsTrafficPolicy(db, recordId, provider);
    if cur.Err? && cur.error != NoRows {
      return Some(cur.error);
    }
    if cur.Ok? {
      var policy := db.policies[cur.value];
      if KeepsPolicy(policy, policyType, policyValue, isEqual) {
        return None;
      }
      var _ := RemovePolicy(db, recordId, cur.value, detachFails);
    }
    ghost var kept := db.recordPolicies;
    ghost var before := ProviderPolicies(db, recordId, provider);
    assert !(cur.Ok? && detachFails(recordId, cur.value)) ==> before == {} by {
      if cur.Ok? && !detachFails(recordId, cur.value) {
        assert before <= old(ProviderPolicies(db, recordId, provider)) - {cur.value};
      }
    }
    var p;
    err, p := LinkPolicy(db, recordId, provider, policyType, policyValue, registerFails(provider, policyType, policyValue));
  }

  /** The tail of `setTrafficPolicy`: registers the policy (found, or
      inserted under a fresh id `p`) and links the record to it; a failing
      registration returns its error and changes nothing. The record's
      policies of the provider gain `p`, and links of other records keep
      their policies. */
  method LinkPolicy(db: DnsDatabase, recordId: string, provider: string, policyType: string,
                    policyValue: Option<Params>, registerFails: bool)
    returns (err: Option<Error>, p: string)
    modifies db`recordPolicies, db`policies
    ensures var matching := old(db.PoliciesMatching(provider, policyType, policyValue));
      var row := Policy(provider, policyType, policyValue);
      if matching == {} && registerFails then
        err.Some? && db.policies == old(db.policies) && db.recordPolicies == old(db.recordPolicies)
      else
        err.None? && p in db.policies && db.policies[p] == row && db.recordPolicies == old(db.recordPolicies) + {(recordId, p)} &&
        if matching != {} then p in matching && db.policies == old(db.policies)
        else p !in old(db.policies) && p !in old(db.LinkTargets()) && db.policies == old(db.policies)[p := row]
    ensures err.None? ==> ProviderPolicies(db, recordId, provider) == old(ProviderPolicies(db, recordId, provider)) + {p}
    ensures old(db.policies).Keys <= db.policies.Keys
    ensures forall q :: q in old(db.policies) ==> db.policies[q] == old(db.policies)[q]
    ensures forall r :: r != recordId ==> LinkedPolicies(db, r) == old(LinkedPolicies(db, r))
  {
    p := "";
    var registered := db.RegisterPolicy(provider, policyType, policyValue, registerFails);
    if registered.Err? {
      return Some(registered.error), p;
    }
    p := registered.value;
    db.recordPolicies := db.recordPolicies + {(recordId, p)};
    err := None;
    LinkedAfterSet(old(db.policies), db.policies, old(db.recordPolicies), old(db.recordPolicies), db.recordPolicies, recordId, p);
  }

  /** Registering and linking `p` changes no other record's links, and a
      new row is linked by no one else. */
  lemma LinkedAfterSet(before: map<string, Policy>, after: map<string, Policy>,
                       links0: set<(string, string)>, links1: set<(string, string)>, links2: set<(string, string)>,
                       recordId: string, p: string)
    requires links1 <= links0 && forall l :: l in links0 - links1 ==> l.0 == recordId
    requires links2 == links1 + {(recordId, p)}
    requires before.Keys <= after.Keys && after.Keys <= before.Keys + {p}
    requires p !in before ==> forall r :: (r, p) !in links0
    ensures forall r, q :: r != recordId ==> ((r, q) in links2 && q in after <==> (r, q) in links0 && q in before)
  {
  }

  // ---------------------------------------------------------------------
  // Updates from the cloud and the hooks.

  /** The record after `syncWithCloudDnsRecord` copied the remote name,
      status, TTL, type and value. */
  function Synced(row: Record, ext: DnsRecordSet): (r: Record)
    ensures r.enabled == row.enabled && r.zoneId == row.zoneId
    ensures r.name == ext.dnsName && r.status == ext.status && r.ttl == ext.ttl
    ensures r.dnsType == ext.dnsType && r.dnsValue == ext.dnsValue
  {
    row.(name := ext.dnsName, status := ext.status, ttl := ext.ttl, dnsType := ext.dnsType, dnsValue := ext.dnsValue)
  }

  /** `syncWithCloudDnsRecord`: the remote fields are copied (Enabled and
      the zone stay), then the remote policy is set and its error returned. */
  method SyncWithCloudDnsRecord(db: DnsDatabase, recordId: string, provider: string, ext: DnsRecordSet,
                                isEqual: (Option<Params>, Option<Params>) -> bool,
                                registerFails: (string, string, Option<Params>) -> bool,
                                detachFails: (string, string) -> bool)
    returns (err: Option<Error>)
    requires recordId in db.records
    modifies db`records, db`recordPolicies, db`policies
    ensures db.records == old(db.records)[recordId := Synced(old(db.records)[recordId], ext)]
    ensures PolicySet(db, recordId, provider, ext.policyType, ext.policyParms, isEqual, registerFails, detachFails, err)
    ensures old(db.policies).Keys <= db.policies.Keys
    ensures forall p :: p in old(db.policies) ==> db.policies[p] == old(db.policies)[p]
    ensures forall r :: r != recordId ==> LinkedPolicies(db, r) == old(LinkedPolicies(db, r))
  {
    db.records := db.records[recordId := Synced(db.records[recordId], ext)];
    err := SetTrafficPolicy(db, recordId, provider, ext.policyType, ext.policyParms, isEqual, registerFails, detachFails);
  }

  /** Marks the record's zone dirty when the zone exists (the common tail of
      PostCreate, PreDelete and PostUpdate); `updateFails` says whether
      `DoSyncRecords`'s `db.Update` fails, and its error is ignored. */
  method MarkZoneDirty(db: DnsDatabase, recordId: string, updateFails: bool)
    requires recordId in db.records
    modifies db`zones
    ensures var z := db.records[recordId].zoneId;
      if z in old(db.zones) && !updateFails then db.zones == old(db.zones)[z := old(db.zones)[z].(isDirty := true)]
      else db.zones == old(db.zones)
  {
    var z := db.records[recordId].zoneId;
    if z in db.zones {
      var _ := db.DoSyncRecords(z, updateFails);
    }
  }

  /** No provider has two policies linked to the record, so no lookup of
      `setTrafficPolicy` meets a duplicate. */
  ghost predicate OnePerProvider(db: DnsDatabase, recordId: string)
    reads db`policies, db`recordPolicies
  {
    forall q :: |ProviderPolicies(db, recordId, q)| <= 1
  }

  /** A default-policy lookup `now` reads back as the request `t`: its
      type, and its value or one `IsPolicyValueEqual` accepts. */
  predicate ReadsBack(now: Result<(string, Option<Params>)>, t: PolicyInput,
                      isEqual: (Option<Params>, Option<Params>) -> bool)
  {
    now.Ok? && now.value.0 == t.policyType && (now.value.1 == t.policyParams || isEqual(now.value.1, t.policyParams))
  }

  /** Request `k` is the last one for its provider among the first `n`. */
  predicate LastOfProvider(ts: seq<PolicyInput>, k: int, n: int)
    requires 0 <= k < n <= |ts|
  {
    forall i :: k < i < n ==> ts[i].provider != ts[k].provider
  }

  /** No registration of a requested policy fails, and no link of the
      record fails to detach. */
  ghost predicate NoPolicyFailure(ts: seq<PolicyInput>, recordId: string,
                            registerFails: (string, string, Option<Params>) -> bool,
                            detachFails: (string, string) -> bool)
  {
    (forall k :: 0 <= k < |ts| ==> !registerFails(ts[k].provider, ts[k].policyType, ts[k].policyParams)) &&
    (forall p :: !detachFails(recordId, p))
  }

  /** One step of PostCreate's loop: `setTrafficPolicy` for request `t`.
      The record's policies of every other provider stay as they were, and
      without failures the request reads back and no provider gets two
      policies. */
  method SetRequestedPolicy(db: DnsDatabase, recordId: string, t: PolicyInput,
                            isEqual: (Option<Params>, Option<Params>) -> bool,
                            registerFails: (string, string, Option<Params>) -> bool,
                            detachFails: (string, string) -> bool)
    returns (err: Option<Error>)
    modifies db`recordPolicies, db`policies
    ensures PolicySet(db, recordId, t.provider, t.policyType, t.policyParams, isEqual, registerFails, detachFails, err)
    ensures forall q :: q != t.provider ==>
      GetDefaultDnsTrafficPolicy(db, recordId, q) == old(GetDefaultDnsTrafficPolicy(db, recordId, q)) &&
      ProviderPolicies(db, recordId, q) == old(ProviderPolicies(db, recordId, q))
    ensures (old(OnePerProvider(db, recordId)) && !registerFails(t.provider, t.policyType, t.policyParams) &&
             forall p :: !detachFails(recordId, p)) ==>
      OnePerProvider(db, recordId) && ReadsBack(GetDefaultDnsTrafficPolicy(db, recordId, t.provider), t, isEqual)
    ensures old(db.policies).Keys <= db.policies.Keys
    ensures forall p :: p in old(db.policies) ==> db.policies[p] == old(db.policies)[p]
    ensures forall r :: r != recordId ==> LinkedPolicies(db, r) == old(LinkedPolicies(db, r))
  {
    ghost var cur := GetDnsTrafficPolicy(db, recordId, t.provider);
    err := SetTrafficPolicy(db, recordId, t.provider, t.policyType, t.policyParams, isEqual, registerFails, detachFails);
    forall q | q != t.provider
      ensures ProviderPolicies(db, recordId, q) == old(ProviderPolicies(db, recordId, q))
    {
      forall x ensures x in ProviderPolicies(db, recordId, q) <==> x in old(ProviderPolicies(db, recordId, q)) {
        if cur.Ok? {
          assert old(db.policies)[cur.value].provider == t.provider;
        }
      }
    }
    forall q | q != t.provider
      ensures GetDefaultDnsTrafficPolicy(db, recordId, q) == old(GetDefaultDnsTrafficPolicy(db, recordId, q))
    {
      assert GetDnsTrafficPolicy(db, recordId, q) == old(GetDnsTrafficPolicy(db, recordId, q));
    }
    if old(OnePerProvider(db, recordId)) && !registerFails(t.provider, t.policyType, t.policyParams) &&
       (forall p :: !detachFails(recordId, p)) {
      assert |old(ProviderPolicies(db, recordId, t.provider))| <= 1;
      assert err.None?;
      forall q ensures |ProviderPolicies(db, recordId, q)| <= 1 {
        if q != t.provider {
          assert |old(ProviderPolicies(db, recordId, q))| <= 1;
        }
      }
    }
  }

  /** The loop of `PostCreate`: `setTrafficPolicy` for every request in
      order, errors ignored. Without failures, every provider's policy is
      the last one requested for it. */
  method SetRequestedPolicies(db: DnsDatabase, recordId: string, ts: seq<PolicyInput>,
                              isEqual: (Option<Params>, Option<Params>) -> bool,
                              registerFails: (string, string, Option<Params>) -> bool,
                              detachFails: (string, string) -> bool)
    modifies db`recordPolicies, db`policies
    ensures NoPolicyFailure(ts, recordId, registerFails, detachFails) && old(OnePerProvider(db, recordId)) ==>
      OnePerProvider(db, recordId) &&
      forall k :: 0 <= k < |ts| && LastOfProvider(ts, k, |ts|) ==> ReadsBack(GetDefaultDnsTrafficPolicy(db, recordId, ts[k].provider), ts[k], isEqual)
    ensures old(db.policies).Keys <= db.policies.Keys
    ensures forall p :: p in old(db.policies) ==> db.policies[p] == old(db.policies)[p]
    ensures forall r :: r != recordId ==> LinkedPolicies(db, r) == old(LinkedPolicies(db, r))
  {
    ghost var clean := NoPolicyFailure(ts, recordId, registerFails, detachFails) && OnePerProvider(db, recordId);
    var k := 0;
    while k < |ts|
      invariant 0 <= k <= |ts|
      invariant clean ==> OnePerProvider(db, recordId)
      invariant clean ==> forall j :: 0 <= j < k && LastOfProvider(ts, j, k) ==> ReadsBack(GetDefaultDnsTrafficPolicy(db, recordId, ts[j].provider), ts[j], isEqual)
      invariant old(db.policies).Keys <= db.policies.Keys
      invariant forall p :: p in old(db.policies) ==> db.policies[p] == old(db.policies)[p]
      invariant forall r :: r != recordId ==> LinkedPolicies(db, r) == old(LinkedPolicies(db, r))
    {
      label before:
      ghost var fine := clean && OnePerProvider(db, recordId) &&
        !registerFails(ts[k].provider, ts[k].policyType, ts[k].policyParams) &&
        forall p :: !detachFails(recordId, p);
      assert clean ==> fine;
      var _ := SetRequestedPolicy(db, recordId, ts[k], isEqual, registerFails, detachFails);
      if clean {
        assert OnePerProvider(db, recordId) &&
               ReadsBack(GetDefaultDnsTrafficPolicy(db, recordId, ts[k].provider), ts[k], isEqual);
        forall j | 0 <= j < k + 1 && LastOfProvider(ts, j, k + 1)
          ensures ReadsBack(GetDefaultDnsTrafficPolicy(db, recordId, ts[j].provider), ts[j], isEqual)
        {
          if j < k {
            assert ts[k].provider != ts[j].provider;
            assert LastOfProvider(ts, j, k);
            assert GetDefaultDnsTrafficPolicy(db, recordId, ts[j].provider) ==
                   old@before(GetDefaultDnsTrafficPolicy(db, recordId, ts[j].provider));
          }
        }
      }
      k := k + 1;
    }
  }

  /** `PostCreate`: sets every requested traffic policy in order (errors
      ignored), then marks the zone dirty. */
  method PostCreate(db: DnsDatabase, recordId: string, input: RecordCreateInput,
                    isEqual: (Option<Params>, Option<Params>) -> bool,
                    registerFails: (string, string, Option<Params>) -> bool,
                    detachFails: (string, string) -> bool, updateFails: bool)
    requires recordId in db.records
    modifies db`zones, db`recordPolicies, db`policies
    ensures db.records == old(db.records)
    ensures var z := db.records[recordId].zoneId;
      if z in old(db.zones) && !updateFails then db.zones == old(db.zones)[z := old(db.zones)[z].(isDirty := true)]
      else db.zones == old(db.zones)
    ensures var ts := input.trafficPolicies;
      NoPolicyFailure(ts, recordId, registerFails, detachFails) && old(OnePerProvider(db, recordId)) ==>
        OnePerProvider(db, recordId) &&
        forall k :: 0 <= k < |ts| && LastOfProvider(ts, k, |ts|) ==> ReadsBack(GetDefaultDnsTrafficPolicy(db, recordId, ts[k].provider), ts[k], isEqual)
    ensures old(db.policies).Keys <= db.policies.Keys
    ensures forall p :: p in old(db.policies) ==> db.policies[p] == old(db.policies)[p]
    ensures forall r :: r != recordId ==> LinkedPolicies(db, r) == old(LinkedPolicies(db, r))
  {
    SetRequestedPolicies(db, recordId, input.trafficPolicies, isEqual, registerFails, detachFails);
    MarkZoneDirty(db, recordId, updateFails);
  }

  /** `PreDelete`: marks the zone dirty. */
  method PreDelete(db: DnsDatabase, recordId: string, updateFails: bool)
    requires recordId in db.records
    modifies db`zones
    ensures var z := db.records[recordId].zoneId;
      if z in old(db.zones) && !updateFails then db.zones == old(db.zones)[z := old(db.zones)[z].(isDirty := true)]
      else db.zones == old(db.zones)
  {
    MarkZoneDirty(db, recordId, updateFails);
  }

  /** `PostUpdate`: marks the zone dirty. */
  method PostUpdate(db: DnsDatabase, recordId: string, updateFails: bool)
    requires recordId in db.records
    modifies db`zones
    ensures var z := db.records[recordId].zoneId;
      if z in old(db.zones) && !updateFails then db.zones == old(db.zones)[z := old(db.zones)[z].(isDirty := true)]
      else db.zones == old(db.zones)
  {
    MarkZoneDirty(db, recordId, updateFails);
  }
}
