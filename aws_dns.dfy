// The AWS Route 53 provider (pkg/multicloud/aws/dnsrecordset.go and
// dnshostedzone.go): reading record sets back as engine records, turning
// change options into Route 53 change batches, and the hosted-zone object.
// Every Route 53 API call is a function parameter; a session that cannot be
// opened is one of the errors such a call returns.
module AwsDns {
  import opened Wrappers
  import opened GoStrings
  import opened DnsRecordDiff

  // ---------------------------------------------------------------------
  // Record sets as listed (SdnsRecordSet)

  datatype GeoLocation = GeoLocation(continentCode: string, countryCode: string, subdivisionCode: string)

  /** The data fields of an SdnsRecordSet: what `ListResourceRecordSets`
      returns, unmarshalled, plus the hosted zone it was listed from. A nil
      pointer field is None; the TTL is kept as the text it was read from. */
  datatype AwsRecord = AwsRecord(
    hostedZoneId: string,
    name: string,
    values: seq<string>,
    ttl: string,
    dnsType: string,
    setIdentifier: string,
    failover: string,
    geoLocation: Option<GeoLocation>,
    region: string,
    multiValueAnswer: Option<bool>,
    weight: Option<int>,
    healthCheckId: string)

  /** `GetGlobalId`: record sets have no global id of their own. */
  function GetGlobalId(r: AwsRecord): string
  {
    ""
  }

  /** `GetTTL`: the decimal TTL, or 0 when it does not parse. */
  function GetTTL(r: AwsRecord): (n: int)
    ensures MinInt64 <= n <= MaxInt64
    ensures Atoi(r.ttl).None? ==> n == 0
  {
    match Atoi(r.ttl)
    case Some(v) => v
    case None => 0
  }

  /** A TTL written in decimal reads back as the same number. */
  lemma TtlRoundTrip(r: AwsRecord, n: int)
    requires MinInt64 <= n <= MaxInt64
    ensures GetTTL(r.(ttl := Itoa(n))) == n
  {
    AtoiItoa(n);
  }

  /** `GetDnsValue`: the resource-record values, in order, joined by '*'. */
  method GetDnsValue(r: AwsRecord) returns (v: string)
    ensures v == Join(r.values, '*')
  {
    var records: seq<string> := [];
    for i := 0 to |r.values|
      invariant records == r.values[..i]
    {
      records := records + [r.values[i]];
    }
    assert records == r.values;
    v := Join(records, '*');
  }

  // ---------------------------------------------------------------------
  // Traffic policy of a record set

  /** One struct field as `jsonutils.Marshal` writes it: an empty string
      field is left out. */
  function CodeField(name: string, code: string): map<string, Json>
  {
    if code == "" then map[] else map[name := JString(code)]
  }

  /** The JSON `jsonutils.Marshal` gives a GeoLocation code: a dictionary
      holding exactly the codes that are set. A valid location sets either
      the continent or the country (with its subdivision), so for continent
      "EU" it is `{"ContinentCode": "EU"}`. */
  function GeoJson(g: GeoLocation): (j: Json)
    ensures j.JDict?
    ensures "ContinentCode" in j.fields <==> g.continentCode != ""
    ensures "CountryCode" in j.fields <==> g.countryCode != ""
    ensures "SubdivisionCode" in j.fields <==> g.subdivisionCode != ""
    ensures j.fields.Keys <= {"ContinentCode", "CountryCode", "SubdivisionCode"}
    ensures forall k :: k in j.fields ==>
      j.fields[k] == JString(if k == "ContinentCode" then g.continentCode
                             else if k == "CountryCode" then g.countryCode else g.subdivisionCode)
  {
    JDict(CodeField("ContinentCode", g.continentCode) + CodeField("CountryCode", g.countryCode) +
          CodeField("SubdivisionCode", g.subdivisionCode))
  }

  /** One line of the policy precedence: when the field is present, the
      record's policy is `policyType` with parameters `info`. */
  datatype PolicyRule = PolicyRule(present: bool, policyType: string, info: Params)

  /** The precedence table, highest first. */
  function PolicyRules(r: AwsRecord): (rules: seq<PolicyRule>)
    ensures |rules| == 5
  {
    [ PolicyRule(|r.failover| > 0, PolicyFailover,
                 map["Failover" := JString(r.failover), "HealthCheckId" := JString(r.healthCheckId)]),
      PolicyRule(r.geoLocation.Some?, PolicyByGeoLocation,
                 if r.geoLocation.Some? then map["GeoLocation" := GeoJson(r.geoLocation.value)] else map[]),
      PolicyRule(|r.region| > 0, PolicyLatency, map["Region" := JString(r.region)]),
      PolicyRule(r.multiValueAnswer.Some?, PolicyMultiValueAnswer,
                 if r.multiValueAnswer.Some? then map["MultiValueAnswer" := JBool(r.multiValueAnswer.value)] else map[]),
      PolicyRule(r.weight.Some?, PolicyWeighted,
                 if r.weight.Some? then map["Weight" := JInt(r.weight.value)] else map[]) ]
  }

  /** The index of the first rule whose field is present. */
  function FirstPresent(rules: seq<PolicyRule>, from: nat): (k: Option<nat>)
    requires from <= |rules|
    ensures k.Some? ==> from <= k.value < |rules| && rules[k.value].present &&
                        forall j :: from <= j < k.value ==> !rules[j].present
    ensures k.None? ==> forall j :: from <= j < |rules| ==> !rules[j].present
    decreases |rules| - from
  {
    if from == |rules| then None
    else if rules[from].present then Some(from)
    else FirstPresent(rules, from + 1)
  }

  /** The policy type and parameters the precedence table selects; Simple
      with an empty dictionary when no field is present. */
  function ChosenPolicy(r: AwsRecord): (string, Params)
  {
    var rules := PolicyRules(r);
    match FirstPresent(rules, 0)
    case Some(k) => (rules[k].policyType, rules[k].info)
    case None => (PolicySimple, map[])
  }

  /** The dictionary keys each policy type carries. */
  function PolicyKeys(policyType: string): set<string>
  {
    if policyType == PolicyFailover then {"Failover", "HealthCheckId"}
    else if policyType == PolicyByGeoLocation then {"GeoLocation"}
    else if policyType == PolicyLatency then {"Region"}
    else if policyType == PolicyMultiValueAnswer then {"MultiValueAnswer"}
    else if policyType == PolicyWeighted then {"Weight"}
    else {}
  }

  /** The parameters hold exactly the keys of the chosen branch, and none
      for Simple. */
  lemma PolicyInfoKeys(r: AwsRecord)
    ensures ChosenPolicy(r).1.Keys == PolicyKeys(ChosenPolicy(r).0)
    ensures ChosenPolicy(r).0 == PolicySimple ==> ChosenPolicy(r).1 == map[]
  {
    var rules := PolicyRules(r);
    match FirstPresent(rules, 0)
    case Some(k) =>
      assert k == 0 || k == 1 || k == 2 || k == 3 || k == 4;
    case None =>
  }

  /** Precedence: Failover, then GeoLocation, then Region (latency), then
      MultiValueAnswer, then Weight; Simple when none is set. */
  lemma PolicyPrecedence(r: AwsRecord)
    ensures ChosenPolicy(r).0 == PolicyFailover <==> |r.failover| > 0
    ensures ChosenPolicy(r).0 == PolicyByGeoLocation <==> |r.failover| == 0 && r.geoLocation.Some?
    ensures ChosenPolicy(r).0 == PolicyLatency <==>
      |r.failover| == 0 && r.geoLocation.None? && |r.region| > 0
    ensures ChosenPolicy(r).0 == PolicyMultiValueAnswer <==>
      |r.failover| == 0 && r.geoLocation.None? && |r.region| == 0 && r.multiValueAnswer.Some?
    ensures ChosenPolicy(r).0 == PolicyWeighted <==>
      |r.failover| == 0 && r.geoLocation.None? && |r.region| == 0 && r.multiValueAnswer.None? && r.weight.Some?
    ensures ChosenPolicy(r).0 == PolicySimple <==>
      |r.failover| == 0 && r.geoLocation.None? && |r.region| == 0 && r.multiValueAnswer.None? && r.weight.None?
  {
    var rules := PolicyRules(r);
    assert rules[0].present == (|r.failover| > 0);
    assert rules[1].present == r.geoLocation.Some?;
    assert rules[2].present == (|r.region| > 0);
    assert rules[3].present == r.multiValueAnswer.Some?;
    assert rules[4].present == r.weight.Some?;
    match FirstPresent(rules, 0)
    case Some(k) =>
      assert k == 0 || k == 1 || k == 2 || k == 3 || k == 4;
    case None =>
  }

  /** The first present rule decides. */
  lemma ChosenIsFirstPresent(r: AwsRecord, k: nat)
    requires k < 5 && PolicyRules(r)[k].present
    requires forall j :: 0 <= j < k ==> !PolicyRules(r)[j].present
    ensures ChosenPolicy(r) == (PolicyRules(r)[k].policyType, PolicyRules(r)[k].info)
  {
    var f := FirstPresent(PolicyRules(r), 0);
    assert f.Some?;
    assert f.value == k;
  }

  /** An SdnsRecordSet as an object: `GetPolicyType` stores the parameters
      of the chosen policy in `policyinfo` as a side effect. */
  class AwsRecordSet {
    var record: AwsRecord
    var policyinfo: Option<Params>

    constructor (r: AwsRecord)
      ensures record == r && policyinfo == None
    {
      record := r;
      policyinfo := None;
    }

    /** `GetPolicyType`: resets `policyinfo` and fills it for the first
        present field. */
    method GetPolicyType() returns (t: string)
      modifies this`policyinfo
      ensures t == ChosenPolicy(record).0
      ensures policyinfo == Some(ChosenPolicy(record).1)
    {
      var info: Params := map[];
      policyinfo := Some(info);
      if |record.failover| > 0 {
        info := info["Failover" := JString(record.failover)];
        info := info["HealthCheckId" := JString(record.healthCheckId)];
        policyinfo := Some(info);
        ChosenIsFirstPresent(record, 0);
        return PolicyFailover;
      }
      if record.geoLocation.Some? {
        policyinfo := Some(info["GeoLocation" := GeoJson(record.geoLocation.value)]);
        ChosenIsFirstPresent(record, 1);
        return PolicyByGeoLocation;
      }
      if |record.region| > 0 {
        policyinfo := Some(info["Region" := JString(record.region)]);
        ChosenIsFirstPresent(record, 2);
        return PolicyLatency;
      }
      if record.multiValueAnswer.Some? {
        policyinfo := Some(info["MultiValueAnswer" := JBool(record.multiValueAnswer.value)]);
        ChosenIsFirstPresent(record, 3);
        return PolicyMultiValueAnswer;
      }
      if record.weight.Some? {
        policyinfo := Some(info["Weight" := JInt(record.weight.value)]);
        ChosenIsFirstPresent(record, 4);
        return PolicyWeighted;
      }
      PolicyPrecedence(record);
      return PolicySimple;
    }

    /** `GetParams`: recomputes the policy and returns its dictionary. */
    method GetParams() returns (p: Option<Params>)
      modifies this`policyinfo
      ensures p == Some(ChosenPolicy(record).1)
      ensures policyinfo == p
    {
      var _ := GetPolicyType();
      p := policyinfo;
    }
  }

  // ---------------------------------------------------------------------
  // Listing the record sets of a zone

  /** One `ListResourceRecordSets` response, unmarshalled. */
  datatype RecordPage = RecordPage(records: seq<AwsRecord>, isTruncated: bool, nextRecordName: string)

  /** The pages from `start` on, at most `fuel` of them: a listing that is
      still truncated after `fuel` pages is an error here (the source keeps
      asking). `list(zoneId, start)` is the API call; an empty start name is
      the same as none. */
  function ListRecords(list: (string, string) -> Result<RecordPage>, zoneId: string, start: string, fuel: nat)
    : Result<seq<AwsRecord>>
    decreases fuel
  {
    if fuel == 0 then Err(General("record set listing did not end"))
    else match list(zoneId, start)
      case Err(e) => Err(e)
      case Ok(page) =>
        if !page.isTruncated then Ok(page.records)
        else match ListRecords(list, zoneId, page.nextRecordName, fuel - 1)
          case Err(e) => Err(e)
          case Ok(rest) => Ok(page.records + rest)
  }

  function PrependRecords(acc: seq<AwsRecord>, r: Result<seq<AwsRecord>>): Result<seq<AwsRecord>>
  {
    match r
    case Err(e) => Err(e)
    case Ok(rest) => Ok(acc + rest)
  }

  /** `GetSdnsRecordSets`: all pages, then every record tagged with the
      queried zone. */
  method GetSdnsRecordSets(zoneId: string, list: (string, string) -> Result<RecordPage>, fuel: nat)
    returns (r: Result<seq<AwsRecord>>)
    ensures ListRecords(list, zoneId, "", fuel).Err? ==> r == ListRecords(list, zoneId, "", fuel)
    ensures ListRecords(list, zoneId, "", fuel).Ok? ==>
      r.Ok? && var listed := ListRecords(list, zoneId, "", fuel).value;
      |r.value| == |listed| &&
      forall k :: 0 <= k < |listed| ==> r.value[k] == listed[k].(hostedZoneId := zoneId)
    ensures r.Ok? ==> forall k :: 0 <= k < |r.value| ==> r.value[k].hostedZoneId == zoneId
  {
    var pages := ListAllPages(zoneId, list, fuel);
    if pages.Err? {
      return Err(pages.error);
    }
    var result := StampZone(pages.value, zoneId);
    r := Ok(result);
  }

  /** The paging loop of GetSdnsRecordSets: the pages from the first on,
      concatenated (ListRecords). */
  method ListAllPages(zoneId: string, list: (string, string) -> Result<RecordPage>, fuel: nat)
    returns (r: Result<seq<AwsRecord>>)
    ensures r == ListRecords(list, zoneId, "", fuel)
  {
    var result: seq<AwsRecord> := [];
    var start := "";
    var remaining := fuel;
    ghost var whole := ListRecords(list, zoneId, "", fuel);
    if whole.Ok? {
      assert [] + whole.value == whole.value;
    }
    while true
      invariant ListRecords(list, zoneId, "", fuel) == PrependRecords(result, ListRecords(list, zoneId, start, remaining))
      decreases remaining
    {
      if remaining == 0 {
        return Err(General("record set listing did not end"));
      }
      var ret := list(zoneId, start);
      if ret.Err? {
        return Err(ret.error);
      }
      ghost var before := result;
      result := result + ret.value.records;
      if !ret.value.isTruncated {
        break;
      }
      ghost var tail := ListRecords(list, zoneId, ret.value.nextRecordName, remaining - 1);
      if tail.Ok? {
        assert before + (ret.value.records + tail.value) == result + tail.value;
      }
      start := ret.value.nextRecordName;
      remaining := remaining - 1;
    }
    r := Ok(result);
  }

  /** The second loop of GetSdnsRecordSets: every record is stamped with
      the zone's id. */
  method StampZone(listed: seq<AwsRecord>, zoneId: string) returns (result: seq<AwsRecord>)
    ensures |result| == |listed|
    ensures forall k :: 0 <= k < |listed| ==> result[k] == listed[k].(hostedZoneId := zoneId)
  {
    result := listed;
    for i := 0 to |result|
      invariant |result| == |listed|
      invariant forall k :: 0 <= k < i ==> result[k] == listed[k].(hostedZoneId := zoneId)
      invariant forall k :: i <= k < |result| ==> result[k] == listed[k]
    {
      result := result[i := result[i].(hostedZoneId := zoneId)];
    }
  }

  // ---------------------------------------------------------------------
  // Change batches

  /** A route53.ResourceRecordSet as the client sends it; a nil Type is None. */
  datatype Route53Set = Route53Set(name: string, ttl: int, dnsType: Option<string>, values: seq<string>)

  /** One route53.Change of a batch. */
  datatype Change = Change(action: string, recordSet: Route53Set)

  /** The SDnsRecordSetChangeOptions fields the AWS client reads. */
  datatype ChangeOptions = ChangeOptions(name: string, value: string, ttl: int, dnsType: string)

  /** `ChangeResourceRecordSets`: one change per record set, all with the
      same action, in the order given, sent as one batch. */
  method ChangeResourceRecordSets(action: string, zoneId: string, sets: seq<Route53Set>,
                                  send: (string, seq<Change>) -> Option<Error>)
    returns (err: Option<Error>, batch: seq<Change>)
    ensures |batch| == |sets|
    ensures forall i :: 0 <= i < |sets| ==> batch[i] == Change(action, sets[i])
    ensures err == send(zoneId, batch)
  {
    batch := [];
    for i := 0 to |sets|
      invariant |batch| == i
      invariant forall k :: 0 <= k < i ==> batch[k] == Change(action, sets[k])
    {
      batch := batch + [Change(action, sets[i])];
    }
    err := send(zoneId, batch);
  }

  /** The client's `AddDnsRecordSet`: one record set whose resource records are the
      '*'-separated pieces of the value, created in one batch. */
  method ClientAddDnsRecordSet(zoneId: string, opts: ChangeOptions, send: (string, seq<Change>) -> Option<Error>)
    returns (err: Option<Error>, rrs: Route53Set)
    ensures rrs.name == opts.name && rrs.ttl == opts.ttl && rrs.dnsType == Some(opts.dnsType)
    ensures rrs.values == Split(opts.value, '*')
    ensures err == send(zoneId, [Change("CREATE", rrs)])
  {
    var values := Split(opts.value, '*');
    var records: seq<string> := [];
    for i := 0 to |values|
      invariant records == values[..i]
    {
      records := records + [values[i]];
    }
    assert records == values;
    rrs := Route53Set(opts.name, opts.ttl, Some(opts.dnsType), records);
    var batch;
    err, batch := ChangeResourceRecordSets("CREATE", zoneId, [rrs], send);
    assert batch == [Change("CREATE", rrs)];
  }

  /** What AddDnsRecordSet creates reads back, through GetDnsValue, as the
      value it was given. */
  lemma AddedValueReadsBack(opts: ChangeOptions, listed: AwsRecord)
    requires listed.values == Split(opts.value, '*')
    ensures Join(listed.values, '*') == opts.value
  {
    JoinSplit(opts.value, '*');
  }

  /** And a listed record set whose values contain no '*' is re-created with
      the same values from the value GetDnsValue reports. */
  lemma ListedValuesWriteBack(listed: AwsRecord)
    requires |listed.values| >= 1
    requires forall k :: 0 <= k < |listed.values| ==> '*' !in listed.values[k]
    ensures Split(Join(listed.values, '*'), '*') == listed.values
  {
    SplitJoin(listed.values, '*');
  }

  /** A record set with several values does not survive a value containing
      '*': "a*b" as one value reads back as two. */
  lemma StarInValueSplits()
    ensures Split(Join(["a*b"], '*'), '*') == ["a", "b"]
  {
    assert Join(["a*b"], '*') == "a*b";
    assert "b"[1..] == "";
    assert Split("", '*') == [""];
    assert ['b'] + "" == "b";
    assert Split("b", '*') == ["b"];
    assert "*b"[1..] == "b";
    assert Split("*b", '*') == ["", "b"];
    assert "a*b"[1..] == "*b";
    assert ['a'] + "" == "a";
    assert Split("a*b", '*') == ["a", "b"];
  }

  /** NS and SOA record sets belong to the zone itself. */
  predicate IsNsOrSoa(rs: Route53Set)
  {
    rs.dnsType == Some("NS") || rs.dnsType == Some("SOA")
  }

  /** The record sets DeleteHostedZone removes before the zone, in order. */
  function WithoutNsSoa(sets: seq<Route53Set>): (kept: seq<Route53Set>)
    ensures |kept| <= |sets|
  {
    if sets == [] then []
    else WithoutNsSoa(sets[..|sets| - 1]) + (if IsNsOrSoa(sets[|sets| - 1]) then [] else [sets[|sets| - 1]])
  }

  /** The filter keeps exactly the record sets that are neither NS nor SOA. */
  lemma {:induction false} WithoutNsSoaKeeps(sets: seq<Route53Set>)
    ensures forall rs :: rs in WithoutNsSoa(sets) <==> rs in sets && !IsNsOrSoa(rs)
  {
    if sets != [] {
      var init := sets[..|sets| - 1];
      WithoutNsSoaKeeps(init);
      assert sets == init + [sets[|sets| - 1]];
      forall rs | rs in sets && !IsNsOrSoa(rs) ensures rs in WithoutNsSoa(sets) {
        if rs != sets[|sets| - 1] {
          assert rs in init;
        }
      }
    }
  }

  /** `DeleteHostedZone`: delete every record set except NS and SOA in one
      batch, then the zone. `fetched` is `GetRoute53ResourceRecordSets(id)`,
      `deleteZone` the `DeleteHostedZone` call, reached only after the
      batch went through. */
  method DeleteHostedZone(id: string, fetched: Result<seq<Route53Set>>,
                          send: (string, seq<Change>) -> Option<Error>, deleteZone: string -> Option<Error>)
    returns (err: Option<Error>, batch: seq<Change>)
    ensures fetched.Err? ==> err == Some(fetched.error) && batch == []
    ensures fetched.Ok? ==>
      |batch| == |WithoutNsSoa(fetched.value)| &&
      (forall i :: 0 <= i < |batch| ==> batch[i] == Change("DELETE", WithoutNsSoa(fetched.value)[i])) &&
      err == (if send(id, batch).Some? then send(id, batch) else deleteZone(id))
  {
    batch := [];
    if fetched.Err? {
      return Some(fetched.error), batch;
    }
    var sets := fetched.value;
    var deleteSets: seq<Route53Set> := [];
    for i := 0 to |sets|
      invariant deleteSets == WithoutNsSoa(sets[..i])
    {
      assert sets[..i + 1][..i] == sets[..i];
      var dnsType := if sets[i].dnsType.Some? then sets[i].dnsType.value else "";
      if dnsType == "NS" || dnsType == "SOA" {
        continue;
      }
      deleteSets := deleteSets + [sets[i]];
    }
    assert sets[..|sets|] == sets;
    err, batch := ChangeResourceRecordSets("DELETE", id, deleteSets, send);
    if err.Some? {
      return;
    }
    err := deleteZone(id);
  }

  /** The scan `RemoveDnsRecordSet` makes from index `from`: the index of the
      first record set that unmarshals and matches, None when none does, or
      the first unmarshalling error met before a match. */
  function FindMatch(sets: seq<Route53Set>, from: nat, unmarshal: Route53Set -> Result<AwsRecord>,
                     matches: (AwsRecord, ChangeOptions) -> bool, opts: ChangeOptions)
    : (r: Result<Option<nat>>)
    requires from <= |sets|
    ensures r.Ok? && r.value.Some? ==>
      from <= r.value.value < |sets| &&
      unmarshal(sets[r.value.value]).Ok? && matches(unmarshal(sets[r.value.value]).value, opts)
    ensures r.Ok? ==> forall j :: from <= j < (if r.value.Some? then r.value.value else |sets|) ==>
      unmarshal(sets[j]).Ok? && !matches(unmarshal(sets[j]).value, opts)
    ensures r.Err? ==> exists j :: (from <= j < |sets| && unmarshal(sets[j]) == Err(r.error) &&
      (forall i :: from <= i < j ==> unmarshal(sets[i]).Ok? && !matches(unmarshal(sets[i]).value, opts)))
    decreases |sets| - from
  {
    if from == |sets| then Ok(None)
    else match unmarshal(sets[from])
      case Err(e) => Err(e)
      case Ok(rec) =>
        if matches(rec, opts) then Ok(Some(from))
        else FindMatch(sets, from + 1, unmarshal, matches, opts)
  }

  /** The client's `RemoveDnsRecordSet`: deletes the first matching record set only, or
      answers not-found. `unmarshal` reads a Route 53 record set as an
      SdnsRecordSet and `matches` is its `match` method. */
  method ClientRemoveDnsRecordSet(zoneId: string, opts: ChangeOptions, fetched: Result<seq<Route53Set>>,
                            unmarshal: Route53Set -> Result<AwsRecord>, matches: (AwsRecord, ChangeOptions) -> bool,
                            send: (string, seq<Change>) -> Option<Error>)
    returns (err: Option<Error>)
    ensures fetched.Err? ==> err == Some(fetched.error)
    ensures fetched.Ok? ==>
      match FindMatch(fetched.value, 0, unmarshal, matches, opts)
      case Err(e) => err == Some(e)
      case Ok(None) => err == Some(CloudNotFound)
      case Ok(Some(k)) => err == send(zoneId, [Change("DELETE", fetched.value[k])])
  {
    if fetched.Err? {
      return Some(fetched.error);
    }
    var sets := fetched.value;
    for i := 0 to |sets|
      invariant FindMatch(sets, 0, unmarshal, matches, opts) == FindMatch(sets, i, unmarshal, matches, opts)
    {
      var srecordSet := unmarshal(sets[i]);
      if srecordSet.Err? {
        return Some(srecordSet.error);
      }
      if matches(srecordSet.value, opts) {
        var batch;
        err, batch := ChangeResourceRecordSets("DELETE", zoneId, [sets[i]], send);
        assert batch == [Change("DELETE", sets[i])];
        return;
      }
    }
    return Some(CloudNotFound);
  }

  // ---------------------------------------------------------------------
  // Hosted zones

  /** A VPC associated with a private hosted zone. */
  datatype AssociatedVpc = AssociatedVpc(vpcId: string, vpcRegion: string)

  /** The SDnsZoneCreateOptions fields CreateHostedZone reads. */
  datatype ZoneCreateOptions = ZoneCreateOptions(name: string, desc: string, zoneType: string,
                                                 vpcId: string, vpcRegionId: string)

  /** route53.HostedZoneConfig. */
  datatype HostedZoneConfig = HostedZoneConfig(comment: string, privateZone: bool)

  /** route53.CreateHostedZoneInput; an unset field is None. */
  datatype CreateHostedZoneInput = CreateHostedZoneInput(callerReference: string, name: string,
                                                         vpc: Option<AssociatedVpc>,
                                                         hostedZoneConfig: Option<HostedZoneConfig>)

  /** The request `CreateHostedZone` sends, `now` being the caller reference
      (`time.Now().String()`). The VPC is set only for a private zone; the
      HostedZoneConfig the source fills in is never put on the request. */
  function CreateHostedZoneRequest(opts: ZoneCreateOptions, now: string): (req: CreateHostedZoneInput)
    ensures req.callerReference == now && req.name == opts.name
    ensures req.vpc.Some? <==> opts.zoneType == PrivateZone
    ensures req.vpc.Some? ==> req.vpc.value == AssociatedVpc(opts.vpcId, opts.vpcRegionId)
    ensures req.hostedZoneConfig.None?
  {
    var isPrivate := opts.zoneType == PrivateZone;
    var config := HostedZoneConfig(opts.desc, isPrivate);
    CreateHostedZoneInput(now, opts.name,
                          if isPrivate then Some(AssociatedVpc(opts.vpcId, opts.vpcRegionId)) else None,
                          None)
  }

  /** Since the config is dropped, the description never reaches Route 53,
      and a public zone's request does not depend on the VPC options. */
  lemma CreateRequestIgnoresDescription(opts: ZoneCreateOptions, now: string, desc: string, vpcId: string)
    ensures CreateHostedZoneRequest(opts.(desc := desc), now) == CreateHostedZoneRequest(opts, now)
    ensures opts.zoneType != PrivateZone ==>
      CreateHostedZoneRequest(opts.(vpcId := vpcId), now) == CreateHostedZoneRequest(opts, now)
  {
  }

  /** An ShostedZone: the zone as listed, plus the record sets it has
      fetched so far (None while nothing was fetched). */
  class HostedZone {
    var id: string
    var name: string
    var config: HostedZoneConfig
    var vpcs: seq<AssociatedVpc>
    var recordSets: Option<seq<AwsRecord>>

    constructor (id: string, name: string, config: HostedZoneConfig, vpcs: seq<AssociatedVpc>)
      ensures this.id == id && this.name == name && this.config == config && this.vpcs == vpcs
      ensures recordSets == None
    {
      this.id := id;
      this.name := name;
      this.config := config;
      this.vpcs := vpcs;
      recordSets := None;
    }

    /** `GetZoneType`. */
    function GetZoneType(): (t: string)
      reads this
      ensures t == PrivateZone <==> config.privateZone
      ensures t == PublicZone <==> !config.privateZone
    {
      if config.privateZone then PrivateZone else PublicZone
    }

    /** `GetICloudVpcIds`: the VPC ids in stored order for a private zone;
        an empty list and not-supported for a public one. */
    method GetICloudVpcIds() returns (ids: seq<string>, err: Option<Error>)
      ensures config.privateZone ==>
        err.None? && |ids| == |vpcs| && forall k :: 0 <= k < |vpcs| ==> ids[k] == vpcs[k].vpcId
      ensures !config.privateZone ==> ids == [] && err == Some(CloudNotSupported)
    {
      ids := [];
      if config.privateZone {
        for i := 0 to |vpcs|
          invariant |ids| == i
          invariant forall k :: 0 <= k < i ==> ids[k] == vpcs[k].vpcId
        {
          ids := ids + [vpcs[i].vpcId];
        }
        return ids, None;
      }
      return ids, Some(CloudNotSupported);
    }

    /** `AddVpc`: `AssociateVPCWithHostedZone` on a private zone,
        not-supported on a public one. */
    method AddVpc(vpcId: string, vpcRegionId: string, associate: (string, string, string) -> Option<Error>)
      returns (err: Option<Error>)
      ensures config.privateZone ==> err == associate(vpcId, vpcRegionId, id)
      ensures !config.privateZone ==> err == Some(CloudNotSupported)
    {
      if config.privateZone {
        err := associate(vpcId, vpcRegionId, id);
      } else {
        err := Some(CloudNotSupported);
      }
    }

    /** `RemoveVpc`: `DisassociateVPCFromHostedZone` on a private zone,
        not-supported on a public one. */
    method RemoveVpc(vpcId: string, vpcRegionId: string, disassociate: (string, string, string) -> Option<Error>)
      returns (err: Option<Error>)
      ensures config.privateZone ==> err == disassociate(vpcId, vpcRegionId, id)
      ensures !config.privateZone ==> err == Some(CloudNotSupported)
    {
      if config.privateZone {
        err := disassociate(vpcId, vpcRegionId, id);
      } else {
        err := Some(CloudNotSupported);
      }
    }

    /** `GetIDnsRecordSets`: the record sets are fetched (by
        `GetSdnsRecordSets(id)`, the parameter `fetch`) only while none are
        held; a failed fetch keeps none. */
    method GetIDnsRecordSets(fetch: string -> Result<seq<AwsRecord>>) returns (r: Result<seq<AwsRecord>>)
      modifies this`recordSets
      ensures old(recordSets).Some? ==> r == Ok(old(recordSets).value) && recordSets == old(recordSets)
      ensures old(recordSets).None? && fetch(id).Err? ==> r == Err(fetch(id).error) && recordSets == None
      ensures old(recordSets).None? && fetch(id).Ok? ==> r == fetch(id) && recordSets == Some(fetch(id).value)
    {
      if recordSets.None? {
        var fetched := fetch(id);
        if fetched.Err? {
          return Err(fetched.error);
        }
        recordSets := Some(fetched.value);
      }
      r := Ok(recordSets.value);
    }

    /** `AddDnsRecordSet` on this zone. */
    method AddDnsRecordSet(opts: ChangeOptions, send: (string, seq<Change>) -> Option<Error>)
      returns (err: Option<Error>)
      ensures err == send(id, [Change("CREATE", Route53Set(opts.name, opts.ttl, Some(opts.dnsType),
                                                           Split(opts.value, '*')))])
    {
      var rrs;
      err, rrs := ClientAddDnsRecordSet(id, opts, send);
    }

    /** `RemoveDnsRecordSet` on this zone. */
    method RemoveDnsRecordSet(opts: ChangeOptions, fetched: Result<seq<Route53Set>>,
                              unmarshal: Route53Set -> Result<AwsRecord>, matches: (AwsRecord, ChangeOptions) -> bool,
                              send: (string, seq<Change>) -> Option<Error>)
      returns (err: Option<Error>)
      ensures fetched.Err? ==> err == Some(fetched.error)
      ensures fetched.Ok? ==>
        match FindMatch(fetched.value, 0, unmarshal, matches, opts)
        case Err(e) => err == Some(e)
        case Ok(None) => err == Some(CloudNotFound)
        case Ok(Some(k)) => err == send(id, [Change("DELETE", fetched.value[k])])
    {
      err := ClientRemoveDnsRecordSet(id, opts, fetched, unmarshal, matches, send);
    }
  }

  // ---------------------------------------------------------------------
  // Listing hosted zones

  /** One `ListHostedZones` response: its Marker echoes the request's
      marker, NextMarker is where the next page starts. */
  datatype ZonePage = ZonePage(zones: seq<string>, isTruncated: bool, marker: Option<string>, nextMarker: Option<string>)

  /** `GetHostedZones` as written: after a truncated page the loop asks
      again from the response's Marker. */
  function ListZonesAsWritten(list: string -> Result<ZonePage>, marker: string, fuel: nat): Result<seq<string>>
    decreases fuel
  {
    if fuel == 0 then Err(General("hosted zone listing did not end"))
    else match list(marker)
      case Err(e) => Err(e)
      case Ok(page) =>
        if !page.isTruncated then Ok(page.zones)
        else
          var next := if page.marker.Some? then page.marker.value else marker;
          match ListZonesAsWritten(list, next, fuel - 1)
          case Err(e) => Err(e)
          case Ok(rest) => Ok(page.zones + rest)
  }

  /** Once a page that echoes its marker is truncated, the listing as
      written asks for that same page again and again: it never ends,
      whatever the number of pages allowed. */
  lemma {:induction false} AsWrittenRepeatsPage(list: string -> Result<ZonePage>, marker: string, fuel: nat)
    requires list(marker).Ok? && list(marker).value.isTruncated
    requires list(marker).value.marker.None? || list(marker).value.marker == Some(marker)
    ensures ListZonesAsWritten(list, marker, fuel).Err?
  {
    if fuel > 0 {
      AsWrittenRepeatsPage(list, marker, fuel - 1);
    }
  }

  /** The listing with the next page taken from NextMarker. */
  function ListZones(list: string -> Result<ZonePage>, marker: string, fuel: nat): Result<seq<string>>
    decreases fuel
  {
    if fuel == 0 then Err(General("hosted zone listing did not end"))
    else match list(marker)
      case Err(e) => Err(e)
      case Ok(page) =>
        if !page.isTruncated then Ok(page.zones)
        else
          var next := if page.nextMarker.Some? then page.nextMarker.value else marker;
          match ListZones(list, next, fuel - 1)
          case Err(e) => Err(e)
          case Ok(rest) => Ok(page.zones + rest)
  }

  /** A listing of two pages, the first truncated and pointing at the second. */
  function TwoPages(m: string): Result<ZonePage>
  {
    if m == "" then Ok(ZonePage(["z1"], true, Some(""), Some("n")))
    else Ok(ZonePage(["z2"], false, Some(m), None))
  }

  /** On two pages the corrected listing returns both pages' zones in
      order, the one as written never ends. */
  lemma TwoPageListing(fuel: nat)
    requires fuel >= 2
    ensures ListZones(TwoPages, "", fuel) == Ok(["z1", "z2"])
    ensures ListZonesAsWritten(TwoPages, "", fuel).Err?
  {
    assert TwoPages("n") == Ok(ZonePage(["z2"], false, Some("n"), None));
    assert ListZones(TwoPages, "n", fuel - 1) == Ok(["z2"]);
    assert TwoPages("").value.nextMarker.value == "n";
    assert ["z1"] + ["z2"] == ["z1", "z2"];
    AsWrittenRepeatsPage(TwoPages, "", fuel);
  }

  /** Every zone of every page, in page order: a truncated page with a
      NextMarker is followed by the listing from there. */
  lemma ListZonesFollowsNextMarker(list: string -> Result<ZonePage>, marker: string, fuel: nat)
    requires fuel > 0 && list(marker).Ok? && list(marker).value.isTruncated
    requires list(marker).value.nextMarker.Some?
    ensures var page := list(marker).value;
      var rest := ListZones(list, page.nextMarker.value, fuel - 1);
      (rest.Err? ==> ListZones(list, marker, fuel) == rest) &&
      (rest.Ok? ==> ListZones(list, marker, fuel) == Ok(page.zones + rest.value))
  {
  }

  /** `GetHostedZones`, with the marker taken from NextMarker. */
  method GetHostedZones(list: string -> Result<ZonePage>, fuel: nat) returns (r: Result<seq<string>>)
    ensures r == ListZones(list, "", fuel)
  {
    var result: seq<string> := [];
    var marker := "";
    var remaining := fuel;
    ghost var whole := ListZones(list, "", fuel);
    if whole.Ok? {
      assert [] + whole.value == whole.value;
    }
    while true
      invariant whole == (match ListZones(list, marker, remaining)
                          case Err(e) => Err(e)
                          case Ok(rest) => Ok(result + rest))
      decreases remaining
    {
      if remaining == 0 {
        return Err(General("hosted zone listing did not end"));
      }
      var ret := list(marker);
      if ret.Err? {
        return Err(ret.error);
      }
      ghost var before := result;
      result := result + ret.value.zones;
      if !ret.value.isTruncated {
        break;
      }
      var next := if ret.value.nextMarker.Some? then ret.value.nextMarker.value else marker;
      ghost var tail := ListZones(list, next, remaining - 1);
      if tail.Ok? {
        assert before + (ret.value.zones + tail.value) == result + tail.value;
      }
      marker := next;
      remaining := remaining - 1;
    }
    r := Ok(result);
  }
}
