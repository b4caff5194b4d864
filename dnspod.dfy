// The Tencent Cloud DNSPod provider (pkg/multicloud/qcloud/dnspod_record.go
// and dnspod_domain.go): record creation with the TTL clamp and sub-domain
// rule, the record `match`, removal, and the paged listings. Every `cns`
// API call is a function parameter.
module DnsPod {
  import opened Wrappers
  import opened GoStrings
  import opened DnsRecordDiff

  // ---------------------------------------------------------------------
  // Records

  /** An SDnsRecord as listed, with the domain it was listed from. */
  datatype DnsPodRecord = DnsPodRecord(domainName: string, id: int, ttl: int, value: string, enabled: int,
                                       status: string, name: string, dnsType: string)

  /** `GetDnsName`: the record's name followed directly by the domain name. */
  function GetDnsName(r: DnsPodRecord): (n: string)
    ensures |n| == |r.name| + |r.domainName|
    ensures n[..|r.name|] == r.name && n[|r.name|..] == r.domainName
  {
    r.name + r.domainName
  }

  /** `GetDnsIdentify`: the decimal record id. */
  function GetDnsIdentify(r: DnsPodRecord): string
  {
    Itoa(r.id)
  }

  /** `GetPolicyType` and `GetPolicyParams`: DNSPod records carry no policy. */
  function GetPolicy(r: DnsPodRecord): (string, Option<Params>)
  {
    (PolicySimple, None)
  }

  /** SDnsRecordSetChangeOptions, the fields DNSPod reads. */
  datatype ChangeOptions = ChangeOptions(name: string, value: string, ttl: int, dnsType: string, identify: string)

  /** The options are passed by pointer and the provider writes into them. */
  class ChangeOptionsRef {
    var opts: ChangeOptions

    constructor (opts: ChangeOptions)
      ensures this.opts == opts
    {
      this.opts := opts;
    }
  }

  /** `match`: name, value, TTL, type and identify all agree. */
  predicate Match(r: DnsPodRecord, change: ChangeOptions)
  {
    change.name == GetDnsName(r) && change.value == r.value && change.ttl == r.ttl &&
    change.dnsType == r.dnsType && change.identify == GetDnsIdentify(r)
  }

  /** Two records with different ids never both match one change, and a
      change matches a record only through that record's own decimal id. */
  lemma MatchIdentifiesRecord(r1: DnsPodRecord, r2: DnsPodRecord, change: ChangeOptions)
    requires Match(r1, change) && Match(r2, change)
    ensures r1.id == r2.id
  {
    ItoaInjective(r1.id, r2.id);
  }

  const MinTtl: int := 600
  const MaxTtl: int := 604800

  /** The sub-domain a record is created under: the name without the
      ".domain" suffix, or "@" for the apex. */
  function SubDomain(name: string, domainName: string): (s: string)
    ensures s != ""
    ensures HasSuffix(name, "." + domainName) && |name| > |domainName| + 1 ==> s + "." + domainName == name
    ensures HasSuffix(name, "." + domainName) && |name| == |domainName| + 1 ==> s == "@"
    ensures !HasSuffix(name, "." + domainName) ==> s == (if name == "" then "@" else name)
  {
    var sub := TrimSuffix(name, "." + domainName);
    if |sub| < 1 then "@" else sub
  }

  /** A record created under its sub-domain is listed with that sub-domain
      as its name, and GetDnsName then glues the domain on without a dot:
      the change that created it never matches it again. */
  lemma CreatedRecordDoesNotMatch(change: ChangeOptions, domainName: string, listed: DnsPodRecord)
    requires HasSuffix(change.name, "." + domainName)
    requires listed.name == SubDomain(change.name, domainName) && listed.domainName == domainName
    ensures !Match(listed, change)
  {
    if |change.name| == |domainName| + 1 {
      assert |GetDnsName(listed)| == 1 + |domainName|;
      assert GetDnsName(listed)[0] == '@';
      assert change.name[0] == '.' by {
        assert change.name[|change.name| - |"." + domainName|..] == "." + domainName;
      }
    } else {
      assert |GetDnsName(listed)| + 1 == |change.name|;
    }
  }

  /** A TTL moved into [600, 604800]. */
  function ClampTtl(t: int): (c: int)
    ensures MinTtl <= c <= MaxTtl
    ensures MinTtl <= t <= MaxTtl ==> c == t
    ensures t < MinTtl ==> c == MinTtl
    ensures t > MaxTtl ==> c == MaxTtl
  {
    if t < MinTtl then MinTtl else if t > MaxTtl then MaxTtl else t
  }

  /** `CreateDnsRecord`: clamps the TTL into [600, 604800], writing the
      clamped value back into the caller's options, and sends RecordCreate
      under the sub-domain. `request(action, params)` is the API call. */
  method CreateDnsRecord(ref: ChangeOptionsRef, domainName: string,
                         request: (string, map<string, string>) -> Option<Error>)
    returns (err: Option<Error>, params: map<string, string>)
    modifies ref
    ensures ref.opts == old(ref.opts).(ttl := ClampTtl(old(ref.opts.ttl)))
    ensures params == CreateParams(ref.opts, domainName)
    ensures err == request("RecordCreate", params)
  {
    var recordline := "默认";
    if ref.opts.ttl < MinTtl {
      ref.opts := ref.opts.(ttl := MinTtl);
    }
    if ref.opts.ttl > MaxTtl {
      ref.opts := ref.opts.(ttl := MaxTtl);
    }
    var subDomain := TrimSuffix(ref.opts.name, "." + domainName);
    if |subDomain| < 1 {
      subDomain := "@";
    }
    params := map["domain" := domainName, "subDomain" := subDomain, "recordType" := ref.opts.dnsType,
                  "ttl" := Itoa(ref.opts.ttl), "value" := ref.opts.value, "recordLine" := recordline];
    err := request("RecordCreate", params);
  }

  /** `AddDnsRecordSet`: one CreateDnsRecord per '*'-separated value, in
      order, stopping at the first error. `values` are the values tried;
      the options are left holding the last one, with the clamped TTL. */
  method AddDnsRecordSet(ref: ChangeOptionsRef, domainName: string,
                         request: (string, map<string, string>) -> Option<Error>)
    returns (err: Option<Error>, values: seq<string>)
    modifies ref
    ensures var pieces := Split(old(ref.opts.value), '*');
      1 <= |values| <= |pieces| && values == pieces[..|values|] &&
      ref.opts.value == values[|values| - 1] &&
      (err.None? ==> values == pieces)
    ensures ref.opts == old(ref.opts).(value := ref.opts.value, ttl := ClampTtl(old(ref.opts.ttl)))
    ensures forall k :: 0 <= k < |values| - 1 ==>
      request("RecordCreate", CreateParams(ref.opts.(value := values[k]), domainName)).None?
    ensures err == request("RecordCreate", CreateParams(ref.opts, domainName))
  {
    var pieces := Split(ref.opts.value, '*');
    ghost var base := ref.opts.(ttl := ClampTtl(ref.opts.ttl));
    err, values := CreateEach(ref, base, pieces, domainName, request,
                              o => request("RecordCreate", CreateParams(o, domainName)));
    SentBefore(request, base, values, domainName);
  }

  /** The loop of `AddDnsRecordSet` over the pieces, with `base` the
      options with their TTL clamped. */
  method CreateEach(ref: ChangeOptionsRef, ghost base: ChangeOptions, pieces: seq<string>, domainName: string,
                    request: (string, map<string, string>) -> Option<Error>, send: ChangeOptions -> Option<Error>)
    returns (err: Option<Error>, values: seq<string>)
    requires forall o :: send(o) == request("RecordCreate", CreateParams(o, domainName))
    requires |pieces| >= 1
    requires ref.opts.(ttl := ClampTtl(ref.opts.ttl)) == base.(value := ref.opts.value)
    modifies ref
    ensures 1 <= |values| <= |pieces| && values == pieces[..|values|]
    ensures ref.opts == base.(value := values[|values| - 1])
    ensures err.None? ==> values == pieces
    ensures forall k :: 0 <= k < |values| - 1 ==> send(base.(value := values[k])).None?
    ensures err == send(base.(value := values[|values| - 1]))
  {
    values := [];
    var i := 0;
    while true
      invariant 0 <= i < |pieces|
      invariant values == pieces[..i]
      invariant ref.opts.(ttl := ClampTtl(ref.opts.ttl)) == base.(value := ref.opts.value)
      invariant forall k :: 0 <= k < i ==> send(base.(value := pieces[k])).None?
      decreases |pieces| - i
    {
      err := TryValue(ref, base, pieces[i], domainName, request);
      values := values + [pieces[i]];
      if err.Some? || i == |pieces| - 1 {
        assert values == pieces[..i + 1];
        if err.None? {
          assert pieces[..|pieces|] == pieces;
        }
        return;
      }
      i := i + 1;
    }
  }

  /** The create of options `opts` went through. */
  predicate Created(request: (string, map<string, string>) -> Option<Error>, opts: ChangeOptions, domainName: string)
  {
    request("RecordCreate", CreateParams(opts, domainName)).None?
  }

  /** One pass of the loop: the options take the value, and the create is
      sent with the clamped TTL. */
  method TryValue(ref: ChangeOptionsRef, ghost base: ChangeOptions, v: string, domainName: string,
                  request: (string, map<string, string>) -> Option<Error>)
    returns (err: Option<Error>)
    requires ref.opts.(ttl := ClampTtl(ref.opts.ttl)) == base.(value := ref.opts.value)
    modifies ref
    ensures ref.opts == base.(value := v)
    ensures err == request("RecordCreate", CreateParams(base.(value := v), domainName))
  {
    ref.opts := ref.opts.(value := v);
    var params;
    err, params := CreateDnsRecord(ref, domainName, request);
  }

  /** The creates before the last value, restated over the final options. */
  lemma SentBefore(request: (string, map<string, string>) -> Option<Error>, base: ChangeOptions,
                   values: seq<string>, domainName: string)
    requires |values| >= 1
    requires forall k :: 0 <= k < |values| - 1 ==> Created(request, base.(value := values[k]), domainName)
    ensures forall k :: 0 <= k < |values| - 1 ==>
      Created(request, base.(value := values[|values| - 1]).(value := values[k]), domainName)
  {
    forall k | 0 <= k < |values| - 1
      ensures Created(request, base.(value := values[|values| - 1]).(value := values[k]), domainName)
    {
      assert base.(value := values[|values| - 1]).(value := values[k]) == base.(value := values[k]);
    }
  }

  /** The RecordCreate parameters for options whose TTL is clamped. */
  function CreateParams(opts: ChangeOptions, domainName: string): map<string, string>
  {
    map["domain" := domainName, "subDomain" := SubDomain(opts.name, domainName), "recordType" := opts.dnsType,
        "ttl" := Itoa(opts.ttl), "value" := opts.value, "recordLine" := "默认"]
  }

  /** The record goes under its sub-domain on the default line ("默认"),
      with the TTL in decimal. */
  lemma CreateParamsFields(opts: ChangeOptions, domainName: string)
    requires MinTtl <= opts.ttl <= MaxTtl
    ensures var params := CreateParams(opts, domainName);
      params.Keys == {"domain", "subDomain", "recordType", "ttl", "value", "recordLine"} &&
      params["domain"] == domainName && params["subDomain"] == SubDomain(opts.name, domainName) &&
      params["recordType"] == opts.dnsType && params["value"] == opts.value &&
      Atoi(params["ttl"]) == Some(opts.ttl) && params["recordLine"] == "默认"
  {
    AtoiItoa(opts.ttl);
  }

  /** The ids of the matching records, in list order. */
  function MatchingIds(records: seq<DnsPodRecord>, change: ChangeOptions): (ids: seq<int>)
    ensures |ids| <= |records|
  {
    if records == [] then []
    else
      var last := records[|records| - 1];
      MatchingIds(records[..|records| - 1], change) + (if Match(last, change) then [last.id] else [])
  }

  /** MatchingIds holds the ids of exactly the matching records. */
  lemma {:induction false} MatchingIdsExact(records: seq<DnsPodRecord>, change: ChangeOptions)
    ensures forall id :: id in MatchingIds(records, change) <==>
      exists k :: 0 <= k < |records| && records[k].id == id && Match(records[k], change)
  {
    if records != [] {
      var init := records[..|records| - 1];
      MatchingIdsExact(init, change);
      forall id | id in MatchingIds(records, change)
        ensures exists k :: 0 <= k < |records| && records[k].id == id && Match(records[k], change)
      {
        if id in MatchingIds(init, change) {
          var k :| 0 <= k < |init| && init[k].id == id && Match(init[k], change);
          assert records[k] == init[k];
        } else {
          assert records[|records| - 1].id == id;
        }
      }
      forall id | exists k :: 0 <= k < |records| && records[k].id == id && Match(records[k], change)
        ensures id in MatchingIds(records, change)
      {
        var k :| 0 <= k < |records| && records[k].id == id && Match(records[k], change);
        if k < |records| - 1 {
          assert init[k] == records[k];
        }
      }
    }
  }

  /** `RemoveDnsRecordSet`: lists the domain's records (`listed`), deletes
      every matching one in order with `deleteRecord(id, domain)` and stops
      at the first failed delete; `attempted` are the ids it tried. Even
      when everything went through the answer is not-found. */
  method RemoveDnsRecordSet(domainName: string, change: ChangeOptions, listed: Result<seq<DnsPodRecord>>,
                            deleteRecord: (int, string) -> Option<Error>)
    returns (err: Option<Error>, attempted: seq<int>)
    ensures err.Some?
    ensures listed.Err? ==> err == Some(listed.error) && attempted == []
    ensures listed.Ok? ==>
      var ids := MatchingIds(listed.value, change);
      |attempted| <= |ids| && attempted == ids[..|attempted|]
    ensures listed.Ok? ==>
      forall k :: 0 <= k < |attempted| - 1 ==> deleteRecord(attempted[k], domainName).None?
    ensures listed.Ok? && attempted == MatchingIds(listed.value, change) &&
            (forall k :: 0 <= k < |attempted| ==> deleteRecord(attempted[k], domainName).None?) ==>
      err == Some(CloudNotFound)
    ensures listed.Ok? && |attempted| > 0 && deleteRecord(attempted[|attempted| - 1], domainName).Some? ==>
      err == deleteRecord(attempted[|attempted| - 1], domainName)
    ensures listed.Ok? && attempted != MatchingIds(listed.value, change) ==>
      |attempted| > 0 && deleteRecord(attempted[|attempted| - 1], domainName).Some?
  {
    attempted := [];
    if listed.Err? {
      return Some(listed.error), attempted;
    }
    var records := listed.value;
    for i := 0 to |records|
      invariant attempted == MatchingIds(records[..i], change)
      invariant forall k :: 0 <= k < |attempted| ==> deleteRecord(attempted[k], domainName).None?
    {
      assert records[..i + 1][..i] == records[..i];
      if Match(records[i], change) {
        attempted := attempted + [records[i].id];
        var e := deleteRecord(records[i].id, domainName);
        if e.Some? {
          assert attempted[|attempted| - 1] == records[i].id;
          assert attempted == MatchingIds(records[..i + 1], change);
          PrefixOfMatching(records, i + 1, change);
          return e, attempted;
        }
      }
    }
    assert records[..|records|] == records;
    err := Some(CloudNotFound);
  }

  /** The matching ids of a prefix are a prefix of the matching ids. */
  lemma {:induction false} PrefixOfMatching(records: seq<DnsPodRecord>, i: nat, change: ChangeOptions)
    requires i <= |records|
    ensures var ids := MatchingIds(records, change);
      |MatchingIds(records[..i], change)| <= |ids| &&
      MatchingIds(records[..i], change) == ids[..|MatchingIds(records[..i], change)|]
    decreases |records|
  {
    if i < |records| {
      var init := records[..|records| - 1];
      assert records[..i] == init[..i];
      PrefixOfMatching(init, i, change);
    } else {
      assert records[..i] == records;
    }
  }

  // ---------------------------------------------------------------------
  // Listing records

  /** One RecordList response: `info.record_total` as text, and the page. */
  datatype RecordPage = RecordPage(recordTotal: string, records: seq<DnsPodRecord>)

  /** The listing from `offset` on: ask for the page at the number of
      records gathered so far and stop once record_total is not above it.
      `list(domain, offset)` is the API call. At most `fuel` pages. */
  function ListDnsRecords(list: (string, string) -> Result<RecordPage>, domainName: string, offset: int, fuel: nat)
    : Result<seq<DnsPodRecord>>
    decreases fuel
  {
    if fuel == 0 then Err(General("record listing did not end"))
    else match list(domainName, Itoa(offset))
      case Err(e) => Err(e)
      case Ok(page) =>
        match Atoi(page.recordTotal)
        case None => Err(InputParameter("record_total"))
        case Some(total) =>
          if total <= offset then Ok([])
          else Prepend(page.records, ListDnsRecords(list, domainName, offset + |page.records|, fuel - 1))
  }

  /** An empty page while record_total is still above the offset asks for
      the same offset again: the listing never ends. */
  lemma {:induction false} EmptyPageRepeats(list: (string, string) -> Result<RecordPage>, domainName: string,
                                            offset: int, fuel: nat)
    requires list(domainName, Itoa(offset)).Ok? && list(domainName, Itoa(offset)).value.records == []
    requires Atoi(list(domainName, Itoa(offset)).value.recordTotal).Some?
    requires Atoi(list(domainName, Itoa(offset)).value.recordTotal).value > offset
    ensures ListDnsRecords(list, domainName, offset, fuel).Err?
  {
    if fuel > 0 {
      EmptyPageRepeats(list, domainName, offset, fuel - 1);
    }
  }

  /** Once the offset reaches record_total, the page just read is dropped
      and the listing ends. */
  lemma StopsAtTotal(list: (string, string) -> Result<RecordPage>, domainName: string, offset: int, fuel: nat)
    requires fuel > 0 && list(domainName, Itoa(offset)).Ok?
    requires Atoi(list(domainName, Itoa(offset)).value.recordTotal).Some?
    requires Atoi(list(domainName, Itoa(offset)).value.recordTotal).value <= offset
    ensures ListDnsRecords(list, domainName, offset, fuel) == Ok([])
  {
  }

  /** `GetDnsRecords`: every page, then each record tagged with the domain. */
  method GetDnsRecords(domainName: string, list: (string, string) -> Result<RecordPage>, fuel: nat)
    returns (r: Result<seq<DnsPodRecord>>)
    ensures ListDnsRecords(list, domainName, 0, fuel).Err? ==> r == ListDnsRecords(list, domainName, 0, fuel)
    ensures ListDnsRecords(list, domainName, 0, fuel).Ok? ==>
      r.Ok? && var listed := ListDnsRecords(list, domainName, 0, fuel).value;
      |r.value| == |listed| &&
      forall k :: 0 <= k < |listed| ==> r.value[k] == listed[k].(domainName := domainName)
  {
    var total := 0;
    var result: seq<DnsPodRecord> := [];
    var remaining := fuel;
    PrependNothing(ListDnsRecords(list, domainName, 0, fuel));
    while true
      invariant ListDnsRecords(list, domainName, 0, fuel) ==
        Prepend(result, ListDnsRecords(list, domainName, total, remaining))
      decreases remaining
    {
      if remaining == 0 {
        return Err(General("record listing did not end"));
      }
      var resp := list(domainName, Itoa(total));
      if resp.Err? {
        return Err(resp.error);
      }
      var recordTotal := Atoi(resp.value.recordTotal);
      if recordTotal.None? {
        return Err(InputParameter("record_total"));
      }
      if recordTotal.value <= total {
        assert result + [] == result;
        break;
      }
      PrependTwice(result, resp.value.records, ListDnsRecords(list, domainName, total + |resp.value.records|, remaining - 1));
      total := total + |resp.value.records|;
      result := result + resp.value.records;
      remaining := remaining - 1;
    }
    var tagged := TagRecords(result, domainName);
    r := Ok(tagged);
  }

  /** The loop after the listing: every record gets the domain's name. */
  method TagRecords(records: seq<DnsPodRecord>, domainName: string) returns (tagged: seq<DnsPodRecord>)
    ensures |tagged| == |records|
    ensures forall k :: 0 <= k < |records| ==> tagged[k] == records[k].(domainName := domainName)
  {
    tagged := records;
    for i := 0 to |tagged|
      invariant |tagged| == |records|
      invariant forall k :: 0 <= k < i ==> tagged[k] == records[k].(domainName := domainName)
      invariant forall k :: i <= k < |tagged| ==> tagged[k] == records[k]
    {
      tagged := tagged[i := tagged[i].(domainName := domainName)];
    }
  }

  // ---------------------------------------------------------------------
  // Domains

  /** An SDomian, the fields the provider reads. */
  datatype Domain = Domain(id: int, name: string, status: string)

  /** `GetId` and `GetGlobalId`: the decimal domain id. */
  function DomainGlobalId(d: Domain): string
  {
    Itoa(d.id)
  }

  /** `GetZoneType`. */
  function DomainZoneType(d: Domain): string
  {
    PublicZone
  }

  /** `GetICloudVpcIds`, `AddVpc` and `RemoveVpc`: DNSPod domains have no VPCs. */
  function DomainVpcIds(d: Domain): Result<seq<string>>
  {
    Ok([])
  }

  function DomainAddVpc(d: Domain, vpcId: string, vpcRegionId: string): Option<Error>
  {
    Some(CloudNotSupported)
  }

  function DomainRemoveVpc(d: Domain, vpcId: string, vpcRegionId: string): Option<Error>
  {
    Some(CloudNotSupported)
  }

  /** Every DNSPod domain is a public zone without VPCs. */
  lemma DomainIsPublic(d: Domain, vpcId: string, vpcRegionId: string)
    ensures DomainZoneType(d) == PublicZone
    ensures DomainVpcIds(d) == Ok([])
    ensures DomainAddVpc(d, vpcId, vpcRegionId) == Some(CloudNotSupported)
    ensures DomainRemoveVpc(d, vpcId, vpcRegionId) == Some(CloudNotSupported)
  {
  }

  /** One DomainList response: `info.domain_total` and the page. */
  datatype DomainPage = DomainPage(domainTotal: int, domains: seq<Domain>)

  /** The domain listing from `offset` on, at most `fuel` pages: the total
      is checked before the page is taken. */
  function ListDomains(list: string -> Result<DomainPage>, offset: int, fuel: nat): Result<seq<Domain>>
    decreases fuel
  {
    if fuel == 0 then Err(General("domain listing did not end"))
    else match list(Itoa(offset))
      case Err(e) => Err(e)
      case Ok(page) =>
        if page.domainTotal <= offset then Ok([])
        else match ListDomains(list, offset + |page.domains|, fuel - 1)
          case Err(e) => Err(e)
          case Ok(rest) => Ok(page.domains + rest)
  }

  /** A first page with more domains than domain_total still arrives whole:
      only the total checked before it decides. */
  lemma TotalCheckedBeforeAppend(list: string -> Result<DomainPage>, fuel: nat)
    requires fuel >= 2 && list("0").Ok? && list("0").value.domainTotal > 0
    requires list(Itoa(|list("0").value.domains|)).Ok?
    requires list(Itoa(|list("0").value.domains|)).value.domainTotal <= |list("0").value.domains|
    ensures ListDomains(list, 0, fuel) == Ok(list("0").value.domains)
  {
    assert Itoa(0) == "0";
    var n := |list("0").value.domains|;
    assert ListDomains(list, n, fuel - 1) == Ok([]);
    assert list("0").value.domains + [] == list("0").value.domains;
  }

  /** `GetDomains`: the paged listing. */
  method GetDomains(list: string -> Result<DomainPage>, fuel: nat) returns (r: Result<seq<Domain>>)
    ensures r == ListDomains(list, 0, fuel)
  {
    var total := 0;
    var result: seq<Domain> := [];
    var remaining := fuel;
    ghost var whole := ListDomains(list, 0, fuel);
    if whole.Ok? {
      assert [] + whole.value == whole.value;
    }
    while true
      invariant whole == (match ListDomains(list, total, remaining)
                          case Err(e) => Err(e)
                          case Ok(rest) => Ok(result + rest))
      decreases remaining
    {
      if remaining == 0 {
        return Err(General("domain listing did not end"));
      }
      var resp := list(Itoa(total));
      if resp.Err? {
        return Err(resp.error);
      }
      if resp.value.domainTotal <= total {
        assert result + [] == result;
        break;
      }
      ghost var tail := ListDomains(list, total + |resp.value.domains|, remaining - 1);
      if tail.Ok? {
        assert result + (resp.value.domains + tail.value) == (result + resp.value.domains) + tail.value;
      }
      total := total + |resp.value.domains|;
      result := result + resp.value.domains;
      remaining := remaining - 1;
    }
    r := Ok(result);
  }

  /** The index of the first domain satisfying `p`. */
  function FirstDomain(domains: seq<Domain>, p: Domain -> bool, from: nat): (k: Option<nat>)
    requires from <= |domains|
    ensures k.Some? ==> from <= k.value < |domains| && p(domains[k.value]) &&
                        forall j :: from <= j < k.value ==> !p(domains[j])
    ensures k.None? ==> forall j :: from <= j < |domains| ==> !p(domains[j])
    decreases |domains| - from
  {
    if from == |domains| then None
    else if p(domains[from]) then Some(from)
    else FirstDomain(domains, p, from + 1)
  }

  /** The first domain satisfying `p` in a listing, or not-found. */
  method FindDomain(domains: seq<Domain>, p: Domain -> bool) returns (r: Result<Domain>)
    ensures match FirstDomain(domains, p, 0)
      case Some(k) => r == Ok(domains[k])
      case None => r == Err(CloudNotFound)
  {
    for i := 0 to |domains|
      invariant FirstDomain(domains, p, 0) == FirstDomain(domains, p, i)
    {
      if p(domains[i]) {
        return Ok(domains[i]);
      }
    }
    return Err(CloudNotFound);
  }

  /** `GetDomainById`: the listed domain whose decimal id is `domainId`. */
  method GetDomainById(listed: Result<seq<Domain>>, domainId: string) returns (r: Result<Domain>)
    ensures listed.Err? ==> r == Err(listed.error)
    ensures listed.Ok? ==>
      match FirstDomain(listed.value, d => DomainGlobalId(d) == domainId, 0)
      case Some(k) => r == Ok(listed.value[k])
      case None => r == Err(CloudNotFound)
  {
    if listed.Err? {
      return Err(listed.error);
    }
    r := FindDomain(listed.value, d => DomainGlobalId(d) == domainId);
  }

  /** Looking a domain up by the decimal form of its id finds the first
      domain with exactly that id. */
  lemma LookupByDecimalId(domains: seq<Domain>, n: int)
    ensures var k := FirstDomain(domains, d => DomainGlobalId(d) == Itoa(n), 0);
      (k.Some? ==> domains[k.value].id == n && forall j :: 0 <= j < k.value ==> domains[j].id != n) &&
      (k.None? ==> forall j :: 0 <= j < |domains| ==> domains[j].id != n)
  {
    forall a: int | Itoa(a) == Itoa(n) ensures a == n {
      ItoaInjective(a, n);
    }
  }

  /** `CreateDomian`: DomainCreate, then the first listed domain of that
      name (`listed` is the listing made after the create call). */
  method CreateDomian(domainName: string, create: string -> Option<Error>, listed: Result<seq<Domain>>)
    returns (r: Result<Domain>)
    ensures create(domainName).Some? ==> r == Err(create(domainName).value)
    ensures create(domainName).None? && listed.Err? ==> r == Err(listed.error)
    ensures create(domainName).None? && listed.Ok? ==>
      match FirstDomain(listed.value, (d: Domain) => d.name == domainName, 0)
      case Some(k) => r == Ok(listed.value[k]) && r.value.name == domainName
      case None => r == Err(CloudNotFound)
  {
    var e := create(domainName);
    if e.Some? {
      return Err(e.value);
    }
    if listed.Err? {
      return Err(listed.error);
    }
    r := FindDomain(listed.value, (d: Domain) => d.name == domainName);
  }
}
