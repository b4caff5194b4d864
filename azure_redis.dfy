// Azure Cache for Redis instances (pkg/multicloud/azure/redis.go): how the
// provider's provisioning state, SKU, instance list and subnet are read as
// the elastic-cache attributes of the cloud layer.
module AzureRedis {
  import opened Wrappers
  import opened GoStrings

  // Elastic-cache statuses, architectures, node types and network types of
  // the compute API.
  const StatusDeploying := "deploying"
  const StatusDeleting := "deleting"
  const StatusInactive := "inactive"
  const StatusCreateFailed := "create_failed"
  const StatusRunning := "running"
  const StatusChangeFailed := "change_failed"
  const StatusChanging := "changing"

  const ArchCluster := "cluster"
  const ArchSingle := "single"

  const NodeNames: seq<string> := ["single", "double", "three", "four", "five", "six"]

  const NetworkVpc := "vpc"
  const NetworkClassic := "classic"

  datatype Instance = Instance(sslPort: int, shardId: int, isMaster: bool)

  /** What the modelled getters read of an `SRedisCache`. */
  datatype RedisCache = RedisCache(
    id: string,
    provisioningState: string,
    skuName: string,
    skuFamily: string,
    skuCapacity: int,
    instances: seq<Instance>,
    shardCount: int,
    subnetId: string)

  /** The provisioning states `GetStatus` names, each with its status, in
      the order of its switch. */
  const StateStatus: seq<(string, string)> := [
    ("Creating", StatusDeploying),
    ("Deleting", StatusDeleting),
    ("Disabled", StatusInactive),
    ("Failed", StatusCreateFailed),
    ("Linking", StatusRunning),
    ("Provisioning", StatusRunning),
    ("RecoveringScaleFailure", StatusChangeFailed),
    ("Scaling", StatusChanging),
    ("Succeeded", StatusRunning),
    ("Unlinking", StatusRunning),
    ("Unprovisioning", StatusRunning),
    ("Updating", StatusRunning)]

  /** The status the first entry of `table` for `state` gives. */
  function LookupState(table: seq<(string, string)>, state: string): (r: Option<string>)
    ensures r.None? <==> forall k :: 0 <= k < |table| ==> table[k].0 != state
    ensures r.Some? ==> exists k :: 0 <= k < |table| && table[k] == (state, r.value)
  {
    if |table| == 0 then None
    else if table[0].0 == state then Some(table[0].1)
    else
      var r := LookupState(table[1..], state);
      assert r.Some? ==> exists k :: 0 <= k < |table[1..]| && table[1..][k] == (state, r.value);
      r
  }

  /** `GetStatus`: each listed state has its status; any other state is
      passed on in lower case. */
  function GetStatus(c: RedisCache): (s: string)
    ensures LookupState(StateStatus, c.provisioningState).None? ==> s == ToLower(c.provisioningState)
    ensures forall k :: 0 <= k < |StateStatus| && StateStatus[k].0 == c.provisioningState ==>
      s == StateStatus[k].1
  {
    StateStatusKeysDistinct();
    match LookupState(StateStatus, c.provisioningState)
    case Some(status) => status
    case None => ToLower(c.provisioningState)
  }

  /** No state is listed twice, so the switch's order does not matter. */
  lemma StateStatusKeysDistinct()
    ensures forall j, k :: 0 <= j < k < |StateStatus| ==> StateStatus[j].0 != StateStatus[k].0
  {
    forall j, k | 0 <= j < k < |StateStatus|
      ensures StateStatus[j].0 != StateStatus[k].0
    {
      var a, b := StateStatus[j].0, StateStatus[k].0;
      assert |a| != |b| || a[0] != b[0] || a[1] != b[1] || a[2] != b[2];
    }
  }

  /** Every status of the table is written in lower case. */
  lemma StatusesAreLowerCase()
    ensures forall k :: 0 <= k < |StateStatus| ==> NoUpperCase(StateStatus[k].1)
  {
    assert NoUpperCase(StatusDeploying) && NoUpperCase(StatusDeleting) && NoUpperCase(StatusInactive);
    assert NoUpperCase(StatusCreateFailed) && NoUpperCase(StatusRunning) && NoUpperCase(StatusChangeFailed);
    assert NoUpperCase(StatusChanging);
  }

  /** Whatever the provider reports, the status is in lower case. */
  lemma StatusIsLowerCase(c: RedisCache)
    ensures ToLower(GetStatus(c)) == GetStatus(c)
  {
    var r := LookupState(StateStatus, c.provisioningState);
    if r.None? {
      ToLowerIdempotent(c.provisioningState);
    } else {
      var k :| 0 <= k < |StateStatus| && StateStatus[k] == (c.provisioningState, r.value);
      assert GetStatus(c) == StateStatus[k].1;
      StatusesAreLowerCase();
      ToLowerKeeps(StateStatus[k].1);
    }
  }

  /** `GetGlobalId`: the resource id in lower case. */
  function GetGlobalId(c: RedisCache): (id: string)
    ensures |id| == |c.id|
    ensures forall k :: 0 <= k < |id| ==> id[k] == LowerChar(c.id[k])
  {
    ToLower(c.id)
  }

  /** `GetNetworkId`: the subnet id in lower case. */
  function GetNetworkId(c: RedisCache): (id: string)
    ensures |id| == |c.subnetId|
    ensures forall k :: 0 <= k < |id| ==> id[k] == LowerChar(c.subnetId[k])
  {
    ToLower(c.subnetId)
  }

  /** Ids that differ only in the case of their letters are one cache: the
      global id is insensitive to case and already its own lower case. */
  lemma GlobalIdIgnoresCase(c: RedisCache, d: RedisCache)
    requires |c.id| == |d.id| && forall k :: 0 <= k < |c.id| ==> LowerChar(c.id[k]) == LowerChar(d.id[k])
    ensures GetGlobalId(c) == GetGlobalId(d)
    ensures GetGlobalId(c.(id := GetGlobalId(c))) == GetGlobalId(c)
  {
    ToLowerIdempotent(c.id);
  }

  /** `GetNetworkType`: in a VPC exactly when the cache has a subnet. */
  function GetNetworkType(c: RedisCache): (t: string)
    ensures t == NetworkVpc <==> |c.subnetId| > 0
    ensures t == NetworkClassic <==> |c.subnetId| == 0
  {
    if |c.subnetId| > 0 then NetworkVpc else NetworkClassic
  }

  /** The SKUs `GetCapacityMB` knows: Premium P1-P5, Basic/Standard C0-C6
      and Enterprise E10, E20, E50 and E100. */
  predicate KnownSku(family: string, capacity: int)
  {
    (family == "P" && 1 <= capacity <= 5) ||
    (family == "C" && 0 <= capacity <= 6) ||
    (family == "E" && capacity in [10, 20, 50, 100])
  }

  /** `GetCapacityMB`: the cache size of the SKU in MB, 0 for an SKU it
      does not know. Every size but C0 (250 MB) and C2 (2.5 GB) is a whole
      number of GB. */
  function GetCapacityMB(c: RedisCache): (mb: int)
    ensures mb >= 0
    ensures mb > 0 <==> KnownSku(c.skuFamily, c.skuCapacity)
    ensures mb > 0 && !(c.skuFamily == "C" && c.skuCapacity in [0, 2]) ==> mb % 1024 == 0
  {
    match c.skuFamily
    case "P" =>
      (match c.skuCapacity
       case 1 => 6 * 1024
       case 2 => 13 * 1024
       case 3 => 26 * 1024
       case 4 => 53 * 1024
       case 5 => 120 * 1024
       case _ => 0)
    case "C" =>
      (match c.skuCapacity
       case 0 => 250
       case 1 => 1024
       case 2 => 2560
       case 3 => 6 * 1024
       case 4 => 13 * 1024
       case 5 => 26 * 1024
       case 6 => 53 * 1024
       case _ => 0)
    case "E" =>
      (match c.skuCapacity
       case 10 => 12 * 1024
       case 20 => 25 * 1024
       case 50 => 50 * 1024
       case 100 => 100 * 1024
       case _ => 0)
    case _ => 0
  }

  /** Within a family, a larger SKU capacity is a larger cache. */
  lemma CapacityGrowsWithSku(c: RedisCache, d: RedisCache)
    requires c.skuFamily == d.skuFamily
    requires KnownSku(c.skuFamily, c.skuCapacity) && KnownSku(d.skuFamily, d.skuCapacity)
    requires c.skuCapacity < d.skuCapacity
    ensures GetCapacityMB(c) < GetCapacityMB(d)
  {
  }

  /** `GetArchType`: Enterprise and Premium caches are clusters. */
  function GetArchType(c: RedisCache): (t: string)
    ensures t == ArchCluster <==> c.skuFamily in ["E", "P"]
    ensures t == ArchSingle <==> c.skuFamily !in ["E", "P"]
  {
    match c.skuFamily
    case "E" => ArchCluster
    case "P" => ArchCluster
    case _ => ArchSingle
  }

  /** Every cluster SKU the table knows holds at least 6 GB, more than the
      largest single-node SKU below C3. */
  lemma ClusterSkusAreLarge(c: RedisCache)
    requires GetArchType(c) == ArchCluster && KnownSku(c.skuFamily, c.skuCapacity)
    ensures GetCapacityMB(c) >= 6 * 1024
  {
  }

  /** `GetNodeType`: one to six instances are named, any other count gives
      the shard count in decimal. */
  function GetNodeType(c: RedisCache): (t: string)
    ensures 1 <= |c.instances| <= 6 ==> t == NodeNames[|c.instances| - 1]
    ensures !(1 <= |c.instances| <= 6) ==> t == Itoa(c.shardCount)
  {
    match |c.instances|
    case 1 => "single"
    case 2 => "double"
    case 3 => "three"
    case 4 => "four"
    case 5 => "five"
    case 6 => "six"
    case _ => Itoa(c.shardCount)
  }

  /** No decimal number is spelt like a node name. */
  lemma ItoaIsNoNodeName(n: int)
    ensures Itoa(n) !in NodeNames
  {
    var t := Itoa(n);
    assert t[0] == '-' || IsDigit(t[0]);
    forall k | 0 <= k < |NodeNames|
      ensures t != NodeNames[k]
    {
      assert NodeNames[k][0] in "sdtf";
    }
  }

  /** A node type is one of the six names exactly when the cache has one
      to six instances, and then it tells how many. */
  lemma NodeTypeIsUnambiguous(c: RedisCache, d: RedisCache)
    ensures GetNodeType(c) in NodeNames <==> 1 <= |c.instances| <= 6
    ensures 1 <= |c.instances| <= 6 && GetNodeType(c) == GetNodeType(d) ==> |c.instances| == |d.instances|
  {
    ItoaIsNoNodeName(c.shardCount);
    ItoaIsNoNodeName(d.shardCount);
  }
}
