// The record-set diff engine of pkg/cloudprovider/dnszone.go: a value
// record, its equality, its string key, the sort comparator and the
// two-cursor merge that splits remote and local record sets into
// common / add / del / update.
module DnsRecordDiff {
  import opened Wrappers
  import opened GoStrings

  // Zone types (TDnsZoneType).
  const PublicZone: string := "PublicZone"
  const PrivateZone: string := "PrivateZone"

  // Policy types (TDnsPolicyType). The last three are used by the AWS
  // provider and are declared outside the modelled files.
  const PolicySimple: string := "Simple"
  const PolicyByCarrier: string := "ByCarrier"
  const PolicyByGeoLocation: string := "ByGeoLocation"
  const PolicyBySearchEngine: string := "BySearchEngine"
  const PolicyIpRange: string := "IpRange"
  const PolicyWeighted: string := "Weighted"
  const PolicyFailover: string := "Failover"
  const PolicyLatency: string := "Latency"
  const PolicyMultiValueAnswer: string := "MultiValueAnswer"

  /** A JSON value inside a policy-parameter dictionary. */
  datatype Json =
    | JString(text: string)
    | JInt(num: int)
    | JBool(flag: bool)
    | JDict(fields: map<string, Json>)

  /** A jsonutils.JSONDict. */
  type Params = map<string, Json>

  /** `JSONDict.Equals` (on a non-nil receiver, with a possibly nil argument)
      and `JSONDict.String` belong to jsonutils; the engine treats them as
      given operations. */
  datatype ParamsOps = ParamsOps(equals: (Params, Option<Params>) -> bool, str: Params -> string)

  /** What the engine reads through the ICloudDnsRecordSet getters. */
  datatype CloudRecord = CloudRecord(
    globalId: string,
    dnsName: string,
    dnsType: string,
    dnsValue: string,
    status: string,
    ttl: int,
    policyType: string,
    policyParams: Option<Params>)

  /** DnsRecordSet: `iRecord` is the provider object a remote entry came from
      (None for local entries). */
  datatype DnsRecordSet = DnsRecordSet(
    id: string,
    iRecord: Option<CloudRecord>,
    dnsName: string,
    dnsType: string,
    dnsValue: string,
    status: string,
    ttl: int,
    policyType: string,
    policyParms: Option<Params>)

  // ---------------------------------------------------------------------
  // Equals

  /** One direction of the parameter test: a non-nil side must consider the
      other side equal. */
  predicate ParamsAccept(p: Option<Params>, q: Option<Params>, ops: ParamsOps)
  {
    p.None? || ops.equals(p.value, q)
  }

  /** `DnsRecordSet.Equals`. */
  predicate Equals(a: DnsRecordSet, b: DnsRecordSet, ops: ParamsOps)
  {
    a.dnsName == b.dnsName && a.dnsType == b.dnsType && a.dnsValue == b.dnsValue
    && a.ttl == b.ttl && a.policyType == b.policyType
    && ParamsAccept(a.policyParms, b.policyParms, ops)
    && ParamsAccept(b.policyParms, a.policyParms, ops)
  }

  /** Id, Status and the provider object never affect Equals. */
  lemma EqualsIgnoresBookkeeping(a: DnsRecordSet, b: DnsRecordSet, id: string, status: string,
                                 src: Option<CloudRecord>, ops: ParamsOps)
    ensures Equals(a.(id := id, status := status, iRecord := src), b, ops) == Equals(a, b, ops)
    ensures Equals(a, b.(id := id, status := status, iRecord := src), ops) == Equals(a, b, ops)
  {
  }

  /** Equals is symmetric for every parameter-equality relation, because the
      parameter test runs in both directions. */
  lemma EqualsSymmetric(a: DnsRecordSet, b: DnsRecordSet, ops: ParamsOps)
    ensures Equals(a, b, ops) == Equals(b, a, ops)
  {
  }

  /** Without parameters on either side, Equals compares the five plain fields. */
  lemma EqualsWithoutParams(a: DnsRecordSet, b: DnsRecordSet, ops: ParamsOps)
    requires a.policyParms.None? && b.policyParms.None?
    ensures Equals(a, b, ops) <==>
      (a.dnsName, a.dnsType, a.dnsValue, a.ttl, a.policyType) ==
      (b.dnsName, b.dnsType, b.dnsValue, b.ttl, b.policyType)
  {
  }

  /** The parameter-equality relation is reflexive on present parameters. */
  ghost predicate ReflexiveOps(ops: ParamsOps)
  {
    forall p: Params :: ops.equals(p, Some(p))
  }

  lemma EqualsReflexive(a: DnsRecordSet, ops: ParamsOps)
    requires ReflexiveOps(ops)
    ensures Equals(a, a, ops)
  {
    if a.policyParms.Some? {
      assert ops.equals(a.policyParms.value, Some(a.policyParms.value));
    }
  }

  // ---------------------------------------------------------------------
  // String

  /** The fields that `DnsRecordSet.String` prints, in order. */
  function KeyFields(a: DnsRecordSet, ops: ParamsOps): (f: seq<string>)
    ensures |f| == if a.policyParms.Some? then 5 else 4
  {
    [a.dnsName, a.dnsType, a.dnsValue, a.policyType] +
    (if a.policyParms.Some? then [ops.str(a.policyParms.value)] else [])
  }

  /** `DnsRecordSet.String`: name-type-value-policy, followed by
      "-" and the parameter string when parameters are present. */
  function Key(a: DnsRecordSet, ops: ParamsOps): string
  {
    var base := a.dnsName + "-" + a.dnsType + "-" + a.dnsValue + "-" + a.policyType;
    if a.policyParms.Some? then base + "-" + ops.str(a.policyParms.value) else base
  }

  /** The key is the printed fields joined by '-'. */
  lemma KeyIsJoin(a: DnsRecordSet, ops: ParamsOps)
    ensures Key(a, ops) == Join(KeyFields(a, ops), '-')
  {
    var f := KeyFields(a, ops);
    var tail := if a.policyParms.Some? then "-" + ops.str(a.policyParms.value) else "";
    assert Join(f[3..], '-') == a.policyType + tail;
    assert Join(f[2..], '-') == a.dnsValue + "-" + a.policyType + tail;
    assert Join(f[1..], '-') == a.dnsType + "-" + a.dnsValue + "-" + a.policyType + tail;
    assert Join(f, '-') == a.dnsName + "-" + a.dnsType + "-" + a.dnsValue + "-" + a.policyType + tail;
  }

  /** Adding parameters to a record appends "-" and their string to its key. */
  lemma KeyWithParams(a: DnsRecordSet, p: Params, ops: ParamsOps)
    ensures Key(a.(policyParms := Some(p)), ops) == Key(a.(policyParms := None), ops) + "-" + ops.str(p)
  {
  }

  /** Keys identify records as long as no printed field contains '-'. */
  lemma KeyInjective(a: DnsRecordSet, b: DnsRecordSet, ops: ParamsOps)
    requires forall k :: 0 <= k < |KeyFields(a, ops)| ==> '-' !in KeyFields(a, ops)[k]
    requires forall k :: 0 <= k < |KeyFields(b, ops)| ==> '-' !in KeyFields(b, ops)[k]
    requires Key(a, ops) == Key(b, ops)
    ensures KeyFields(a, ops) == KeyFields(b, ops)
  {
    KeyIsJoin(a, ops);
    KeyIsJoin(b, ops);
    SplitJoin(KeyFields(a, ops), '-');
    SplitJoin(KeyFields(b, ops), '-');
  }

  /** A '-' inside a field lets two different records share a key: the
      engine then pairs them as the same record. */
  lemma KeyCollision(ops: ParamsOps)
    ensures var a := DnsRecordSet("", None, "a-b", "c", "v", "Simple", 0, "Simple", None);
            var b := DnsRecordSet("", None, "a", "b-c", "v", "Simple", 0, "Simple", None);
            a != b && Key(a, ops) == Key(b, ops)
  {
    var a := DnsRecordSet("", None, "a-b", "c", "v", "Simple", 0, "Simple", None);
    var b := DnsRecordSet("", None, "a", "b-c", "v", "Simple", 0, "Simple", None);
    assert Key(a, ops) == "a-b-c-v-Simple";
    assert Key(b, ops) == "a-b-c-v-Simple";
  }

  // ---------------------------------------------------------------------
  // Less

  /** `DnsRecordSets.Less`: true as soon as any one field of a is smaller
      than b's. */
  predicate Less(a: DnsRecordSet, b: DnsRecordSet, ops: ParamsOps)
  {
    StrLess(a.dnsName, b.dnsName)
    || StrLess(a.dnsType, b.dnsType)
    || StrLess(a.dnsValue, b.dnsValue)
    || StrLess(a.policyType, b.policyType)
    || (a.policyParms.Some? && b.policyParms.Some?
        && StrLess(ops.str(a.policyParms.value), ops.str(b.policyParms.value)))
  }

  lemma LessIrreflexive(a: DnsRecordSet, ops: ParamsOps)
    ensures !Less(a, a, ops)
  {
    StrLessIrreflexive(a.dnsName);
    StrLessIrreflexive(a.dnsType);
    StrLessIrreflexive(a.dnsValue);
    StrLessIrreflexive(a.policyType);
    if a.policyParms.Some? {
      StrLessIrreflexive(ops.str(a.policyParms.value));
    }
  }

  /** Less is not a strict weak order: it is not even asymmetric. */
  lemma LessNotAsymmetric(ops: ParamsOps)
    ensures var a := DnsRecordSet("", None, "a", "TXT", "v", "", 0, "Simple", None);
            var b := DnsRecordSet("", None, "b", "A", "v", "", 0, "Simple", None);
            Less(a, b, ops) && Less(b, a, ops)
  {
    assert StrLess("a", "b");
    assert StrLess("A", "TXT");
  }

  // ---------------------------------------------------------------------
  // Sorting (sort.Sort with Less)

  /** Sorts in place by Less. Because Less is not a strict weak order, the
      only promise is that the contents are permuted. */
  method SortRecords(a: array<DnsRecordSet>, ops: ParamsOps)
    modifies a
    ensures multiset(a[..]) == multiset(old(a[..]))
  {
    var i := 1;
    while i < a.Length
      invariant multiset(a[..]) == multiset(old(a[..]))
    {
      var j := i;
      while j > 0 && Less(a[j], a[j - 1], ops)
        invariant 0 <= j <= i < a.Length
        invariant multiset(a[..]) == multiset(old(a[..]))
      {
        a[j - 1], a[j] := a[j], a[j - 1];
        j := j - 1;
      }
      i := i + 1;
    }
  }

  // ---------------------------------------------------------------------
  // The merge

  /** The four result slices, in the order CompareDnsRecordSet returns them. */
  datatype Diff = Diff(
    common: seq<DnsRecordSet>,
    add: seq<DnsRecordSet>,
    del: seq<DnsRecordSet>,
    update: seq<DnsRecordSet>)

  /** Which way the merge moves at cursors i and j. */
  datatype Step = Pair | TakeRemote | TakeLocal

  /** Equal keys pair the two heads; a smaller local key sends the remote
      head to del; a larger one sends the local head to add; once one side
      is exhausted the other side drains. */
  function StepAt(local: seq<DnsRecordSet>, remote: seq<DnsRecordSet>, i: nat, j: nat,
                  ops: ParamsOps): (s: Step)
    requires i <= |local| && j <= |remote| && (i < |local| || j < |remote|)
    ensures s == Pair ==> i < |local| && j < |remote| && Key(local[i], ops) == Key(remote[j], ops)
    ensures s == TakeRemote ==> j < |remote|
    ensures s == TakeLocal ==> i < |local|
  {
    if i < |local| && j < |remote| then
      var cmp := Compare(Key(local[i], ops), Key(remote[j], ops));
      if cmp == 0 then Pair else if cmp < 0 then TakeRemote else TakeLocal
    else if i >= |local| then TakeRemote
    else TakeLocal
  }

  /** The merge from cursors i (local) and j (remote) to the end: the
      specification of the loop in CompareDnsRecordSet. */
  function MergeFrom(local: seq<DnsRecordSet>, remote: seq<DnsRecordSet>, i: nat, j: nat,
                     ops: ParamsOps): Diff
    requires i <= |local| && j <= |remote|
    decreases |local| - i + |remote| - j
  {
    if i == |local| && j == |remote| then Diff([], [], [], [])
    else
      match StepAt(local, remote, i, j, ops)
      case Pair =>
        var r := remote[j].(id := local[i].id);
        var rest := MergeFrom(local, remote, i + 1, j + 1, ops);
        if Equals(local[i], r, ops) then rest.(common := [r] + rest.common)
        else rest.(update := [r] + rest.update)
      case TakeRemote =>
        var rest := MergeFrom(local, remote, i, j + 1, ops);
        rest.(del := [remote[j]] + rest.del)
      case TakeLocal =>
        var rest := MergeFrom(local, remote, i + 1, j, ops);
        rest.(add := [local[i]] + rest.add)
  }

  function Concat(x: Diff, y: Diff): Diff
  {
    Diff(x.common + y.common, x.add + y.add, x.del + y.del, x.update + y.update)
  }

  /** Every remote record ends in exactly one of common, update and del, and
      every local record in exactly one of common, update and add. */
  lemma {:induction false} MergeCounts(local: seq<DnsRecordSet>, remote: seq<DnsRecordSet>,
                                       i: nat, j: nat, ops: ParamsOps)
    requires i <= |local| && j <= |remote|
    ensures var d := MergeFrom(local, remote, i, j, ops);
      |d.common| + |d.update| + |d.del| == |remote| - j &&
      |d.common| + |d.update| + |d.add| == |local| - i
    decreases |local| - i + |remote| - j
  {
    if i < |local| || j < |remote| {
      StepCounts(local, remote, i, j, ops);
      match StepAt(local, remote, i, j, ops)
      case Pair => MergeCounts(local, remote, i + 1, j + 1, ops);
      case TakeRemote => MergeCounts(local, remote, i, j + 1, ops);
      case TakeLocal => MergeCounts(local, remote, i + 1, j, ops);
    }
  }

  /** Records of the remote side that a diff places (common, update, del). */
  function RemotePlaced(d: Diff): nat { |d.common| + |d.update| + |d.del| }

  /** Records of the local side that a diff places (common, update, add). */
  function LocalPlaced(d: Diff): nat { |d.common| + |d.update| + |d.add| }

  /** One step of the merge places one record of each side it consumes. */
  lemma StepCounts(local: seq<DnsRecordSet>, remote: seq<DnsRecordSet>, i: nat, j: nat, ops: ParamsOps)
    requires i <= |local| && j <= |remote| && (i < |local| || j < |remote|)
    ensures StepAt(local, remote, i, j, ops) == Pair ==>
      RemotePlaced(MergeFrom(local, remote, i, j, ops)) == RemotePlaced(MergeFrom(local, remote, i + 1, j + 1, ops)) + 1 &&
      LocalPlaced(MergeFrom(local, remote, i, j, ops)) == LocalPlaced(MergeFrom(local, remote, i + 1, j + 1, ops)) + 1
    ensures StepAt(local, remote, i, j, ops) == TakeRemote ==>
      RemotePlaced(MergeFrom(local, remote, i, j, ops)) == RemotePlaced(MergeFrom(local, remote, i, j + 1, ops)) + 1 &&
      LocalPlaced(MergeFrom(local, remote, i, j, ops)) == LocalPlaced(MergeFrom(local, remote, i, j + 1, ops))
    ensures StepAt(local, remote, i, j, ops) == TakeLocal ==>
      RemotePlaced(MergeFrom(local, remote, i, j, ops)) == RemotePlaced(MergeFrom(local, remote, i + 1, j, ops)) &&
      LocalPlaced(MergeFrom(local, remote, i, j, ops)) == LocalPlaced(MergeFrom(local, remote, i + 1, j, ops)) + 1
  {
    MergeFromStep(local, remote, i, j, ops);
  }

  /** add only holds local records and del only remote ones, each at most as
      often as it occurs in the input. */
  lemma {:induction false} MergeSubMultisets(local: seq<DnsRecordSet>, remote: seq<DnsRecordSet>,
                                             i: nat, j: nat, ops: ParamsOps)
    requires i <= |local| && j <= |remote|
    ensures var d := MergeFrom(local, remote, i, j, ops);
      multiset(d.add) <= multiset(local[i..]) && multiset(d.del) <= multiset(remote[j..])
    decreases |local| - i + |remote| - j
  {
    if i < |local| {
      assert local[i..] == [local[i]] + local[i + 1..];
    }
    if j < |remote| {
      assert remote[j..] == [remote[j]] + remote[j + 1..];
    }
    if i < |local| || j < |remote| {
      MergeFromStep(local, remote, i, j, ops);
      match StepAt(local, remote, i, j, ops)
      case Pair => MergeSubMultisets(local, remote, i + 1, j + 1, ops);
      case TakeRemote => MergeSubMultisets(local, remote, i, j + 1, ops);
      case TakeLocal => MergeSubMultisets(local, remote, i + 1, j, ops);
    }
  }

  /** x is a remote record paired with a local one of the same key; x is the
      remote record carrying the local record's Id, and `equal` tells whether
      the pair was Equals. */
  predicate Paired(x: DnsRecordSet, local: seq<DnsRecordSet>, remote: seq<DnsRecordSet>,
                   equal: bool, ops: ParamsOps)
  {
    exists a, b :: a in local && b in remote && Key(a, ops) == Key(b, ops)
      && x == b.(id := a.id) && Equals(a, b, ops) == equal
  }

  /** Pairs form only on equal keys; common holds the Equals pairs and update
      the others, each as the remote record with the local Id. */
  lemma {:induction false} MergePairs(local: seq<DnsRecordSet>, remote: seq<DnsRecordSet>,
                                      i: nat, j: nat, ops: ParamsOps)
    requires i <= |local| && j <= |remote|
    ensures var d := MergeFrom(local, remote, i, j, ops);
      (forall x :: x in d.common ==> Paired(x, local[i..], remote[j..], true, ops)) &&
      (forall x :: x in d.update ==> Paired(x, local[i..], remote[j..], false, ops))
    decreases |local| - i + |remote| - j
  {
    if i < |local| || j < |remote| {
      MergeFromStep(local, remote, i, j, ops);
      match StepAt(local, remote, i, j, ops)
      case Pair =>
        MergePairs(local, remote, i + 1, j + 1, ops);
        PairedWiden(local, remote, i, j, i + 1, j + 1, ops);
        PairHead(local, remote, i, j, ops);
      case TakeRemote =>
        MergePairs(local, remote, i, j + 1, ops);
        PairedWiden(local, remote, i, j, i, j + 1, ops);
      case TakeLocal =>
        MergePairs(local, remote, i + 1, j, ops);
        PairedWiden(local, remote, i, j, i + 1, j, ops);
    }
  }

  /** The pair formed at the heads is Paired. */
  lemma PairHead(local: seq<DnsRecordSet>, remote: seq<DnsRecordSet>, i: nat, j: nat, ops: ParamsOps)
    requires i < |local| && j < |remote| && Key(local[i], ops) == Key(remote[j], ops)
    ensures var r := remote[j].(id := local[i].id);
      Paired(r, local[i..], remote[j..], Equals(local[i], r, ops), ops)
  {
    var a, b := local[i], remote[j];
    EqualsIgnoresBookkeeping(a, b, a.id, b.status, b.iRecord, ops);
    assert b.(id := a.id, status := b.status, iRecord := b.iRecord) == b.(id := a.id);
    assert a == local[i..][0] && b == remote[j..][0];
  }

  lemma PairedWiden(local: seq<DnsRecordSet>, remote: seq<DnsRecordSet>, i: nat, j: nat,
                    i': nat, j': nat, ops: ParamsOps)
    requires i <= i' <= |local| && j <= j' <= |remote|
    ensures forall x, e :: Paired(x, local[i'..], remote[j'..], e, ops) ==> Paired(x, local[i..], remote[j..], e, ops)
  {
    forall x, e | Paired(x, local[i'..], remote[j'..], e, ops)
      ensures Paired(x, local[i..], remote[j..], e, ops)
    {
      var a, b :| a in local[i'..] && b in remote[j'..] && Key(a, ops) == Key(b, ops)
        && x == b.(id := a.id) && Equals(a, b, ops) == e;
      assert a in local[i..] && b in remote[j..];
    }
  }

  /** Diffing a list against itself finds everything in common, when the
      parameter equality is reflexive. */
  lemma {:induction false} MergeWithItself(s: seq<DnsRecordSet>, i: nat, ops: ParamsOps)
    requires i <= |s| && ReflexiveOps(ops)
    ensures MergeFrom(s, s, i, i, ops) == Diff(s[i..], [], [], [])
    decreases |s| - i
  {
    if i < |s| {
      MergeWithItself(s, i + 1, ops);
      EqualsReflexive(s[i], ops);
      assert s[i].(id := s[i].id) == s[i];
      assert s[i..] == [s[i]] + s[i + 1..];
    }
  }

  /** One step of the merge, unfolded. */
  lemma MergeFromStep(local: seq<DnsRecordSet>, remote: seq<DnsRecordSet>, i: nat, j: nat, ops: ParamsOps)
    requires i <= |local| && j <= |remote| && (i < |local| || j < |remote|)
    ensures StepAt(local, remote, i, j, ops) == Pair ==>
      var r := remote[j].(id := local[i].id);
      var rest := MergeFrom(local, remote, i + 1, j + 1, ops);
      MergeFrom(local, remote, i, j, ops) ==
        if Equals(local[i], r, ops) then rest.(common := [r] + rest.common)
        else rest.(update := [r] + rest.update)
    ensures StepAt(local, remote, i, j, ops) == TakeRemote ==>
      var rest := MergeFrom(local, remote, i, j + 1, ops);
      MergeFrom(local, remote, i, j, ops) == rest.(del := [remote[j]] + rest.del)
    ensures StepAt(local, remote, i, j, ops) == TakeLocal ==>
      var rest := MergeFrom(local, remote, i + 1, j, ops);
      MergeFrom(local, remote, i, j, ops) == rest.(add := [local[i]] + rest.add)
  {
  }

  /** Moving the head of one slice of the rest onto the accumulator. */
  lemma ConcatMove(acc: Diff, x: DnsRecordSet, rest: Diff)
    ensures Concat(acc, rest.(common := [x] + rest.common)) == Concat(acc.(common := acc.common + [x]), rest)
    ensures Concat(acc, rest.(add := [x] + rest.add)) == Concat(acc.(add := acc.add + [x]), rest)
    ensures Concat(acc, rest.(del := [x] + rest.del)) == Concat(acc.(del := acc.del + [x]), rest)
    ensures Concat(acc, rest.(update := [x] + rest.update)) == Concat(acc.(update := acc.update + [x]), rest)
  {
    assert acc.common + ([x] + rest.common) == acc.common + [x] + rest.common;
    assert acc.add + ([x] + rest.add) == acc.add + [x] + rest.add;
    assert acc.del + ([x] + rest.del) == acc.del + [x] + rest.del;
    assert acc.update + ([x] + rest.update) == acc.update + [x] + rest.update;
  }

  /** The merge loop of CompareDnsRecordSet on already sorted slices. */
  method Merge(local: seq<DnsRecordSet>, remote: seq<DnsRecordSet>, ops: ParamsOps)
    returns (common: seq<DnsRecordSet>, add: seq<DnsRecordSet>, del: seq<DnsRecordSet>,
             update: seq<DnsRecordSet>)
    ensures Diff(common, add, del, update) == MergeFrom(local, remote, 0, 0, ops)
  {
    common, add, del, update := [], [], [], [];
    var i, j := 0, 0;
    while i < |local| || j < |remote|
      invariant i <= |local| && j <= |remote|
      invariant Concat(Diff(common, add, del, update), MergeFrom(local, remote, i, j, ops))
             == MergeFrom(local, remote, 0, 0, ops)
      decreases |local| - i + |remote| - j
    {
      MergeFromStep(local, remote, i, j, ops);
      ghost var acc := Diff(common, add, del, update);
      if i < |local| && j < |remote| {
        var l, r := Key(local[i], ops), Key(remote[j], ops);
        var cmp := Compare(l, r);
        if cmp == 0 {
          var x := remote[j].(id := local[i].id);
          ConcatMove(acc, x, MergeFrom(local, remote, i + 1, j + 1, ops));
          if Equals(local[i], x, ops) {
            common := common + [x];
          } else {
            update := update + [x];
          }
          i, j := i + 1, j + 1;
        } else if cmp < 0 {
          ConcatMove(acc, remote[j], MergeFrom(local, remote, i, j + 1, ops));
          del := del + [remote[j]];
          j := j + 1;
        } else {
          ConcatMove(acc, local[i], MergeFrom(local, remote, i + 1, j, ops));
          add := add + [local[i]];
          i := i + 1;
        }
      } else if i >= |local| {
        ConcatMove(acc, remote[j], MergeFrom(local, remote, i, j + 1, ops));
        del := del + [remote[j]];
        j := j + 1;
      } else {
        ConcatMove(acc, local[i], MergeFrom(local, remote, i + 1, j, ops));
        add := add + [local[i]];
        i := i + 1;
      }
    }
    assert MergeFrom(local, remote, i, j, ops) == Diff([], [], [], []);
    assert Diff(common, add, del, update) == Concat(Diff(common, add, del, update), Diff([], [], [], []));
  }

  // ---------------------------------------------------------------------
  // Ids through the merge

  /** The ids of a list of entries. */
  function Ids(s: seq<DnsRecordSet>): (r: seq<string>)
    ensures |r| == |s| && forall k :: 0 <= k < |s| ==> r[k] == s[k].id
  {
    seq(|s|, k requires 0 <= k < |s| => s[k].id)
  }

  lemma IdsConcat(a: seq<DnsRecordSet>, b: seq<DnsRecordSet>)
    ensures Ids(a + b) == Ids(a) + Ids(b)
  {
  }

  /** The local side of the merge (common, update and add) carries each
      local id exactly as often as the local list does: a paired entry
      takes the local Id. */
  lemma {:induction false} MergeLocalIds(local: seq<DnsRecordSet>, remote: seq<DnsRecordSet>,
                                         i: nat, j: nat, ops: ParamsOps)
    requires i <= |local| && j <= |remote|
    ensures var d := MergeFrom(local, remote, i, j, ops);
      multiset(Ids(d.common) + Ids(d.update) + Ids(d.add)) == multiset(Ids(local[i..]))
    decreases |local| - i + |remote| - j
  {
    if i == |local| && j == |remote| {
      assert local[i..] == [];
    } else {
      var step := StepAt(local, remote, i, j, ops);
      var i1, j1 := if step == TakeRemote then i else i + 1, if step == TakeLocal then j else j + 1;
      MergeLocalIds(local, remote, i1, j1, ops);
      LocalIdsStep(local, remote, i, j, ops);
    }
  }

  /** One step of MergeLocalIds: from the merge after the first step to the
      merge from (i, j). */
  lemma LocalIdsStep(local: seq<DnsRecordSet>, remote: seq<DnsRecordSet>, i: nat, j: nat, ops: ParamsOps)
    requires i <= |local| && j <= |remote| && (i < |local| || j < |remote|)
    requires var step := StepAt(local, remote, i, j, ops);
      var i1, j1 := if step == TakeRemote then i else i + 1, if step == TakeLocal then j else j + 1;
      i1 <= |local| && j1 <= |remote| &&
      var rest := MergeFrom(local, remote, i1, j1, ops);
      multiset(Ids(rest.common) + Ids(rest.update) + Ids(rest.add)) == multiset(Ids(local[i1..]))
    ensures var d := MergeFrom(local, remote, i, j, ops);
      multiset(Ids(d.common) + Ids(d.update) + Ids(d.add)) == multiset(Ids(local[i..]))
  {
    var d := MergeFrom(local, remote, i, j, ops);
    var step := StepAt(local, remote, i, j, ops);
    MergeFromStep(local, remote, i, j, ops);
    if step != TakeRemote {
      var rest := MergeFrom(local, remote, i + 1, if step == Pair then j + 1 else j, ops);
      IdsTail(local, i);
      LocalSideStep(if step == Pair then remote[j].(id := local[i].id) else local[i], d, rest);
    }
  }

  /** A merge step that puts the entry r on the local side. */
  lemma LocalSideStep(r: DnsRecordSet, d: Diff, rest: Diff)
    requires d == rest.(common := [r] + rest.common) || d == rest.(update := [r] + rest.update) ||
             d == rest.(add := [r] + rest.add)
    ensures multiset(Ids(d.common) + Ids(d.update) + Ids(d.add)) ==
            multiset{r.id} + multiset(Ids(rest.common) + Ids(rest.update) + Ids(rest.add))
  {
    LocalSideCons(r.id, Ids(rest.common), Ids(rest.update), Ids(rest.add));
    if d == rest.(common := [r] + rest.common) {
      IdsCons(r, rest.common);
    } else if d == rest.(update := [r] + rest.update) {
      IdsCons(r, rest.update);
    } else {
      IdsCons(r, rest.add);
    }
  }

  lemma IdsCons(x: DnsRecordSet, s: seq<DnsRecordSet>)
    ensures Ids([x] + s) == [x.id] + Ids(s)
  {
    IdsConcat([x], s);
    assert Ids([x]) == [x.id];
  }

  /** Adding one id to any of the three local-side lists adds it once to
      their union. */
  lemma LocalSideCons(x: string, c: seq<string>, u: seq<string>, a: seq<string>)
    ensures multiset(([x] + c) + u + a) == multiset{x} + multiset(c + u + a)
    ensures multiset(c + ([x] + u) + a) == multiset{x} + multiset(c + u + a)
    ensures multiset(c + u + ([x] + a)) == multiset{x} + multiset(c + u + a)
  {
  }

  lemma IdsTail(local: seq<DnsRecordSet>, i: nat)
    requires i < |local|
    ensures multiset(Ids(local[i..])) == multiset{local[i].id} + multiset(Ids(local[i + 1..]))
  {
    assert local[i..] == [local[i]] + local[i + 1..];
    IdsConcat([local[i]], local[i + 1..]);
  }


  /** A permutation of a list without repeated ids has no repeated ids, and
      no id of its own. */
  lemma PermutedIds(a: seq<DnsRecordSet>, b: seq<DnsRecordSet>)
    requires multiset(a) == multiset(b) && Distinct(Ids(b))
    ensures Distinct(Ids(a))
    ensures forall x :: x in Ids(a) ==> x in Ids(b)
  {
    assert Distinct(b) by {
      forall k, l | 0 <= k < l < |b| ensures b[k] != b[l] {
        assert Ids(b)[k] != Ids(b)[l];
      }
    }
    DistinctSub(b, a);
    forall k, l | 0 <= k < l < |a|
      ensures Ids(a)[k] != Ids(a)[l]
    {
      assert a[k] in multiset(b) && a[l] in multiset(b);
      var kb :| 0 <= kb < |b| && b[kb] == a[k];
      var lb :| 0 <= lb < |b| && b[lb] == a[l];
      assert Ids(b)[kb] == a[k].id && Ids(b)[lb] == a[l].id;
    }
    forall x | x in Ids(a)
      ensures x in Ids(b)
    {
      var k :| 0 <= k < |a| && Ids(a)[k] == x;
      assert a[k] in multiset(b);
      var kb :| 0 <= kb < |b| && b[kb] == a[k];
      assert Ids(b)[kb] == x;
    }
  }

  /** When the local ids are distinct, the ids of update and add together
      are distinct and all local: a record the merge updates is never one
      it lists as local-only. */
  lemma LocalSidesDisjoint(local: seq<DnsRecordSet>, remote: seq<DnsRecordSet>, ops: ParamsOps)
    requires Distinct(Ids(local))
    ensures var d := MergeFrom(local, remote, 0, 0, ops);
      Distinct(Ids(d.update) + Ids(d.add)) &&
      forall x :: x in Ids(d.update) + Ids(d.add) ==> x in Ids(local)
  {
    var d := MergeFrom(local, remote, 0, 0, ops);
    MergeLocalIds(local, remote, 0, 0, ops);
    assert local[0..] == local;
    var both := Ids(d.update) + Ids(d.add);
    assert Ids(d.common) + Ids(d.update) + Ids(d.add) == Ids(d.common) + both;
    assert multiset(both) <= multiset(Ids(local));
    DistinctSub(Ids(local), both);
    forall x | x in both
      ensures x in Ids(local)
    {
      assert x in multiset(Ids(local));
    }
  }

  /** The provider's record sets as engine entries. */
  function FromCloudAll(iRecords: seq<CloudRecord>): (r: seq<DnsRecordSet>)
    ensures |r| == |iRecords| && forall k :: 0 <= k < |iRecords| ==> r[k] == FromCloud(iRecords[k])
  {
    seq(|iRecords|, k requires 0 <= k < |iRecords| => FromCloud(iRecords[k]))
  }

  /** The provider's record set as an engine entry: no local Id yet. */
  function FromCloud(c: CloudRecord): (r: DnsRecordSet)
    ensures r.iRecord == Some(c) && r.id == ""
  {
    DnsRecordSet("", Some(c), c.dnsName, c.dnsType, c.dnsValue, c.status, c.ttl,
                 c.policyType, c.policyParams)
  }

  /** `CompareDnsRecordSet(iRecords, local)`: converts the provider's record
      sets, sorts both slices in place (the caller's `local` included) and
      merges them. `remote` is the sorted remote slice the merge saw. */
  method CompareDnsRecordSet(iRecords: seq<CloudRecord>, local: array<DnsRecordSet>, ops: ParamsOps)
    returns (common: seq<DnsRecordSet>, add: seq<DnsRecordSet>, del: seq<DnsRecordSet>,
             update: seq<DnsRecordSet>, ghost remote: seq<DnsRecordSet>)
    modifies local
    ensures multiset(local[..]) == multiset(old(local[..]))
    ensures |remote| == |iRecords|
    ensures multiset(remote) == multiset(FromCloudAll(iRecords))
    ensures Diff(common, add, del, update) == MergeFrom(local[..], remote, 0, 0, ops)
    ensures |common| + |update| + |del| == |iRecords|
    ensures |common| + |update| + |add| == local.Length
  {
    var converted := new DnsRecordSet[|iRecords|](k requires 0 <= k < |iRecords| => FromCloud(iRecords[k]));
    assert converted[..] == FromCloudAll(iRecords);
    SortRecords(converted, ops);
    SortRecords(local, ops);
    common, add, del, update := Merge(local[..], converted[..], ops);
    remote := converted[..];
    MergeCounts(local[..], remote, 0, 0, ops);
  }
}
