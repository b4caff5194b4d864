// ESXi datastores (pkg/util/esxi/storage.go): capacity and storage type,
// the volume id, the path forms the datastore browser uses, and the copy
// loop of a file download.
module EsxiStorage {
  import opened Wrappers
  import opened GoStrings

  // Storage types and statuses of the compute service's storage records.
  const StorageLocal := "local"
  const StorageNas := "nas"

  /** The datastore-specific part of the summary's `Info`. */
  datatype VolumeInfo =
    | VmfsInfo(local: Option<bool>, uuid: string, ssd: Option<bool>)
    | NasInfo(remoteHost: string, remotePath: string)
    | OtherInfo

  /** What the modelled code reads of an `SDatastore`: its managed-object
      name, the summary (type, capacity in bytes), the volume info, and the
      manager's and datacenter's contributions to its browse URL. `url`
      stands for both `Summary.Url` (read by the vsan branch of
      `getVolumeId`) and `Info.GetDatastoreInfo().Url` (read by `GetUrl`
      and so by `cleanPath`): the model takes the two to be the same
      string, as vSphere reports them for one datastore. */
  datatype Datastore = Datastore(
    name: string,
    url: string,
    summaryType: string,
    capacity: int,
    info: VolumeInfo,
    managerUri: string,
    dcPath: string)

  // Capacity

  /** Go's integer division truncates toward zero. */
  function GoDiv(a: int, d: int): int
    requires d > 0
  {
    if a >= 0 then a / d else -((-a) / d)
  }

  /** `GetCapacityMB`: the capacity divided by 1024 twice. */
  function GetCapacityMB(ds: Datastore): int
  {
    GoDiv(GoDiv(ds.capacity, 1024), 1024)
  }

  lemma DivDiv(a: nat)
    ensures (a / 1024) / 1024 == a / 1048576
  {
    var q := a / 1024;
    var r := a % 1024;
    var q2 := q / 1024;
    var r2 := q % 1024;
    assert a == 1024 * q + r;
    assert q == 1024 * q2 + r2;
    assert a == 1048576 * q2 + (1024 * r2 + r);
    assert 0 <= 1024 * r2 + r < 1048576;
  }

  /** Dividing twice by 1024 is dividing once by 2^20: the result is the
      whole number of mebibytes, rounded toward zero. */
  lemma CapacityIsWholeMebibytes(ds: Datastore)
    ensures GetCapacityMB(ds) == GoDiv(ds.capacity, 1048576)
    ensures ds.capacity >= 0 ==>
      GetCapacityMB(ds) * 1048576 <= ds.capacity < (GetCapacityMB(ds) + 1) * 1048576
  {
    if ds.capacity >= 0 {
      DivDiv(ds.capacity);
    } else {
      DivDiv(-ds.capacity);
      assert GoDiv(ds.capacity, 1024) == -((-ds.capacity) / 1024);
    }
  }

  // Storage type and volume id

  /** `isLocalVMFS`: a VMFS volume explicitly marked local. */
  predicate IsLocalVmfs(ds: Datastore)
  {
    ds.info.VmfsInfo? && ds.info.local == Some(true)
  }

  /** `GetStorageType`; None stands for the `log.Fatalf` of an unknown
      datastore type, which ends the process. */
  function GetStorageType(ds: Datastore): (t: Option<string>)
    ensures t == Some(StorageLocal) <==> ds.summaryType == "VMFS" && IsLocalVmfs(ds)
    ensures t == Some(StorageNas) <==>
      (ds.summaryType == "VMFS" && !IsLocalVmfs(ds)) || ds.summaryType in ["NFS", "NFS41", "CIFS", "vsan"]
    ensures t.None? <==> ds.summaryType !in ["VMFS", "NFS", "NFS41", "CIFS", "vsan"]
  {
    match ds.summaryType
    case "VMFS" => if IsLocalVmfs(ds) then Some(StorageLocal) else Some(StorageNas)
    case "NFS" => Some(StorageNas)
    case "NFS41" => Some(StorageNas)
    case "CIFS" => Some(StorageNas)
    case "vsan" => Some(StorageNas)
    case _ => None
  }

  /** `getLocalHost`: the one host a local datastore is attached to.
      `hosts` is the access ip of each attached host, or the lookup's
      error. */
  function GetLocalHost(hosts: Result<seq<string>>): (r: Result<string>)
    ensures r.Ok? <==> hosts.Ok? && |hosts.value| == 1
    ensures r.Ok? ==> r.value == hosts.value[0]
    ensures hosts.Err? ==> r == Err(hosts.error)
    ensures hosts.Ok? && |hosts.value| != 1 ==> r == Err(CloudInvalidStatus)
  {
    if hosts.Err? then Err(hosts.error)
    else if |hosts.value| == 1 then Ok(hosts.value[0])
    else Err(CloudInvalidStatus)
  }

  /** The vsan branch of `getVolumeId`: the url from its first "vsan:" on,
      with the trailing '/' cut off by a backwards scan. Slicing at index
      -1 panics when the url has no "vsan:". */
  method VsanId(url: string) returns (id: string, panics: bool)
    ensures panics <==> Index(url, "vsan:") == -1
    ensures !panics ==>
      var start := Index(url, "vsan:");
      HasPrefix(id, "vsan:") && HasPrefix(url[start..], id) && id[|id| - 1] != '/' &&
      forall k :: start + |id| <= k < |url| ==> url[k] == '/'
  {
    var start := Index(url, "vsan:");
    if start < 0 {
      return "", true;
    }
    var v := url[start..];
    assert v[..5] == "vsan:";
    assert v[4] == ':';
    var endIdx := |v|;
    while v[endIdx - 1] == '/'
      invariant 5 <= endIdx <= |v|
      invariant forall k :: endIdx <= k < |v| ==> v[k] == '/'
      decreases endIdx
    {
      endIdx := endIdx - 1;
    }
    id, panics := v[..endIdx], false;
    assert id[..5] == v[..5];
  }

  /** `getVolumeId`. `hosts` feeds the local host lookup; `fatal` is the
      `log.Fatalf` (or the panic) for a volume of no known kind. */
  method GetVolumeId(ds: Datastore, hosts: Result<seq<string>>) returns (r: Result<string>, fatal: bool)
    ensures ds.info.VmfsInfo? && ds.info.local == Some(true) ==>
      !fatal && (GetLocalHost(hosts).Err? ==> r == Err(GetLocalHost(hosts).error)) &&
      (GetLocalHost(hosts).Ok? ==> r == Ok(GetLocalHost(hosts).value + ":" + ds.info.uuid))
    ensures ds.info.VmfsInfo? && ds.info.local != Some(true) ==> !fatal && r == Ok(ds.info.uuid)
    ensures ds.info.NasInfo? ==> !fatal && r == Ok(ds.info.remoteHost + ":" + ds.info.remotePath)
    ensures ds.info.OtherInfo? && ds.summaryType != "vsan" ==> fatal
    ensures ds.info.OtherInfo? && ds.summaryType == "vsan" ==>
      (fatal <==> Index(ds.url, "vsan:") == -1) &&
      (!fatal ==>
        var start := Index(ds.url, "vsan:");
        r.Ok? && HasPrefix(r.value, "vsan:") && HasPrefix(ds.url[start..], r.value) &&
        r.value[|r.value| - 1] != '/' &&
        forall k :: start + |r.value| <= k < |ds.url| ==> ds.url[k] == '/')
  {
    match ds.info
    case VmfsInfo(local, uuid, _) =>
      if local == Some(true) {
        var host := GetLocalHost(hosts);
        if host.Err? {
          return Err(host.error), false;
        }
        return Ok(host.value + ":" + uuid), false;
      }
      return Ok(uuid), false;
    case NasInfo(remoteHost, remotePath) =>
      return Ok(remoteHost + ":" + remotePath), false;
    case OtherInfo =>
      if ds.summaryType == "vsan" {
        var id, panics := VsanId(ds.url);
        return Ok(id), panics;
      }
      return Err(Opaque("ErrNotImplemented")), true;
  }

  // Paths

  /** The datastore's own prefix of a path: "[<name>]". */
  function Bracketed(ds: Datastore): string
  {
    "[" + ds.name + "]"
  }

  /** `cleanPath`: drops a leading "[<name>]", or else a leading datastore
      url, and trims the white space around what is left. */
  function CleanPath(ds: Datastore, remotePath: string): (p: string)
    ensures HasPrefix(remotePath, Bracketed(ds)) ==> p == TrimSpace(remotePath[|Bracketed(ds)|..])
    ensures !HasPrefix(remotePath, Bracketed(ds)) && HasPrefix(remotePath, ds.url) ==>
      p == TrimSpace(remotePath[|ds.url|..])
    ensures !HasPrefix(remotePath, Bracketed(ds)) && !HasPrefix(remotePath, ds.url) ==> p == TrimSpace(remotePath)
    ensures |p| > 0 ==> !IsSpace(p[0]) && !IsSpace(p[|p| - 1])
  {
    var rest :=
      if HasPrefix(remotePath, Bracketed(ds)) then remotePath[|Bracketed(ds)|..]
      else if HasPrefix(remotePath, ds.url) then remotePath[|ds.url|..]
      else remotePath;
    TrimSpace(rest)
  }

  /** The path with every leading '/' removed. */
  function StripLeadingSlashes(path: string): (rest: string)
    ensures |rest| <= |path| && path[|path| - |rest|..] == rest
    ensures forall k :: 0 <= k < |path| - |rest| ==> path[k] == '/'
    ensures |rest| > 0 ==> rest[0] != '/'
  {
    if |path| > 0 && path[0] == '/' then StripLeadingSlashes(path[1..]) else path
  }

  /** `getPathString`: the "[<name>] <path>" form, after a loop that drops
      the leading '/' one at a time. */
  method GetPathString(ds: Datastore, path: string) returns (r: string)
    ensures r == "[" + ds.name + "] " + StripLeadingSlashes(path)
  {
    var p := path;
    while |p| > 0 && p[0] == '/'
      invariant StripLeadingSlashes(p) == StripLeadingSlashes(path)
      decreases |p|
    {
      p := p[1..];
    }
    r := "[" + ds.name + "] " + p;
  }

  lemma TrimSpaceLeadingBlank(s: string)
    ensures TrimSpace(" " + s) == TrimSpace(s)
  {
    assert (" " + s)[1..] == s;
  }

  /** A path string of the datastore cleans back to the stripped path: the
      "[<name>] " prefix that `getPathString` adds is exactly what
      `cleanPath` removes. */
  lemma CleanPathOfPathString(ds: Datastore, path: string)
    ensures CleanPath(ds, "[" + ds.name + "] " + StripLeadingSlashes(path)) == TrimSpace(StripLeadingSlashes(path))
  {
    var rest := StripLeadingSlashes(path);
    var s := "[" + ds.name + "] " + rest;
    assert s == Bracketed(ds) + (" " + rest);
    assert HasPrefix(s, Bracketed(ds));
    assert s[|Bracketed(ds)|..] == " " + rest;
    TrimSpaceLeadingBlank(rest);
  }

  /** The cleaned path as `GetPathUrl` escapes it: with a '/' put in front
      when it does not start with one. */
  function FolderPath(ds: Datastore, remotePath: string): (p: string)
    ensures |p| > 0 && p[0] == '/'
    ensures var c := CleanPath(ds, remotePath);
      if |c| > 0 && c[0] == '/' then p == c else p == "/" + c
  {
    var c := CleanPath(ds, remotePath);
    if |c| == 0 || c[0] != '/' then "/" + c else c
  }

  /** Each '/'-separated segment escaped on its own. */
  function EscapedSegments(segs: seq<string>, escape: string -> string): (r: seq<string>)
    ensures |r| == |segs|
    ensures forall i :: 0 <= i < |segs| ==> r[i] == escape(segs[i])
  {
    seq(|segs|, i requires 0 <= i < |segs| => escape(segs[i]))
  }

  /** What `pathEscape` computes. */
  function PathEscaped(path: string, escape: string -> string): string
  {
    Join(EscapedSegments(Split(path, '/'), escape), '/')
  }

  /** `pathEscape`: splits at '/', escapes the segments in place and joins
      them again. `escape` is `url.PathEscape`. */
  method PathEscape(path: string, escape: string -> string) returns (r: string)
    ensures r == PathEscaped(path, escape)
  {
    var pieces := Split(path, '/');
    var segs := new string[|pieces|](i requires 0 <= i < |pieces| => pieces[i]);
    for i := 0 to segs.Length
      invariant forall j :: 0 <= j < i ==> segs[j] == escape(pieces[j])
      invariant forall j :: i <= j < segs.Length ==> segs[j] == pieces[j]
    {
      segs[i] := escape(segs[i]);
    }
    assert segs[..] == EscapedSegments(pieces, escape);
    r := Join(segs[..], '/');
  }

  /** When escaping never yields a '/' (`url.PathEscape` escapes it), the
      escaped path has exactly the original's segments, each escaped. */
  lemma PathEscapeKeepsSegments(path: string, escape: string -> string)
    requires forall s :: '/' !in escape(s)
    ensures Split(PathEscaped(path, escape), '/') == EscapedSegments(Split(path, '/'), escape)
    ensures |Split(PathEscaped(path, escape), '/')| == |Split(path, '/')|
  {
    SplitJoin(EscapedSegments(Split(path, '/'), escape), '/');
  }

  /** The browse URL of a file. `query` renders the (dsName, dcPath) query
      parameters. */
  function PathUrl(ds: Datastore, remotePath: string, escape: string -> string,
                   query: (string, string) -> string): string
  {
    ds.managerUri + "/folder" + PathEscaped(FolderPath(ds, remotePath), escape) + "?" + query(ds.name, ds.dcPath)
  }

  /** `GetPathUrl`. */
  method GetPathUrl(ds: Datastore, remotePath: string, escape: string -> string,
                    query: (string, string) -> string) returns (r: string)
    ensures r == PathUrl(ds, remotePath, escape, query)
  {
    var p := CleanPath(ds, remotePath);
    if |p| == 0 || p[0] != '/' {
      p := "/" + p;
    }
    var escaped := PathEscape(p, escape);
    r := ds.managerUri + "/folder" + escaped + "?" + query(ds.name, ds.dcPath);
  }

  // Download

  /** How a `Read` of the response body ended: more to come, end of file,
      or a read error. */
  datatype ReadEnd = More | Eof | ReadFailed(e: Error)

  /** One `Read`: the bytes it put in the 4096-byte buffer and how it
      ended. */
  datatype ReadResult = ReadResult(data: seq<bv8>, end: ReadEnd)

  /** One `Write`: how many bytes the writer took, and its error. */
  datatype WriteResult = WriteResult(n: int, err: Option<Error>)

  datatype Response = Response(statusCode: int, status: string, body: seq<ReadResult>)

  /** A body is the sequence of its reads; it ends with EOF or an error,
      and no read returns more than the buffer holds. */
  predicate BodyEnds(body: seq<ReadResult>)
  {
    |body| > 0 && !body[|body| - 1].end.More? &&
    forall i :: 0 <= i < |body| ==> |body[i].data| <= 4096
  }

  /** A writer takes at most what it is offered, and a write without an
      error takes something. `write(off, p)` offers `p` after `off` bytes
      were taken. */
  ghost predicate WellBehaved(write: (nat, seq<bv8>) -> WriteResult)
  {
    forall off: nat, p: seq<bv8> ::
      0 <= write(off, p).n <= |p| && (write(off, p).err.None? && |p| > 0 ==> write(off, p).n > 0)
  }

  /** The inner loop: offers the rest of a chunk until it is all taken or a
      write fails; the number of bytes taken and the error. */
  function WriteAll(write: (nat, seq<bv8>) -> WriteResult, off: nat, p: seq<bv8>): (r: (nat, Option<Error>))
    requires WellBehaved(write)
    ensures r.0 <= |p|
    ensures r.1.None? ==> r.0 == |p|
    decreases |p|
  {
    if |p| == 0 then (0, None)
    else
      var w := write(off, p);
      if w.err.Some? then (w.n, w.err)
      else
        var rest := WriteAll(write, off + w.n, p[w.n..]);
        (w.n + rest.0, rest.1)
  }

  /** The bytes of the body from read `i` up to and including the first
      read that ends it. */
  function Delivered(body: seq<ReadResult>, i: nat): seq<bv8>
    requires i < |body| && BodyEnds(body)
    decreases |body| - i
  {
    if body[i].end.More? then body[i].data + Delivered(body, i + 1) else body[i].data
  }

  /** How that first ending read ended: EOF is success. */
  function EndError(body: seq<ReadResult>, i: nat): Option<Error>
    requires i < |body| && BodyEnds(body)
    decreases |body| - i
  {
    match body[i].end
    case More => EndError(body, i + 1)
    case Eof => None
    case ReadFailed(e) => Some(e)
  }

  predicate IsPrefix<T(==)>(a: seq<T>, b: seq<T>)
  {
    |a| <= |b| && b[..|a|] == a
  }

  /** The copy loop from read `i` on, after `off` bytes were written: the
      bytes the writer took and the error returned. Every chunk is offered
      until it is taken before the next read; a write error or the first
      ending read stops the copy, so the writer never gets more than the
      delivered body, and gets all of it when nothing failed. */
  function Copy(body: seq<ReadResult>, i: nat, write: (nat, seq<bv8>) -> WriteResult, off: nat)
    : (r: (seq<bv8>, Option<Error>))
    requires i < |body| && BodyEnds(body) && WellBehaved(write)
    ensures IsPrefix(r.0, Delivered(body, i))
    ensures r.1.None? ==> r.0 == Delivered(body, i)
    decreases |body| - i
  {
    var chunk := body[i].data;
    var w := WriteAll(write, off, chunk);
    if w.1.Some? then (chunk[..w.0], w.1)
    else
      match body[i].end
      case More =>
        var rest := Copy(body, i + 1, write, off + |chunk|);
        assert (chunk + Delivered(body, i + 1))[..|chunk + rest.0|] == chunk + rest.0 by {
          assert Delivered(body, i + 1)[..|rest.0|] == rest.0;
        }
        (chunk + rest.0, rest.1)
      case Eof => (chunk, None)
      case ReadFailed(e) => (chunk, Some(e))
  }

  /** With a writer that never fails, the download writes the whole body
      and reports exactly the error the body ended with. */
  lemma {:induction false} CopyWithWorkingWriter(body: seq<ReadResult>, i: nat,
                                                 write: (nat, seq<bv8>) -> WriteResult, off: nat)
    requires i < |body| && BodyEnds(body) && WellBehaved(write)
    requires forall o: nat, p: seq<bv8> :: write(o, p).err.None?
    ensures Copy(body, i, write, off) == (Delivered(body, i), EndError(body, i))
    decreases |body| - i
  {
    WriteAllWorking(write, off, body[i].data);
    if body[i].end.More? {
      CopyWithWorkingWriter(body, i + 1, write, off + |body[i].data|);
    }
  }

  lemma {:induction false} WriteAllWorking(write: (nat, seq<bv8>) -> WriteResult, off: nat, p: seq<bv8>)
    requires WellBehaved(write)
    requires forall o: nat, q: seq<bv8> :: write(o, q).err.None?
    ensures WriteAll(write, off, p) == (|p|, None)
    decreases |p|
  {
    if |p| > 0 {
      var w := write(off, p);
      WriteAllWorking(write, off + w.n, p[w.n..]);
    }
  }

  /** The inner write loop of `Download`: offers the rest of the chunk
      until all of it is taken (`wo` reaches `rn`) or a write fails;
      `taken` is how much the writer took. */
  method WriteChunk(write: (nat, seq<bv8>) -> WriteResult, off: nat, chunk: seq<bv8>)
    returns (taken: nat, err: Option<Error>)
    requires WellBehaved(write)
    ensures (taken, err) == WriteAll(write, off, chunk)
  {
    var rn := |chunk|;
    var wo := 0;
    while wo < rn
      invariant 0 <= wo <= rn
      invariant WriteAll(write, off, chunk) == Rest(write, off, chunk, wo)
      decreases rn - wo
    {
      var w := write(off + wo, chunk[wo..]);
      WriteAllStep(write, off, chunk, wo);
      if w.err.Some? {
        return wo + w.n, w.err;
      }
      wo := wo + w.n;
    }
    return wo, None;
  }

  /** What is taken in all when `wo` bytes of the chunk already were. */
  function Rest(write: (nat, seq<bv8>) -> WriteResult, off: nat, chunk: seq<bv8>, wo: nat): (nat, Option<Error>)
    requires WellBehaved(write) && wo <= |chunk|
  {
    var r := WriteAll(write, off + wo, chunk[wo..]);
    (wo + r.0, r.1)
  }

  /** One round of the inner loop. */
  lemma WriteAllStep(write: (nat, seq<bv8>) -> WriteResult, off: nat, chunk: seq<bv8>, wo: nat)
    requires WellBehaved(write) && wo < |chunk|
    ensures var w := write(off + wo, chunk[wo..]);
      0 <= w.n <= |chunk| - wo && (w.err.None? ==> w.n > 0) &&
      Rest(write, off, chunk, wo) ==
        if w.err.Some? then (wo + w.n, w.err) else Rest(write, off, chunk, wo + w.n)
  {
    var w := write(off + wo, chunk[wo..]);
    if w.err.None? {
      assert chunk[wo..][w.n..] == chunk[wo + w.n..];
    }
  }

  /** The read loop of `Download`: reads the body, writes each chunk
      before the next read, and stops at EOF or at the first error. */
  method CopyBody(body: seq<ReadResult>, write: (nat, seq<bv8>) -> WriteResult)
    returns (written: seq<bv8>, err: Option<Error>)
    requires BodyEnds(body) && WellBehaved(write)
    ensures (written, err) == Copy(body, 0, write, 0)
  {
    written := [];
    var i := 0;
    assert [] + Copy(body, 0, write, 0).0 == Copy(body, 0, write, 0).0;
    while true
      invariant 0 <= i < |body|
      invariant Copy(body, 0, write, 0) ==
        (written + Copy(body, i, write, |written|).0, Copy(body, i, write, |written|).1)
      decreases |body| - i
    {
      var chunk := body[i].data;
      var taken, we := WriteChunk(write, |written|, chunk);
      if we.Some? {
        return written + chunk[..taken], we;
      }
      if body[i].end.Eof? {
        return written + chunk, None;
      }
      if body[i].end.ReadFailed? {
        return written + chunk, Some(body[i].end.e);
      }
      CopyStep(body, i, write, written);
      written := written + chunk;
      i := i + 1;
    }
  }

  /** One read of the copy loop that is written in full and is not the
      last: its chunk moves to the bytes already written. */
  lemma CopyStep(body: seq<ReadResult>, i: nat, write: (nat, seq<bv8>) -> WriteResult, done: seq<bv8>)
    requires i < |body| && BodyEnds(body) && WellBehaved(write)
    requires WriteAll(write, |done|, body[i].data).1.None? && body[i].end.More?
    ensures i + 1 < |body|
    ensures (done + Copy(body, i, write, |done|).0, Copy(body, i, write, |done|).1) ==
      (done + body[i].data + Copy(body, i + 1, write, |done + body[i].data|).0,
       Copy(body, i + 1, write, |done + body[i].data|).1)
  {
    var rest := Copy(body, i + 1, write, |done| + |body[i].data|);
    assert done + (body[i].data + rest.0) == done + body[i].data + rest.0;
  }

  /** `Download`: GETs the file's browse URL (`fetch` is the HTTP round
      trip) and copies the body to the writer. `written` is what the
      writer took. */
  method Download(ds: Datastore, remotePath: string, escape: string -> string,
                  query: (string, string) -> string, fetch: string -> Result<Response>,
                  write: (nat, seq<bv8>) -> WriteResult)
    returns (written: seq<bv8>, err: Option<Error>)
    requires forall u :: fetch(u).Ok? ==> BodyEnds(fetch(u).value.body)
    requires WellBehaved(write)
    ensures var resp := fetch(PathUrl(ds, remotePath, escape, query));
      if resp.Err? then written == [] && err == Some(resp.error)
      else if resp.value.statusCode >= 400 then written == [] && err == Some(General(resp.value.status))
      else BodyEnds(resp.value.body) && (written, err) == Copy(resp.value.body, 0, write, 0)
  {
    var url := GetPathUrl(ds, remotePath, escape, query);
    var resp := fetch(url);
    if resp.Err? {
      return [], Some(resp.error);
    }
    if resp.value.statusCode >= 400 {
      return [], Some(General(resp.value.status));
    }
    written, err := CopyBody(resp.value.body, write);
  }
}
