// Video sources of the video service (pkg/video/models/video_source.go and
// videodriver.go): the registry of drivers by identity, seeding one source
// row per supported identity, starting the sync tasks, and finding a
// source's driver.
module VideoSources {
  import opened Wrappers

  /** A video driver; `GetIdentity` is its identity. */
  datatype VideoDriver = VideoDriver(identity: string, implementation: string)

  datatype VideoSource = VideoSource(name: string, identity: string, enabled: bool)

  /** The `videoDrivers` map. */
  class VideoDriverRegistry {
    var drivers: map<string, VideoDriver>

    /** Every driver is registered under its own identity. */
    predicate Valid()
      reads this
    {
      forall identity :: identity in drivers ==> drivers[identity].identity == identity
    }

    /** The registry starts empty. */
    constructor()
      ensures Valid() && drivers == map[]
    {
      drivers := map[];
    }

    /** `RegisterVideoDriver`: the driver is stored under its identity,
        replacing any driver registered there before; every other entry is
        kept. */
    method RegisterVideoDriver(driver: VideoDriver)
      requires Valid()
      modifies this
      ensures Valid()
      ensures drivers == old(drivers)[driver.identity := driver]
      ensures GetDriver(driver.identity) == Some(driver)
      ensures forall identity :: identity != driver.identity ==> GetDriver(identity) == old(GetDriver(identity))
    {
      drivers := drivers[driver.identity := driver];
    }

    /** `SVideoSource.GetDriver` on a source of this identity: the driver
        registered for it; None is the panic for an identity nobody
        registered. */
    function GetDriver(identity: string): (r: Option<VideoDriver>)
      reads this
      ensures r.Some? <==> identity in drivers
      ensures r.Some? ==> r.value == drivers[identity]
      ensures Valid() && r.Some? ==> r.value.identity == identity
    {
      if identity in drivers then Some(drivers[identity]) else None
    }
  }

  /** Some row has this identity. */
  predicate HasIdentity(rows: map<string, VideoSource>, identity: string)
  {
    exists id :: id in rows && rows[id].identity == identity
  }

  /** What InitializeData has done to the rows `before` once the identities
      of `done` are handled: old rows are kept, each new row is the one
      source of a handled identity that had none, every handled identity has
      a row, and nothing is added when every identity already had one. */
  predicate Seeded(before: map<string, VideoSource>, after: map<string, VideoSource>,
                   supported: map<string, string>, done: set<string>)
  {
    && before.Keys <= after.Keys
    && (forall id :: id in before ==> after[id] == before[id])
    && (forall id :: id in after && id !in before ==>
          var identity := after[id].identity;
          identity in done && identity in supported && !HasIdentity(before, identity) &&
          after[id] == VideoSource(supported[identity], identity, true))
    && (forall a, b :: (a in after && b in after && a !in before && b !in before &&
                        after[a].identity == after[b].identity) ==> a == b)
    && (forall identity :: identity in done ==> HasIdentity(after, identity))
    && ((forall identity :: identity in supported ==> HasIdentity(before, identity)) ==> after == before)
  }

  /** Handling one more identity, with or without an insert, keeps Seeded. */
  lemma SeededStep(before: map<string, VideoSource>, mid: map<string, VideoSource>, after: map<string, VideoSource>,
                   supported: map<string, string>, done: set<string>, identity: string, id: string)
    requires Seeded(before, mid, supported, done) && identity in supported
    requires HasIdentity(after, identity)
    requires HasIdentity(mid, identity) ==> after == mid
    requires !HasIdentity(mid, identity) ==>
      id !in mid && after == mid[id := VideoSource(supported[identity], identity, true)]
    ensures Seeded(before, after, supported, done + {identity})
  {
    if !HasIdentity(mid, identity) {
      forall x | x in done ensures HasIdentity(after, x) {
        var w :| w in mid && mid[w].identity == x;
        assert after[w] == mid[w];
      }
      forall a | a in after && a !in before && a != id ensures after[a].identity != identity {
        assert a in mid && mid[a] == after[a];
      }
    }
  }

  /** The sources of `ids`, in order, whose task could be created. */
  function Started(ids: seq<string>, newTaskOk: string -> bool): (r: seq<string>)
    ensures forall id :: id in r <==> id in ids && newTaskOk(id)
  {
    if ids == [] then [] else (if newTaskOk(ids[0]) then [ids[0]] else []) + Started(ids[1..], newTaskOk)
  }

  /** The source table and the sync tasks started on its rows. */
  class VideoSourceTable {
    var sources: map<string, VideoSource>
    var tasks: seq<string>

    constructor(rows: map<string, VideoSource>)
      ensures sources == rows && tasks == []
    {
      sources, tasks := rows, [];
    }

    /** The ids of the enabled rows. */
    function EnabledIds(): (ids: set<string>)
      reads this
      ensures forall id :: id in ids <==> id in sources && sources[id].enabled
    {
      set id | id in sources && sources[id].enabled
    }

    /** `InitializeData`: for each supported identity (map `supported` from
        identity to name, in Go's map order) the rows of that identity are
        counted (`countOk`), and if there are none an enabled source of that
        identity and name is inserted (`insertFails`). Any error ends the
        run. Existing rows are never changed, and a run over identities
        that all have rows inserts nothing. */
    method InitializeData(supported: map<string, string>, countOk: string -> bool, insertFails: string -> bool)
      returns (err: Option<Error>)
      modifies this`sources
      ensures old(sources).Keys <= sources.Keys
      ensures forall id :: id in old(sources) ==> sources[id] == old(sources)[id]
      ensures forall id :: id in sources && id !in old(sources) ==>
        var identity := sources[id].identity;
        identity in supported && !HasIdentity(old(sources), identity) &&
        sources[id] == VideoSource(supported[identity], identity, true)
      ensures forall a, b :: (a in sources && b in sources && a !in old(sources) && b !in old(sources) &&
                              sources[a].identity == sources[b].identity) ==> a == b
      ensures (forall identity :: identity in supported ==> HasIdentity(old(sources), identity)) ==> sources == old(sources)
      ensures err.None? ==> forall identity :: identity in supported ==> HasIdentity(sources, identity)
      ensures (forall identity :: identity in supported ==>
                 countOk(identity) && (HasIdentity(old(sources), identity) || !insertFails(identity))) ==> err.None?
    {
      var pending := supported.Keys;
      while pending != {}
        invariant pending <= supported.Keys
        invariant Seeded(old(sources), sources, supported, supported.Keys - pending)
        decreases pending
      {
        var identity :| identity in pending;
        ghost var before := sources;
        var failed, id := SeedIdentity(identity, supported[identity], countOk(identity), insertFails(identity));
        if failed.Some? {
          return failed;
        }
        SeededStep(old(sources), before, sources, supported, supported.Keys - pending, identity, id);
        assert supported.Keys - (pending - {identity}) == (supported.Keys - pending) + {identity};
        pending := pending - {identity};
      }
      err := None;
    }

    /** One identity of InitializeData: its rows are counted and, when it has
        none, an enabled source with that name is inserted under a fresh id. */
    method SeedIdentity(identity: string, name: string, countOk: bool, insertFails: bool)
      returns (err: Option<Error>, ghost id: string)
      modifies this`sources
      ensures err.Some? <==> !countOk || (!HasIdentity(old(sources), identity) && insertFails)
      ensures err.None? ==> HasIdentity(sources, identity)
      ensures err.Some? || HasIdentity(old(sources), identity) ==> sources == old(sources)
      ensures err.None? && !HasIdentity(old(sources), identity) ==>
        id !in old(sources) && sources == old(sources)[id := VideoSource(name, identity, true)]
    {
      id := "";
      if !countOk {
        return Some(Opaque("CountWithError")), id;
      }
      if !HasIdentity(sources, identity) {
        if insertFails {
          return Some(Opaque("Insert")), id;
        }
        var newId := FreshId(sources.Keys);
        id := newId;
        sources := sources[newId := VideoSource(name, identity, true)];
        assert sources[newId].identity == identity;
      }
      err := None;
    }

    /** `SyncVideos`: the enabled sources, in an order the database picks
        (`order`), each get a sync task; a source whose task cannot be
        created (`newTaskOk`) is skipped and the others still get theirs.
        A failing query (`fetchOk`) starts nothing. */
    method SyncVideos(fetchOk: bool, newTaskOk: string -> bool) returns (ghost order: seq<string>)
      modifies this`tasks
      ensures !fetchOk ==> tasks == old(tasks)
      ensures fetchOk ==> Enumerates(order, EnabledIds()) && tasks == old(tasks) + Started(order, newTaskOk)
      ensures forall id :: id in tasks[|old(tasks)|..] <==> fetchOk && id in sources && sources[id].enabled && newTaskOk(id)
    {
      order := [];
      if !fetchOk {
        return;
      }
      var ids := Enumerate(EnabledIds());
      order := ids;
      StartTasks(ids, newTaskOk);
    }

    /** The task loop of SyncVideos over the fetched ids, in order. */
    method StartTasks(ids: seq<string>, newTaskOk: string -> bool)
      modifies this`tasks
      ensures tasks == old(tasks) + Started(ids, newTaskOk)
    {
      var started := [];
      var i := 0;
      while i < |ids|
        invariant 0 <= i <= |ids|
        invariant started == Started(ids[..i], newTaskOk)
        invariant tasks == old(tasks)
      {
        if newTaskOk(ids[i]) {
          started := started + [ids[i]];
        }
        StartedAppend(ids[..i], ids[i], newTaskOk);
        assert ids[..i + 1] == ids[..i] + [ids[i]];
        i := i + 1;
      }
      assert ids[..|ids|] == ids;
      tasks := tasks + started;
    }
  }

  /** Starting one more source extends the started list at its end. */
  lemma {:induction false} StartedAppend(ids: seq<string>, id: string, newTaskOk: string -> bool)
    ensures Started(ids + [id], newTaskOk) == Started(ids, newTaskOk) + (if newTaskOk(id) then [id] else [])
  {
    if ids != [] {
      assert (ids + [id])[1..] == ids[1..] + [id];
      StartedAppend(ids[1..], id, newTaskOk);
    } else {
      assert [id][1..] == [];
    }
  }
}
