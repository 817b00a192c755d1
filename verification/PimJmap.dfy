/** A collection of contacts or events on a JMAP server that other clients change between
    requests: snapshots, conditional writes, removal from one collection. */
module PimJmap {
  import opened Wrappers
  import opened JsonPatch

  type Id = string

  datatype PimError =
    | Failed                    // no answer, or a malformed one
    | Unreadable                // no such collection, or no right to read it
    | Changed                   // somebody else changed something meanwhile
    | BadObject                 // no uid, or not in the mapped collection
    | UnknownRevision
    | Refused(reason: PatchError)

  /** What the server holds. Its state changes with every mutation and never comes back; the
      listing is its answer to the query for the mapped collection. */
  datatype Pim = Pim(state: nat, objects: map<Id, Fields>, listing: seq<Id>)

  datatype Stored = Stored(revision: nat, data: Fields)
  datatype Item = Item(id: Id, revision: nat, data: Fields)

  /** A write of this client that took effect. */
  datatype Event = Event(id: Id, was: Option<Fields>, now: Option<Fields>)

  predicate Belongs(o: Fields, membership: string, remote: string) {
    Get(o, membership).Object? && Get(Get(o, membership).fields, remote) == Bool(true)
  }

  predicate NoRepeats(s: seq<Id>) {
    forall i, j :: 0 <= i < j < |s| ==> s[i] != s[j]
  }

  /** The listing names every object of the collection once. */
  ghost predicate Listed(s: Pim, membership: string, remote: string) {
    && s.state > 0
    && NoRepeats(s.listing)
    && (forall id :: id in s.listing <==> id in s.objects && Belongs(s.objects[id], membership, remote))
    && (forall id :: id in s.objects ==> Get(s.objects[id], "id") == Text(id))
  }

  /** Time passes on the server. */
  predicate Since(s: Pim, t: Pim) {
    t == s || t.state > s.state
  }

  /** The memberships that are set. */
  function Memberships(o: Fields, membership: string): (s: set<string>) {
    if Get(o, membership).Object? then
      var m := Get(o, membership).fields;
      set k | k in m && m[k] == Bool(true)
    else {}
  }

  /** The object without its membership in one collection. */
  function Without(o: Fields, membership: string, remote: string): (r: Fields) {
    SetAt(o, [membership, remote], Null)
  }

  lemma WithoutEffect(o: Fields, membership: string, remote: string)
    requires Belongs(o, membership, remote)
    ensures var r := Without(o, membership, remote);
      && !Belongs(r, membership, remote)
      && Memberships(r, membership) == Memberships(o, membership) - {remote}
      && (forall k :: k != membership ==> Get(r, k) == Get(o, k))
  {
    var m := o[membership].fields;
    assert SetAt(m, [membership, remote][1..], Null) == m - {remote};
    assert Without(o, membership, remote) == o[membership := Object(m - {remote})];
  }

  /** More than one membership is set exactly when another collection would lose the object. */
  lemma CountMemberships(o: Fields, membership: string, remote: string)
    requires Belongs(o, membership, remote)
    ensures |Memberships(o, membership)| > 1 <==> exists k :: k != remote && k in Memberships(o, membership)
  {
    var m := Memberships(o, membership);
    assert |m| == |m - {remote}| + 1;
    if |m - {remote}| > 0 {
      var k :| k in m - {remote};
      assert k != remote && k in m;
    } else {
      assert forall k :: k in m && k != remote ==> k in m - {remote};
    }
  }

  /** The objects read so far are the beginning of the listing of s. */
  ghost predicate Begins(s: Pim, items: seq<Item>, objects: map<Id, Stored>) {
    && |items| <= |s.listing|
    && (forall n :: 0 <= n < |items| ==>
          var id := s.listing[n];
          id in s.objects && items[n] == Item(id, s.state, s.objects[id]))
    && (forall id :: id in objects <==> id in s.listing[..|items|])
    && (forall id :: id in objects && id in s.objects ==> objects[id] == Stored(s.state, s.objects[id]))
  }

  lemma BeginsStep(s: Pim, items: seq<Item>, objects: map<Id, Stored>, id: Id)
    requires Begins(s, items, objects) && |items| < |s.listing| && s.listing[|items|] == id && id in s.objects
    ensures Begins(s, items + [Item(id, s.state, s.objects[id])], objects[id := Stored(s.state, s.objects[id])])
  {
  }

  /** The log says that one object was replaced, and so it was. */
  ghost predicate Patched(before: seq<Event>, log: seq<Event>, s: Pim, t: Pim, id: Id, now: Fields) {
    id in s.objects && log == before + [Event(id, Some(s.objects[id]), Some(now))] && t.objects == s.objects[id := now]
  }

  /** No object was served in a later state, and those of the present one are what the server holds. */
  ghost predicate ServedBy(s: Pim, versions: map<(Id, nat), Fields>) {
    && (forall id, rev :: (id, rev) in versions ==> rev <= s.state)
    && (forall id :: (id, s.state) in versions ==> id in s.objects && versions[(id, s.state)] == s.objects[id])
  }

  ghost predicate KnownServed(objects: map<Id, Stored>, versions: map<(Id, nat), Fields>) {
    forall id :: id in objects ==>
      (id, objects[id].revision) in versions && versions[(id, objects[id].revision)] == objects[id].data
  }

  class Client {
    const membership: string
    const remote: string
    var server: Pim
    var state: nat
    var objects: map<Id, Stored>
    ghost var stale: set<Id>          // written or removed since they were last read
    /** Every object ever served under an id and a revision. */
    ghost var versions: map<(Id, nat), Fields>
    ghost var log: seq<Event>

    constructor (membership: string, remote: string, server: Pim)
      requires membership != "id" && !Readonly(membership) && membership != "uid" && Listed(server, membership, remote)
      ensures Valid() && this.membership == membership && this.remote == remote && this.server == server
    {
      this.membership, this.remote, this.server := membership, remote, server;
      state, objects, stale, versions, log := 0, map[], {}, map[], [];
    }

    /** As long as the server is in the state last seen, every known object is what it holds. */
    ghost predicate Valid()
      reads this
    {
      && !Readonly(membership) && membership != "uid"
      && Listed(server, membership, remote) && state <= server.state
      && (server.state == state ==>
            forall id :: id in objects && id !in stale ==>
              id in server.objects && server.objects[id] == objects[id].data && Belongs(objects[id].data, membership, remote))
      && Served()
    }

    /** A revision names one object, and every known object is the one its revision names. */
    ghost predicate Served()
      reads this
    {
      ServedBy(server, versions) && KnownServed(objects, versions)
    }

    ghost predicate Extends(before: map<(Id, nat), Fields>)
      reads this
    {
      forall v :: v in before ==> v in versions && versions[v] == before[v]
    }

    /** Other clients. */
    method Others()
      requires Valid()
      modifies this`server
      ensures Valid() && Since(old(server), server)
    {
      var t: Pim := *;
      if t.state > server.state && IsListing(t) {
        server := t;
      }
    }

    predicate IsListing(t: Pim)
      reads this
      ensures IsListing(t) ==> Listed(t, membership, remote)
    {
      && t.state > 0
      && NoRepeats(t.listing)
      && (forall id :: id in t.listing ==> id in t.objects && Belongs(t.objects[id], membership, remote))
      && (forall id :: id in t.objects && Belongs(t.objects[id], membership, remote) ==> id in t.listing)
      && (forall id :: id in t.objects ==> Get(t.objects[id], "id") == Text(id))
    }

    // ---------------------------------------------------------------- requests

    /** The mapped collection exists and may be read. */
    method GetGroup() returns (readable: bool)
      requires Valid()
      modifies this`server
      ensures Valid() && Since(old(server), server)
    {
      Others();
      readable := *;
    }

    method GetState() returns (r: Result<nat, PimError>)
      requires Valid()
      modifies this`server
      ensures Valid() && Since(old(server), server)
      ensures r.Ok? ==> r.value == server.state
      ensures r.Err? ==> r.error == Failed
    {
      Others();
      if * {
        return Err(Failed);
      }
      return Ok(server.state);
    }

    /** One object and the state it was read in. */
    method GetObject(id: Id) returns (r: Result<Stored, PimError>)
      requires Valid()
      modifies this`server, this`versions
      ensures Valid() && Since(old(server), server) && Extends(old(versions))
      ensures r.Ok? ==> (id, r.value.revision) in versions && versions[(id, r.value.revision)] == r.value.data
      ensures r.Ok? ==> id in server.objects && r.value == Stored(server.state, server.objects[id])
      ensures r.Err? ==> r.error == Failed
    {
      Others();
      var lost: bool := *;
      if lost || id !in server.objects {
        return Err(Failed);
      }
      versions := versions[(id, server.state) := server.objects[id]];
      return Ok(Stored(server.state, server.objects[id]));
    }

    /** A page of the listing, empty only at the end, and the server's mark for the query,
        of which nothing is assumed. */
    method Query(position: nat) returns (r: Result<(seq<Id>, nat), PimError>)
      requires Valid()
      modifies this`server
      ensures Valid() && Since(old(server), server)
      ensures r.Ok? ==> IsPage(r.value.0, server.listing, position)
    {
      Others();
      var limit: nat := *;
      var queryState: nat := *;
      if limit < 1 || limit > 128 {
        return Err(Failed);
      }
      var l := server.listing;
      if position >= |l| {
        return Ok(([], queryState));
      }
      var end := if position + limit <= |l| then position + limit else |l|;
      return Ok((l[position..end], queryState));
    }

    // ---------------------------------------------------------------- snapshot

    /** Either nothing has changed since s and the reading is right so far, or the server has
        moved on and can never again be in the state of s. */
    ghost predicate Reading(s: Pim, items: seq<Item>)
      reads this
    {
      state == s.state && Since(s, server) && Listed(s, membership, remote) && Begins(s, items, objects)
    }

    /** Reads the whole collection, or fails. A success is the collection at one moment: the
        server's state, at which every object was read, still holds at the end. */
    method Snapshot() returns (r: Result<seq<Item>, PimError>)
      requires Valid()
      modifies this`server, this`state, this`objects, this`stale, this`versions
      ensures Valid() && Since(old(server), server) && Extends(old(versions))
      ensures r.Ok? ==> state == server.state && Begins(server, r.value, objects) && |r.value| == |server.listing|
      ensures r.Ok? ==> stale == {}
    {
      hide NoRepeats, ServedBy;
      var readable := GetGroup();
      if !readable {
        return Err(Unreadable);
      }
      var initial := GetState();
      if initial.Err? {
        return Err(initial.error);
      }
      ghost var s := server;
      state, objects, stale := initial.value, map[], {};
      var items := ReadPages(s);
      if items.Err? {
        return items;
      }
      var last := GetState();
      if last.Err? {
        return Err(last.error);
      }
      if last.value != state {
        return Err(Changed);
      }
      return items;
    }

    /** Reads page after page, as long as the server's mark for the query stays the same. */
    method ReadPages(ghost s: Pim) returns (r: Result<seq<Item>, PimError>)
      requires Valid() && stale == {} && Reading(s, [])
      modifies this`server, this`objects, this`versions
      ensures Valid() && Since(old(server), server) && Extends(old(versions))
      ensures r.Ok? ==> Reading(s, r.value) && (server == s ==> |r.value| == |s.listing|)
    {
      hide NoRepeats, Served, Listed, Begins;
      var items: seq<Item> := [];
      var queryState := 0;
      ReadingFits(s, items);
      while true
        invariant Valid() && Reading(s, items) && |items| <= |s.listing|
        invariant Since(old(server), server) && Extends(old(versions))
        decreases |s.listing| - |items|
      {
        var page := Query(|items|);
        if page.Err? {
          return Err(page.error);
        }
        if page.value.1 == 0 || (queryState != 0 && page.value.1 != queryState) {
          return Err(Changed);
        }
        queryState := page.value.1;
        if page.value.0 == [] {
          return Ok(items);
        }
        var read := ReadPage(s, items, page.value.0);
        if read.Err? {
          return read;
        }
        items := read.value;
        ReadingFits(s, items);
      }
    }

    lemma ReadingFits(s: Pim, items: seq<Item>)
      requires Reading(s, items)
      ensures |items| <= |s.listing|
    {
    }

    /** Reads the objects of one page, each in the state of the snapshot. */
    method ReadPage(ghost s: Pim, items: seq<Item>, page: seq<Id>) returns (r: Result<seq<Item>, PimError>)
      requires Valid() && stale == {} && Reading(s, items)
      requires page != [] && (server == s ==> IsPage(page, s.listing, |items|))
      modifies this`server, this`objects, this`versions
      ensures Valid() && Since(old(server), server) && Extends(old(versions))
      ensures r.Ok? ==> Reading(s, r.value) && |r.value| == |items| + |page|
    {
      var out := items;
      var n := 0;
      while n < |page|
        invariant n <= |page| && |out| == |items| + n
        invariant Valid() && Since(old(server), server) && Reading(s, out) && Extends(old(versions))
        invariant n == 0 ==> (old(server) == s ==> IsPage(page, s.listing, |items|))
        invariant n > 0 ==> IsPage(page, s.listing, |items|)
      {
        var o := ReadOne(s, out, page[n]);
        if o.Err? {
          return Err(o.error);
        }
        out := out + [o.value];
        n := n + 1;
      }
      return Ok(out);
    }

    method ReadOne(ghost s: Pim, items: seq<Item>, id: Id) returns (r: Result<Item, PimError>)
      requires Valid() && stale == {} && Reading(s, items)
      requires server == s ==> |items| < |s.listing| && s.listing[|items|] == id
      modifies this`server, this`objects, this`versions
      ensures Valid() && Since(old(server), server) && Extends(old(versions))
      ensures r.Ok? ==> server == s && Reading(s, items + [r.value])
    {
      hide NoRepeats, Begins, ServedBy;
      var got := GetObject(id);
      if got.Err? {
        return Err(got.error);
      }
      if got.value.revision != state {
        return Err(Changed);
      }
      if Get(got.value.data, "id") != Text(id) {
        return Err(Failed);
      }
      if !Belongs(got.value.data, membership, remote) || id in objects {
        return Err(Changed);
      }
      BeginsStep(s, items, objects, id);
      objects := objects[id := Stored(state, got.value.data)];
      return Ok(Item(id, state, got.value.data));
    }

    // ---------------------------------------------------------------- conditional writes

    /** The object that the write took effect on is the one its revision names, unless this client wrote
        it before without reading it back; the edit is on it. */
    twostate predicate Overwrote(id: Id, revision: nat, v: Fields)
      reads this
    {
      && |log| == |old(log)| + 1 && old(log) <= log
      && var e := log[|old(log)|];
      && e.id == id && e.was.Some? && e.now.Some?
      && (id !in old(stale) ==>
            && (id, revision) in versions && e.was.value == versions[(id, revision)]
            && Edited(e.was.value, v, e.now.value))
    }

    /** An object of the mapped collection came under an id that was free. */
    twostate predicate Added(v: Fields)
      reads this
    {
      && |log| == |old(log)| + 1 && old(log) <= log
      && var e := log[|old(log)|];
      && e.was == None && e.now.Some? && e.id != "" && e.id !in old(server).objects
      && Belongs(e.now.value, membership, remote) && ("id" !in v ==> e.now.value != v)
      && Given(v, e.now.value, membership)
    }

    /** What was known of the object is what it was, and it has lost this membership, or with no other is gone. */
    twostate predicate TookOut(o: Item)
      reads this
    {
      && |log| == |old(log)| + 1 && old(log) <= log
      && var e := log[|old(log)|];
      && e.id == o.id
      && (o.id in old(objects) && old(objects)[o.id] == Stored(o.revision, o.data) && o.id !in old(stale) ==>
            && e.was == Some(o.data)
            && e.now == if |Memberships(o.data, membership)| > 1 then Some(Without(o.data, membership, remote)) else None)
    }

    /** Writes one object, or removes it, provided the server is still in the state last seen. */
    method Set(id: Id, o: Option<Fields>) returns (r: Result<(), PimError>)
      requires Valid() && (o.Some? ==> Get(o.value, "id") == Text(id))
      modifies this`server, this`state, this`stale, this`log
      ensures Valid() && Since(old(server), server)
      ensures r.Ok? ==> log != old(log)
      ensures log != old(log) ==>
        && old(server).state == old(state)
        && log == old(log) + [Event(id, ObjectAt(old(server), id), o)]
        && server.objects == (if o.Some? then old(server).objects[id := o.value] else old(server).objects - {id})
      ensures r.Ok? ==> old(server).state == old(state) && state == server.state > old(state)
      ensures r.Ok? ==> stale == old(stale) + {id}
      ensures r.Err? ==> state == old(state) && stale == old(stale)
    {
      Others();
      var refused: bool := *;
      if refused || server.state != state {
        return Err(Failed);
      }
      ghost var s := server;
      var now := if o.Some? then server.objects[id := o.value] else server.objects - {id};
      var listing := Relisted(server.listing, id, o.Some? && Belongs(o.value, membership, remote));
      RelistedIsListed(server, id, now, membership, remote);
      server := Pim(server.state + 1, now, listing);
      log := log + [Event(id, ObjectAt(s, id), o)];
      if * {
        return Err(Failed);   // the answer is lost
      }
      state, stale := server.state, stale + {id};
      return Ok(());
    }

    /** Patches one object; the server does not let its identity change. */
    method Update(id: Id, patch: Fields) returns (r: Result<(), PimError>)
      requires Valid()
      modifies this`server, this`state, this`stale, this`log
      ensures Valid() && Since(old(server), server)
      ensures r.Ok? ==> log != old(log)
      ensures log != old(log) ==>
        && old(server).state == old(state) && id in old(server).objects
        && exists paths ::
          && Enumerates(paths, patch)
          && Patched(old(log), log, old(server), server, id, ApplyPatch(old(server).objects[id], patch, paths))
      ensures r.Ok? ==> old(server).state == old(state) && state == server.state > old(state) && id in old(server).objects
      ensures r.Ok? ==> stale == old(stale) + {id}
      ensures r.Err? ==> state == old(state) && stale == old(stale)
    {
      Others();
      if id !in server.objects {
        return Err(Failed);
      }
      var paths := Paths(patch);
      var o := ApplyPatch(server.objects[id], patch, paths);
      if Get(o, "id") != Text(id) {
        return Err(Failed);
      }
      ghost var s := server;
      r := Set(id, Some(o));
    }

    /** Reads an object back after it was written. */
    method ReadBack(id: Id) returns (r: Result<Item, PimError>)
      requires Valid() && id in stale
      modifies this`server, this`objects, this`stale, this`versions
      ensures Valid() && Since(old(server), server) && Extends(old(versions))
      ensures r.Ok? ==> server == old(server) && id in server.objects && r.value == Item(id, state, server.objects[id])
      ensures r.Ok? ==> server.state == state && (Belongs(r.value.data, membership, remote) ==> stale == old(stale) - {id})
      ensures r.Ok? ==> objects == old(objects)[id := Stored(state, r.value.data)]
      ensures r.Err? ==> objects == old(objects) && stale == old(stale)
      requires state == server.state
    {
      var got := GetObject(id);
      if got.Err? {
        return Err(got.error);
      }
      if got.value.revision != state {
        return Err(Changed);
      }
      if Get(got.value.data, "id") != Text(id) {
        return Err(Failed);
      }
      objects := objects[id := Stored(state, got.value.data)];
      if Belongs(got.value.data, membership, remote) {
        stale := stale - {id};
      }
      return Ok(Item(id, state, got.value.data));
    }

    /** A known object is the one its revision names, and what the server holds if nothing has changed since. */
    lemma KnownVersion(id: Id)
      requires Valid() && id in objects
      ensures (id, objects[id].revision) in versions && versions[(id, objects[id].revision)] == objects[id].data
      ensures id !in stale && server.state == state ==> id in server.objects && server.objects[id] == objects[id].data
    {
    }

    /** Asks for the difference between the known version and the edited object. */
    method Patch(id: Id, revision: nat, v: Fields) returns (r: Result<(), PimError>)
      requires Valid() && id in objects && objects[id].revision == revision
      modifies this`server, this`state, this`stale, this`log
      ensures Valid() && Since(old(server), server)
      ensures r.Ok? ==> log != old(log) && state == server.state > old(state)
      ensures log != old(log) ==>
        && old(server).state == old(state) && Overwrote(id, revision, v)
        && id in old(server).objects && log[|old(log)|].was == Some(old(server).objects[id])
        && server.objects == old(server).objects[id := log[|old(log)|].now.value]
      ensures r.Ok? ==> stale == old(stale) + {id}
    {
      hide Valid, Edited, IsPatch;
      KnownVersion(id);
      var patch := BuildPatch(v, objects[id].data, membership);
      if patch.Err? {
        return Err(Refused(patch.error));
      }
      r := Update(id, patch.value);
      if log != old(log) {
        ghost var was := old(server).objects[id];
        ghost var paths :| Enumerates(paths, patch.value) && Patched(old(log), log, old(server), server, id, ApplyPatch(was, patch.value, paths));
        if id !in old(stale) {
          PatchEdits(v, was, patch.value, paths);
        }
      }
    }

    /** Writes the edited object over the version it was made from, if that is still the server's. */
    method Edit(id: Id, revision: nat, v: Fields) returns (r: Result<Item, PimError>)
      requires Valid()
      modifies this`server, this`state, this`objects, this`stale, this`versions, this`log
      ensures Valid() && Since(old(server), server) && Extends(old(versions))
      ensures r.Ok? ==> log != old(log)
      ensures log != old(log) ==> Overwrote(id, revision, v)
      ensures r.Ok? ==> old(server).state == old(state) && id in old(objects) && old(objects)[id].revision == revision
      ensures r.Ok? ==> r.value.id == id && r.value.revision == state == server.state > old(state)
      ensures r.Ok? ==> server.objects == old(server).objects[id := r.value.data] && id in old(server).objects
      ensures r.Ok? && id !in old(stale) ==> Edited(old(server).objects[id], v, r.value.data)
      ensures r.Ok? && id !in old(stale) ==> old(server).objects[id] == old(objects)[id].data
    {
      hide Valid, Edited;
      if id !in objects || objects[id].revision != revision {
        return Err(UnknownRevision);
      }
      KnownVersion(id);
      var patched := Patch(id, revision, v);
      if patched.Err? {
        return Err(patched.error);
      }
      r := ReadBack(id);
    }

    lemma StateIsBehind()
      requires Valid()
      ensures state <= server.state && !Readonly(membership) && membership != "id"
    {
    }

    /** Creates an object in the mapped collection under an id the server chooses. */
    method Create(v: Fields) returns (r: Result<Item, PimError>)
      requires Valid()
      modifies this`server, this`state, this`objects, this`stale, this`versions, this`log
      ensures Valid() && Since(old(server), server) && Extends(old(versions))
      ensures r.Ok? ==> log != old(log)
      ensures log != old(log) ==> Added(v)
      ensures r.Ok? ==> old(server).state == old(state) && r.value.id !in old(server).objects
      ensures r.Ok? ==> r.value.revision == state == server.state > old(state)
      ensures r.Ok? ==> server.objects == old(server).objects[r.value.id := r.value.data]
      ensures r.Ok? ==> Belongs(r.value.data, membership, remote) && ("id" !in v ==> r.value.data != v)
      ensures r.Ok? ==> Given(v, r.value.data, membership)
    {
      hide Valid, Given;
      var o := map k | k in v && !Readonly(k) :: v[k];
      if Get(o, membership) == Null {
        o := o[membership := Object(map[remote := Bool(true)])];
      }
      if !BooleanMembers(o, membership) || !Belongs(o, membership, remote) {
        return Err(BadObject);
      }
      StateIsBehind();
      assert Given(v, o, membership) by { NewIsGiven(v, o, membership, remote); }
      r := Place(v, o);
    }

    /** The server takes the object under an id of its choice, and it is read back. */
    method Place(v: Fields, o: Fields) returns (r: Result<Item, PimError>)
      requires Valid() && Given(v, o, membership) && Belongs(o, membership, remote)
      modifies this`server, this`state, this`objects, this`stale, this`versions, this`log
      ensures Valid() && Since(old(server), server) && Extends(old(versions))
      ensures r.Ok? ==> log != old(log)
      ensures log != old(log) ==> Added(v)
      ensures r.Ok? ==> old(server).state == old(state) && r.value.id !in old(server).objects
      ensures r.Ok? ==> r.value.revision == state == server.state > old(state)
      ensures r.Ok? ==> server.objects == old(server).objects[r.value.id := r.value.data]
      ensures r.Ok? ==> Belongs(r.value.data, membership, remote) && ("id" !in v ==> r.value.data != v) && Given(v, r.value.data, membership)
    {
      hide Valid, Given, BooleanMembers;
      StateIsBehind();
      Others();
      var id: Id := *;
      if id == "" || id in server.objects {
        return Err(Failed);
      }
      GivenWithId(v, o, membership, remote, id);
      var done := Set(id, Some(o["id" := Text(id)]));
      if done.Err? {
        return Err(done.error);
      }
      r := ReadBack(id);
    }

    /** The three ways a write can go. */
    method Put(id: Id, revision: nat, v: Fields) returns (r: Result<Item, PimError>)
      requires Valid()
      modifies this`server, this`state, this`objects, this`stale, this`versions, this`log
      ensures Valid() && Since(old(server), server) && Extends(old(versions))
      ensures r.Ok? ==> log != old(log)
      ensures log != old(log) ==> if id == "" then Added(v) else Overwrote(id, revision, v)
      ensures !HasUid(v) ==> r == Err(BadObject) && server == old(server)
      ensures r.Ok? ==> old(server).state == old(state) && r.value.revision == server.state == state
      ensures r.Ok? ==> server.objects == old(server).objects[r.value.id := r.value.data]
      ensures r.Ok? && id == "" ==> r.value.id !in old(server).objects && Belongs(r.value.data, membership, remote)
      ensures r.Ok? && id != "" ==> r.value.id == id && id in old(objects) && old(objects)[id].revision == revision
      ensures r.Ok? && id != "" && id !in old(stale) ==>
        id in old(server).objects && Edited(old(server).objects[id], v, r.value.data)
    {
      if !HasUid(v) {
        return Err(BadObject);
      }
      if id == "" {
        r := Create(v);
      } else {
        r := Edit(id, revision, v);
      }
    }

    /** Takes the object out of the mapped collection; destroys it only with its last membership. */
    method Delete(o: Item) returns (r: Result<(), PimError>)
      requires Valid()
      modifies this`server, this`state, this`stale, this`log
      ensures Valid() && Since(old(server), server)
      ensures r.Ok? ==> log != old(log)
      ensures log != old(log) ==> TookOut(o)
      ensures r.Ok? ==> old(server).state == old(state) && state == server.state
      ensures r.Ok? && |Memberships(o.data, membership)| <= 1 ==> server.objects == old(server).objects - {o.id}
      ensures r.Ok? && |Memberships(o.data, membership)| > 1 ==>
        && o.id in old(server).objects
        && server.objects == old(server).objects[o.id := Without(old(server).objects[o.id], membership, remote)]
    {
      if |Memberships(o.data, membership)| > 1 {
        var path := Pointer(membership) + "/" + Pointer(remote);
        PointerPairLeads(membership, remote);
        var patch: Fields := map[path := Null];
        r := Update(o.id, patch);
        if log != old(log) {
          ghost var was := old(server).objects[o.id];
          ghost var paths :| Enumerates(paths, patch) && Patched(old(log), log, old(server), server, o.id, ApplyPatch(was, patch, paths));
          OnlyPath(was, path, paths, membership, remote);
        }
      } else {
        r := Set(o.id, None);
      }
    }

    method Paths(patch: Fields) returns (paths: seq<string>)
      ensures Enumerates(paths, patch)
    {
      paths := [];
      var todo := patch.Keys;
      while todo != {}
        invariant forall p :: p in paths || p in todo <==> p in patch
        decreases |todo|
      {
        var p :| p in todo;
        paths, todo := paths + [p], todo - {p};
      }
    }
  }

  lemma PatchEdits(v: Fields, original: Fields, patch: Fields, paths: seq<string>)
    requires IsPatch(v, original, patch) && Enumerates(paths, patch)
    ensures Edited(original, v, ApplyPatch(original, patch, paths))
  {
    forall k ensures PatchedAt(original, v, ApplyPatch(original, patch, paths), k) {
      PatchCorrect(v, original, patch, paths, k);
    }
  }

  /** Every value that a client may write is there, and the membership if one is given. */
  ghost predicate Given(v: Fields, o: Fields, membership: string) {
    forall k :: !Readonly(k) && (k != membership || Get(v, k) != Null) ==> Get(o, k) == Get(v, k)
  }

  lemma NewIsGiven(v: Fields, o: Fields, membership: string, remote: string)
    requires
      var w := map k | k in v && !Readonly(k) :: v[k];
      o == if Get(w, membership) == Null then w[membership := Object(map[remote := Bool(true)])] else w
    requires !Readonly(membership)
    ensures Given(v, o, membership)
  {
  }

  lemma GivenWithId(v: Fields, o: Fields, membership: string, remote: string, id: Id)
    requires Given(v, o, membership) && Belongs(o, membership, remote) && membership != "id"
    ensures
      var now := o["id" := Text(id)];
      Given(v, now, membership) && Belongs(now, membership, remote) && ("id" !in v ==> now != v) && Get(now, "id") == Text(id)
  {
  }

  function ObjectAt(s: Pim, id: Id): (o: Option<Fields>) {
    if id in s.objects then Some(s.objects[id]) else None
  }

  predicate HasUid(v: Fields) {
    Get(v, "uid").Text? && Get(v, "uid").s != ""
  }

  predicate BooleanMembers(o: Fields, membership: string) {
    Get(o, membership).Object? && forall k :: k in Get(o, membership).fields ==>
      Get(o, membership).fields[k].Bool? || Get(o, membership).fields[k].Null?
  }

  predicate PatchedAt(original: Fields, v: Fields, r: Fields, k: string) {
    Get(r, k) == Get(if Readonly(k) then original else v, k)
  }

  /** The edit is there, under every key a client may write, and the server's keys are as they were. */
  ghost predicate Edited(original: Fields, v: Fields, r: Fields) {
    forall k :: PatchedAt(original, v, r, k)
  }

  function Relisted(listing: seq<Id>, id: Id, belongs: bool): (r: seq<Id>) {
    if belongs then (if id in listing then listing else listing + [id]) else Dropped(listing, id)
  }

  function Dropped(listing: seq<Id>, id: Id): (r: seq<Id>)
    ensures forall q :: q in r <==> q in listing && q != id
  {
    if listing == [] then [] else (if listing[0] == id then [] else [listing[0]]) + Dropped(listing[1..], id)
  }

  lemma {:induction false} DroppedDistinct(listing: seq<Id>, id: Id)
    requires NoRepeats(listing)
    ensures NoRepeats(Dropped(listing, id))
  {
    if listing != [] {
      DroppedDistinct(listing[1..], id);
      var rest := Dropped(listing[1..], id);
      if listing[0] == id {
        assert Dropped(listing, id) == rest;
      } else {
        forall q | q in rest ensures q != listing[0] {
          var n :| 0 <= n < |listing[1..]| && listing[1..][n] == q;
          assert listing[0] != listing[n + 1];
        }
        ConsDistinct(listing[0], rest);
      }
    }
  }

  lemma ConsDistinct(id: Id, s: seq<Id>)
    requires NoRepeats(s) && id !in s
    ensures NoRepeats([id] + s) && NoRepeats(s + [id])
  {
  }

  lemma RelistedIsListed(s: Pim, id: Id, now: map<Id, Fields>, membership: string, remote: string)
    requires Listed(s, membership, remote) && now - {id} == s.objects - {id}
    requires id in now ==> Get(now[id], "id") == Text(id)
    ensures Listed(Pim(s.state + 1, now, Relisted(s.listing, id, id in now && Belongs(now[id], membership, remote))), membership, remote)
  {
    DroppedDistinct(s.listing, id);
    forall q | q != id ensures (q in now <==> q in s.objects) && (q in now ==> now[q] == s.objects[q]) {
      assert q in now - {id} <==> q in s.objects - {id};
      assert q in now ==> (now - {id})[q] == (s.objects - {id})[q];
    }
    var belongs := id in now && Belongs(now[id], membership, remote);
    var r := Relisted(s.listing, id, belongs);
    forall q ensures q in r <==> q in now && Belongs(now[q], membership, remote) {
      assert q in r <==> (q in s.listing && q != id) || (q == id && belongs);
    }
    if belongs && id !in s.listing {
      ConsDistinct(id, s.listing);
    }
    assert NoRepeats(r);
  }

  lemma {:induction false} OnlyPath(o: Fields, path: string, paths: seq<string>, membership: string, remote: string)
    requires Enumerates(paths, map[path := Null]) && Tokens(path) == [membership, remote]
    ensures ApplyPatch(o, map[path := Null], paths) == Without(o, membership, remote)
  {
    assert path in map[path := Null];
    forall i | 0 <= i < |paths| ensures paths[i] == path {
      assert paths[i] in paths;
    }
    RepeatedPath(o, path, paths, membership, remote);
  }

  lemma {:induction false} RepeatedPath(o: Fields, path: string, paths: seq<string>, membership: string, remote: string)
    requires forall i :: 0 <= i < |paths| ==> paths[i] == path
    requires Tokens(path) == [membership, remote] && path in map[path := Null]
    ensures forall p :: p in paths ==> p in map[path := Null]
    ensures ApplyPatch(o, map[path := Null], paths) == if paths == [] then o else Without(o, membership, remote)
  {
    if paths != [] {
      RepeatedPath(o, path, paths[..|paths| - 1], membership, remote);
      WithoutTwice(o, membership, remote);
    }
  }

  lemma WithoutTwice(o: Fields, membership: string, remote: string)
    ensures Without(Without(o, membership, remote), membership, remote) == Without(o, membership, remote)
  {
    if membership in o && o[membership].Object? {
      var m := o[membership].fields;
      assert SetAt(m, [membership, remote][1..], Null) == m - {remote};
      assert (m - {remote}) - {remote} == m - {remote};
      assert Without(o, membership, remote) == o[membership := Object(m - {remote})];
      assert SetAt(m - {remote}, [membership, remote][1..], Null) == m - {remote};
    }
  }

  /** A removal from one collection costs the object no other membership, and it survives
      exactly when it has one. */
  lemma DeleteSparesOthers(o: Fields, membership: string, remote: string)
    requires Belongs(o, membership, remote)
    ensures |Memberships(o, membership)| <= 1 ==> Memberships(o, membership) == {remote}
    ensures Memberships(Without(o, membership, remote), membership) == Memberships(o, membership) - {remote}
    ensures !Belongs(Without(o, membership, remote), membership, remote)
  {
    WithoutEffect(o, membership, remote);
    CountMemberships(o, membership, remote);
  }

  predicate IsPage(page: seq<Id>, listing: seq<Id>, position: nat) {
    if position >= |listing| then page == []
    else page != [] && position + |page| <= |listing| && page == listing[position..position + |page|]
  }
}
