/**
 The two sides a run works on: the collection's directory on disk, and a server
 that other clients write to between any two requests. Every effect is atomic
 and may be followed by a crash or by a lost response, which the methods report
 as an error after the effect has happened.
 */
module CollectionBackend {
  import opened Wrappers
  import opened CollectionWorld

  datatype Error =
    | Unreadable | StateMismatch | BadSnapshot | BadState
    | Conflict(file: string) | UidEdited(file: string)
    | Changed(file: string) | BadObject(id: string) | UidChanged(file: string)
    | Disk | Remote | Cancelled
    | Refused                  // the object is not the version that was named
    | Occupied                 // the id of a new object is taken

  datatype DiskState = DiskState(version: nat, identity: string, entries: map<string, Entry>)

  class Directory {
    /** The item files: the directory entries a run does not skip. */
    var files: map<string, Bytes>
    var backup: map<string, Bytes>
    var conflicts: map<string, Bytes>
    var state: Option<DiskState>

    function Entries(): map<string, Entry>
      reads this
    {
      if state.Some? then state.value.entries else map[]
    }

    method WriteItem(file: string, data: Bytes) returns (ok: bool)
      modifies this`files
      ensures files == old(files)[file := data] || (!ok && files == old(files))
    {
      if * { return false; }
      files := files[file := data];
      ok := *;
    }

    method RemoveItem(file: string) returns (ok: bool)
      modifies this`files
      ensures files == old(files) - {file} || (!ok && files == old(files))
    {
      if * { return false; }
      files := files - {file};
      ok := *;
    }

    method WriteBackup(file: string, data: Bytes) returns (ok: bool)
      modifies this`backup
      ensures backup == old(backup)[file := data] || (!ok && backup == old(backup))
    {
      if * { return false; }
      backup := backup[file := data];
      ok := *;
    }

    method WriteConflict(file: string, data: Bytes) returns (ok: bool)
      modifies this`conflicts
      ensures conflicts == old(conflicts)[file := data] || (!ok && conflicts == old(conflicts))
    {
      if * { return false; }
      conflicts := conflicts[file := data];
      ok := *;
    }

    method Save(identity: string, entries: map<string, Entry>) returns (ok: bool)
      modifies this`state
      ensures state == Some(DiskState(1, identity, entries)) || (!ok && state == old(state))
    {
      if * { return false; }
      state := Some(DiskState(1, identity, entries));
      ok := *;
    }
  }

  /** What the server did on behalf of this run. */
  datatype Event =
    | Overwrote(id: string, previous: Bytes, data: Bytes)
    | Created(id: string, data: Bytes)
    | Destroyed(id: string, previous: Bytes)

  function Bodies(items: map<string, Object>): map<string, Bytes> {
    map id | id in items :: items[id].data
  }

  /** items indexes the first n objects of a listing, every object once. */
  ghost predicate Indexes(objects: seq<Object>, n: nat, items: map<string, Object>)
    requires n <= |objects|
  {
    && (forall i :: 0 <= i < n ==> objects[i].id in items && items[objects[i].id] == objects[i])
    && (forall i, j :: 0 <= i < j < n ==> objects[i].id != objects[j].id)
    && (forall id :: id in items ==> exists i :: 0 <= i < n && objects[i].id == id)
  }

  /** A complete listing: every object once. */
  ghost predicate IsListing(objects: seq<Object>, items: map<string, Object>) {
    Indexes(objects, |objects|, items)
  }

  lemma IndexNext(objects: seq<Object>, n: nat, items: map<string, Object>)
    requires n < |objects| && Indexes(objects, n, items) && objects[n].id !in items
    ensures Indexes(objects, n + 1, items[objects[n].id := objects[n]])
  {
  }

  /** byUid finds the file of every UID in files. */
  predicate FindsFiles(r: Rules, files: map<string, Bytes>, byUid: map<string, string>) {
    && (forall u :: u in byUid ==> byUid[u] in files && r.uidOf(files[byUid[u]]) == Some(u))
    && (forall f :: f in files ==> r.uidOf(files[f]).Some? && r.uidOf(files[f]).value in byUid)
  }

  lemma ReadNothing(r: Rules, files: map<string, Bytes>)
    ensures files - files.Keys == map[] && DistinctUids(r, map[]) && FindsFiles(r, map[], map[])
  {
  }

  lemma TakeNext(files: map<string, Bytes>, left: set<string>, file: string)
    requires file in left && file in files
    ensures file !in files - left && (files - left)[file := files[file]] == files - (left - {file})
  {
  }

  /** A file that does not parse, or has the UID of one read before, spoils the whole collection. */
  lemma ReadRefuses(r: Rules, files: map<string, Bytes>, left: set<string>, byUid: map<string, string>, file: string)
    requires file in left && file in files && FindsFiles(r, files - left, byUid)
    ensures r.uidOf(files[file]).None? || r.uidOf(files[file]).value in byUid ==> !DistinctUids(r, files)
  {
  }

  lemma ReadNext(r: Rules, files: map<string, Bytes>, byUid: map<string, string>, file: string, data: Bytes, u: string)
    requires DistinctUids(r, files) && FindsFiles(r, files, byUid)
    requires file !in files && r.uidOf(data) == Some(u) && u !in byUid
    ensures DistinctUids(r, files[file := data]) && FindsFiles(r, files[file := data], byUid[u := file])
  {
  }

  lemma IndexAppend(objects: seq<Object>, items: map<string, Object>, o: Object)
    requires IsListing(objects, items)
    ensures Indexes(objects + [o], |objects|, items)
  {
    forall id | id in items ensures exists i :: 0 <= i < |objects| && (objects + [o])[i].id == id {
      var i :| 0 <= i < |objects| && objects[i].id == id;
      assert (objects + [o])[i] == objects[i];
    }
  }

  method ListAll(items: map<string, Object>) returns (objects: seq<Object>)
    requires forall id :: id in items ==> items[id].id == id
    ensures IsListing(objects, items)
  {
    objects := [];
    var left := items.Keys;
    ghost var done: map<string, Object> := map[];
    while left != {}
      invariant left <= items.Keys
      invariant done == map id | id in items && id !in left :: items[id]
      invariant IsListing(objects, done)
      decreases left
    {
      var id :| id in left;
      IndexAppend(objects, done, items[id]);
      objects := objects + [items[id]];
      IndexNext(objects, |objects| - 1, done);
      done := done[id := items[id]];
      left := left - {id};
    }
    assert done == items;
  }

  /** Every object has an id, a revision and a UID, and none of the first n ids or UIDs appears twice. */
  predicate ValidUpTo(r: Rules, objects: seq<Object>, n: nat)
    requires n <= |objects|
  {
    && (forall i :: 0 <= i < n ==> objects[i].id != "" && objects[i].revision != 0 && r.uidOf(objects[i].data).Some?)
    && (forall i, j :: 0 <= i < j < n ==>
          objects[i].id != objects[j].id && r.uidOf(objects[i].data) != r.uidOf(objects[j].data))
  }

  /** uids are the UIDs of the first n objects. */
  ghost predicate UidsOf(r: Rules, objects: seq<Object>, n: nat, uids: set<string>)
    requires n <= |objects|
  {
    && (forall i :: 0 <= i < n ==> r.uidOf(objects[i].data).Some? && r.uidOf(objects[i].data).value in uids)
    && (forall u :: u in uids ==> exists i :: 0 <= i < n && r.uidOf(objects[i].data) == Some(u))
  }

  predicate Admissible(r: Rules, items: map<string, Object>, uids: set<string>, o: Object) {
    o.id != "" && o.revision != 0 && r.uidOf(o.data).Some? && o.id !in items && r.uidOf(o.data).value !in uids
  }

  lemma ValidNext(r: Rules, objects: seq<Object>, n: nat, items: map<string, Object>, uids: set<string>)
    requires n < |objects| && ValidUpTo(r, objects, n) && Indexes(objects, n, items) && UidsOf(r, objects, n, uids)
    ensures Admissible(r, items, uids, objects[n]) ==>
      ValidUpTo(r, objects, n + 1) && UidsOf(r, objects, n + 1, uids + {r.uidOf(objects[n].data).value})
    ensures !Admissible(r, items, uids, objects[n]) ==> !ValidListing(r, objects)
  {
    if Admissible(r, items, uids, objects[n]) {
      AdmissibleNext(r, objects, n, items, uids);
    } else {
      InadmissibleNext(r, objects, n, items, uids);
    }
  }

  lemma AdmissibleNext(r: Rules, objects: seq<Object>, n: nat, items: map<string, Object>, uids: set<string>)
    requires n < |objects| && ValidUpTo(r, objects, n) && Indexes(objects, n, items) && UidsOf(r, objects, n, uids)
    requires Admissible(r, items, uids, objects[n])
    ensures ValidUpTo(r, objects, n + 1) && UidsOf(r, objects, n + 1, uids + {r.uidOf(objects[n].data).value})
  {
    hide ValidUpTo;
    forall i | 0 <= i < n ensures objects[i].id != objects[n].id && r.uidOf(objects[i].data) != r.uidOf(objects[n].data) {
      assert objects[i].id in items && r.uidOf(objects[i].data).value in uids;
    }
    hide Indexes, UidsOf;
    ValidGrows(r, objects, n);
    UidsNext(r, objects, n, uids);
  }

  lemma ValidGrows(r: Rules, objects: seq<Object>, n: nat)
    requires n < |objects| && ValidUpTo(r, objects, n)
    requires objects[n].id != "" && objects[n].revision != 0 && r.uidOf(objects[n].data).Some?
    requires forall i :: 0 <= i < n ==> objects[i].id != objects[n].id && r.uidOf(objects[i].data) != r.uidOf(objects[n].data)
    ensures ValidUpTo(r, objects, n + 1)
  {
  }

  lemma UidsNext(r: Rules, objects: seq<Object>, n: nat, uids: set<string>)
    requires n < |objects| && UidsOf(r, objects, n, uids) && r.uidOf(objects[n].data).Some?
    ensures UidsOf(r, objects, n + 1, uids + {r.uidOf(objects[n].data).value})
  {
  }

  lemma InadmissibleNext(r: Rules, objects: seq<Object>, n: nat, items: map<string, Object>, uids: set<string>)
    requires n < |objects| && Indexes(objects, n, items) && UidsOf(r, objects, n, uids)
    requires !Admissible(r, items, uids, objects[n])
    ensures !ValidListing(r, objects)
  {
  }

  predicate ValidListing(r: Rules, objects: seq<Object>) {
    ValidUpTo(r, objects, |objects|)
  }

  /** A complete listing of a server's objects is refused exactly for its UIDs. */
  lemma ListingOfItems(r: Rules, objects: seq<Object>, items: map<string, Object>)
    requires IsListing(objects, items)
    requires forall id :: id in items ==> id != "" && items[id].id == id && items[id].revision != 0
    ensures ValidListing(r, objects) <==> DistinctUids(r, Bodies(items))
  {
    if DistinctUids(r, Bodies(items)) {
      forall i, j | 0 <= i < j < |objects| ensures r.uidOf(objects[i].data) != r.uidOf(objects[j].data) {
        assert Bodies(items)[objects[i].id] == objects[i].data && Bodies(items)[objects[j].id] == objects[j].data;
      }
      forall i | 0 <= i < |objects| ensures r.uidOf(objects[i].data).Some? {
        assert Bodies(items)[objects[i].id] == objects[i].data;
      }
    }
    if ValidListing(r, objects) { DistinctBodies(r, objects, items); }
  }

  lemma DistinctBodies(r: Rules, objects: seq<Object>, items: map<string, Object>)
    requires IsListing(objects, items) && ValidListing(r, objects)
    ensures DistinctUids(r, Bodies(items))
  {
  }

  lemma SameIndex(objects: seq<Object>, items: map<string, Object>, remote: map<string, Object>)
    requires IsListing(objects, items) && IsListing(objects, remote)
    ensures remote == items
  {
  }

  class Server {
    const rules: Rules
    /** No other client writes during the run. */
    const quiet: bool
    /** Bodies are stored verbatim and created ids are derived from the UID. */
    const verbatim: bool

    var items: map<string, Object>
    var clock: nat
    /** Every body ever served under an id and a revision. */
    ghost var versions: map<(string, nat), Bytes>
    ghost var log: seq<Event>

    /** A revision is never used twice for one id, so it names one body. */
    ghost predicate Valid()
      reads this
    {
      && (forall id :: id in items ==>
            && id != ""
            && items[id].id == id
            && 0 < items[id].revision
            && (id, items[id].revision) in versions
            && versions[(id, items[id].revision)] == items[id].data)
      && (forall id, rev :: (id, rev) in versions ==> rev <= clock)
    }

    ghost predicate Extends(before: map<(string, nat), Bytes>)
      reads this
    {
      forall v :: v in before ==> v in versions && versions[v] == before[v]
    }

    /** Stores one new version. */
    method Store(id: string, data: Bytes) returns (o: Object)
      requires Valid() && id != ""
      modifies this`items, this`clock, this`versions
      ensures Valid() && Extends(old(versions))
      ensures o.id == id && o.data == data && 0 < o.revision
      ensures items == old(items)[id := o]
      ensures (id, o.revision) in versions && versions[(id, o.revision)] == data
    {
      clock := clock + 1;
      o := Object(id, clock, data);
      versions := versions[(id, clock) := data];
      items := items[id := o];
    }

    /** Other clients write and delete as they like. */
    method Interfere()
      requires Valid()
      modifies this`items, this`clock, this`versions
      ensures Valid() && Extends(old(versions))
      ensures quiet ==> items == old(items)
    {
      var edits: nat := *;
      while !quiet && 0 < edits
        invariant Valid() && Extends(old(versions))
        invariant quiet ==> items == old(items)
        decreases edits
      {
        var id: string := *;
        if * {
          items := items - {id};
        } else if id != "" {
          var data: Bytes := *;
          var _ := Store(id, data);
        }
        edits := edits - 1;
      }
    }

    method Snapshot() returns (r: Result<seq<Object>, Error>)
      requires Valid()
      modifies this`items, this`clock, this`versions
      ensures Valid() && Extends(old(versions))
      ensures quiet ==> items == old(items)
      ensures r.Ok? ==> IsListing(r.value, items)
      ensures r.Err? ==> r.error == Remote
    {
      Interfere();
      if * { return Err(Remote); }
      var objects := ListAll(items);
      return Ok(objects);
    }

    /** The id a create is filed under when the server derives it from the UID. */
    function Target(id: string, data: Bytes): string {
      if id != "" then id
      else match rules.uidOf(data) case Some(u) => rules.createId(u) case None => ""
    }

    /** What one conditional write did: nothing, or one logged change whose
        previous body is the one the given revision names. */
    twostate predicate Wrote(id: string, revision: nat, data: Bytes)
      reads this
    {
      || (log == old(log) && (quiet ==> items == old(items)))
      || (id != "" && (id, revision) in versions
          && log == old(log) + [Overwrote(id, versions[(id, revision)], data)]
          && (quiet && verbatim ==> Bodies(items) == Bodies(old(items))[id := data] && id in old(items)))
      || (id == "" && |log| == |old(log)| + 1 && log[..|old(log)|] == old(log)
          && log[|old(log)|].Created? && log[|old(log)|].data == data
          && (quiet && verbatim ==> Bodies(items) == Bodies(old(items))[Target(id, data) := data]))
    }

    method Update(id: string, revision: nat, data: Bytes) returns (r: Result<Object, Error>)
      requires Valid() && rules.uidOf(data).Some? && id != ""
      modifies this`items, this`clock, this`versions, this`log
      ensures Valid() && Extends(old(versions)) && Wrote(id, revision, data)
      ensures r.Err? ==> r.error in {Remote, Refused} && (r.error == Refused ==> log == old(log))
      ensures quiet && id in old(items) && old(items)[id].revision == revision ==> r != Err(Refused)
      ensures quiet ==> items - {id} == old(items) - {id}
      ensures r.Ok? ==> log != old(log) && r.value.id == id && 0 < r.value.revision
      ensures r.Ok? ==> rules.uidOf(r.value.data) == rules.uidOf(data)
      ensures r.Ok? && verbatim ==> r.value.data == data
      ensures r.Ok? && quiet ==> Bodies(items) == Bodies(old(items))[id := r.value.data]
    {
      Interfere();
      if * { return Err(Remote); }
      if id !in items || items[id].revision != revision { return Err(Refused); }
      var body := StoredBody(data);
      log := log + [Overwrote(id, items[id].data, data)];
      var o := Keep(id, body);
      if * { return Err(Remote); }
      return Ok(o);
    }

    method Create(data: Bytes) returns (r: Result<Object, Error>)
      requires Valid() && rules.uidOf(data).Some?
      modifies this`items, this`clock, this`versions, this`log
      ensures Valid() && Extends(old(versions)) && Wrote("", 0, data)
      ensures r.Err? ==> r.error in {Remote, Occupied} && (r.error == Occupied ==> log == old(log))
      ensures r.Ok? ==> log != old(log) && r.value.id != "" && 0 < r.value.revision
      ensures r.Ok? ==> rules.uidOf(r.value.data) == rules.uidOf(data)
      ensures r.Ok? && verbatim ==> r.value.id == Target("", data) && r.value.data == data
      ensures r.Ok? && quiet ==> r.value.id !in old(items) && Bodies(items) == Bodies(old(items))[r.value.id := r.value.data]
    {
      Interfere();
      if * { return Err(Remote); }
      var target := Target("", data);
      if !verbatim { target := *; }
      if target == "" || target in items { return Err(Occupied); }
      var body := StoredBody(data);
      log := log + [Created(target, data)];
      var o := Keep(target, body);
      if * { return Err(Remote); }
      return Ok(o);
    }

    /** Store, seen through the bodies. */
    method Keep(id: string, data: Bytes) returns (o: Object)
      requires Valid() && id != ""
      modifies this`items, this`clock, this`versions
      ensures Valid() && Extends(old(versions))
      ensures o.id == id && o.data == data && 0 < o.revision
      ensures Bodies(items) == Bodies(old(items))[id := data] && items - {id} == old(items) - {id}
    {
      o := Store(id, data);
    }

    /** The body a server keeps for an accepted write: possibly normalized, never another item. */
    method StoredBody(data: Bytes) returns (body: Bytes)
      ensures rules.uidOf(body) == rules.uidOf(data)
      ensures verbatim ==> body == data
    {
      body := data;
      if !verbatim { body :| rules.uidOf(body) == rules.uidOf(data); }
    }

    /** A conditional write: an update needs the stored revision to be the given
        one, a create needs its id to be free. */
    method Put(id: string, revision: nat, data: Bytes) returns (r: Result<Object, Error>)
      requires Valid() && rules.uidOf(data).Some?
      modifies this`items, this`clock, this`versions, this`log
      ensures Valid() && Extends(old(versions)) && Wrote(id, revision, data)
      ensures r.Err? ==> r.error in {Remote, if id == "" then Occupied else Refused} && (r.error != Remote ==> log == old(log))
      ensures quiet && id in old(items) && old(items)[id].revision == revision ==> r != Err(Refused)
      ensures quiet && id != "" ==> items - {id} == old(items) - {id}
      ensures r.Ok? ==> log != old(log)
      ensures r.Ok? ==> r.value.id != "" && 0 < r.value.revision && (id != "" ==> r.value.id == id)
      ensures r.Ok? ==> rules.uidOf(r.value.data) == rules.uidOf(data)
      ensures r.Ok? && verbatim ==> r.value.id == Target(id, data) && r.value.data == data
      ensures r.Ok? && quiet ==> Bodies(items) == Bodies(old(items))[r.value.id := r.value.data]
      ensures r.Ok? && quiet && id == "" ==> r.value.id !in old(items)
    {
      if id == "" {
        r := Create(data);
      } else {
        r := Update(id, revision, data);
      }
    }

    /** A conditional delete. */
    method Delete(o: Object) returns (r: Result<(), Error>)
      requires Valid()
      modifies this`items, this`clock, this`versions, this`log
      ensures Valid() && Extends(old(versions))
      ensures
        || (r.Err? && log == old(log) && (quiet ==> items == old(items)))
        || ((o.id, o.revision) in versions
            && log == old(log) + [Destroyed(o.id, versions[(o.id, o.revision)])]
            && (quiet ==> Bodies(items) == Bodies(old(items)) - {o.id} && o.id in old(items)))
      ensures r.Err? ==> r.error in {Remote, Refused} && (r.error == Refused ==> log == old(log))
      ensures quiet && o.id in old(items) && old(items)[o.id].revision == o.revision ==> r != Err(Refused)
      ensures quiet ==> items - {o.id} == old(items) - {o.id}
    {
      Interfere();
      if * { return Err(Remote); }
      if o.id !in items || items[o.id].revision != o.revision { return Err(Refused); }
      log := log + [Destroyed(o.id, items[o.id].data)];
      ghost var before := items;
      items := items - {o.id};
      assert quiet ==> Bodies(items) == Bodies(before) - {o.id};
      var lost: bool := *;
      r := if lost then Err(Remote) else Ok(());
    }
  }
}
