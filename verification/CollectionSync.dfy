/**
 One run of the three-way synchronization. The run reads both sides, decides in
 a preflight whether to touch anything at all, and then works item by item,
 saving the entries after every item.
 */
module CollectionSync {
  import opened Wrappers
  import opened CollectionWorld
  import opened CollectionProofs
  import opened CollectionBackend
  import opened CollectionSafety
  import opened CollectionCourse
  import opened CollectionSteps

  class Run {
    const rules: Rules
    const identity: string
    const disk: Directory
    const server: Server

    /** The content of every item file, as read and as written since. */
    var local: map<string, Bytes>
    /** The file of each UID, as read at the start. */
    var localUid: map<string, string>
    var objects: seq<Object>
    var remote: map<string, Object>
    var entries: map<string, Entry>
    /** The ids that had an entry when the run started to work. */
    var trackedIds: set<string>

    /** The world the preflight looked at, and where the server's log stood. */
    ghost var origin: Origin
    ghost var startLog: seq<Event>

    constructor (rules: Rules, identity: string, disk: Directory, server: Server)
      ensures this.rules == rules && this.identity == identity && this.disk == disk && this.server == server
    {
      this.rules, this.identity, this.disk, this.server := rules, identity, disk, server;
      local, localUid, objects, remote, entries, trackedIds := map[], map[], [], map[], map[], {};
      origin := Origin(rules, World(map[], map[], map[]), map[], false, false);
    }

    ghost function Now(): World
      reads disk, server
    {
      World(disk.files, Bodies(server.items), disk.Entries())
    }

    ghost function Outside(): View
      reads this, disk, server
      requires startLog <= server.log
    {
      View(Now(), disk.backup, server.log[|startLog|..])
    }

    ghost predicate Connected()
      reads this, disk, server
    {
      && server.rules == rules && server.Valid()
      && startLog <= server.log
      && origin.rules == rules && origin.quiet == server.quiet && origin.verbatim == server.verbatim
    }

    /** What holds after every single effect, and so wherever the run stops. */
    ghost predicate Stopped()
      reads this, disk, server
    {
      Connected() && Outside() in Resumable(origin)
    }

    /** The run's memory agrees with the directory, and the snapshot with what
        the server once served. */
    ghost predicate InStep()
      reads this, disk, server
    {
      && Connected()
      && local == disk.files
      && entries == disk.Entries()
      && origin.start.remote == Bodies(remote)
      && SnapshotKept()
    }

    /** Every object of the snapshot is a version the server once served. */
    ghost predicate SnapshotKept()
      reads `remote, server
    {
      forall id :: id in remote ==>
        && remote[id].id == id && id != "" && 0 < remote[id].revision
        && (id, remote[id].revision) in server.versions
        && server.versions[(id, remote[id].revision)] == remote[id].data
    }

    /** What was served stays so. */
    twostate lemma SnapshotStays()
      requires old(SnapshotKept()) && server.Extends(old(server.versions)) && remote == old(remote)
      ensures SnapshotKept()
    {
    }

    lemma SnapshotAt(id: string)
      requires SnapshotKept() && id in remote
      ensures remote[id].id == id && id != "" && 0 < remote[id].revision
      ensures (id, remote[id].revision) in server.versions && server.versions[(id, remote[id].revision)] == remote[id].data
    {
    }

    ghost predicate InTracked(todo: set<string>)
      reads this, disk, server
    {
      InStep() && Outside() in TrackedLoop(origin, todo)
    }

    /** With nobody else about, the objects still to be done are the versions that were read. */
    ghost predicate Current(todo: set<string>)
      reads `remote, server`items
    {
      server.quiet ==> SameVersions(remote, server.items, todo)
    }

    /** What stops a run at work: never, with nobody else about, an object that is another version than the one read. */
    predicate Halts(e: Error) {
      e in {Disk, Error.Remote, Cancelled, Refused, Occupied} && (server.quiet ==> e != Refused)
    }

    /** The tracked loop can go on once the entry is dropped. */
    ghost predicate InTrackedWithout(id: string, todo: set<string>)
      reads this, disk, server
    {
      InStep() && var v := Outside(); v.(world := v.world.(entries := entries - {id})) in TrackedLoop(origin, todo - {id})
    }

    /** The file still holds what was read. Editors take the collection's lock,
        so only the reading itself can fail. */
    method Verify(file: string) returns (r: Result<(), Error>)
      requires local == disk.files
      ensures r.Err? ==> r.error == Disk
    {
      if * { return Err(Disk); }
      if file !in local && file !in disk.files { return Ok(()); }
      if file !in disk.files || file !in local || rules.hashOf(disk.files[file]) != rules.hashOf(local[file]) {
        return Err(Changed(file));
      }
      return Ok(());
    }

    method Save() returns (r: Result<(), Error>)
      modifies disk`state
      ensures disk.Entries() == entries || (r.Err? && disk.Entries() == old(disk.Entries()))
      ensures r.Err? ==> r.error == Disk
    {
      var ok := disk.Save(identity, entries);
      return if ok then Ok(()) else Err(Disk);
    }

    // ------------------------------------------------------------------- reading

    /** localUid finds the file of a UID among the files read at the start. */
    ghost predicate Lookup(files: map<string, Bytes>)
      reads `localUid
    {
      FindsFiles(rules, files, localUid)
    }

    /** Reads every item file; refuses the collection if one does not parse or two share a UID. */
    method ReadLocal() returns (r: Result<(), Error>)
      modifies this`local, this`localUid
      ensures r.Ok? ==> DistinctUids(rules, disk.files) && local == disk.files && Lookup(disk.files)
      ensures r.Err? ==> r.error == Disk || (r.error == Unreadable && !DistinctUids(rules, disk.files))
    {
      hide DistinctUids, FindsFiles;
      local, localUid := map[], map[];
      var left := disk.files.Keys;
      ReadNothing(rules, disk.files);
      while left != {}
        invariant left <= disk.files.Keys
        invariant local == disk.files - left
        invariant DistinctUids(rules, local) && Lookup(local)
        decreases left
      {
        var file :| file in left;
        if * { return Err(Disk); }
        var data := disk.files[file];
        var uid := rules.uidOf(data);
        ReadRefuses(rules, disk.files, left, localUid, file);
        if uid.None? { return Err(Unreadable); }
        if uid.value in localUid { return Err(Unreadable); }
        TakeNext(disk.files, left, file);
        ReadNext(rules, local, localUid, file, data, uid.value);
        local := local[file := data];
        localUid := localUid[uid.value := file];
        left := left - {file};
      }
      assert local == disk.files;
      return Ok(());
    }

    /** Indexes a listing; refuses it unless every object has an id, a revision
        and a UID, and no id or UID appears twice. */
    method ReadRemote(listing: seq<Object>) returns (r: Result<(), Error>)
      modifies this`objects, this`remote
      ensures r.Ok? <==> ValidListing(rules, listing)
      ensures r.Err? ==> r.error == BadSnapshot
      ensures r.Ok? ==> objects == listing && IsListing(objects, remote)
    {
      objects, remote := listing, map[];
      var uids: set<string> := {};
      var i := 0;
      while i < |listing|
        invariant 0 <= i <= |listing| && objects == listing
        invariant ValidUpTo(rules, listing, i) && Indexes(listing, i, remote) && UidsOf(rules, listing, i, uids)
      {
        var o := listing[i];
        var uid := rules.uidOf(o.data);
        ValidNext(rules, listing, i, remote, uids);
        if o.id == "" || o.revision == 0 || uid.None? || o.id in remote || uid.value in uids {
          return Err(BadSnapshot);
        }
        IndexNext(listing, i, remote);
        remote := remote[o.id := o];
        uids := uids + {uid.value};
        i := i + 1;
      }
      return Ok(());
    }

    // ----------------------------------------------------------------- preflight

    /** Keeps the remote copy of a conflict for the user. */
    method SaveConflict(o: Object) returns (ok: bool)
      modifies disk`conflicts
      ensures disk.conflicts == old(disk.conflicts) || disk.conflicts == old(disk.conflicts)[rules.FileFor(o.id) := o.data]
      ensures ok && o.data != "" ==> disk.conflicts == old(disk.conflicts)[rules.FileFor(o.id) := o.data]
    {
      if o.data == "" { return true; }
      ok := disk.WriteConflict(rules.FileFor(o.id), o.data);
    }

    method Refuse(file: string, o: Object) returns (e: Error)
      modifies disk`conflicts
      ensures e == Disk || e == Conflict(file)
    {
      var ok := SaveConflict(o);
      return if ok then Conflict(file) else Disk;
    }

    /** The checks on one entry, in the order the code makes them. */
    method CheckEntry(id: string) returns (r: Result<(), Error>)
      requires origin.rules == rules && origin.start == World(local, Bodies(remote), entries) && id in entries
      requires DistinctUids(rules, local) && DistinctUids(rules, Bodies(remote))
      modifies disk`conflicts
      ensures r.Ok? <==> TrackedOk(rules, origin.start, id)
      ensures r.Err? ==> r.error in {UidEdited(entries[id].file), Conflict(entries[id].file), Disk}
    {
      var e := entries[id];
      var exists_ := e.file in local;
      var present := id in remote;
      var o := if present then remote[id] else Object("", 0, "");
      if exists_ && rules.uidOf(local[e.file]) != Some(e.uid) { return Err(UidEdited(e.file)); }
      if present && rules.uidOf(o.data) != Some(e.uid) {
        var error := Refuse(e.file, o);
        return Err(error);
      }
      var lc := !exists_ || rules.hashOf(local[e.file]) != e.hash;
      var rc := !present || rules.hashOf(o.data) != e.hash;
      if lc && rc && (exists_ != present || (exists_ && rules.hashOf(local[e.file]) != rules.hashOf(o.data))) {
        var error := Refuse(e.file, o);
        return Err(error);
      }
      return Ok(());
    }

    /** The checks on one object without entry. */
    method CheckObject(o: Object, used: set<string>) returns (r: Result<(), Error>)
      requires origin.rules == rules && origin.start == World(local, Bodies(remote), entries)
      requires o.id in remote && remote[o.id] == o && rules.uidOf(o.data).Some?
      requires DistinctUids(rules, local) && Lookup(local)
      requires forall f :: f in used <==> Used(entries, f)
      modifies disk`conflicts
      ensures r.Ok? <==> UntrackedOk(rules, origin.start, o.id)
      ensures r.Err? ==> r.error.Conflict? || r.error == Disk
    {
      var uid := rules.uidOf(o.data).value;
      if uid in localUid {
        var file := localUid[uid];
        assert HasUid(rules, local, Some(uid));
        if file in used || rules.hashOf(local[file]) != rules.hashOf(o.data) {
          var error := Refuse(file, o);
          return Err(error);
        }
      } else {
        var file := rules.FileFor(o.id);
        if file in local || file in used {
          var error := Refuse(file, o);
          return Err(error);
        }
      }
      return Ok(());
    }

    /** The entries of done passed their checks, and used holds their files. */
    ghost predicate Checked(done: set<string>, used: set<string>)
      reads `origin, `entries
    {
      && done <= entries.Keys && origin.start.entries == entries
      && (forall id :: id in done ==>
            ItemName(entries[id].file, rules.ext) && TrackedOk(rules, origin.start, id) && entries[id].file in used)
      && (forall id, id' :: id in done && id' in done && entries[id].file == entries[id'].file ==> id == id')
      && (forall f :: f in used ==> exists id :: id in done && entries[id].file == f)
    }

    method CheckEntries() returns (r: Result<set<string>, Error>)
      requires origin.rules == rules && origin.start == World(local, Bodies(remote), entries)
      requires DistinctUids(rules, local) && DistinctUids(rules, Bodies(remote))
      modifies disk`conflicts
      ensures r.Ok? ==> Checked(entries.Keys, r.value)
      ensures r.Err? ==> !Accepts(rules, origin.start)
      ensures r.Err? ==> r.error in {Disk, BadState} || r.error.Conflict? || r.error.UidEdited?
    {
      var used: set<string> := {};
      var todo := entries.Keys;
      while todo != {}
        invariant todo <= entries.Keys
        invariant Checked(entries.Keys - todo, used)
        decreases todo
      {
        var id :| id in todo;
        var file := entries[id].file;
        if !ItemName(file, rules.ext) || file in used { return Err(BadState); }
        var _ :- CheckEntry(id);
        CheckedNext(entries.Keys - todo, used, id);
        assert entries.Keys - todo + {id} == entries.Keys - (todo - {id});
        used := used + {file};
        todo := todo - {id};
      }
      assert entries.Keys - todo == entries.Keys;
      return Ok(used);
    }

    lemma CheckedNext(done: set<string>, used: set<string>, id: string)
      requires Checked(done, used) && id in entries && entries[id].file !in used
      requires ItemName(entries[id].file, rules.ext) && TrackedOk(rules, origin.start, id)
      ensures Checked(done + {id}, used + {entries[id].file})
    {
    }

    method CheckObjects(used: set<string>) returns (r: Result<(), Error>)
      requires origin.rules == rules && origin.start == World(local, Bodies(remote), entries)
      requires DistinctUids(rules, local) && DistinctUids(rules, Bodies(remote)) && Lookup(local)
      requires IsListing(objects, remote)
      requires forall f :: f in used <==> Used(entries, f)
      modifies disk`conflicts
      ensures r.Ok? <==> forall id :: id in remote && id !in entries ==> UntrackedOk(rules, origin.start, id)
      ensures r.Err? ==> r.error.Conflict? || r.error == Disk
    {
      var i := 0;
      while i < |objects|
        invariant 0 <= i <= |objects|
        invariant forall j :: 0 <= j < i && objects[j].id !in entries ==> UntrackedOk(rules, origin.start, objects[j].id)
      {
        var o := objects[i];
        if o.id !in entries {
          assert Bodies(remote)[o.id] == o.data;
          var _ :- CheckObject(o, used);
        }
        i := i + 1;
      }
      forall id | id in remote && id !in entries ensures UntrackedOk(rules, origin.start, id) {
        var j :| 0 <= j < |objects| && objects[j].id == id;
      }
      return Ok(());
    }

    /** Decides, before anything is changed, whether the whole collection can be
        synchronized. The entries are visited in no particular order. */
    method Preflight() returns (r: Result<(), Error>)
      requires origin.rules == rules && origin.start == World(local, Bodies(remote), entries)
      requires DistinctUids(rules, local) && DistinctUids(rules, Bodies(remote)) && Lookup(local)
      requires IsListing(objects, remote)
      modifies disk`conflicts
      ensures r.Ok? <==> Accepts(rules, origin.start)
      ensures r.Err? ==> r.error in {Disk, BadState} || r.error.Conflict? || r.error.UidEdited?
    {
      var used :- CheckEntries();
      CheckedAll(used);
      r := CheckObjects(used);
    }

    lemma CheckedAll(used: set<string>)
      requires Checked(entries.Keys, used)
      ensures forall f :: f in used <==> Used(entries, f)
      ensures ValidEntryFiles(rules, entries)
      ensures forall id :: id in entries ==> TrackedOk(rules, origin.start, id)
    {
    }

    // ------------------------------------------------------------ tracked items

    /** The item is gone on the server: keep a copy, remove the file, forget the entry. */
    method DropMissing(id: string, ghost todo: set<string>) returns (r: Result<(), Error>)
      requires InTracked(todo) && id in todo && id !in remote
      modifies this`local, this`entries, disk`files, disk`backup, disk`state
      ensures r.Ok? ==> InTracked(todo - {id})
      ensures r.Err? ==> Stopped() && r.error == Disk
    {
      hide SnapshotKept, Server.Valid, Resumable, TrackedLoop;
      LoopsResumable(origin);
      Unreached(origin, Outside(), todo, id);
      var e := entries[id];
      ghost var w := Now();
      var _ :- RemoveMissing(id, todo);
      assert Now() == w.(files := w.files - {e.file});
      ForgetStep(origin, Outside().(world := w), todo, id);
      entries := entries - {id};
      r := Save();
    }

    /** The file goes once it is in the backup. */
    method RemoveMissing(id: string, ghost todo: set<string>) returns (r: Result<(), Error>)
      requires InTracked(todo) && id in todo && id !in remote && id in entries
      modifies this`local, disk`files, disk`backup
      ensures r.Ok? ==> InStep() && local == old(local) - {entries[id].file}
      ensures r.Ok? && entries[id].file in old(local) ==>
        entries[id].file in disk.backup && disk.backup[entries[id].file] == old(local)[entries[id].file]
      ensures r.Ok? ==> Outside().(world := old(Now())) in TrackedLoop(origin, todo)
      ensures r.Ok? ==> Now() == old(Now()).(files := local) && Stopped()
      ensures r.Err? ==> Stopped() && r.error == Disk
    {
      hide SnapshotKept, Server.Valid, Resumable, TrackedLoop;
      LoopsResumable(origin);
      var file := entries[id].file;
      ghost var v := Outside();
      if file !in local {
        assert local == local - {file};
        return Ok(());
      }
      BackupStep(origin, v, todo, id);
      var _ :- Verify(file);
      var ok := disk.WriteBackup(file, local[file]);
      if !ok { return Err(Disk); }
      RemoveStep(origin, Outside(), todo, id);
      ok := disk.RemoveItem(file);
      if !ok { return Err(Disk); }
      local := local - {file};
      return Ok(());
    }
  
    /** Stores an object over a file and records it. */
    method Store(id: string, file: string, o: Object) returns (r: Result<(), Error>)
      requires Connected() && SnapshotKept() && origin.start.remote == Bodies(remote)
      requires local == disk.files && entries == disk.Entries()
      requires o.id == id && 0 < o.revision && rules.uidOf(o.data).Some?
      requires file in local ==> rules.uidOf(local[file]) == rules.uidOf(o.data)
      requires Outside() in Resumable(origin)
      requires Written(Outside(), file, o.data) in Resumable(origin)
      requires
        var e := Entry(file, rules.hashOf(o.data), rules.uidOf(o.data).value);
        WithEntry(Written(Outside(), file, o.data), id, e) in Resumable(origin)
      modifies this`local, this`entries, disk`files, disk`state
      ensures r.Ok? ==> InStep()
      ensures r.Ok? ==>
        var e := Entry(file, rules.hashOf(o.data), rules.uidOf(o.data).value);
        Outside() == WithEntry(Written(old(Outside()), file, o.data), id, e)
      ensures r.Err? ==> Stopped() && r.error == Disk
    {
      hide Resumable, SnapshotKept, Server.Valid, Bodies;
      var uid := rules.uidOf(o.data);
      if uid.None? || o.id != id || o.revision == 0 { return Err(BadObject(id)); }
      if file in local && rules.uidOf(local[file]) != uid { return Err(UidChanged(file)); }
      var _ :- Verify(file);
      r := Record(id, file, o.data, uid.value);
    }

    /** Writes the file, then the entry, then the saved state. */
    method Record(id: string, file: string, data: Bytes, uid: string) returns (r: Result<(), Error>)
      requires Connected() && SnapshotKept() && origin.start.remote == Bodies(remote)
      requires local == disk.files && entries == disk.Entries()
      requires Outside() in Resumable(origin) && Written(Outside(), file, data) in Resumable(origin)
      requires WithEntry(Written(Outside(), file, data), id, Entry(file, rules.hashOf(data), uid)) in Resumable(origin)
      modifies this`local, this`entries, disk`files, disk`state
      ensures r.Ok? ==> InStep()
      ensures r.Ok? ==> Outside() == WithEntry(Written(old(Outside()), file, data), id, Entry(file, rules.hashOf(data), uid))
      ensures r.Err? ==> Stopped() && r.error == Disk
    {
      hide Resumable, SnapshotKept, Server.Valid, Bodies;
      var ok := disk.WriteItem(file, data);
      if !ok { return Err(Disk); }
      entries := entries[id := Entry(file, rules.hashOf(data), uid)];
      local := local[file := data];
      r := Save();
    }

    /** The item was deleted locally: delete the object it came from. */
    method DeleteObject(id: string, ghost todo: set<string>) returns (r: Result<(), Error>)
      requires InTracked(todo) && id in todo && id in remote
      requires id in entries && entries[id].file !in local && rules.propagateDeletes
      requires Current(todo)
      modifies this`entries, disk`state, server`items, server`clock, server`versions, server`log
      ensures r.Ok? ==> InTracked(todo - {id})
      ensures r.Err? ==> Stopped() && Halts(r.error)
      ensures r.Ok? ==> Current(todo - {id})
    {
      hide SameVersions, Resumable, TrackedLoop;
      LoopsResumable(origin);
      var _ :- Verify(entries[id].file);
      var _ :- DeleteRemote(id, todo);
      entries := entries - {id};
      r := Save();
    }

    /** Deletes the object if it is still the version that was read. */
    method DeleteRemote(id: string, ghost todo: set<string>) returns (r: Result<(), Error>)
      requires InTracked(todo) && id in todo && id in remote
      requires id in entries && entries[id].file !in local && rules.propagateDeletes
      requires Current(todo)
      modifies server`items, server`clock, server`versions, server`log
      ensures Stopped()
      ensures r.Ok? ==> InTrackedWithout(id, todo)
      ensures if r.Ok? then Current(todo - {id}) else Halts(r.error)
    {
      hide Resumable, TrackedLoop, SameVersions, SnapshotKept, Server.Extends, Server.Valid;
      LoopsResumable(origin);
      if server.quiet {
        SameVersionAt(remote, server.items, todo, id);
      }
      ghost var v := Outside();
      SnapshotAt(id);
      label before:
      r := server.Delete(remote[id]);
      SnapshotStays@before();
      if |server.log| == |old@before(server.log)| {
        TrackingWithOthers(origin, v, todo, Bodies(server.items));
      } else {
        assert server.log[|startLog|..] == v.log + [Destroyed(id, remote[id].data)];
        DeleteStep(origin, v, todo, id, Bodies(server.items));
      }
    }

    /** Both sides hold the same content. */
    method RecordAgreement(id: string, ghost todo: set<string>) returns (r: Result<(), Error>)
      requires InTracked(todo) && id in todo && id in remote && id in entries && entries[id].file in local
      requires rules.hashOf(local[entries[id].file]) == rules.hashOf(remote[id].data)
      modifies this`entries, disk`state
      ensures r.Ok? ==> InTracked(todo - {id})
      ensures r.Err? ==> Stopped() && r.error == Disk
    {
      hide Resumable, TrackedLoop;
      LoopsResumable(origin);
      AgreeStep(origin, Outside(), todo, id);
      entries := entries[id := entries[id].(hash := rules.hashOf(remote[id].data))];
      r := Save();
    }
  
    /** The remote copy is newer, or the file has to be restored. */
    method DownloadTracked(id: string, ghost todo: set<string>) returns (r: Result<(), Error>)
      requires InTracked(todo) && id in todo && id in remote && id in origin.start.entries
      requires StoresRemote(origin, id)
      modifies this`local, this`entries, disk`files, disk`state
      ensures r.Ok? ==> InTracked(todo - {id})
      ensures r.Err? ==> Stopped() && r.error == Disk
    {
      hide Resumable, TrackedLoop;
      LoopsResumable(origin);
      Unreached(origin, Outside(), todo, id);
      DownloadStep(origin, Outside(), todo, id);
      r := Store(id, entries[id].file, remote[id]);
    }

    /** The local copy is newer. */
    method UploadTracked(id: string, ghost todo: set<string>) returns (r: Result<(), Error>)
      requires InTracked(todo) && id in todo && id in remote && id in origin.start.entries
      requires UploadsLocal(origin, id)
      requires Current(todo)
      modifies this`local, this`entries, disk`files, disk`state, server`items, server`clock, server`versions, server`log
      ensures r.Ok? ==> InTracked(todo - {id})
      ensures r.Err? ==> Stopped() && Halts(r.error)
      ensures r.Ok? ==> Current(todo - {id})
    {
      hide SnapshotKept, Server.Valid, SameVersions, Resumable, TrackedLoop;
      LoopsResumable(origin);
      Unreached(origin, Outside(), todo, id);
      UploadIdentity(origin, Outside(), todo, id);
      var e := entries[id];
      var _ :- Verify(e.file);
      var o :- PutEdit(id, e, local[e.file], todo);
      r := Store(id, e.file, o);
    }

    /** Offers an edit to the server. */
    method PutEdit(id: string, e: Entry, data: Bytes, ghost todo: set<string>) returns (r: Result<Object, Error>)
      requires InTracked(todo) && id in todo && id in remote && id in origin.start.entries
      requires UploadsLocal(origin, id) && e == origin.start.entries[id] && data == origin.start.files[e.file]
      requires rules.uidOf(data) == Some(e.uid)
      requires Current(todo)
      modifies server`items, server`clock, server`versions, server`log
      ensures InStep() && Outside() in Resumable(origin)
      ensures r.Ok? ==> r.value.id == id && 0 < r.value.revision && rules.uidOf(r.value.data) == Some(e.uid)
      ensures r.Ok? ==>
        var v := Written(Outside(), e.file, r.value.data);
        v in Resumable(origin)
        && WithEntry(v, id, Entry(e.file, rules.hashOf(r.value.data), e.uid)) in TrackedLoop(origin, todo - {id})
      ensures r.Err? ==> Halts(r.error)
      ensures r.Ok? ==> Current(todo - {id})
    {
      hide Resumable, TrackedLoop, SameVersions, SnapshotKept, Server.Extends, Server.Valid;
      LoopsResumable(origin);
      if server.quiet {
        SameVersionAt(remote, server.items, todo, id);
      }
      ghost var v, log := Outside(), server.log;
      SnapshotAt(id);
      label before:
      r := server.Put(id, remote[id].revision, data);
      SnapshotStays@before();
      if server.log == log {
        TrackingWithOthers(origin, v, todo, Bodies(server.items));
      } else {
        assert server.log[|startLog|..] == v.log + [Overwrote(id, remote[id].data, data)];
        UploadStep(origin, v, todo, id, Bodies(server.items));
      }
      if r.Ok? {
        UploadedStep(origin, v, todo, id, e.file, e.uid, data, Bodies(server.items), r.value.data);
        assert UploadedView(v, id, e.file, remote[id].data, data, Bodies(server.items), r.value.data)
            == Written(Outside(), e.file, r.value.data);
      }
    }

    /** One item of the loop over the tracked entries. */
    method SyncItem(id: string, ghost todo: set<string>) returns (r: Result<(), Error>)
      requires InTracked(todo) && id in todo
      requires Current(todo)
      modifies this`local, this`entries, disk`files, disk`backup, disk`state, server`items, server`clock, server`versions, server`log
      ensures r.Ok? ==> InTracked(todo - {id})
      ensures r.Err? ==> Stopped() && Halts(r.error)
      ensures r.Ok? ==> Current(todo - {id})
    {
      hide SnapshotKept, Server.Valid, SameVersions, Resumable, TrackedLoop;
      LoopsResumable(origin);
      Unreached(origin, Outside(), todo, id);
      FewerVersions(remote, server.items, todo, id);
      if * { return Err(Cancelled); }
      var e := entries[id];
      if id !in remote {
        r := DropMissing(id, todo);
      } else if e.file !in local && rules.propagateDeletes {
        r := DeleteObject(id, todo);
      } else if e.file !in local
             || rules.hashOf(local[e.file]) == e.hash
             || rules.hashOf(local[e.file]) == rules.hashOf(remote[id].data) {
        if e.file !in local || rules.hashOf(local[e.file]) != rules.hashOf(remote[id].data) {
          r := DownloadTracked(id, todo);
        } else {
          r := RecordAgreement(id, todo);
        }
      } else {
        r := UploadTracked(id, todo);
      }
    }

    method SyncTracked() returns (r: Result<(), Error>)
      requires InTracked(origin.start.entries.Keys) && Current(origin.start.entries.Keys)
      modifies this`local, this`entries, disk`files, disk`backup, disk`state, server`items, server`clock, server`versions, server`log
      ensures r.Ok? ==> InTracked({})
      ensures r.Err? ==> Stopped() && Halts(r.error)
    {
      hide SameVersions, Resumable, TrackedLoop;
      LoopsResumable(origin);
      var todo := entries.Keys;
      assert todo == origin.start.entries.Keys by { StartedTracking(origin, Outside()); }
      while todo != {}
        invariant InTracked(todo) && Current(todo)
        decreases todo
      {
        var id :| id in todo;
        var _ :- SyncItem(id, todo);
        todo := todo - {id};
      }
      return Ok(());
    }
  
    // ---------------------------------------------------------- untracked objects

    ghost predicate InDownloads(left: set<string>)
      reads this, disk, server
    {
      InStep() && Outside() in DownloadLoop(origin, left)
    }

    /** An object without entry: adopt the file of its UID, or download it. */
    method StoreNew(o: Object, ghost left: set<string>) returns (r: Result<(), Error>)
      requires InDownloads(left) && Lookup(origin.start.files)
      requires o.id in left && o.id in remote && remote[o.id] == o
      modifies this`local, this`entries, disk`files, disk`state
      ensures r.Ok? ==> InDownloads(left - {o.id})
      ensures r.Err? ==> Stopped() && r.error == Disk
    {
      hide Resumable, DownloadLoop;
      LoopsResumable(origin);
      UnreachedNew(origin, Outside(), left);
      assert origin.start.remote[o.id] == o.data;
      var uid := rules.uidOf(o.data).value;
      var file := if uid in localUid then localUid[uid] else rules.FileFor(o.id);
      LookupTarget(o.id, uid, file);
      NewStep(origin, Outside(), left, o.id, file, uid);
      r := Store(o.id, file, o);
    }

    lemma LookupTarget(id: string, uid: string, file: string)
      requires origin.rules == rules && Lookup(origin.start.files)
      requires id in origin.start.remote && rules.uidOf(origin.start.remote[id]) == Some(uid)
      requires file == if uid in localUid then localUid[uid] else rules.FileFor(id)
      ensures TargetFile(rules, origin.start, id, file)
    {
    }

    method SyncNew() returns (r: Result<(), Error>)
      requires InDownloads(origin.start.remote.Keys - origin.start.entries.Keys) && Lookup(origin.start.files)
      requires IsListing(objects, remote) && trackedIds == origin.start.entries.Keys
      modifies this`local, this`entries, disk`files, disk`state
      ensures r.Ok? ==> InDownloads({})
      ensures r.Err? ==> Stopped() && r.error == Disk
    {
      hide Resumable, DownloadLoop, Remaining, IsListing;
      LoopsResumable(origin);
      ghost var left := origin.start.remote.Keys - origin.start.entries.Keys;
      RemainingStart(objects, remote, origin.start.entries);
      var i := 0;
      while i < |objects|
        invariant 0 <= i <= |objects|
        invariant InDownloads(left) && Lookup(origin.start.files)
        invariant Remaining(objects, origin.start.entries, i, left)
      {
        UnreachedNew(origin, Outside(), left);
        RemainingNext(objects, remote, origin.start.entries, i, left);
        var o := objects[i];
        if o.id !in entries && o.id !in trackedIds {
          var _ :- StoreNew(o, left);
        }
        assert o.id in origin.start.entries ==> left - {o.id} == left;
        left := left - {o.id};
        i := i + 1;
      }
      RemainingDone(objects, origin.start.entries, left);
      return Ok(());
    }
  
    // ------------------------------------------------------------ untracked files

    ghost predicate InUploads(left: set<string>)
      reads this, disk, server
    {
      InStep() && Outside() in UploadLoop(origin, left)
    }

    /** A new local item: create its object. */
    method UploadNew(file: string, ghost left: set<string>) returns (r: Result<(), Error>)
      requires InUploads(left) && file in left && file in local && !Used(entries, file)
      modifies this`local, this`entries, disk`files, disk`state, server`items, server`clock, server`versions, server`log
      ensures r.Ok? ==> InUploads(left - {file})
      ensures r.Err? ==> Stopped() && Halts(r.error)
    {
      hide Resumable, UploadLoop;
      LoopsResumable(origin);
      var _ :- Verify(file);
      var o :- PutNew(file, left);
      r := Store(o.id, file, o);
    }

    /** Offers a new item to the server. */
    method PutNew(file: string, ghost left: set<string>) returns (r: Result<Object, Error>)
      requires InUploads(left) && file in left && file in local && !Used(entries, file)
      modifies server`items, server`clock, server`versions, server`log
      ensures InStep() && Outside() in Resumable(origin)
      ensures r.Ok? ==> r.value.id != "" && 0 < r.value.revision
      ensures r.Ok? ==> rules.uidOf(r.value.data).Some? && rules.uidOf(r.value.data) == rules.uidOf(local[file])
      ensures r.Ok? ==>
        var v := Written(Outside(), file, r.value.data);
        var e := Entry(file, rules.hashOf(r.value.data), rules.uidOf(r.value.data).value);
        v in Resumable(origin) && WithEntry(v, r.value.id, e) in UploadLoop(origin, left - {file})
      ensures r.Err? ==> Halts(r.error)
    {
      hide Resumable, UploadLoop, SnapshotKept, Server.Extends;
      LoopsResumable(origin);
      ghost var v, log := Outside(), server.log;
      UnreachedFile(origin, v, left, file);
      var data := local[file];
      label before:
      r := server.Put("", 0, data);
      SnapshotStays@before();
      if server.log == log {
        UploadingWithOthers(origin, v, left, Bodies(server.items));
      } else {
        ghost var id := server.log[|log|].id;
        assert server.log[|startLog|..] == v.log + [Created(id, data)];
        CreateStep(origin, v, left, file, id, Bodies(server.items));
        if r.Ok? {
          CreatedStep(origin, v, left, file, id, Bodies(server.items), r.value.id, r.value.data, rules.uidOf(data).value);
          assert CreatedView(v, id, file, data, Bodies(server.items), r.value.data) == Written(Outside(), file, r.value.data);
        }
      }
    }

    method SyncLocal() returns (r: Result<(), Error>)
      requires InUploads(local.Keys)
      modifies this`local, this`entries, disk`files, disk`state, server`items, server`clock, server`versions, server`log
      ensures r.Ok? ==> InUploads({})
      ensures r.Err? ==> Stopped() && Halts(r.error)
    {
      hide Resumable, UploadLoop;
      LoopsResumable(origin);
      var left := local.Keys;
      while left != {}
        invariant InUploads(left)
        decreases left
      {
        var file :| file in left;
        UnreachedFile(origin, Outside(), left, file);
        if Used(entries, file) {
          SkipStep(origin, Outside(), left, file);
        } else {
          if * { return Err(Cancelled); }
          var _ :- UploadNew(file, left);
        }
        left := left - {file};
      }
      return Ok(());
    }
  
    // -------------------------------------------------------------- the whole run

    /** The run has read but not written. */
    ghost predicate Reading()
      reads this, disk, server
    {
      && Connected() && rules.Valid()
      && origin.start.files == disk.files && origin.start.entries == disk.Entries()
      && origin.backup == disk.backup && startLog == server.log
      && (server.quiet ==> origin.start == Now())
    }

    /** Lists the server; origin then remembers the world of that moment. */
    method ReadServer() returns (r: Result<(), Error>)
      requires Reading()
      modifies this`objects, this`remote, this`origin, server`items, server`clock, server`versions
      ensures Reading()
      ensures server.quiet ==> origin.start == old(Now()) && server.items == old(server.items)
      ensures r.Err? ==> r.error == Error.Remote || (r.error == BadSnapshot && !DistinctUids(rules, origin.start.remote))
      ensures r.Ok? ==> origin.start.remote == Bodies(remote) && SnapshotKept() && IsListing(objects, remote)
      ensures r.Ok? ==> DistinctUids(rules, origin.start.remote) && remote == server.items
    {
      hide IsListing, DistinctUids, ValidListing;
      var listing := server.Snapshot();
      origin := origin.(start := Now());
      var items :- listing;
      ListingOfItems(rules, items, server.items);
      var _ :- ReadRemote(items);
      SameIndex(items, server.items, remote);
      return Ok(());
    }

    /** Reads both sides. */
    method ReadBoth() returns (r: Result<(), Error>)
      requires Reading() && entries == disk.Entries()
      modifies this`local, this`localUid, this`objects, this`remote, this`origin, server`items, server`clock, server`versions
      ensures Reading()
      ensures server.quiet ==> origin.start == old(Now()) && server.items == old(server.items)
      ensures r.Ok? ==> InStep() && Lookup(local) && IsListing(objects, remote)
      ensures r.Ok? ==> DistinctUids(rules, local) && DistinctUids(rules, Bodies(remote)) && remote == server.items
      ensures r.Err? ==> r.error in {Disk, Error.Remote} || (r.error in {Unreadable, BadSnapshot} && !Accepts(rules, origin.start))
    {
      hide IsListing, FindsFiles, DistinctUids;
      var _ :- ReadLocal();
      r := ReadServer();
    }

    /** Loads the saved entries; refuses a state written for another configuration. */
    method LoadState() returns (r: Result<(), Error>)
      requires rules.Valid() && server.rules == rules && server.Valid()
      modifies this`origin, this`startLog, this`entries, this`trackedIds
      ensures Reading() && origin.start == Now()
      ensures r.Ok? ==> entries == disk.Entries() && trackedIds == entries.Keys
      ensures r.Err? ==> r.error == StateMismatch
    {
      origin := Origin(rules, Now(), disk.backup, server.quiet, server.verbatim);
      startLog := server.log;
      if disk.state.Some? && (disk.state.value.version != 1 || disk.state.value.identity != identity) {
        return Err(StateMismatch);
      }
      entries := disk.Entries();
      trackedIds := entries.Keys;
      return Ok(());
    }

    /** Reads both sides and decides whether to go on. Changes nothing but the
        saved copies of conflicting remote objects. */
    method Prepare() returns (r: Result<(), Error>)
      requires rules.Valid() && server.rules == rules && server.Valid()
      modifies this, disk`conflicts, server`items, server`clock, server`versions
      ensures Reading()
      ensures server.quiet ==> origin.start == old(Now()) && server.items == old(server.items)
      ensures r.Ok? ==> Ready()
      ensures r.Err? && Rejects(r.error) ==> r.error == StateMismatch || !Accepts(rules, origin.start)
      ensures r.Err? ==> Rejects(r.error) || r.error in {Disk, Error.Remote}
    {
      hide Accepts, IsListing, FindsFiles, DistinctUids;
      var _ :- LoadState();
      var _ :- ReadBoth();
      r := Preflight();
    }

    /** The collection was read and accepted. */
    ghost predicate Ready()
      reads this, disk, server
    {
      && InStep() && Lookup(origin.start.files) && IsListing(objects, remote)
      && trackedIds == entries.Keys && Accepts(rules, origin.start) && remote == server.items
    }

    /** Works off the whole collection. */
    method Apply() returns (r: Result<(), Error>)
      requires Reading() && Ready() && WellFormed(rules, origin.start.files)
      modifies this`local, this`entries, disk`files, disk`backup, disk`state, server`items, server`clock, server`versions, server`log
      ensures Stopped()
      ensures r.Ok? ==> Outside() in UploadLoop(origin, {})
      ensures r.Err? ==> Halts(r.error)
    {
      hide SnapshotKept, Server.Valid, SameVersions, Resumable, TrackedLoop, UploadLoop, IsListing, FindsFiles, WellFormed;
      LoopsResumable(origin);
      TrackingStart(origin, Outside());
      FewerVersions(remote, server.items, origin.start.entries.Keys, "");
      var _ :- SyncTracked();
      r := ApplyUntracked();
    }

    /** What no entry knows: objects first, then files. */
    method ApplyUntracked() returns (r: Result<(), Error>)
      requires InTracked({}) && WellFormed(rules, origin.start.files) && Lookup(origin.start.files)
      requires IsListing(objects, remote) && trackedIds == origin.start.entries.Keys
      modifies this`local, this`entries, disk`files, disk`state, server`items, server`clock, server`versions, server`log
      ensures Stopped()
      ensures r.Ok? ==> Outside() in UploadLoop(origin, {})
      ensures r.Err? ==> Halts(r.error)
    {
      hide SnapshotKept, Server.Valid, Resumable, TrackedLoop, DownloadLoop, UploadLoop, IsListing, FindsFiles, WellFormed;
      LoopsResumable(origin);
      TrackingDone(origin, Outside());
      var _ :- SyncNew();
      DownloadingDone(origin, Outside());
      var _ :- SyncLocal();
      r := Save();
    }

    /**
     One synchronization.

     Whatever happens and wherever the run stops, no edit is lost. Undisturbed by
     other clients, every state it may stop in leads a further run to the same
     result, and a synchronized collection is not changed. A refused collection is
     not changed either. A run that finishes undisturbed leaves the collection
     synchronized; where it had to strand a rename, two files share a UID.
     */
    method SyncCollection() returns (r: Result<(), Error>)
      requires rules.Valid() && server.rules == rules && server.Valid()
      requires ItemNames(rules, disk.files)
      modifies this, disk, server`items, server`clock, server`versions, server`log
      ensures server.Valid() && ItemNames(rules, disk.files)
      ensures origin.start.files == old(disk.files) && origin.start.entries == old(disk.Entries())
      ensures server.quiet ==> origin.start == old(Now())
      ensures old(server.log) <= server.log
      // nothing is lost
      ensures Safe(rules, origin.start, disk.files, disk.backup, server.log[|old(server.log)|..])
      // refusal
      ensures r.Ok? ==> Accepts(rules, origin.start)
      ensures r.Err? && Rejects(r.error) ==>
        && (r.error == StateMismatch || !Accepts(rules, origin.start))
        && disk.files == old(disk.files) && disk.backup == old(disk.backup) && disk.state == old(disk.state)
        && server.log == old(server.log)
      ensures r.Err? && !Rejects(r.error) ==> Halts(r.error)
      // undisturbed
      ensures r.Ok? && server.quiet && DistinctEntryUids(origin.start.entries) ==>
        (Synced(rules, Now()) <==> NoStrandedRename(rules, origin.start))
      ensures server.quiet && Synced(rules, old(Now())) ==>
        Now() == old(Now()) && disk.backup == old(disk.backup) && server.log == old(server.log)
      // undisturbed, by a server that keeps what it is given
      ensures server.quiet && server.verbatim && Good(rules, old(Now())) ==>
        Good(rules, Now()) && SameOutcome(rules, old(Now()), Now())
      // what the next run may rely on, disturbed or not
      ensures Regular(rules, origin.start) ==> DistinctEntryUids(disk.Entries())
      // where a rename is stranded
      ensures r.Ok? && DistinctEntryUids(origin.start.entries) && !NoStrandedRename(rules, origin.start) ==>
        !DistinctUids(rules, disk.files)
    {
      hide Resumable, UploadLoop, Safe, Good, SameOutcome, Synced, Accepts, NoStrandedRename, DistinctUids;
      r := PrepareAndApply();
      if r.Ok? {
        Finished();
        SyncedIsDistinct(rules, Now());
      }
      ResumableMeans(origin, Outside());
    }

    method PrepareAndApply() returns (r: Result<(), Error>)
      requires rules.Valid() && server.rules == rules && server.Valid()
      requires ItemNames(rules, disk.files)
      modifies this, disk, server`items, server`clock, server`versions, server`log
      ensures Stopped() && startLog == old(server.log)
      ensures origin.start.files == old(disk.files) && origin.start.entries == old(disk.Entries())
      ensures origin.backup == old(disk.backup)
      ensures server.quiet ==> origin.start == old(Now())
      ensures r.Ok? ==> Accepts(rules, origin.start) && Outside() in UploadLoop(origin, {})
      ensures r.Err? && Rejects(r.error) ==>
        && (r.error == StateMismatch || !Accepts(rules, origin.start))
        && disk.files == old(disk.files) && disk.backup == old(disk.backup) && disk.state == old(disk.state)
        && server.log == old(server.log)
      ensures r.Err? && !Rejects(r.error) ==> Halts(r.error)
    {
      hide SnapshotKept, Server.Valid, SameVersions, Resumable, UploadLoop, Accepts, IsListing, FindsFiles, DistinctUids, WellFormed, ItemNames, ValidListing;
      r := Prepare();
      NothingDone(origin, Outside());
      if r.Err? {
        return;
      }
      AcceptedIsWellFormed(rules, origin.start);
      r := Apply();
    }

    lemma Finished()
      requires Connected() && Outside() in UploadLoop(origin, {})
      ensures server.quiet && Accepts(rules, origin.start) && Regular(rules, origin.start) ==> Synced(rules, Now())
      ensures DistinctEntryUids(origin.start.entries) && !NoStrandedRename(rules, origin.start) ==>
        !DistinctUids(rules, disk.files)
    {
    }
  }

  lemma SyncedIsDistinct(r: Rules, w: World)
    ensures Synced(r, w) ==> DistinctUids(r, w.files)
  {
  }

  /** These objects are there in the versions that were read. */
  predicate SameVersions(remote: map<string, Object>, items: map<string, Object>, todo: set<string>) {
    forall id :: id in todo && id in remote ==> id in items && items[id] == remote[id]
  }

  lemma SameVersionAt(remote: map<string, Object>, items: map<string, Object>, todo: set<string>, id: string)
    requires SameVersions(remote, items, todo) && id in todo && id in remote
    ensures id in items && items[id] == remote[id]
    ensures forall now: map<string, Object> :: now - {id} == items - {id} ==> SameVersions(remote, now, todo - {id})
  {
    forall now: map<string, Object> | now - {id} == items - {id} ensures SameVersions(remote, now, todo - {id}) {
      forall k | k in todo - {id} && k in remote ensures k in now && now[k] == remote[k] {
        assert k in items - {id} && (now - {id})[k] == (items - {id})[k];
      }
    }
  }

  lemma FewerVersions(remote: map<string, Object>, items: map<string, Object>, todo: set<string>, id: string)
    ensures SameVersions(remote, items, todo) ==> SameVersions(remote, items, todo - {id})
    ensures SameVersions(items, items, todo)
  {
  }

  /** The errors that refuse a collection before anything is changed. */
  predicate Rejects(e: Error) {
    e in {Unreadable, StateMismatch, BadSnapshot, BadState} || e.Conflict? || e.UidEdited?
  }
}
