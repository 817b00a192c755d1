/**
 What holds between two steps of a run, stated on values: which part of the work
 is left, what has not been touched yet, and that a complete run from here ends
 where a complete run from the start would have ended.
 */
module CollectionCourse {
  import opened Wrappers
  import opened CollectionWorld
  import opened CollectionProofs

  /** A complete run from w ends where a complete run from start ends. */
  ghost predicate OnCourse(r: Rules, start: World, w: World) {
    Good(r, w) && SameOutcome(r, start, w)
  }

  lemma Onward(r: Rules, start: World, w: World, w': World)
    requires OnCourse(r, start, w)
    requires Good(r, w') && SameOutcome(r, w, w')
    ensures OnCourse(r, start, w')
  {
  }

  lemma CourseRemoveLocal(r: Rules, start: World, w: World, id: string)
    requires r.Valid() && OnCourse(r, start, w)
    requires id in w.entries && id !in w.remote && w.entries[id].file in w.files
    ensures OnCourse(r, start, w.(files := w.files - {w.entries[id].file}))
  {
    RemoveLocalKeepsGood(r, w, id);
    RemoveLocalKeepsOutcome(r, w, id);
    Onward(r, start, w, w.(files := w.files - {w.entries[id].file}));
  }

  lemma CourseDropEntry(r: Rules, start: World, w: World, id: string)
    requires r.Valid() && OnCourse(r, start, w)
    requires id in w.entries && id !in w.remote && w.entries[id].file !in w.files
    ensures OnCourse(r, start, w.(entries := w.entries - {id}))
  {
    DropEntryKeepsGood(r, w, id);
    DropEntryKeepsOutcome(r, w, id);
    Onward(r, start, w, w.(entries := w.entries - {id}));
  }

  lemma CourseDeleteRemote(r: Rules, start: World, w: World, id: string)
    requires r.Valid() && OnCourse(r, start, w) && r.propagateDeletes
    requires id in w.entries && id in w.remote && w.entries[id].file !in w.files
    ensures OnCourse(r, start, w.(remote := w.remote - {id}))
  {
    DeleteRemoteKeepsGood(r, w, id);
    DeleteRemoteKeepsOutcome(r, w, id);
    Onward(r, start, w, w.(remote := w.remote - {id}));
  }

  lemma CourseDownloadTracked(r: Rules, start: World, w: World, id: string)
    requires r.Valid() && OnCourse(r, start, w)
    requires MayDownload(r, w, id)
    ensures OnCourse(r, start, w.(files := w.files[w.entries[id].file := w.remote[id]]))
  {
    DownloadTrackedKeepsGood(r, w, id);
    DownloadTrackedKeepsOutcome(r, w, id);
    Onward(r, start, w, w.(files := w.files[w.entries[id].file := w.remote[id]]));
  }

  lemma CourseSaveTracked(r: Rules, start: World, w: World, id: string)
    requires r.Valid() && OnCourse(r, start, w)
    requires id in w.entries && id in w.remote && w.entries[id].file in w.files
    requires r.hashOf(w.files[w.entries[id].file]) == r.hashOf(w.remote[id])
    ensures OnCourse(r, start, w.(entries := w.entries[id := w.entries[id].(hash := r.hashOf(w.remote[id]))]))
  {
    SaveTrackedKeepsGood(r, w, id);
    SaveTrackedKeepsOutcome(r, w, id);
    Onward(r, start, w, w.(entries := w.entries[id := w.entries[id].(hash := r.hashOf(w.remote[id]))]));
  }

  lemma CourseUploadEdit(r: Rules, start: World, w: World, id: string)
    requires r.Valid() && OnCourse(r, start, w)
    requires id in w.entries && id in w.remote && w.entries[id].file in w.files
    requires LocalChanged(r, w, id)
    requires r.hashOf(w.files[w.entries[id].file]) != r.hashOf(w.remote[id])
    ensures OnCourse(r, start, w.(remote := w.remote[id := w.files[w.entries[id].file]]))
  {
    UploadEditKeepsGood(r, w, id);
    UploadEditKeepsOutcome(r, w, id);
    Onward(r, start, w, w.(remote := w.remote[id := w.files[w.entries[id].file]]));
  }

  lemma CourseDownloadNew(r: Rules, start: World, w: World, id: string, file: string)
    requires r.Valid() && OnCourse(r, start, w) && EntriesPresent(w)
    requires id in w.remote && id !in w.entries && TargetFile(r, w, id, file)
    ensures OnCourse(r, start, w.(files := w.files[file := w.remote[id]]))
  {
    DownloadNewKeepsGood(r, w, id, file);
    DownloadNewKeepsOutcome(r, w, id, file);
    Onward(r, start, w, w.(files := w.files[file := w.remote[id]]));
  }

  lemma CourseSaveNew(r: Rules, start: World, w: World, id: string, file: string)
    requires r.Valid() && OnCourse(r, start, w) && EntriesPresent(w)
    requires id in w.remote && id !in w.entries && file in w.files && w.files[file] == w.remote[id]
    requires ItemName(file, r.ext)
    ensures OnCourse(r, start, w.(entries := w.entries[id := Entry(file, r.hashOf(w.remote[id]), r.uidOf(w.remote[id]).value)]))
  {
    SaveNewKeepsGood(r, w, id, file);
    SaveNewKeepsOutcome(r, w, id, file);
    Onward(r, start, w, w.(entries := w.entries[id := Entry(file, r.hashOf(w.remote[id]), r.uidOf(w.remote[id]).value)]));
  }

  lemma CourseCreate(r: Rules, start: World, w: World, file: string)
    requires r.Valid() && OnCourse(r, start, w) && EntriesPresent(w)
    requires file in w.files && !Used(w.entries, file)
    requires !HasUid(r, w.remote, r.uidOf(w.files[file]))
    ensures OnCourse(r, start, w.(remote := w.remote[r.createId(r.uidOf(w.files[file]).value) := w.files[file]]))
  {
    CreateKeepsGood(r, w, file);
    CreateKeepsOutcome(r, w, file);
    Onward(r, start, w, w.(remote := w.remote[r.createId(r.uidOf(w.files[file]).value) := w.files[file]]));
  }

  // ------------------------------------------------------------ the tracked loop

  /** The entries in todo and their files are as they were. */
  predicate Pending(start: World, local: map<string, Bytes>, entries: map<string, Entry>, todo: set<string>) {
    forall id :: id in todo ==>
      && id in start.entries && id in entries && entries[id] == start.entries[id]
      && (var f := start.entries[id].file;
          (f in local <==> f in start.files) && (f in local ==> local[f] == start.files[f]))
  }

  /** Files no entry knows are as they were. */
  predicate Kept(start: World, local: map<string, Bytes>) {
    forall f :: f in start.files && !Used(start.entries, f) ==> f in local && local[f] == start.files[f]
  }

  /** Every file was there before, or belongs to an entry. */
  predicate NothingNew(start: World, local: map<string, Bytes>) {
    forall f :: f in local ==> f in start.files || Used(start.entries, f)
  }

  /** Every file is a parsed item with a proper name. */
  predicate WellFormed(r: Rules, files: map<string, Bytes>) {
    forall f :: f in files ==> r.uidOf(files[f]).Some? && ItemName(f, r.ext)
  }

  /** Entries that are done have their file, unless the item is gone. */
  predicate Restored(r: Rules, start: World, local: map<string, Bytes>, todo: set<string>) {
    forall id :: id in start.entries && id !in todo ==>
      var e := start.entries[id];
      (id in start.remote && (e.file in start.files || !r.propagateDeletes) ==>
         e.file in local && r.uidOf(local[e.file]) == Some(e.uid))
  }

  predicate SameAt(m: map<string, Bytes>, m': map<string, Bytes>, k: string) {
    (k in m <==> k in m') && (k in m ==> m[k] == m'[k])
  }

  /** With nobody else writing, what is left to do on the server is as it was,
      and what is done is settled. */
  predicate CalmTracked(r: Rules, start: World, w: World, todo: set<string>) {
    && (forall id :: id in todo ==> SameAt(start.remote, w.remote, id))
    && (forall id :: id in start.remote && id !in start.entries ==> SameAt(start.remote, w.remote, id))
    && (forall id :: id in w.entries && id !in todo ==> Settled(r, w, id))
    && (forall id :: id in w.remote && id in start.entries && id !in todo ==> id in w.entries)
    && w.remote.Keys <= start.remote.Keys
  }

  /** The state of the tracked loop, as far as the run itself can see it. */
  predicate Midway(r: Rules, start: World, local: map<string, Bytes>, entries: map<string, Entry>, todo: set<string>) {
    && Pending(start, local, entries, todo)
    && Kept(start, local)
    && NothingNew(start, local)
    && WellFormed(r, local)
    && Restored(r, start, local, todo)
    && entries.Keys <= start.entries.Keys
  }

  lemma MidwayDropMissing(r: Rules, start: World, local: map<string, Bytes>, entries: map<string, Entry>, todo: set<string>,
                          id: string)
    requires ValidEntryFiles(r, start.entries)
    requires Midway(r, start, local, entries, todo) && id in todo && id !in start.remote
    ensures Midway(r, start, local - {start.entries[id].file}, entries - {id}, todo - {id})
  {
    assert Used(start.entries, start.entries[id].file);
  }

  lemma MidwayDelete(r: Rules, start: World, local: map<string, Bytes>, entries: map<string, Entry>, todo: set<string>,
                     id: string)
    requires ValidEntryFiles(r, start.entries)
    requires Midway(r, start, local, entries, todo) && id in todo
    requires start.entries[id].file !in local && r.propagateDeletes
    ensures Midway(r, start, local, entries - {id}, todo - {id})
  {
  }

  lemma MidwayKeep(r: Rules, start: World, local: map<string, Bytes>, entries: map<string, Entry>, todo: set<string>,
                   id: string, e: Entry)
    requires ValidEntryFiles(r, start.entries)
    requires Midway(r, start, local, entries, todo) && id in todo
    requires start.entries[id].file in local && r.uidOf(local[start.entries[id].file]) == Some(start.entries[id].uid)
    ensures Midway(r, start, local, entries[id := e], todo - {id})
  {
  }

  lemma MidwayWrite(r: Rules, start: World, local: map<string, Bytes>, entries: map<string, Entry>, todo: set<string>,
                    id: string, data: Bytes, e: Entry)
    requires ValidEntryFiles(r, start.entries)
    requires Midway(r, start, local, entries, todo) && id in todo
    requires r.uidOf(data) == Some(start.entries[id].uid)
    ensures Midway(r, start, local[start.entries[id].file := data], entries[id := e], todo - {id})
  {
    PendingWrite(r, start, local, entries, todo, id, data, e);
    FilesWrite(r, start, local, id, data);
    hide Pending, Kept, NothingNew, WellFormed;
  }

  lemma PendingWrite(r: Rules, start: World, local: map<string, Bytes>, entries: map<string, Entry>, todo: set<string>,
                     id: string, data: Bytes, e: Entry)
    requires ValidEntryFiles(r, start.entries) && Pending(start, local, entries, todo) && id in todo
    ensures Pending(start, local[start.entries[id].file := data], entries[id := e], todo - {id})
  {
  }

  lemma FilesWrite(r: Rules, start: World, local: map<string, Bytes>, id: string, data: Bytes)
    requires ValidEntryFiles(r, start.entries) && id in start.entries && r.uidOf(data).Some?
    requires Kept(start, local) && NothingNew(start, local) && WellFormed(r, local)
    ensures
      var now := local[start.entries[id].file := data];
      Kept(start, now) && NothingNew(start, now) && WellFormed(r, now)
  {
  }

  lemma CalmDropMissing(r: Rules, start: World, w: World, todo: set<string>, id: string)
    requires ValidEntryFiles(r, start.entries) && ValidEntryFiles(r, w.entries)
    requires CalmTracked(r, start, w, todo) && id in todo && id in start.entries && id in w.entries
    requires w.entries[id] == start.entries[id] && id !in w.remote
    ensures CalmTracked(r, start, World(w.files - {start.entries[id].file}, w.remote, w.entries - {id}), todo - {id})
  {
  }

  lemma CalmDelete(r: Rules, start: World, w: World, todo: set<string>, id: string)
    requires ValidEntryFiles(r, start.entries) && ValidEntryFiles(r, w.entries)
    requires CalmTracked(r, start, w, todo) && id in todo && id in start.entries && id in w.entries
    requires w.entries[id] == start.entries[id] && w.entries[id].file !in w.files
    ensures CalmTracked(r, start, World(w.files, w.remote - {id}, w.entries - {id}), todo - {id})
  {
  }

  lemma UsedAfterRemove(r: Rules, entries: map<string, Entry>, id: string)
    requires ValidEntryFiles(r, entries) && id in entries
    ensures forall f :: Used(entries - {id}, f) <==> Used(entries, f) && f != entries[id].file
  {
    forall f ensures Used(entries - {id}, f) <==> Used(entries, f) && f != entries[id].file {
      if Used(entries, f) && f != entries[id].file {
        var k :| k in entries && entries[k].file == f;
        assert k in entries - {id};
      }
    }
  }

  /** The item ends with the same content on both sides and an entry that says so. */
  lemma CalmSettle(r: Rules, start: World, w: World, todo: set<string>, id: string, data: Bytes, body: Bytes)
    requires ValidEntryFiles(r, start.entries) && ValidEntryFiles(r, w.entries)
    requires CalmTracked(r, start, w, todo) && id in todo && id in start.entries && id in w.entries && id in start.remote
    requires w.entries[id] == start.entries[id]
    requires r.hashOf(data) == r.hashOf(body)
    requires r.uidOf(data) == r.uidOf(body) == Some(start.entries[id].uid)
    ensures
      var e := start.entries[id];
      CalmTracked(r, start,
        World(w.files[e.file := data], w.remote[id := body], w.entries[id := e.(hash := r.hashOf(body))]), todo - {id})
  {
    var e := start.entries[id];
    var w' := World(w.files[e.file := data], w.remote[id := body], w.entries[id := e.(hash := r.hashOf(body))]);
    hide Settled, SameAt;
    CalmElsewhere(start, w, todo, id, body);
    forall k | k in w'.entries && k !in todo - {id} ensures Settled(r, w', k) {
      if k == id {
        SettledNow(r, w, id, data, body);
      } else {
        StaysSettled(r, w, id, k, data, body);
      }
    }
  }

  lemma CalmElsewhere(start: World, w: World, todo: set<string>, id: string, body: Bytes)
    requires id in start.entries
    ensures forall k :: k != id && SameAt(start.remote, w.remote, k) ==> SameAt(start.remote, w.remote[id := body], k)
  {
  }

  lemma SettledNow(r: Rules, w: World, id: string, data: Bytes, body: Bytes)
    requires id in w.entries && r.hashOf(data) == r.hashOf(body) && r.uidOf(data) == r.uidOf(body) == Some(w.entries[id].uid)
    ensures
      var e := w.entries[id];
      Settled(r, World(w.files[e.file := data], w.remote[id := body], w.entries[id := e.(hash := r.hashOf(body))]), id)
  {
  }

  lemma StaysSettled(r: Rules, w: World, id: string, k: string, data: Bytes, body: Bytes)
    requires ValidEntryFiles(r, w.entries) && id in w.entries && k in w.entries && k != id && Settled(r, w, k)
    ensures
      var e := w.entries[id];
      Settled(r, World(w.files[e.file := data], w.remote[id := body], w.entries[id := e.(hash := r.hashOf(body))]), k)
  {
  }

  // ------------------------------------------ the loops over untracked items

  /** Files no entry knew still hold their item, in a version of the same hash. */
  predicate KeptAlike(r: Rules, start: World, files: map<string, Bytes>) {
    forall f :: f in start.files && !Used(start.entries, f) ==>
      f in files && r.uidOf(files[f]) == r.uidOf(start.files[f]) && r.hashOf(files[f]) == r.hashOf(start.files[f])
  }

  predicate KeptUids(r: Rules, start: World, files: map<string, Bytes>) {
    forall f :: f in start.files && !Used(start.entries, f) ==> f in files && r.uidOf(files[f]) == r.uidOf(start.files[f])
  }

  /** The names reserved for downloads are still free. */
  predicate NamesFree(r: Rules, start: World, files: map<string, Bytes>, left: set<string>) {
    forall id :: id in left && id in start.remote && !HasUid(r, start.files, r.uidOf(start.remote[id])) ==>
      r.FileFor(id) !in files
  }

  /** A file belongs to an entry, or no run has touched it. */
  predicate NoStranger(start: World, w: World) {
    forall f :: f in w.files ==>
      Used(w.entries, f) || (f in start.files && w.files[f] == start.files[f] && !Used(start.entries, f))
  }

  predicate AllSettled(r: Rules, w: World) {
    forall id :: id in w.entries ==> Settled(r, w, id)
  }

  /** With nobody else writing, the objects in left are as they were and the
      others are tracked and settled. */
  predicate CalmDownloading(r: Rules, start: World, w: World, left: set<string>) {
    && (forall id :: id in left ==> id in start.remote && id !in start.entries)
    && (forall id :: id in left ==> id in w.remote && w.remote[id] == start.remote[id] && id !in w.entries)
    && AllSettled(r, w)
    && w.remote.Keys <= w.entries.Keys + left
    && NoStranger(start, w)
    && DistinctUids(r, w.remote)
  }

  predicate CalmUploading(r: Rules, w: World, left: set<string>) {
    && AllSettled(r, w)
    && w.remote.Keys <= w.entries.Keys
    && (forall f :: f in w.files ==> Used(w.entries, f) || f in left)
    && DistinctUids(r, w.remote)
  }

  lemma PickedIsTarget(r: Rules, start: World, w: World, left: set<string>, id: string, file: string)
    requires Accepts(r, start) && Good(r, w) && CalmDownloading(r, start, w, left) && KeptAlike(r, start, w.files)
    requires id in left && TargetFile(r, start, id, file)
    ensures TargetFile(r, w, id, file)
  {
  }

  lemma CalmStored(r: Rules, start: World, w: World, left: set<string>, id: string, file: string, u: string)
    requires CalmDownloading(r, start, w, left)
    requires id in left && id in w.remote && !Used(w.entries, file) && r.uidOf(w.remote[id]) == Some(u)
    ensures
      var w' := World(w.files[file := w.remote[id]], w.remote, w.entries[id := Entry(file, r.hashOf(w.remote[id]), u)]);
      CalmDownloading(r, start, w', left - {id})
  {
    var e := Entry(file, r.hashOf(w.remote[id]), u);
    var w' := World(w.files[file := w.remote[id]], w.remote, w.entries[id := e]);
    forall k | k in w'.entries ensures Settled(r, w', k) {
      if k != id {
        assert Settled(r, w, k);
        assert w.entries[k].file != file by { assert Used(w.entries, w.entries[k].file); }
      }
    }
    forall f | f in w'.files && !Used(w'.entries, f)
      ensures f in start.files && w'.files[f] == start.files[f] && !Used(start.entries, f)
    {
      assert f != file by { assert id in w'.entries && w'.entries[id].file == file; }
      NotUsedBefore(w.entries, id, e, f);
    }
  }

  lemma NotUsedBefore(entries: map<string, Entry>, id: string, e: Entry, f: string)
    requires id !in entries && !Used(entries[id := e], f)
    ensures !Used(entries, f)
  {
    forall k | k in entries ensures entries[k].file != f {
      assert entries[id := e][k] == entries[k];
    }
  }

  lemma EntriesPresentWhenSettled(r: Rules, w: World)
    requires AllSettled(r, w)
    ensures EntriesPresent(w)
  {
  }

  /** A new object, in whatever form and under whatever free id the server keeps it. */
  lemma CalmCreated(r: Rules, w: World, left: set<string>, file: string, id: string, body: Bytes, u: string)
    requires DistinctUids(r, w.files) && CalmUploading(r, w, left)
    requires file in w.files && !Used(w.entries, file) && r.uidOf(w.files[file]) == r.uidOf(body) == Some(u)
    requires id !in w.remote
    ensures CalmUploading(r, World(w.files[file := body], w.remote[id := body], w.entries[id := Entry(file, r.hashOf(body), u)]), left - {file})
  {
    var e := Entry(file, r.hashOf(body), u);
    var w' := World(w.files[file := body], w.remote[id := body], w.entries[id := e]);
    NoRemoteHolder(r, w, left, file);
    CopyAfterSet(r, w.remote, id, body, u);
    forall k | k in w'.entries ensures Settled(r, w', k) {
      if k != id {
        assert Settled(r, w, k);
        assert w.entries[k].file != file by { assert Used(w.entries, w.entries[k].file); }
      }
    }
    forall f | f in w'.files && !Used(w'.entries, f) ensures f in left - {file} {
      assert f != file by { assert id in w'.entries && w'.entries[id].file == file; }
      NotUsedBefore(w.entries, id, e, f);
    }
  }

  /** No object holds the UID of a file that is still to be uploaded. */
  lemma NoRemoteHolder(r: Rules, w: World, left: set<string>, file: string)
    requires DistinctUids(r, w.files) && CalmUploading(r, w, left)
    requires file in w.files && !Used(w.entries, file)
    ensures !HasUid(r, w.remote, r.uidOf(w.files[file]))
  {
  }
}
