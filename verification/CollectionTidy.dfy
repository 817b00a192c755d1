/**
 What the run keeps of its own files and entries whatever other clients and the
 server do to the objects: UIDs stay distinct, and every entry that is done has
 its file.
 */
module CollectionTidy {
  import opened Wrappers
  import opened CollectionWorld
  import opened CollectionProofs
  import opened CollectionCourse

  /** What the loop over the tracked entries keeps when todo is left. */
  predicate Tidy(r: Rules, start: World, files: map<string, Bytes>, entries: map<string, Entry>, todo: set<string>) {
    && DistinctUids(r, files)
    && SameNames(start, entries)
    && (forall id :: id in entries && id !in todo ==> id in start.remote && Holds(r, files, entries[id]))
    && Unstranded(r, start, files, todo)
    && (forall f :: f in files ==> Used(entries, f) || !Used(start.entries, f))
  }

  /** The entry's file is there and holds its item. */
  predicate Holds(r: Rules, files: map<string, Bytes>, e: Entry) {
    e.file in files && r.uidOf(files[e.file]) == Some(e.uid)
  }

  predicate SameNames(start: World, entries: map<string, Entry>) {
    forall id :: id in entries ==>
      id in start.entries && entries[id].file == start.entries[id].file && entries[id].uid == start.entries[id].uid
  }

  /** No file has taken the place of one that is still to be restored. */
  predicate Unstranded(r: Rules, start: World, files: map<string, Bytes>, todo: set<string>) {
    forall id :: id in todo && id in start.entries && id in start.remote && start.entries[id].file !in files && !r.propagateDeletes ==>
      !HasUid(r, files, Some(start.entries[id].uid))
  }

  lemma TidyStart(r: Rules, start: World)
    requires Accepts(r, start) && Regular(r, start)
    ensures Tidy(r, start, start.files, start.entries, start.entries.Keys)
  {
  }

  lemma TidyEntries(r: Rules, start: World, entries: map<string, Entry>)
    requires ValidEntryFiles(r, start.entries) && SameNames(start, entries)
    ensures ValidEntryFiles(r, entries)
    ensures DistinctEntryUids(start.entries) ==> DistinctEntryUids(entries)
  {
  }

  /** An item that is gone on both sides, or goes now. */
  lemma TidyDrop(r: Rules, start: World, files: map<string, Bytes>, entries: map<string, Entry>, todo: set<string>, id: string)
    requires ValidEntryFiles(r, start.entries) && Tidy(r, start, files, entries, todo)
    requires id in start.entries && id in entries
    ensures Tidy(r, start, files - {start.entries[id].file}, entries - {id}, todo - {id})
  {
    TidyEntries(r, start, entries);
    UsedAfterRemove(r, entries, id);
    TidyHoldsOn(r, start, files, entries, todo, id);
    hide DistinctEntryUids, Holds, Unstranded;
  }

  lemma TidyHoldsOn(r: Rules, start: World, files: map<string, Bytes>, entries: map<string, Entry>, todo: set<string>, id: string)
    requires ValidEntryFiles(r, start.entries) && Tidy(r, start, files, entries, todo)
    requires id in start.entries && id in entries
    ensures
      var files' := files - {start.entries[id].file};
      && (forall k :: k in entries && k != id && k !in todo ==> k in start.remote && Holds(r, files', entries[k]))
      && Unstranded(r, start, files', todo - {id})
  {
  }

  lemma TidyForget(r: Rules, start: World, files: map<string, Bytes>, entries: map<string, Entry>, todo: set<string>, id: string)
    requires ValidEntryFiles(r, start.entries) && Tidy(r, start, files, entries, todo)
    requires id in start.entries && id in entries && start.entries[id].file !in files
    ensures Tidy(r, start, files, entries - {id}, todo - {id})
  {
  }

  lemma TidyKeep(r: Rules, start: World, files: map<string, Bytes>, entries: map<string, Entry>, todo: set<string>, id: string, e: Entry)
    requires Tidy(r, start, files, entries, todo) && id in start.entries && id in start.remote && id in entries
    requires e.file == start.entries[id].file && e.uid == start.entries[id].uid && Holds(r, files, e)
    ensures Tidy(r, start, files, entries[id := e], todo - {id})
  {
    SameUsed(entries, id, e);
  }

  /** The item's file is written, over its own content or where no file has its UID. */
  lemma TidyWrite(r: Rules, start: World, files: map<string, Bytes>, entries: map<string, Entry>, todo: set<string>,
                  id: string, body: Bytes, e: Entry)
    requires ValidEntryFiles(r, start.entries) && DistinctEntryUids(start.entries) && Tidy(r, start, files, entries, todo)
    requires id in todo && id in start.entries && id in start.remote && id in entries
    requires e.file == start.entries[id].file && e.uid == start.entries[id].uid && r.uidOf(body) == Some(e.uid)
    requires if e.file in files then Holds(r, files, e) else !r.propagateDeletes
    ensures Tidy(r, start, files[e.file := body], entries[id := e], todo - {id})
  {
    var files' := files[e.file := body];
    assert DistinctUids(r, files');
    assert Unstranded(r, start, files', todo - {id});
    assert Used(entries, e.file);
    TidyKeepUsed(r, start, files, entries, todo, id, body, e);
  }

  lemma TidyKeepUsed(r: Rules, start: World, files: map<string, Bytes>, entries: map<string, Entry>, todo: set<string>,
                     id: string, body: Bytes, e: Entry)
    requires Tidy(r, start, files, entries, todo) && id in entries && entries[id].file == e.file
    ensures forall f :: f in files[e.file := body] ==> Used(entries[id := e], f) || !Used(start.entries, f)
  {
    SameUsed(entries, id, e);
    assert Used(entries, e.file);
  }

  // ------------------------------------------ the loops over untracked items

  /** Every entry has its file, and all UIDs are distinct. */
  predicate Held(r: Rules, files: map<string, Bytes>, entries: map<string, Entry>) {
    && DistinctUids(r, files)
    && ValidEntryFiles(r, entries)
    && DistinctEntryUids(entries)
    && (forall id :: id in entries ==> Holds(r, files, entries[id]))
  }

  /** No entry has the UID of an object that is still to be stored, and no stranger's file either. */
  predicate Awaited(r: Rules, start: World, files: map<string, Bytes>, entries: map<string, Entry>, left: set<string>) {
    && (forall id, k :: id in left && id in start.remote && k in entries ==> r.uidOf(start.remote[id]) != Some(entries[k].uid))
    && (forall f :: f in files ==> Used(entries, f) || (f in start.files && !Used(start.entries, f)))
  }

  lemma TidyDone(r: Rules, start: World, files: map<string, Bytes>, entries: map<string, Entry>)
    requires Accepts(r, start) && Regular(r, start)
    requires Tidy(r, start, files, entries, {}) && NothingNew(start, files)
    ensures Held(r, files, entries)
    ensures Awaited(r, start, files, entries, start.remote.Keys - start.entries.Keys)
  {
  }

  /** The file that an untracked object is stored under belongs to no entry, and no other file has its UID. */
  lemma TargetUnused(r: Rules, start: World, files: map<string, Bytes>, entries: map<string, Entry>, left: set<string>,
                     id: string, file: string)
    requires Accepts(r, start) && KeptAlike(r, start, files) && NamesFree(r, start, files, left)
    requires Held(r, files, entries) && Awaited(r, start, files, entries, left)
    requires id in left && id in start.remote && id !in start.entries && TargetFile(r, start, id, file)
    ensures !Used(entries, file)
    ensures forall f :: f in files && r.uidOf(files[f]) == r.uidOf(start.remote[id]) ==> f == file
  {
  }

  lemma HeldStore(r: Rules, start: World, files: map<string, Bytes>, entries: map<string, Entry>, left: set<string>,
                  id: string, file: string, h: string, u: string)
    requires Accepts(r, start) && KeptAlike(r, start, files) && NamesFree(r, start, files, left)
    requires Held(r, files, entries) && Awaited(r, start, files, entries, left)
    requires id in left && id in start.remote && id !in start.entries && TargetFile(r, start, id, file)
    requires id !in entries && ItemName(file, r.ext) && r.uidOf(start.remote[id]) == Some(u)
    ensures
      var files', entries' := files[file := start.remote[id]], entries[id := Entry(file, h, u)];
      Held(r, files', entries') && Awaited(r, start, files', entries', left - {id})
  {
    var e := Entry(file, h, u);
    var files', entries' := files[file := start.remote[id]], entries[id := e];
    TargetUnused(r, start, files, entries, left, id, file);
    HeldWrite(r, files, entries, id, e, start.remote[id]);
    forall f | f in files' ensures Used(entries', f) || (f in start.files && !Used(start.entries, f)) {
      if f == file {
        assert entries'[id].file == file;
      } else if Used(entries, f) {
        var k :| k in entries && entries[k].file == f;
        assert entries'[k].file == f;
      }
    }
  }

  /** A file of no entry is written and recorded; no other file may have its UID. */
  lemma HeldWrite(r: Rules, files: map<string, Bytes>, entries: map<string, Entry>, id: string, e: Entry, body: Bytes)
    requires Held(r, files, entries) && !Used(entries, e.file) && ItemName(e.file, r.ext) && r.uidOf(body) == Some(e.uid)
    requires forall f :: f in files && r.uidOf(files[f]) == Some(e.uid) ==> f == e.file
    ensures Held(r, files[e.file := body], entries[id := e])
  {
  }
}
