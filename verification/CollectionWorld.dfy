/**
 The value-level model of one synchronized collection (an address book or a
 calendar): the item files of the local directory, the bodies on the server and
 the saved entries that remember the last common version of every item.

 The three maps are keyed differently (file name, remote id, remote id); what
 ties them together is the UID inside the content. `CellAt` collects what the
 three maps say about one UID, and `Outcome` says what a complete run makes of
 that one cell.
 */
module CollectionWorld {
  import opened Wrappers

  type Bytes = string

  /** A remote object; revision 0 stands for the empty revision string. */
  datatype Object = Object(id: string, revision: nat, data: Bytes)

  /** What the state file remembers about one remote id. */
  datatype Entry = Entry(file: string, hash: string, uid: string)

  /** The parts of the configuration and of the content formats a run depends on. */
  datatype Rules = Rules(
    ext: string,
    propagateDeletes: bool,
    uidOf: Bytes -> Option<string>,
    hashOf: Bytes -> string,
    digestOf: string -> string,
    createId: string -> string)
  {
    /** The name given to an object downloaded for the first time. */
    function FileFor(id: string): string {
      digestOf(id) + ext
    }

    /** The digest is taken to be injective, and a server that derives ids from
        UIDs gives different UIDs different, non-empty ids. */
    ghost predicate Valid() {
      && (forall id, id' :: digestOf(id) == digestOf(id') ==> id == id')
      && (forall u, u' :: createId(u) == createId(u') ==> u == u')
      && (forall u :: createId(u) != "")
      && (forall d :: uidOf(d) != Some(""))
      && (forall id :: ItemName(FileFor(id), ext))
    }
  }

  /** A plain, visible file name with the collection's extension. */
  predicate ItemName(file: string, ext: string) {
    && '/' !in file
    && |ext| < |file| && file[|file| - |ext|..] == ext
    && file[0] != '.'
  }

  predicate ItemNames(r: Rules, files: map<string, Bytes>) {
    forall f :: f in files ==> ItemName(f, r.ext)
  }

  datatype World = World(files: map<string, Bytes>, remote: map<string, Bytes>, entries: map<string, Entry>)

  predicate Used(entries: map<string, Entry>, file: string) {
    exists id :: id in entries && entries[id].file == file
  }

  // ---------------------------------------------------------------- preflight

  /** Every content parses and no two hold the same UID. */
  predicate DistinctUids(r: Rules, m: map<string, Bytes>) {
    && (forall k :: k in m ==> r.uidOf(m[k]).Some?)
    && (forall k, k' :: k in m && k' in m && r.uidOf(m[k]) == r.uidOf(m[k']) ==> k == k')
  }

  predicate ValidEntryFiles(r: Rules, entries: map<string, Entry>) {
    && (forall id :: id in entries ==> ItemName(entries[id].file, r.ext))
    && (forall id, id' :: id in entries && id' in entries && entries[id].file == entries[id'].file ==> id == id')
  }

  /** Neither copy of a tracked item changed its UID. */
  predicate SameIdentity(r: Rules, w: World, id: string)
    requires id in w.entries
  {
    var e := w.entries[id];
    && (e.file in w.files ==> r.uidOf(w.files[e.file]) == Some(e.uid))
    && (id in w.remote ==> r.uidOf(w.remote[id]) == Some(e.uid))
  }

  predicate LocalChanged(r: Rules, w: World, id: string)
    requires id in w.entries
  {
    var e := w.entries[id];
    e.file in w.files ==> r.hashOf(w.files[e.file]) != e.hash
  }

  predicate RemoteChanged(r: Rules, w: World, id: string)
    requires id in w.entries
  {
    id in w.remote ==> r.hashOf(w.remote[id]) != w.entries[id].hash
  }

  /** Both sides changed and did not arrive at the same content. */
  predicate Divergent(r: Rules, w: World, id: string)
    requires id in w.entries
  {
    var e := w.entries[id];
    && LocalChanged(r, w, id)
    && RemoteChanged(r, w, id)
    && (((e.file in w.files) == (id in w.remote)) ==>
          e.file in w.files && r.hashOf(w.files[e.file]) != r.hashOf(w.remote[id]))
  }

  predicate TrackedOk(r: Rules, w: World, id: string)
    requires id in w.entries
  {
    SameIdentity(r, w, id) && !Divergent(r, w, id)
  }

  predicate HasUid(r: Rules, files: map<string, Bytes>, uid: Option<string>) {
    exists f :: f in files && r.uidOf(files[f]) == uid
  }

  /** An object without an entry can be adopted by the file of the same UID, or
      downloaded to a free name. */
  predicate UntrackedOk(r: Rules, w: World, id: string)
    requires id in w.remote
  {
    && (forall f :: f in w.files && r.uidOf(w.files[f]) == r.uidOf(w.remote[id]) ==>
          !Used(w.entries, f) && r.hashOf(w.files[f]) == r.hashOf(w.remote[id]))
    && (!HasUid(r, w.files, r.uidOf(w.remote[id])) ==>
          r.FileFor(id) !in w.files && !Used(w.entries, r.FileFor(id)))
  }

  /** The decision the whole preflight takes, stated without any order. */
  predicate Accepts(r: Rules, w: World) {
    && DistinctUids(r, w.files)
    && DistinctUids(r, w.remote)
    && ValidEntryFiles(r, w.entries)
    && (forall id :: id in w.entries ==> TrackedOk(r, w, id))
    && (forall id :: id in w.remote && id !in w.entries ==> UntrackedOk(r, w, id))
  }

  // ------------------------------------------------- hypotheses beyond preflight

  /** Entries written by earlier runs never share a UID. */
  predicate DistinctEntryUids(entries: map<string, Entry>) {
    forall id, id' :: id in entries && id' in entries && entries[id].uid == entries[id'].uid ==> id == id'
  }

  /** The file of this entry is gone, the object is still there, and another
      file carries its UID: the local item was renamed. */
  predicate Renamed(r: Rules, w: World, id: string)
    requires id in w.entries
  {
    && id in w.remote
    && w.entries[id].file !in w.files
    && HasUid(r, w.files, Some(w.entries[id].uid))
  }

  /** Preflight does not look for renamed items. Without delete propagation the
      old file would be restored next to the renamed one. */
  predicate NoStrandedRename(r: Rules, w: World) {
    !r.propagateDeletes ==> forall id :: id in w.entries ==> !Renamed(r, w, id)
  }

  /** What earlier runs leave and what a caller can check before a run, beyond the preflight. */
  predicate Regular(r: Rules, w: World) {
    DistinctEntryUids(w.entries) && NoStrandedRename(r, w)
  }

  /** The server never files another UID's object under the id it derives from a UID. */
  ghost predicate ReservedIds(r: Rules, remote: map<string, Bytes>) {
    forall id, u :: id in remote && id == r.createId(u) ==> r.uidOf(remote[id]) == Some(u)
  }

  ghost predicate Good(r: Rules, w: World) {
    && Accepts(r, w)
    && DistinctEntryUids(w.entries)
    && NoStrandedRename(r, w)
    && ReservedIds(r, w.remote)
  }

  // -------------------------------------------------------------- synchronized

  /** Entries are a bijection between remote ids and files, all three sides
      agree on hash and UID. */
  predicate Synced(r: Rules, w: World) {
    && DistinctUids(r, w.files)
    && DistinctUids(r, w.remote)
    && ValidEntryFiles(r, w.entries)
    && DistinctEntryUids(w.entries)
    && w.entries.Keys == w.remote.Keys
    && (forall id :: id in w.entries ==> Settled(r, w, id))
    && (forall f :: f in w.files ==> Used(w.entries, f))
  }

  predicate Settled(r: Rules, w: World, id: string)
    requires id in w.entries
  {
    var e := w.entries[id];
    && id in w.remote
    && e.file in w.files
    && r.uidOf(w.files[e.file]) == Some(e.uid)
    && r.uidOf(w.remote[id]) == Some(e.uid)
    && r.hashOf(w.files[e.file]) == e.hash
    && r.hashOf(w.remote[id]) == e.hash
  }

  // --------------------------------------------------------------------- cells

  datatype Copy = Copy(name: string, data: Bytes)
  datatype Tracked = Tracked(id: string, entry: Entry)
  datatype Cell = Cell(local: Option<Copy>, remote: Option<Copy>, tracked: Option<Tracked>)

  ghost function CopyOf(r: Rules, m: map<string, Bytes>, u: string): Option<Copy> {
    if HasUid(r, m, Some(u)) then
      var k :| k in m && r.uidOf(m[k]) == Some(u);
      Some(Copy(k, m[k]))
    else None
  }

  ghost function EntryOf(entries: map<string, Entry>, u: string): Option<Tracked> {
    if exists id :: id in entries && entries[id].uid == u then
      var id :| id in entries && entries[id].uid == u;
      Some(Tracked(id, entries[id]))
    else None
  }

  ghost function CellAt(r: Rules, w: World, u: string): Cell {
    Cell(CopyOf(r, w.files, u), CopyOf(r, w.remote, u), EntryOf(w.entries, u))
  }

  /** The loop over the tracked entries. */
  function AfterTracked(r: Rules, c: Cell): Cell {
    if c.tracked.None? then c else
    var id, e := c.tracked.value.id, c.tracked.value.entry;
    var exists_ := c.local.Some? && c.local.value.name == e.file;
    var present := c.remote.Some? && c.remote.value.name == id;
    if !present then
      c.(local := if exists_ then None else c.local, tracked := None)
    else
      var body := c.remote.value.data;
      if !exists_ then
        if r.propagateDeletes then c.(remote := None, tracked := None)
        else c.(local := Some(Copy(e.file, body)), tracked := Some(Tracked(id, e.(hash := r.hashOf(body)))))
      else
        var data := c.local.value.data;
        if r.hashOf(data) == r.hashOf(body) then
          c.(tracked := Some(Tracked(id, e.(hash := r.hashOf(body)))))
        else if r.hashOf(data) == e.hash then
          c.(local := Some(Copy(e.file, body)), tracked := Some(Tracked(id, e.(hash := r.hashOf(body)))))
        else
          c.(remote := Some(Copy(id, data)), tracked := Some(Tracked(id, e.(hash := r.hashOf(data)))))
  }

  /** The loop over the objects that had no entry. */
  function AfterDownload(r: Rules, u: string, c: Cell): Cell {
    if c.tracked.Some? || c.remote.None? then c else
    var id, body := c.remote.value.name, c.remote.value.data;
    var file := if c.local.Some? then c.local.value.name else r.FileFor(id);
    c.(local := Some(Copy(file, body)), tracked := Some(Tracked(id, Entry(file, r.hashOf(body), u))))
  }

  /** The loop over the files that are still untracked. */
  function AfterUpload(r: Rules, u: string, c: Cell): Cell {
    if c.tracked.Some? || c.local.None? then c else
    var file, data := c.local.value.name, c.local.value.data;
    c.(remote := Some(Copy(r.createId(u), data)), tracked := Some(Tracked(r.createId(u), Entry(file, r.hashOf(data), u))))
  }

  /** What a complete run against a server that stores bodies verbatim makes of the item with UID u. */
  ghost function Outcome(r: Rules, w: World, u: string): Cell {
    AfterUpload(r, u, AfterDownload(r, u, AfterTracked(r, CellAt(r, w, u))))
  }

  ghost predicate SameOutcome(r: Rules, w: World, w': World) {
    forall u :: Outcome(r, w, u) == Outcome(r, w', u)
  }
}
