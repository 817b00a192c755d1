/**
 The states one item passes through, effect by effect. Each lemma takes the
 state before an item and shows that every state the item passes through is
 sound, so that the run may stop in any of them, and that the last one is a
 state of the loop again.
 */
module CollectionSteps {
  import opened Wrappers
  import opened CollectionWorld
  import opened CollectionProofs
  import opened CollectionBackend
  import opened CollectionSafety
  import opened CollectionCourse
  import opened CollectionTidy

  /** What a run starts from, and what it may assume about its server. */
  datatype Origin = Origin(rules: Rules, start: World, backup: map<string, Bytes>, quiet: bool, verbatim: bool)

  /** Everything outside the run's own memory. */
  datatype View = View(world: World, backup: map<string, Bytes>, log: seq<Event>)

  /** Nobody else writes, and the collection is accepted. */
  ghost predicate Calm(o: Origin) {
    o.quiet && Accepts(o.rules, o.start) && Regular(o.rules, o.start)
  }

  /** And the server keeps what it is given, under an id that the UID determines. */
  ghost predicate Exact(o: Origin) {
    o.quiet && o.verbatim && Good(o.rules, o.start)
  }

  /** Nobody else writes, and there is nothing to do. */
  ghost predicate Still(o: Origin) {
    o.quiet && Synced(o.rules, o.start)
  }

  lemma ExactIsCalm(o: Origin)
    ensures Exact(o) ==> Calm(o)
  {
  }

  /** What holds after every single effect, and so wherever a run stops. */
  ghost predicate Sound(o: Origin, v: View) {
    && o.rules.Valid()
    && ItemNames(o.rules, v.world.files)
    && Safe(o.rules, o.start, v.world.files, v.backup, v.log)
    && (Regular(o.rules, o.start) ==> DistinctEntryUids(v.world.entries))
    && (Exact(o) ==> OnCourse(o.rules, o.start, v.world))
    && (Still(o) ==> v == View(o.start, o.backup, []))
  }

  /** What holds in the loop over the tracked entries when todo is left. */
  ghost predicate Tracking(o: Origin, v: View, todo: set<string>) {
    && Sound(o, v)
    && Accepts(o.rules, o.start)
    && Midway(o.rules, o.start, v.world.files, v.world.entries, todo)
    && (Regular(o.rules, o.start) ==> Tidy(o.rules, o.start, v.world.files, v.world.entries, todo))
    && (Calm(o) ==> CalmTracked(o.rules, o.start, v.world, todo))
  }

  function WithEntry(v: View, id: string, e: Entry): View {
    v.(world := v.world.(entries := v.world.entries[id := e]))
  }

  function Written(v: View, file: string, data: Bytes): View {
    v.(world := v.world.(files := v.world.files[file := data]))
  }

  /** The views a run may stop in. */
  ghost function Resumable(o: Origin): iset<View> {
    iset v: View | Sound(o, v)
  }

  /** The views of the loop over the tracked entries. */
  ghost function TrackedLoop(o: Origin, todo: set<string>): iset<View> {
    iset v: View | Tracking(o, v, todo)
  }

  lemma StillMeansSettled(o: Origin, id: string)
    requires Still(o) && id in o.start.entries
    ensures Settled(o.rules, o.start, id)
  {
  }

  /** What the loop knows about an item it has not reached. */
  lemma Unreached(o: Origin, v: View, todo: set<string>, id: string)
    requires v in TrackedLoop(o, todo) && id in todo
    ensures v in Resumable(o)
    ensures id in o.start.entries && id in v.world.entries && v.world.entries[id] == o.start.entries[id]
    ensures
      var file := o.start.entries[id].file;
      (file in v.world.files <==> file in o.start.files)
      && (file in v.world.files ==> v.world.files[file] == o.start.files[file])
  {
  }

  lemma AcceptedIsWellFormed(r: Rules, w: World)
    requires Accepts(r, w) && ItemNames(r, w.files)
    ensures WellFormed(r, w.files)
  {
  }

  /** Nothing has happened yet. */
  lemma NothingDone(o: Origin, v: View)
    requires o.rules.Valid() && ItemNames(o.rules, v.world.files) && v.backup == o.backup && v.log == []
    requires v.world.files == o.start.files && v.world.entries == o.start.entries
    requires o.quiet ==> v.world == o.start
    ensures v in Resumable(o)
  {
  }

  lemma StartIsSound(o: Origin, v: View)
    requires o.rules.Valid() && ItemNames(o.rules, v.world.files) && v.backup == o.backup && v.log == []
    requires v.world.files == o.start.files && v.world.entries == o.start.entries
    requires o.quiet ==> v.world == o.start
    ensures Sound(o, v)
  {
  }

  /** The loop starts with every entry to do. */
  lemma TrackingStart(o: Origin, v: View)
    requires o.rules.Valid() && Accepts(o.rules, o.start) && WellFormed(o.rules, o.start.files)
    requires v.backup == o.backup && v.log == []
    requires v.world.files == o.start.files && v.world.entries == o.start.entries
    requires o.quiet ==> v.world == o.start
    ensures v in TrackedLoop(o, o.start.entries.Keys)
  {
    hide Sound, Resumable, Tidy, Good, Safe, Still, Exact, OnCourse, UntrackedOk, TrackedOk;
    StartIsSound(o, v);
    if Regular(o.rules, o.start) { TidyStart(o.rules, o.start); }
    assert Tracking(o, v, o.start.entries.Keys);
  }

  lemma StartedTracking(o: Origin, v: View)
    requires v in TrackedLoop(o, o.start.entries.Keys)
    ensures v.world.entries.Keys == o.start.entries.Keys
  {
  }

  lemma TrackingWithOthers(o: Origin, v: View, todo: set<string>, remote: map<string, Bytes>)
    requires v in TrackedLoop(o, todo)
    requires o.quiet ==> remote == v.world.remote
    ensures v.(world := v.world.(remote := remote)) in TrackedLoop(o, todo)
  {
  }

  // ------------------------------------------------------- an item gone remotely

  lemma BackupStep(o: Origin, v: View, todo: set<string>, id: string)
    requires v in TrackedLoop(o, todo) && id in todo && id !in o.start.remote
    ensures
      var file := v.world.entries[id].file;
      file in v.world.files ==> v.(backup := v.backup[file := v.world.files[file]]) in TrackedLoop(o, todo)
  {
    hide Tidy, CalmTracked, OnCourse, Good, ItemNames;
    assert !Still(o) by { if Still(o) { StillMeansSettled(o, id); } }
  }

  lemma RemoveStep(o: Origin, v: View, todo: set<string>, id: string)
    requires v in TrackedLoop(o, todo) && id in todo && id !in o.start.remote
    requires
      var file := v.world.entries[id].file;
      file in v.world.files && file in v.backup && v.backup[file] == v.world.files[file]
    ensures v.(world := v.world.(files := v.world.files - {v.world.entries[id].file})) in Resumable(o)
  {
    var file := v.world.entries[id].file;
    assert !Still(o) by { if Still(o) { StillMeansSettled(o, id); } }
    assert TrackedOk(o.rules, o.start, id);
    assert Stale(o.rules, o.start, file);
    SafeAfterRemove(o.rules, o.start, v.world.files, v.backup, v.log, file);
    if Exact(o) { CourseRemoveLocal(o.rules, o.start, v.world, id); }
  }

  lemma ForgetStep(o: Origin, v: View, todo: set<string>, id: string)
    requires v in TrackedLoop(o, todo) && id in todo && id !in o.start.remote
    requires v.(world := v.world.(files := v.world.files - {v.world.entries[id].file})) in Resumable(o)
    ensures
      var file := v.world.entries[id].file;
      v.(world := World(v.world.files - {file}, v.world.remote, v.world.entries - {id})) in TrackedLoop(o, todo - {id})
  {
    hide Good, SameOutcome, DistinctEntryUids, Safe, UntrackedOk, DistinctUids, Unstranded;
    ExactIsCalm(o);
    var file := v.world.entries[id].file;
    var w := v.world.(files := v.world.files - {file});
    assert !Still(o) by { if Still(o) { StillMeansSettled(o, id); } }
    MidwayDropMissing(o.rules, o.start, v.world.files, v.world.entries, todo, id);
    if Regular(o.rules, o.start) {
      TidyDrop(o.rules, o.start, v.world.files, v.world.entries, todo, id);
      TidyEntries(o.rules, o.start, v.world.entries);
      TidyEntries(o.rules, o.start, v.world.entries - {id});
    }
    if Calm(o) { CalmDropMissing(o.rules, o.start, v.world, todo, id); }
    if Exact(o) { CourseDropEntry(o.rules, o.start, w, id); }
  }

  // ------------------------------------------------------- an item gone locally

  lemma DeleteStep(o: Origin, v: View, todo: set<string>, id: string, remote: map<string, Bytes>)
    requires v in TrackedLoop(o, todo) && id in todo && id in o.start.remote
    requires v.world.entries[id].file !in v.world.files && o.rules.propagateDeletes
    requires o.quiet ==> remote == v.world.remote - {id}
    ensures
      var v' := View(v.world.(remote := remote), v.backup, v.log + [Destroyed(id, o.start.remote[id])]);
      v' in Resumable(o) && v'.(world := v'.world.(entries := v.world.entries - {id})) in TrackedLoop(o, todo - {id})
  {
    hide Good, SameOutcome, DistinctEntryUids, Unstranded, Safe, OnCourse, UntrackedOk, WasCommon, DistinctUids;
    var v' := View(v.world.(remote := remote), v.backup, v.log + [Destroyed(id, o.start.remote[id])]);
    ExactIsCalm(o);
    assert !Still(o) by { if Still(o) { StillMeansSettled(o, id); } }
    DeleteSafe(o, v, todo, id);
    MidwayDelete(o.rules, o.start, v.world.files, v.world.entries, todo, id);
    if Regular(o.rules, o.start) {
      TidyForget(o.rules, o.start, v.world.files, v.world.entries, todo, id);
      TidyEntries(o.rules, o.start, v.world.entries);
      TidyEntries(o.rules, o.start, v.world.entries - {id});
    }
    if Calm(o) { CalmDelete(o.rules, o.start, v.world, todo, id); }
    if Exact(o) {
      CourseDeleteRemote(o.rules, o.start, v.world, id);
      CourseDropEntry(o.rules, o.start, v'.world, id);
    }
  }

  lemma DeleteSafe(o: Origin, v: View, todo: set<string>, id: string)
    requires v in TrackedLoop(o, todo) && id in todo && id in o.start.remote
    requires v.world.entries[id].file !in v.world.files && o.rules.propagateDeletes
    ensures Safe(o.rules, o.start, v.world.files, v.backup, v.log + [Destroyed(id, o.start.remote[id])])
  {
    hide Tidy, CalmTracked, Good, SameOutcome, DistinctEntryUids, UntrackedOk;
    assert TrackedOk(o.rules, o.start, id);
    SafeAfterEvent(o.rules, o.start, v.world.files, v.backup, v.log, Destroyed(id, o.start.remote[id]));
  }

  // ------------------------------------------------------ an item on both sides

  /** The code stores the remote body: the file is missing or unchanged, and the contents differ. */
  predicate StoresRemote(o: Origin, id: string)
    requires id in o.start.entries && id in o.start.remote
  {
    var file := o.start.entries[id].file;
    if file in o.start.files
    then
      && o.rules.hashOf(o.start.files[file]) == o.start.entries[id].hash
      && o.rules.hashOf(o.start.files[file]) != o.rules.hashOf(o.start.remote[id])
    else !o.rules.propagateDeletes
  }

  lemma DownloadStep(o: Origin, v: View, todo: set<string>, id: string)
    requires v in TrackedLoop(o, todo) && id in todo && id in o.start.remote && id in o.start.entries
    requires StoresRemote(o, id)
    ensures
      var e := o.start.entries[id];
      var body := o.start.remote[id];
      && Written(v, e.file, body) in Resumable(o)
      && WithEntry(Written(v, e.file, body), id, Entry(e.file, o.rules.hashOf(body), e.uid)) in TrackedLoop(o, todo - {id})
    ensures SameIdentity(o.rules, o.start, id)
  {
    DownloadStepHolds(o, v, todo, id);
    assert TrackedOk(o.rules, o.start, id);
  }

  lemma DownloadStepHolds(o: Origin, v: View, todo: set<string>, id: string)
    requires Tracking(o, v, todo) && id in todo && id in o.start.remote
    requires StoresRemote(o, id)
    ensures
      var e := v.world.entries[id];
      var body := o.start.remote[id];
      var v' := v.(world := v.world.(files := v.world.files[e.file := body]));
      Sound(o, v')
      && Tracking(o, WithEntry(v', id, Entry(e.file, o.rules.hashOf(body), e.uid)), todo - {id})
  {
    var e := v.world.entries[id];
    var body := o.start.remote[id];
    var w := v.world.(files := v.world.files[e.file := body]);
    var e' := Entry(e.file, o.rules.hashOf(body), e.uid);
    assert !Still(o) by { if Still(o) { StillMeansSettled(o, id); } }
    assert TrackedOk(o.rules, o.start, id);
    SafeAfterWrite(o.rules, o.start, v.world.files, v.backup, v.log, e.file, body);
    MidwayWrite(o.rules, o.start, v.world.files, v.world.entries, todo, id, body, e');
    if Regular(o.rules, o.start) { TidyWritten(o.rules, o.start, v.world.files, v.world.entries, todo, id, body, e'); }
    if Calm(o) { SettleHere(o.rules, o.start, v.world, todo, id, body, body); }
    if Exact(o) { CourseDownload(o.rules, o.start, v.world, id); }
  }

  /** TidyWrite, and what it means for the entries. */
  lemma TidyWritten(r: Rules, start: World, files: map<string, Bytes>, entries: map<string, Entry>, todo: set<string>,
                    id: string, body: Bytes, e: Entry)
    requires ValidEntryFiles(r, start.entries) && DistinctEntryUids(start.entries) && Tidy(r, start, files, entries, todo)
    requires id in todo && id in start.entries && id in start.remote && id in entries
    requires e.file == start.entries[id].file && e.uid == start.entries[id].uid && r.uidOf(body) == Some(e.uid)
    requires if e.file in files then Holds(r, files, e) else !r.propagateDeletes
    ensures Tidy(r, start, files[e.file := body], entries[id := e], todo - {id})
    ensures ValidEntryFiles(r, entries) && DistinctEntryUids(entries[id := e])
  {
    TidyWrite(r, start, files, entries, todo, id, body, e);
    TidyEntries(r, start, entries);
    TidyEntries(r, start, entries[id := e]);
  }

  lemma CourseDownload(r: Rules, start: World, w: World, id: string)
    requires r.Valid() && OnCourse(r, start, w) && MayDownload(r, w, id)
    ensures
      var e := w.entries[id];
      var w1 := w.(files := w.files[e.file := w.remote[id]]);
      OnCourse(r, start, w1) && OnCourse(r, start, w1.(entries := w.entries[id := Entry(e.file, r.hashOf(w.remote[id]), e.uid)]))
  {
    CourseDownloadTracked(r, start, w, id);
    CourseSaveTracked(r, start, w.(files := w.files[w.entries[id].file := w.remote[id]]), id);
  }

  /** CalmSettle when the server's body does not change. */
  lemma SettleHere(r: Rules, start: World, w: World, todo: set<string>, id: string, data: Bytes, body: Bytes)
    requires ValidEntryFiles(r, start.entries) && ValidEntryFiles(r, w.entries)
    requires CalmTracked(r, start, w, todo) && id in todo && id in start.entries && id in w.entries && id in start.remote
    requires w.entries[id] == start.entries[id]
    requires id in w.remote && w.remote[id] == body
    requires r.hashOf(data) == r.hashOf(body)
    requires r.uidOf(data) == r.uidOf(body) == Some(start.entries[id].uid)
    ensures
      var e := start.entries[id];
      CalmTracked(r, start,
        World(w.files[e.file := data], w.remote, w.entries[id := Entry(e.file, r.hashOf(body), e.uid)]), todo - {id})
  {
  }

  lemma AgreeStep(o: Origin, v: View, todo: set<string>, id: string)
    requires v in TrackedLoop(o, todo) && id in todo && id in o.start.remote
    requires v.world.entries[id].file in v.world.files
    requires o.rules.hashOf(v.world.files[v.world.entries[id].file]) == o.rules.hashOf(o.start.remote[id])
    ensures
      var e := v.world.entries[id].(hash := o.rules.hashOf(o.start.remote[id]));
      WithEntry(v, id, e) in TrackedLoop(o, todo - {id})
  {
    AgreeStepHolds(o, v, todo, id);
  }

  lemma AgreeStepHolds(o: Origin, v: View, todo: set<string>, id: string)
    requires Tracking(o, v, todo) && id in todo && id in o.start.remote
    requires v.world.entries[id].file in v.world.files
    requires o.rules.hashOf(v.world.files[v.world.entries[id].file]) == o.rules.hashOf(o.start.remote[id])
    ensures
      var e := v.world.entries[id].(hash := o.rules.hashOf(o.start.remote[id]));
      Tracking(o, WithEntry(v, id, e), todo - {id})
  {
    hide Midway, Tidy, CalmTracked, Safe, Good, SameOutcome;
    PendingAt(o.rules, o.start, v.world.files, v.world.entries, todo, id);
    ExactIsCalm(o);
    var e := v.world.entries[id].(hash := o.rules.hashOf(o.start.remote[id]));
    assert SameIdentity(o.rules, o.start, id) by { assert TrackedOk(o.rules, o.start, id); }
    MidwayKeep(o.rules, o.start, v.world.files, v.world.entries, todo, id, e);
    if Still(o) { StillAgrees(o, id); }
    if Regular(o.rules, o.start) { TidyKept(o.rules, o.start, v.world.files, v.world.entries, todo, id, e); }
    if Calm(o) { CalmAgree(o.rules, o.start, v.world, todo, id); }
    if Exact(o) { CourseSaveTracked(o.rules, o.start, v.world, id); }
  }

  lemma PendingAt(r: Rules, start: World, files: map<string, Bytes>, entries: map<string, Entry>, todo: set<string>, id: string)
    requires Midway(r, start, files, entries, todo) && id in todo
    ensures id in start.entries && id in entries && entries[id] == start.entries[id]
    ensures SameAt(start.files, files, start.entries[id].file)
  {
  }

  /** TidyKeep, and what it means for the entries. */
  lemma TidyKept(r: Rules, start: World, files: map<string, Bytes>, entries: map<string, Entry>, todo: set<string>, id: string, e: Entry)
    requires ValidEntryFiles(r, start.entries) && DistinctEntryUids(start.entries) && Tidy(r, start, files, entries, todo)
    requires id in start.entries && id in start.remote && id in entries
    requires e.file == start.entries[id].file && e.uid == start.entries[id].uid && Holds(r, files, e)
    ensures Tidy(r, start, files, entries[id := e], todo - {id})
    ensures ValidEntryFiles(r, entries) && DistinctEntryUids(entries[id := e])
  {
    TidyKeep(r, start, files, entries, todo, id, e);
    TidyEntries(r, start, entries);
    TidyEntries(r, start, entries[id := e]);
  }

  lemma CalmAgree(r: Rules, start: World, w: World, todo: set<string>, id: string)
    requires ValidEntryFiles(r, start.entries) && ValidEntryFiles(r, w.entries)
    requires CalmTracked(r, start, w, todo) && id in todo && id in start.entries && id in w.entries && id in start.remote
    requires w.entries[id] == start.entries[id] && w.entries[id].file in w.files
    requires r.hashOf(w.files[w.entries[id].file]) == r.hashOf(start.remote[id])
    requires r.uidOf(w.files[w.entries[id].file]) == r.uidOf(start.remote[id]) == Some(start.entries[id].uid)
    ensures id in w.remote && w.remote[id] == start.remote[id]
    ensures CalmTracked(r, start, w.(entries := w.entries[id := w.entries[id].(hash := r.hashOf(start.remote[id]))]), todo - {id})
  {
  }

  lemma StillAgrees(o: Origin, id: string)
    requires Still(o) && id in o.start.entries && id in o.start.remote
    ensures o.start.entries[id := o.start.entries[id].(hash := o.rules.hashOf(o.start.remote[id]))] == o.start.entries
  {
  }

  /** The code uploads the file: it changed, and the contents differ. */
  predicate UploadsLocal(o: Origin, id: string)
    requires id in o.start.entries && id in o.start.remote
  {
    var file := o.start.entries[id].file;
    && file in o.start.files
    && o.rules.hashOf(o.start.files[file]) != o.start.entries[id].hash
    && o.rules.hashOf(o.start.files[file]) != o.rules.hashOf(o.start.remote[id])
  }

  lemma UploadStep(o: Origin, v: View, todo: set<string>, id: string, remote: map<string, Bytes>)
    requires v in TrackedLoop(o, todo) && id in todo && id in o.start.remote
    requires UploadsLocal(o, id)
    requires o.quiet && o.verbatim ==> remote == v.world.remote[id := o.start.files[o.start.entries[id].file]]
    ensures View(v.world.(remote := remote), v.backup,
                 v.log + [Overwrote(id, o.start.remote[id], o.start.files[o.start.entries[id].file])]) in Resumable(o)
  {
    hide Safe, Tidy, SameOutcome, DistinctEntryUids, UntrackedOk;
    assert !Still(o) by { if Still(o) { StillMeansSettled(o, id); } }
    UploadSafe(o, v, todo, id);
    if Exact(o) { CourseUploadEdit(o.rules, o.start, v.world, id); }
  }

  lemma UploadSafe(o: Origin, v: View, todo: set<string>, id: string)
    requires v in TrackedLoop(o, todo) && id in todo && id in o.start.remote
    requires UploadsLocal(o, id)
    ensures Safe(o.rules, o.start, v.world.files, v.backup,
                 v.log + [Overwrote(id, o.start.remote[id], o.start.files[o.start.entries[id].file])])
  {
    hide Tidy, CalmTracked, Good, SameOutcome, DistinctEntryUids, UntrackedOk;
    var data := o.start.files[o.start.entries[id].file];
    assert TrackedOk(o.rules, o.start, id);
    SafeAfterEvent(o.rules, o.start, v.world.files, v.backup, v.log, Overwrote(id, o.start.remote[id], data));
  }

  lemma UploadIdentity(o: Origin, v: View, todo: set<string>, id: string)
    requires v in TrackedLoop(o, todo) && id in todo && id in o.start.remote && id in o.start.entries
    requires o.start.entries[id].file in o.start.files
    ensures o.rules.uidOf(o.start.files[o.start.entries[id].file]) == Some(o.start.entries[id].uid)
  {
  }

  /** The edit is on the server, and the server's answer stored over the file. */
  function UploadedView(v: View, id: string, file: string, previous: Bytes, data: Bytes, remote: map<string, Bytes>, body: Bytes): View {
    View(World(v.world.files[file := body], remote, v.world.entries), v.backup, v.log + [Overwrote(id, previous, data)])
  }

  lemma UploadedStep(o: Origin, v: View, todo: set<string>, id: string, file: string, uid: string, data: Bytes,
                     remote: map<string, Bytes>, body: Bytes)
    requires v in TrackedLoop(o, todo) && id in todo && id in o.start.remote && id in o.start.entries
    requires UploadsLocal(o, id)
    requires file == o.start.entries[id].file && uid == o.start.entries[id].uid && data == o.start.files[file]
    requires o.quiet ==> remote == v.world.remote[id := body] && (o.verbatim ==> body == data)
    requires o.rules.uidOf(body) == o.rules.uidOf(data)
    ensures UploadedView(v, id, file, o.start.remote[id], data, remote, body) in Resumable(o)
    ensures WithEntry(UploadedView(v, id, file, o.start.remote[id], data, remote, body),
                      id, Entry(file, o.rules.hashOf(body), uid)) in TrackedLoop(o, todo - {id})
  {
    UploadedStepHolds(o, v, todo, id, remote, body);
    var v' := UploadedView(v, id, file, o.start.remote[id], data, remote, body);
    assert Sound(o, v');
    assert Tracking(o, WithEntry(v', id, Entry(file, o.rules.hashOf(body), uid)), todo - {id});
  }

  lemma UploadedStepHolds(o: Origin, v: View, todo: set<string>, id: string, remote: map<string, Bytes>, body: Bytes)
    requires Tracking(o, v, todo) && id in todo && id in o.start.remote
    requires UploadsLocal(o, id)
    requires
      var data := o.start.files[o.start.entries[id].file];
      && (o.quiet ==> remote == v.world.remote[id := body] && (o.verbatim ==> body == data))
      && o.rules.uidOf(body) == o.rules.uidOf(data)
    ensures
      var e := v.world.entries[id];
      var v' := View(World(v.world.files[e.file := body], remote, v.world.entries), v.backup,
                     v.log + [Overwrote(id, o.start.remote[id], o.start.files[e.file])]);
      Sound(o, v')
      && Tracking(o, WithEntry(v', id, Entry(e.file, o.rules.hashOf(body), e.uid)), todo - {id})
  {
    hide Safe, DistinctUids, UntrackedOk, SameOutcome, DistinctEntryUids, Unstranded;
    var e := v.world.entries[id];
    var data := o.start.files[e.file];
    var event := Overwrote(id, o.start.remote[id], data);
    var e' := Entry(e.file, o.rules.hashOf(body), e.uid);
    assert !Still(o) by { if Still(o) { StillMeansSettled(o, id); } }
    assert SameIdentity(o.rules, o.start, id) by { assert TrackedOk(o.rules, o.start, id); }
    UploadedSafe(o, v, id, body);
    MidwayWrite(o.rules, o.start, v.world.files, v.world.entries, todo, id, body, e');
    if Regular(o.rules, o.start) { TidyWritten(o.rules, o.start, v.world.files, v.world.entries, todo, id, body, e'); }
    if Calm(o) { CalmSettle(o.rules, o.start, v.world, todo, id, body, body); }
    if Exact(o) {
      CourseUpload(o.rules, o.start, v.world, id);
      UploadedSame(v.world, e.file, body, remote, id);
    }
  }

  lemma UploadedSame(w: World, file: string, body: Bytes, remote: map<string, Bytes>, id: string)
    requires file in w.files && w.files[file] == body && remote == w.remote[id := body]
    ensures World(w.files[file := body], remote, w.entries) == w.(remote := w.remote[id := w.files[file]])
  {
  }

  lemma CourseUpload(r: Rules, start: World, w: World, id: string)
    requires r.Valid() && OnCourse(r, start, w)
    requires id in w.entries && id in w.remote && w.entries[id].file in w.files && LocalChanged(r, w, id)
    requires r.hashOf(w.files[w.entries[id].file]) != r.hashOf(w.remote[id])
    ensures
      var e := w.entries[id];
      var w1 := w.(remote := w.remote[id := w.files[e.file]]);
      OnCourse(r, start, w1) && OnCourse(r, start, w1.(entries := w.entries[id := Entry(e.file, r.hashOf(w.files[e.file]), e.uid)]))
  {
    CourseUploadEdit(r, start, w, id);
    CourseSaveTracked(r, start, w.(remote := w.remote[id := w.files[w.entries[id].file]]), id);
  }

  lemma UploadedSafe(o: Origin, v: View, id: string, body: Bytes)
    requires Safe(o.rules, o.start, v.world.files, v.backup, v.log) && Accepts(o.rules, o.start)
    requires id in o.start.entries && id in o.start.remote && UploadsLocal(o, id)
    ensures
      var file := o.start.entries[id].file;
      Safe(o.rules, o.start, v.world.files[file := body], v.backup,
           v.log + [Overwrote(id, o.start.remote[id], o.start.files[file])])
  {
    var file := o.start.entries[id].file;
    var event := Overwrote(id, o.start.remote[id], o.start.files[file]);
    assert TrackedOk(o.rules, o.start, id);
    SafeAfterEvent(o.rules, o.start, v.world.files, v.backup, v.log, event);
    SafeAfterWrite(o.rules, o.start, v.world.files, v.backup, v.log + [event], file, body);
  }

  // -------------------------------------------------------- objects without entry

  /** What holds in the loop over the objects without entry when left is left. */
  ghost predicate Downloading(o: Origin, v: View, left: set<string>) {
    && Sound(o, v)
    && Accepts(o.rules, o.start)
    && WellFormed(o.rules, o.start.files) && WellFormed(o.rules, v.world.files)
    && left <= o.start.remote.Keys - o.start.entries.Keys
    && left !! v.world.entries.Keys
    && KeptAlike(o.rules, o.start, v.world.files)
    && NamesFree(o.rules, o.start, v.world.files, left)
    && Restored(o.rules, o.start, v.world.files, {})
    && (Regular(o.rules, o.start) ==>
          Held(o.rules, v.world.files, v.world.entries) && Awaited(o.rules, o.start, v.world.files, v.world.entries, left))
    && (Calm(o) ==> CalmDownloading(o.rules, o.start, v.world, left))
  }

  ghost function DownloadLoop(o: Origin, left: set<string>): iset<View> {
    iset v: View | Downloading(o, v, left)
  }

  lemma TrackingDone(o: Origin, v: View)
    requires v in TrackedLoop(o, {}) && WellFormed(o.rules, o.start.files)
    ensures v in DownloadLoop(o, o.start.remote.Keys - o.start.entries.Keys)
  {
    TrackingDoneHolds(o, v);
  }

  lemma TrackingDoneHolds(o: Origin, v: View)
    requires Tracking(o, v, {}) && WellFormed(o.rules, o.start.files)
    ensures Downloading(o, v, o.start.remote.Keys - o.start.entries.Keys)
  {
    if Regular(o.rules, o.start) { TidyDone(o.rules, o.start, v.world.files, v.world.entries); }
    if Calm(o) { CalmTrackedDone(o.rules, o.start, v.world); }
  }

  lemma CalmTrackedDone(r: Rules, start: World, w: World)
    requires Accepts(r, start) && CalmTracked(r, start, w, {}) && SameNames(start, w.entries)
    requires Kept(start, w.files) && Awaited(r, start, w.files, w.entries, start.remote.Keys - start.entries.Keys)
    ensures CalmDownloading(r, start, w, start.remote.Keys - start.entries.Keys)
  {
    forall id | id in w.remote ensures r.uidOf(w.remote[id]) == r.uidOf(start.remote[id]) {
      if id in w.entries {
        assert Settled(r, w, id) && TrackedOk(r, start, id);
      }
    }
  }

  /** left holds the ids without entry among objects[i..]. */
  ghost predicate Remaining(objects: seq<Object>, entries: map<string, Entry>, i: nat, left: set<string>) {
    && (forall j :: i <= j < |objects| && objects[j].id !in entries ==> objects[j].id in left)
    && (forall id :: id in left ==> id !in entries && exists j :: i <= j < |objects| && objects[j].id == id)
  }

  lemma RemainingStart(objects: seq<Object>, items: map<string, Object>, entries: map<string, Entry>)
    requires IsListing(objects, items)
    ensures Remaining(objects, entries, 0, Bodies(items).Keys - entries.Keys)
  {
  }

  lemma RemainingNext(objects: seq<Object>, items: map<string, Object>, entries: map<string, Entry>, i: nat, left: set<string>)
    requires IsListing(objects, items) && i < |objects| && Remaining(objects, entries, i, left)
    ensures Remaining(objects, entries, i + 1, left - {objects[i].id})
    ensures objects[i].id in left <==> objects[i].id !in entries
    ensures objects[i].id in items && items[objects[i].id] == objects[i]
  {
  }

  lemma RemainingDone(objects: seq<Object>, entries: map<string, Entry>, left: set<string>)
    requires Remaining(objects, entries, |objects|, left)
    ensures left == {}
  {
  }

  /** What the loop knows about an object it has not reached. */
  lemma UnreachedNew(o: Origin, v: View, left: set<string>)
    requires v in DownloadLoop(o, left)
    ensures left !! v.world.entries.Keys && left <= o.start.remote.Keys - o.start.entries.Keys
    ensures DistinctUids(o.rules, o.start.remote)
  {
  }

  /** What storing an untracked object does to the files. */
  lemma StoreNewFiles(o: Origin, v: View, left: set<string>, id: string, file: string)
    requires Downloading(o, v, left) && id in left
    requires TargetFile(o.rules, o.start, id, file)
    ensures
      var files := v.world.files[file := o.start.remote[id]];
      && KeptAlike(o.rules, o.start, files)
      && WellFormed(o.rules, files)
      && Restored(o.rules, o.start, files, {})
      && Safe(o.rules, o.start, files, v.backup, v.log)
    ensures file in v.world.files ==> o.rules.uidOf(v.world.files[file]) == o.rules.uidOf(o.start.remote[id])
    ensures ItemName(file, o.rules.ext)
  {
    hide Held, Awaited, CalmDownloading, Good, SameOutcome, Safe, TargetFile, Accepts, NamesFree, Regular, Calm, Exact;
    TargetAlike(o.rules, o.start, v.world.files, left, id, file);
    StoreNewSafe(o, v, left, id, file);
  }

  /** The file an untracked object is stored under belongs to no entry, and holds the object's item if it is there. */
  lemma TargetAlike(r: Rules, start: World, files: map<string, Bytes>, left: set<string>, id: string, file: string)
    requires r.Valid() && Accepts(r, start) && id in start.remote && id !in start.entries && TargetFile(r, start, id, file)
    requires WellFormed(r, start.files) && KeptAlike(r, start, files) && NamesFree(r, start, files, left) && id in left
    ensures !Used(start.entries, file) && ItemName(file, r.ext) && r.uidOf(start.remote[id]).Some?
    ensures file in files ==> r.uidOf(files[file]) == r.uidOf(start.remote[id])
    ensures file in start.files ==>
      r.uidOf(start.files[file]) == r.uidOf(start.remote[id]) && r.hashOf(start.files[file]) == r.hashOf(start.remote[id])
  {
    assert UntrackedOk(r, start, id);
  }

  lemma StoreNewSafe(o: Origin, v: View, left: set<string>, id: string, file: string)
    requires Downloading(o, v, left) && id in left
    requires TargetFile(o.rules, o.start, id, file)
    ensures Safe(o.rules, o.start, v.world.files[file := o.start.remote[id]], v.backup, v.log)
  {
  }

  lemma StoreNewNames(o: Origin, v: View, left: set<string>, id: string, file: string)
    requires Downloading(o, v, left) && id in left
    requires TargetFile(o.rules, o.start, id, file)
    ensures NamesFree(o.rules, o.start, v.world.files[file := o.start.remote[id]], left - {id})
  {
  }

  lemma NewStep(o: Origin, v: View, left: set<string>, id: string, file: string, u: string)
    requires v in DownloadLoop(o, left) && id in left && id in o.start.remote
    requires TargetFile(o.rules, o.start, id, file) && o.rules.uidOf(o.start.remote[id]) == Some(u)
    ensures
      var v' := Written(v, file, o.start.remote[id]);
      v' in Resumable(o) && WithEntry(v', id, Entry(file, o.rules.hashOf(o.start.remote[id]), u)) in DownloadLoop(o, left - {id})
    ensures file in v.world.files ==> o.rules.uidOf(v.world.files[file]) == Some(u)
  {
    NewStepHolds(o, v, left, id, file, u);
  }

  lemma NewStepHolds(o: Origin, v: View, left: set<string>, id: string, file: string, u: string)
    requires Downloading(o, v, left) && id in left
    requires TargetFile(o.rules, o.start, id, file) && o.rules.uidOf(o.start.remote[id]) == Some(u)
    ensures
      var body := o.start.remote[id];
      var v' := v.(world := v.world.(files := v.world.files[file := body]));
      Sound(o, v')
      && Downloading(o, WithEntry(v', id, Entry(file, o.rules.hashOf(body), u)), left - {id})
    ensures file in v.world.files ==> o.rules.uidOf(v.world.files[file]) == Some(u)
  {
    assert !Still(o);
    StoreNewFiles(o, v, left, id, file);
    StoreNewNames(o, v, left, id, file);
    if Regular(o.rules, o.start) {
      HeldStore(o.rules, o.start, v.world.files, v.world.entries, left, id, file, o.rules.hashOf(o.start.remote[id]), u);
      TargetUnused(o.rules, o.start, v.world.files, v.world.entries, left, id, file);
    }
    if Calm(o) { CalmStored(o.rules, o.start, v.world, left, id, file, u); }
    if Exact(o) { CourseNew(o.rules, o.start, v.world, left, id, file, u); }
  }

  lemma CourseNew(r: Rules, start: World, w: World, left: set<string>, id: string, file: string, u: string)
    requires r.Valid() && Accepts(r, start) && OnCourse(r, start, w)
    requires CalmDownloading(r, start, w, left) && KeptAlike(r, start, w.files)
    requires id in left && TargetFile(r, start, id, file) && r.uidOf(start.remote[id]) == Some(u)
    requires ItemName(file, r.ext)
    ensures
      var w1 := w.(files := w.files[file := start.remote[id]]);
      OnCourse(r, start, w1) && OnCourse(r, start, w1.(entries := w.entries[id := Entry(file, r.hashOf(start.remote[id]), u)]))
  {
    PickedIsTarget(r, start, w, left, id, file);
    EntriesPresentWhenSettled(r, w);
    CourseDownloadNew(r, start, w, id, file);
    CourseSaveNew(r, start, w.(files := w.files[file := start.remote[id]]), id, file);
  }

  // ---------------------------------------------------------- files without entry

  /** What holds in the loop over the local files when left is left. */
  ghost predicate Uploading(o: Origin, v: View, left: set<string>) {
    && Sound(o, v)
    && Accepts(o.rules, o.start)
    && KeptUids(o.rules, o.start, v.world.files)
    && WellFormed(o.rules, v.world.files)
    && Restored(o.rules, o.start, v.world.files, {})
    && left <= v.world.files.Keys
    && (Regular(o.rules, o.start) ==> Held(o.rules, v.world.files, v.world.entries))
    && (Calm(o) ==> CalmUploading(o.rules, v.world, left))
  }

  ghost function UploadLoop(o: Origin, left: set<string>): iset<View> {
    iset v: View | Uploading(o, v, left)
  }

  lemma DownloadingDone(o: Origin, v: View)
    requires v in DownloadLoop(o, {})
    ensures v in UploadLoop(o, v.world.files.Keys)
  {
  }

  lemma UnreachedFile(o: Origin, v: View, left: set<string>, file: string)
    requires v in UploadLoop(o, left) && file in left
    ensures file in v.world.files && o.rules.uidOf(v.world.files[file]).Some?
    ensures o.verbatim ==> o.rules.createId(o.rules.uidOf(v.world.files[file]).value) != ""
  {
  }

  lemma UploadingWithOthers(o: Origin, v: View, left: set<string>, remote: map<string, Bytes>)
    requires v in UploadLoop(o, left)
    requires o.quiet ==> remote == v.world.remote
    ensures v.(world := v.world.(remote := remote)) in UploadLoop(o, left)
  {
  }

  lemma SkipStep(o: Origin, v: View, left: set<string>, file: string)
    requires v in UploadLoop(o, left) && Used(v.world.entries, file)
    ensures v in UploadLoop(o, left - {file})
  {
  }

  lemma CreateStep(o: Origin, v: View, left: set<string>, file: string, id: string, remote: map<string, Bytes>)
    requires v in UploadLoop(o, left) && file in left && !Used(v.world.entries, file)
    requires o.quiet && o.verbatim ==>
      remote == v.world.remote[o.rules.createId(o.rules.uidOf(v.world.files[file]).value) := v.world.files[file]]
    ensures View(v.world.(remote := remote), v.backup, v.log + [Created(id, v.world.files[file])]) in Resumable(o)
  {
    assert !Still(o);
    SafeAfterEvent(o.rules, o.start, v.world.files, v.backup, v.log, Created(id, v.world.files[file]));
    if Exact(o) {
      NoRemoteHolder(o.rules, v.world, left, file);
      EntriesPresentWhenSettled(o.rules, v.world);
      CourseCreate(o.rules, o.start, v.world, file);
    }
  }

  lemma CreatedSafe(o: Origin, v: View, file: string, id: string, body: Bytes)
    requires Safe(o.rules, o.start, v.world.files, v.backup, v.log)
    requires file in v.world.files
    ensures Safe(o.rules, o.start, v.world.files[file := body], v.backup, v.log + [Created(id, v.world.files[file])])
  {
    var event := Created(id, v.world.files[file]);
    SafeAfterEvent(o.rules, o.start, v.world.files, v.backup, v.log, event);
    if file in o.start.files && o.rules.hashOf(v.world.files[file]) == o.rules.hashOf(o.start.files[file]) {
      assert (v.log + [event])[|v.log|] == event;
    } else if file in o.start.files {
      assert Preserved(o.rules, o.start, v.world.files, v.log + [event]);
    }
    SafeAfterWrite(o.rules, o.start, v.world.files, v.backup, v.log + [event], file, body);
  }

  /** The file is on the server, and the server's answer stored over it. */
  function CreatedView(v: View, id: string, file: string, data: Bytes, remote: map<string, Bytes>, body: Bytes): View {
    View(World(v.world.files[file := body], remote, v.world.entries), v.backup, v.log + [Created(id, data)])
  }

  /** The server's answer is stored over the created item's file. */
  lemma CreatedStep(o: Origin, v: View, left: set<string>, file: string, id: string, remote: map<string, Bytes>,
                    target: string, body: Bytes, u: string)
    requires v in UploadLoop(o, left) && file in left && file in v.world.files && !Used(v.world.entries, file)
    requires o.rules.uidOf(v.world.files[file]) == o.rules.uidOf(body) == Some(u)
    requires o.quiet ==> remote == v.world.remote[target := body] && target !in v.world.remote
    requires o.quiet && o.verbatim ==> target == o.rules.createId(u) && body == v.world.files[file]
    ensures
      var v' := CreatedView(v, id, file, v.world.files[file], remote, body);
      v' in Resumable(o) && WithEntry(v', target, Entry(file, o.rules.hashOf(body), u)) in UploadLoop(o, left - {file})
  {
    CreatedStepHolds(o, v, left, file, id, remote, target, body, u);
  }

  lemma CreatedStepHolds(o: Origin, v: View, left: set<string>, file: string, id: string, remote: map<string, Bytes>,
                    target: string, body: Bytes, u: string)
    requires Uploading(o, v, left) && file in left && !Used(v.world.entries, file)
    requires o.rules.uidOf(v.world.files[file]) == o.rules.uidOf(body) == Some(u)
    requires o.quiet ==> remote == v.world.remote[target := body] && target !in v.world.remote
    requires o.quiet && o.verbatim ==> target == o.rules.createId(u) && body == v.world.files[file]
    ensures
      var v' := View(World(v.world.files[file := body], remote, v.world.entries), v.backup,
                     v.log + [Created(id, v.world.files[file])]);
      Sound(o, v')
      && Uploading(o, WithEntry(v', target, Entry(file, o.rules.hashOf(body), u)), left - {file})
  {
    hide Still, Accepts, Safe, OnCourse, CalmUploading, Held, KeptUids, WellFormed, Restored, ItemNames;
    UploadingMoves(o, v, left, file);
    CreatedFiles(o, v, left, file, body);
    ExactIsCalm(o);
    CreatedSafe(o, v, file, id, body);
    var e := Entry(file, o.rules.hashOf(body), u);
    if Regular(o.rules, o.start) { HeldCreated(o.rules, v.world.files, v.world.entries, target, e, body); }
    if Calm(o) { CalmCreated(o.rules, v.world, left, file, target, body, u); }
    if Exact(o) {
      CourseCreated(o.rules, o.start, v.world, left, file, u);
      UploadedSame(v.world, file, body, remote, target);
    }
  }

  lemma UploadingMoves(o: Origin, v: View, left: set<string>, file: string)
    requires Uploading(o, v, left) && file in left && !Used(v.world.entries, file)
    ensures !Still(o)
  {
    hide Held, CalmUploading, OnCourse, Safe;
  }

  lemma CreatedFiles(o: Origin, v: View, left: set<string>, file: string, body: Bytes)
    requires Uploading(o, v, left) && file in left && o.rules.uidOf(v.world.files[file]) == o.rules.uidOf(body)
    ensures
      var files := v.world.files[file := body];
      KeptUids(o.rules, o.start, files) && WellFormed(o.rules, files) && Restored(o.rules, o.start, files, {}) && ItemNames(o.rules, files)
    ensures file in v.world.files && ItemName(file, o.rules.ext)
  {
  }

  lemma HeldCreated(r: Rules, files: map<string, Bytes>, entries: map<string, Entry>, id: string, e: Entry, body: Bytes)
    requires Held(r, files, entries) && !Used(entries, e.file) && ItemName(e.file, r.ext)
    requires e.file in files && r.uidOf(files[e.file]) == r.uidOf(body) == Some(e.uid)
    ensures Held(r, files[e.file := body], entries[id := e])
    ensures DistinctUids(r, files) && DistinctEntryUids(entries) && DistinctEntryUids(entries[id := e])
  {
  }

  lemma CourseCreated(r: Rules, start: World, w: World, left: set<string>, file: string, u: string)
    requires r.Valid() && OnCourse(r, start, w) && CalmUploading(r, w, left)
    requires file in w.files && ItemName(file, r.ext) && !Used(w.entries, file) && r.uidOf(w.files[file]) == Some(u)
    ensures
      var w1 := w.(remote := w.remote[r.createId(u) := w.files[file]]);
      OnCourse(r, start, w1)
      && OnCourse(r, start, w1.(entries := w.entries[r.createId(u) := Entry(file, r.hashOf(w.files[file]), u)]))
  {
    var id := r.createId(u);
    NoRemoteHolder(r, w, left, file);
    EntriesPresentWhenSettled(r, w);
    CreateIsFresh(r, w, file);
    CourseCreate(r, start, w, file);
    CourseSaveNew(r, start, w.(remote := w.remote[id := w.files[file]]), id, file);
  }

  /** Where a rename was stranded, two files end up with one UID. */
  lemma StrandedRenameDuplicates(o: Origin, v: View, id: string)
    requires v in UploadLoop(o, {}) && DistinctEntryUids(o.start.entries)
    requires id in o.start.entries && Renamed(o.rules, o.start, id) && !o.rules.propagateDeletes
    ensures !DistinctUids(o.rules, v.world.files)
  {
  }

  /** A run may stop in every view of its loops. */
  lemma LoopsResumable(o: Origin)
    ensures forall todo :: TrackedLoop(o, todo) <= Resumable(o)
    ensures forall left :: DownloadLoop(o, left) <= Resumable(o)
    ensures forall left :: UploadLoop(o, left) <= Resumable(o)
  {
  }

  /** What it means for a reader that a run stopped in a view it may stop in. */
  lemma ResumableMeans(o: Origin, v: View)
    requires v in Resumable(o)
    ensures ItemNames(o.rules, v.world.files)
    ensures Safe(o.rules, o.start, v.world.files, v.backup, v.log)
    ensures Regular(o.rules, o.start) ==> DistinctEntryUids(v.world.entries)
    ensures o.quiet && o.verbatim && Good(o.rules, o.start) ==>
      Good(o.rules, v.world) && SameOutcome(o.rules, o.start, v.world)
    ensures o.quiet && Synced(o.rules, o.start) ==> v == View(o.start, o.backup, [])
  {
  }
}
