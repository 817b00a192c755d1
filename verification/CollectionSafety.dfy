/**
 No run loses an edit, stated on the state before the run, the directory now
 and the log of what the server did since.
 */
module CollectionSafety {
  import opened CollectionWorld
  import opened CollectionBackend

  /** The server took this content, up to hash, in one of the logged writes. */
  predicate Accepted(r: Rules, log: seq<Event>, data: Bytes) {
    exists i :: 0 <= i < |log| && !log[i].Destroyed? && r.hashOf(log[i].data) == r.hashOf(data)
  }

  /** The file held nothing newer than the last common version. */
  predicate Stale(r: Rules, start: World, file: string)
    requires file in start.files
  {
    exists id :: id in start.entries && start.entries[id].file == file
      && r.hashOf(start.files[file]) == start.entries[id].hash
  }

  /** Every local edit and every new file is still there, or was accepted. */
  predicate Preserved(r: Rules, start: World, files: map<string, Bytes>, log: seq<Event>) {
    forall f :: f in start.files ==>
      || (f in files && r.hashOf(files[f]) == r.hashOf(start.files[f]))
      || Accepted(r, log, start.files[f])
      || Stale(r, start, f)
  }

  /** Every file that is gone is in the backup. */
  predicate BackedUp(start: World, files: map<string, Bytes>, backup: map<string, Bytes>) {
    forall f :: f in start.files && f !in files ==> f in backup && backup[f] == start.files[f]
  }

  /** The remote version was the last common one. */
  predicate WasCommon(r: Rules, start: World, id: string, previous: Bytes) {
    id in start.entries && r.hashOf(previous) == start.entries[id].hash
  }

  /** Nothing but last common versions is overwritten or deleted on the server,
      and deleted only for a file that is gone and only when that is asked for. */
  predicate Justified(r: Rules, start: World, event: Event) {
    match event
    case Overwrote(id, previous, data) =>
      WasCommon(r, start, id, previous) && start.entries[id].file in start.files && data == start.files[start.entries[id].file]
    case Destroyed(id, previous) =>
      WasCommon(r, start, id, previous) && start.entries[id].file !in start.files && r.propagateDeletes
    case Created(_, data) => true
  }

  predicate AllJustified(r: Rules, start: World, log: seq<Event>) {
    forall i :: 0 <= i < |log| ==> Justified(r, start, log[i])
  }

  predicate Safe(r: Rules, start: World, files: map<string, Bytes>, backup: map<string, Bytes>, log: seq<Event>) {
    Preserved(r, start, files, log) && BackedUp(start, files, backup) && AllJustified(r, start, log)
  }

  lemma SafeAfterWrite(r: Rules, start: World, files: map<string, Bytes>, backup: map<string, Bytes>, log: seq<Event>,
                       file: string, data: Bytes)
    requires Safe(r, start, files, backup, log)
    requires file in start.files ==>
      r.hashOf(data) == r.hashOf(start.files[file]) || Accepted(r, log, start.files[file]) || Stale(r, start, file)
    ensures Safe(r, start, files[file := data], backup, log)
  {
  }

  lemma SafeAfterRemove(r: Rules, start: World, files: map<string, Bytes>, backup: map<string, Bytes>, log: seq<Event>,
                        file: string)
    requires Safe(r, start, files, backup, log)
    requires file in start.files ==> Stale(r, start, file) && file in backup && backup[file] == start.files[file]
    ensures Safe(r, start, files - {file}, backup, log)
  {
  }

  lemma SafeAfterEvent(r: Rules, start: World, files: map<string, Bytes>, backup: map<string, Bytes>, log: seq<Event>,
                       event: Event)
    requires Safe(r, start, files, backup, log) && Justified(r, start, event)
    ensures Safe(r, start, files, backup, log + [event])
    ensures !event.Destroyed? ==> Accepted(r, log + [event], event.data)
  {
    var log' := log + [event];
    forall f | f in start.files && Accepted(r, log, start.files[f]) ensures Accepted(r, log', start.files[f]) {
      var i :| 0 <= i < |log| && !log[i].Destroyed? && r.hashOf(log[i].data) == r.hashOf(start.files[f]);
      assert log'[i] == log[i];
    }
    assert log'[|log|] == event;
  }
}
