/**
 Every single effect of a run leaves the outcome of a complete run unchanged,
 and a synchronized world is its own outcome.
 */
module CollectionProofs {
  import opened Wrappers
  import opened CollectionWorld

  // -------------------------------------------------------- lookups under update

  lemma CopyOfIs(r: Rules, m: map<string, Bytes>, k: string, u: string)
    requires DistinctUids(r, m)
    requires k in m && r.uidOf(m[k]) == Some(u)
    ensures CopyOf(r, m, u) == Some(Copy(k, m[k]))
  {
  }

  lemma CopyAfterSet(r: Rules, m: map<string, Bytes>, k: string, data: Bytes, u: string)
    requires DistinctUids(r, m)
    requires r.uidOf(data) == Some(u)
    requires k in m ==> r.uidOf(m[k]) == Some(u)
    requires forall j :: j in m && r.uidOf(m[j]) == Some(u) ==> j == k
    ensures DistinctUids(r, m[k := data])
    ensures forall v :: CopyOf(r, m[k := data], v) == if v == u then Some(Copy(k, data)) else CopyOf(r, m, v)
  {
    var m' := m[k := data];
    assert DistinctUids(r, m');
    forall v ensures CopyOf(r, m', v) == if v == u then Some(Copy(k, data)) else CopyOf(r, m, v) {
      if v == u {
        CopyOfIs(r, m', k, u);
      } else if HasUid(r, m, Some(v)) {
        var j :| j in m && r.uidOf(m[j]) == Some(v);
        CopyOfIs(r, m, j, v);
        assert j in m' && m'[j] == m[j];
        CopyOfIs(r, m', j, v);
      } else {
        assert !HasUid(r, m', Some(v));
      }
    }
  }

  lemma CopyAfterRemove(r: Rules, m: map<string, Bytes>, k: string, u: string)
    requires DistinctUids(r, m)
    requires k in m && r.uidOf(m[k]) == Some(u)
    ensures DistinctUids(r, m - {k})
    ensures forall v :: CopyOf(r, m - {k}, v) == if v == u then None else CopyOf(r, m, v)
  {
    var m' := m - {k};
    forall v ensures CopyOf(r, m', v) == if v == u then None else CopyOf(r, m, v) {
      if v == u {
        assert !HasUid(r, m', Some(v));
      } else if HasUid(r, m, Some(v)) {
        var j :| j in m && r.uidOf(m[j]) == Some(v);
        CopyOfIs(r, m, j, v);
        assert j in m' && m'[j] == m[j];
        CopyOfIs(r, m', j, v);
      } else {
        assert !HasUid(r, m', Some(v));
      }
    }
  }

  lemma EntryOfIs(entries: map<string, Entry>, id: string)
    requires DistinctEntryUids(entries)
    requires id in entries
    ensures EntryOf(entries, entries[id].uid) == Some(Tracked(id, entries[id]))
  {
  }

  lemma EntryAfterSet(entries: map<string, Entry>, id: string, e: Entry)
    requires DistinctEntryUids(entries)
    requires id in entries ==> entries[id].uid == e.uid
    requires forall j :: j in entries && entries[j].uid == e.uid ==> j == id
    ensures DistinctEntryUids(entries[id := e])
    ensures forall v :: EntryOf(entries[id := e], v) == if v == e.uid then Some(Tracked(id, e)) else EntryOf(entries, v)
  {
    var m' := entries[id := e];
    forall v ensures EntryOf(m', v) == if v == e.uid then Some(Tracked(id, e)) else EntryOf(entries, v) {
      if v == e.uid {
        EntryOfIs(m', id);
      } else if j :| j in entries && entries[j].uid == v {
        EntryOfIs(entries, j);
        EntryOfIs(m', j);
      }
    }
  }

  lemma EntryAfterRemove(entries: map<string, Entry>, id: string)
    requires DistinctEntryUids(entries)
    requires id in entries
    ensures DistinctEntryUids(entries - {id})
    ensures forall v :: EntryOf(entries - {id}, v) == if v == entries[id].uid then None else EntryOf(entries, v)
  {
    var m' := entries - {id};
    forall v ensures EntryOf(m', v) == if v == entries[id].uid then None else EntryOf(entries, v) {
      if v != entries[id].uid {
        if j :| j in entries && entries[j].uid == v {
          EntryOfIs(entries, j);
          assert j in m';
          EntryOfIs(m', j);
        }
      }
    }
  }

  /** The cell of a tracked item. */
  lemma TrackedCell(r: Rules, w: World, id: string)
    requires Good(r, w)
    requires id in w.entries
    ensures
      var e := w.entries[id];
      var c := CellAt(r, w, e.uid);
      && c.tracked == Some(Tracked(id, e))
      && (e.file in w.files ==> c.local == Some(Copy(e.file, w.files[e.file])))
      && (e.file !in w.files && c.local.Some? ==> c.local.value.name != e.file)
      && (id in w.remote ==> c.remote == Some(Copy(id, w.remote[id])))
      && (id !in w.remote && c.remote.Some? ==> c.remote.value.name != id)
  {
  }

  /** A change confined to the cell of u that leaves the outcome of that cell alone. */
  lemma OutcomeOfOneCell(r: Rules, w: World, w': World, u: string)
    requires forall v :: v != u ==> CellAt(r, w', v) == CellAt(r, w, v)
    requires Outcome(r, w', u) == Outcome(r, w, u)
    ensures SameOutcome(r, w, w')
  {
  }

  /** A tracked item is judged by its own entry, file and object alone. */
  lemma TrackedFrame(r: Rules, w: World, w': World, k: string)
    requires k in w.entries && k in w'.entries && w'.entries[k] == w.entries[k]
    requires var f := w.entries[k].file;
      (f in w'.files <==> f in w.files) && (f in w.files ==> w'.files[f] == w.files[f])
    requires (k in w'.remote <==> k in w.remote) && (k in w.remote ==> w'.remote[k] == w.remote[k])
    requires TrackedOk(r, w, k)
    ensures TrackedOk(r, w', k)
  {
  }

  // ------------------------------------------------------- effects: tracked items

  /** Removing the file of an item that disappeared from the server. */
  lemma RemoveLocalUntracked(r: Rules, w: World, file: string, k: string)
    requires Used(w.entries, file)
    requires k in w.remote && UntrackedOk(r, w, k)
    ensures UntrackedOk(r, w.(files := w.files - {file}), k)
  {
  }

  lemma RemoveLocalRenamed(r: Rules, w: World, id: string, k: string)
    requires DistinctEntryUids(w.entries)
    requires id in w.entries && id !in w.remote && k in w.entries
    requires SameIdentity(r, w, id)
    requires ValidEntryFiles(r, w.entries)
    requires !Renamed(r, w, k)
    ensures !Renamed(r, w.(files := w.files - {w.entries[id].file}), k)
  {
  }

  lemma RemoveLocalKeepsGood(r: Rules, w: World, id: string)
    requires r.Valid() && Good(r, w)
    requires id in w.entries && id !in w.remote && w.entries[id].file in w.files
    ensures Good(r, w.(files := w.files - {w.entries[id].file}))
  {
    var e := w.entries[id];
    var w' := w.(files := w.files - {e.file});
    assert TrackedOk(r, w, id);
    forall k | k in w'.remote && k !in w'.entries ensures UntrackedOk(r, w', k) {
      RemoveLocalUntracked(r, w, e.file, k);
    }
    forall k | k in w'.entries ensures TrackedOk(r, w', k) {
      assert TrackedOk(r, w, k);
    }
    if !r.propagateDeletes {
      forall k | k in w'.entries ensures !Renamed(r, w', k) {
        RemoveLocalRenamed(r, w, id, k);
      }
    }
  }

  lemma RemoveLocalKeepsOutcome(r: Rules, w: World, id: string)
    requires r.Valid() && Good(r, w)
    requires id in w.entries && id !in w.remote && w.entries[id].file in w.files
    ensures SameOutcome(r, w, w.(files := w.files - {w.entries[id].file}))
  {
    var e := w.entries[id];
    var w' := w.(files := w.files - {e.file});
    assert TrackedOk(r, w, id);
    TrackedCell(r, w, id);
    CopyAfterRemove(r, w.files, e.file, e.uid);
    OutcomeOfOneCell(r, w, w', e.uid);
  }

  /** Forgetting an item that is gone on both sides. */
  lemma DropEntryKeepsGood(r: Rules, w: World, id: string)
    requires r.Valid() && Good(r, w)
    requires id in w.entries && id !in w.remote && w.entries[id].file !in w.files
    ensures Good(r, w.(entries := w.entries - {id}))
  {
    var w' := w.(entries := w.entries - {id});
    forall k | k in w'.remote && k !in w'.entries ensures UntrackedOk(r, w', k) {
      assert UntrackedOk(r, w, k);
      assert forall f :: Used(w'.entries, f) ==> Used(w.entries, f);
    }
    forall k | k in w'.entries ensures TrackedOk(r, w', k) {
      assert TrackedOk(r, w, k);
    }
    if !r.propagateDeletes {
      forall k | k in w'.entries ensures !Renamed(r, w', k) {
        assert !Renamed(r, w, k);
      }
    }
  }

  lemma DropEntryKeepsOutcome(r: Rules, w: World, id: string)
    requires r.Valid() && Good(r, w)
    requires id in w.entries && id !in w.remote && w.entries[id].file !in w.files
    ensures SameOutcome(r, w, w.(entries := w.entries - {id}))
  {
    var w' := w.(entries := w.entries - {id});
    TrackedCell(r, w, id);
    EntryAfterRemove(w.entries, id);
    OutcomeOfOneCell(r, w, w', w.entries[id].uid);
  }

  /** Deleting the object of an item that was deleted locally. */
  lemma DeleteRemoteKeepsGood(r: Rules, w: World, id: string)
    requires r.Valid() && Good(r, w) && r.propagateDeletes
    requires id in w.entries && id in w.remote && w.entries[id].file !in w.files
    ensures Good(r, w.(remote := w.remote - {id}))
  {
    var w' := w.(remote := w.remote - {id});
    forall k | k in w'.remote && k !in w'.entries ensures UntrackedOk(r, w', k) {
      assert UntrackedOk(r, w, k);
    }
    forall k | k in w'.entries ensures TrackedOk(r, w', k) {
      assert TrackedOk(r, w, k);
    }
  }

  lemma DeleteRemoteKeepsOutcome(r: Rules, w: World, id: string)
    requires r.Valid() && Good(r, w) && r.propagateDeletes
    requires id in w.entries && id in w.remote && w.entries[id].file !in w.files
    ensures SameOutcome(r, w, w.(remote := w.remote - {id}))
  {
    var w' := w.(remote := w.remote - {id});
    assert TrackedOk(r, w, id);
    TrackedCell(r, w, id);
    CopyAfterRemove(r, w.remote, id, w.entries[id].uid);
    OutcomeOfOneCell(r, w, w', w.entries[id].uid);
  }

  /** The remote body replaces the file of a tracked item: the file is missing
      and deletes are not propagated, or it holds the last common version and the
      server a newer one. */
  ghost predicate MayDownload(r: Rules, w: World, id: string) {
    && id in w.entries && id in w.remote
    && if w.entries[id].file in w.files
       then !LocalChanged(r, w, id) && r.hashOf(w.files[w.entries[id].file]) != r.hashOf(w.remote[id])
       else !r.propagateDeletes
  }

  lemma UntrackedAfterSetFile(r: Rules, w: World, f: string, data: Bytes, k: string)
    requires k in w.remote && UntrackedOk(r, w, k)
    requires r.uidOf(data) != r.uidOf(w.remote[k])
    requires f in w.files ==> r.uidOf(w.files[f]) != r.uidOf(w.remote[k])
    requires f in w.files || Used(w.entries, f) || f != r.FileFor(k)
    ensures UntrackedOk(r, w.(files := w.files[f := data]), k)
  {
  }

  lemma DownloadTrackedKeepsGood(r: Rules, w: World, id: string)
    requires r.Valid() && Good(r, w)
    requires MayDownload(r, w, id)
    ensures Good(r, w.(files := w.files[w.entries[id].file := w.remote[id]]))
  {
    var e := w.entries[id];
    var w' := w.(files := w.files[e.file := w.remote[id]]);
    assert TrackedOk(r, w, id);
    OnlyFileOf(r, w, id);
    CopyAfterSet(r, w.files, e.file, w.remote[id], e.uid);
    forall k | k in w'.remote && k !in w'.entries ensures UntrackedOk(r, w', k) {
      assert Used(w.entries, e.file);
      UntrackedAfterSetFile(r, w, e.file, w.remote[id], k);
    }
    forall k | k in w'.entries ensures TrackedOk(r, w', k) {
      assert TrackedOk(r, w, k);
    }
    if !r.propagateDeletes {
      forall k | k in w'.entries ensures !Renamed(r, w', k) {
        assert !Renamed(r, w, k);
      }
    }
  }

  lemma OnlyFileOf(r: Rules, w: World, id: string)
    requires Good(r, w)
    requires MayDownload(r, w, id)
    ensures forall f :: f in w.files && r.uidOf(w.files[f]) == Some(w.entries[id].uid) ==> f == w.entries[id].file
  {
  }

  lemma DownloadTrackedKeepsOutcome(r: Rules, w: World, id: string)
    requires r.Valid() && Good(r, w)
    requires MayDownload(r, w, id)
    ensures SameOutcome(r, w, w.(files := w.files[w.entries[id].file := w.remote[id]]))
  {
    var e := w.entries[id];
    var w' := w.(files := w.files[e.file := w.remote[id]]);
    assert TrackedOk(r, w, id);
    OnlyFileOf(r, w, id);
    TrackedCell(r, w, id);
    CopyAfterSet(r, w.files, e.file, w.remote[id], e.uid);
    OutcomeOfOneCell(r, w, w', e.uid);
  }

  /** Recording that both sides of a tracked item agree. */
  lemma EntryFilesAfterSet(r: Rules, entries: map<string, Entry>, id: string, e: Entry)
    requires ValidEntryFiles(r, entries) && ItemName(e.file, r.ext)
    requires forall k :: k in entries && entries[k].file == e.file ==> k == id
    ensures ValidEntryFiles(r, entries[id := e])
  {
  }

  /** Entries only matter to an untracked object through the names they use. */
  lemma UntrackedFrame(r: Rules, w: World, entries: map<string, Entry>, k: string)
    requires k in w.remote && UntrackedOk(r, w, k)
    requires forall f :: Used(entries, f) && !Used(w.entries, f) ==>
               f in w.files && r.uidOf(w.files[f]) != r.uidOf(w.remote[k])
    ensures UntrackedOk(r, w.(entries := entries), k)
  {
  }

  lemma SaveTrackedKeepsGood(r: Rules, w: World, id: string)
    requires r.Valid() && Good(r, w)
    requires id in w.entries && id in w.remote && w.entries[id].file in w.files
    requires r.hashOf(w.files[w.entries[id].file]) == r.hashOf(w.remote[id])
    ensures Good(r, w.(entries := w.entries[id := w.entries[id].(hash := r.hashOf(w.remote[id]))]))
  {
    var e := w.entries[id].(hash := r.hashOf(w.remote[id]));
    var w' := w.(entries := w.entries[id := e]);
    SameUsed(w.entries, id, e);
    EntryFilesAfterSet(r, w.entries, id, e);
    EntryAfterSet(w.entries, id, e);
    forall k | k in w'.remote && k !in w'.entries ensures UntrackedOk(r, w', k) {
      UntrackedFrame(r, w, w'.entries, k);
    }
    forall k | k in w'.entries ensures TrackedOk(r, w', k) {
      assert TrackedOk(r, w, k);
    }
    if !r.propagateDeletes {
      forall k | k in w'.entries ensures !Renamed(r, w', k) {
        assert !Renamed(r, w, k);
      }
    }
  }

  lemma SameUsed(entries: map<string, Entry>, id: string, e: Entry)
    requires id in entries && entries[id].file == e.file
    ensures forall f :: Used(entries[id := e], f) == Used(entries, f)
  {
    forall f ensures Used(entries[id := e], f) == Used(entries, f) {
      if Used(entries, f) {
        var k :| k in entries && entries[k].file == f;
        assert k in entries[id := e] && entries[id := e][k].file == f;
      }
    }
  }

  lemma SaveTrackedKeepsOutcome(r: Rules, w: World, id: string)
    requires r.Valid() && Good(r, w)
    requires id in w.entries && id in w.remote && w.entries[id].file in w.files
    requires r.hashOf(w.files[w.entries[id].file]) == r.hashOf(w.remote[id])
    ensures SameOutcome(r, w, w.(entries := w.entries[id := w.entries[id].(hash := r.hashOf(w.remote[id]))]))
  {
    var e := w.entries[id].(hash := r.hashOf(w.remote[id]));
    var w' := w.(entries := w.entries[id := e]);
    TrackedCell(r, w, id);
    EntryAfterSet(w.entries, id, e);
    OutcomeOfOneCell(r, w, w', e.uid);
  }

  /** Uploading a local edit of an item the server still holds unchanged. */
  lemma UploadEditKeepsGood(r: Rules, w: World, id: string)
    requires r.Valid() && Good(r, w)
    requires id in w.entries && id in w.remote && w.entries[id].file in w.files
    ensures Good(r, w.(remote := w.remote[id := w.files[w.entries[id].file]]))
  {
    var e := w.entries[id];
    var data := w.files[e.file];
    var w' := w.(remote := w.remote[id := data]);
    assert TrackedOk(r, w, id);
    CopyAfterSet(r, w.remote, id, data, e.uid);
    forall k | k in w'.remote && k !in w'.entries ensures UntrackedOk(r, w', k) {
      assert UntrackedOk(r, w, k);
    }
    forall k | k in w'.entries ensures TrackedOk(r, w', k) {
      assert TrackedOk(r, w, k);
    }
    if !r.propagateDeletes {
      forall k | k in w'.entries ensures !Renamed(r, w', k) {
        assert !Renamed(r, w, k);
      }
    }
  }

  lemma UploadEditKeepsOutcome(r: Rules, w: World, id: string)
    requires r.Valid() && Good(r, w)
    requires id in w.entries && id in w.remote && w.entries[id].file in w.files
    requires LocalChanged(r, w, id)
    requires r.hashOf(w.files[w.entries[id].file]) != r.hashOf(w.remote[id])
    ensures SameOutcome(r, w, w.(remote := w.remote[id := w.files[w.entries[id].file]]))
  {
    var e := w.entries[id];
    var data := w.files[e.file];
    var w' := w.(remote := w.remote[id := data]);
    assert TrackedOk(r, w, id);
    TrackedCell(r, w, id);
    CopyAfterSet(r, w.remote, id, data, e.uid);
    OutcomeOfOneCell(r, w, w', e.uid);
  }

  // ----------------------------------------------------- effects: untracked items

  /** Every entry is settled enough to still have its object. */
  predicate EntriesPresent(w: World) {
    forall id :: id in w.entries ==> id in w.remote
  }

  /** The file an untracked object is stored under. */
  predicate TargetFile(r: Rules, w: World, id: string, file: string)
    requires id in w.remote
  {
    if HasUid(r, w.files, r.uidOf(w.remote[id]))
    then file in w.files && r.uidOf(w.files[file]) == r.uidOf(w.remote[id])
    else file == r.FileFor(id)
  }

  lemma TargetFileFree(r: Rules, w: World, id: string, file: string)
    requires Good(r, w)
    requires id in w.remote && id !in w.entries && TargetFile(r, w, id, file)
    ensures !Used(w.entries, file)
    ensures file in w.files ==> r.uidOf(w.files[file]) == r.uidOf(w.remote[id])
    ensures forall f :: f in w.files && r.uidOf(w.files[f]) == r.uidOf(w.remote[id]) ==> f == file
  {
  }

  lemma UntrackedCell(r: Rules, w: World, id: string, u: string)
    requires Good(r, w) && EntriesPresent(w)
    requires id in w.remote && id !in w.entries && r.uidOf(w.remote[id]) == Some(u)
    ensures CellAt(r, w, u).tracked == None
    ensures CellAt(r, w, u).remote == Some(Copy(id, w.remote[id]))
  {
  }

  lemma DownloadNewUntracked(r: Rules, w: World, id: string, file: string, k: string)
    requires r.Valid() && Good(r, w)
    requires id in w.remote && id !in w.entries && TargetFile(r, w, id, file)
    requires k in w.remote && k !in w.entries
    ensures UntrackedOk(r, w.(files := w.files[file := w.remote[id]]), k)
  {
    hide Good, Accepts;
    TargetFileFree(r, w, id, file);
    GoodUntracked(r, w, k);
    if k != id {
      assert r.FileFor(k) != r.FileFor(id) by { AppendInjective(r.digestOf(k), r.digestOf(id), r.ext); }
      UntrackedAfterSetFile(r, w, file, w.remote[id], k);
    } else {
      assert HasUid(r, w.files[file := w.remote[id]], r.uidOf(w.remote[id])) by {
        assert file in w.files[file := w.remote[id]];
      }
    }
  }

  lemma GoodUntracked(r: Rules, w: World, k: string)
    requires Good(r, w) && k in w.remote && k !in w.entries
    ensures UntrackedOk(r, w, k) && DistinctUids(r, w.remote)
  {
  }

  lemma AppendInjective(a: string, b: string, c: string)
    ensures a + c == b + c ==> a == b
  {
    if a + c == b + c {
      assert |a| == |b|;
      assert a == (a + c)[..|a|] == (b + c)[..|b|] == b;
    }
  }

  lemma DownloadNewTracked(r: Rules, w: World, file: string, data: Bytes, k: string)
    requires k in w.entries && TrackedOk(r, w, k)
    requires w.entries[k].file != file
    requires r.uidOf(data) != Some(w.entries[k].uid)
    ensures
      var w' := w.(files := w.files[file := data]);
      TrackedOk(r, w', k) && (!Renamed(r, w, k) ==> !Renamed(r, w', k))
  {
  }

  lemma DownloadNewKeepsGood(r: Rules, w: World, id: string, file: string)
    requires r.Valid() && Good(r, w) && EntriesPresent(w)
    requires id in w.remote && id !in w.entries && TargetFile(r, w, id, file)
    ensures Good(r, w.(files := w.files[file := w.remote[id]]))
  {
    var w' := w.(files := w.files[file := w.remote[id]]);
    assert DistinctUids(r, w'.files) by {
      TargetFileFree(r, w, id, file);
      CopyAfterSet(r, w.files, file, w.remote[id], r.uidOf(w.remote[id]).value);
    }
    forall k | k in w'.remote && k !in w'.entries ensures UntrackedOk(r, w', k) {
      DownloadNewUntracked(r, w, id, file, k);
    }
    forall k | k in w'.entries ensures TrackedOk(r, w', k) && (!r.propagateDeletes ==> !Renamed(r, w', k)) {
      assert w.entries[k].file != file by {
        TargetFileFree(r, w, id, file);
        assert Used(w.entries, w.entries[k].file);
      }
      assert r.uidOf(w.remote[id]) != Some(w.entries[k].uid) by { assert TrackedOk(r, w, k); }
      DownloadNewTracked(r, w, file, w.remote[id], k);
    }
  }

  lemma DownloadNewKeepsOutcome(r: Rules, w: World, id: string, file: string)
    requires r.Valid() && Good(r, w) && EntriesPresent(w)
    requires id in w.remote && id !in w.entries && TargetFile(r, w, id, file)
    ensures SameOutcome(r, w, w.(files := w.files[file := w.remote[id]]))
  {
    var w' := w.(files := w.files[file := w.remote[id]]);
    var u := r.uidOf(w.remote[id]).value;
    TargetFileFree(r, w, id, file);
    UntrackedCell(r, w, id, u);
    CopyAfterSet(r, w.files, file, w.remote[id], u);
    if file in w.files { CopyOfIs(r, w.files, file, u); }
    OutcomeOfOneCell(r, w, w', u);
  }

  /** Recording a freshly stored object. */
  lemma SaveNewKeepsGood(r: Rules, w: World, id: string, file: string)
    requires r.Valid() && Good(r, w) && EntriesPresent(w)
    requires id in w.remote && id !in w.entries && file in w.files && w.files[file] == w.remote[id]
    requires ItemName(file, r.ext)
    ensures Good(r, w.(entries := w.entries[id := Entry(file, r.hashOf(w.remote[id]), r.uidOf(w.remote[id]).value)]))
  {
    var e := Entry(file, r.hashOf(w.remote[id]), r.uidOf(w.remote[id]).value);
    var w' := w.(entries := w.entries[id := e]);
    SaveNewNames(r, w, id, file, e);
    forall k | k in w'.remote && k !in w'.entries ensures UntrackedOk(r, w', k) {
      UntrackedFrame(r, w, w'.entries, k);
    }
    forall k | k in w'.entries ensures TrackedOk(r, w', k) {
      if k != id { TrackedFrame(r, w, w', k); }
    }
    if !r.propagateDeletes {
      forall k | k in w'.entries ensures !Renamed(r, w', k) {
        assert k != id ==> !Renamed(r, w, k);
      }
    }
  }

  lemma SaveNewNames(r: Rules, w: World, id: string, file: string, e: Entry)
    requires Good(r, w) && EntriesPresent(w)
    requires id in w.remote && id !in w.entries && file in w.files && w.files[file] == w.remote[id]
    requires ItemName(file, r.ext)
    requires e == Entry(file, r.hashOf(w.remote[id]), r.uidOf(w.remote[id]).value)
    ensures forall f :: Used(w.entries[id := e], f) && !Used(w.entries, f) ==> f == file
    ensures ValidEntryFiles(r, w.entries[id := e])
    ensures DistinctEntryUids(w.entries[id := e])
  {
  }

  lemma SaveNewKeepsOutcome(r: Rules, w: World, id: string, file: string)
    requires r.Valid() && Good(r, w) && EntriesPresent(w)
    requires id in w.remote && id !in w.entries && file in w.files && w.files[file] == w.remote[id]
    ensures SameOutcome(r, w, w.(entries := w.entries[id := Entry(file, r.hashOf(w.remote[id]), r.uidOf(w.remote[id]).value)]))
  {
    var u := r.uidOf(w.remote[id]).value;
    var e := Entry(file, r.hashOf(w.remote[id]), u);
    var w' := w.(entries := w.entries[id := e]);
    UntrackedCell(r, w, id, u);
    CopyOfIs(r, w.files, file, u);
    forall k | k in w.entries ensures w.entries[k].uid != u {
      assert TrackedOk(r, w, k);
    }
    EntryAfterSet(w.entries, id, e);
    OutcomeOfOneCell(r, w, w', u);
  }

  /** Creating the object of a new local file. */
  lemma CreateIsFresh(r: Rules, w: World, file: string)
    requires r.Valid() && Good(r, w) && EntriesPresent(w)
    requires file in w.files
    requires !HasUid(r, w.remote, r.uidOf(w.files[file]))
    ensures
      var id := r.createId(r.uidOf(w.files[file]).value);
      id !in w.remote && id !in w.entries
  {
  }

  lemma CreateTracked(r: Rules, w: World, file: string, k: string)
    requires r.Valid() && Good(r, w) && EntriesPresent(w)
    requires file in w.files
    requires !HasUid(r, w.remote, r.uidOf(w.files[file]))
    requires k in w.entries
    ensures
      var w' := w.(remote := w.remote[r.createId(r.uidOf(w.files[file]).value) := w.files[file]]);
      TrackedOk(r, w', k) && (!r.propagateDeletes ==> !Renamed(r, w', k))
  {
  }

  lemma CreateUntracked(r: Rules, w: World, file: string, k: string)
    requires DistinctUids(r, w.files)
    requires file in w.files && !Used(w.entries, file)
    requires forall j :: j in w.remote && j !in w.entries ==> UntrackedOk(r, w, j)
    ensures
      var id := r.createId(r.uidOf(w.files[file]).value);
      var w' := w.(remote := w.remote[id := w.files[file]]);
      k in w'.remote && k !in w'.entries ==> UntrackedOk(r, w', k)
  {
  }

  lemma CreateKeepsGood(r: Rules, w: World, file: string)
    requires r.Valid() && Good(r, w) && EntriesPresent(w)
    requires file in w.files && !Used(w.entries, file)
    requires !HasUid(r, w.remote, r.uidOf(w.files[file]))
    ensures Good(r, w.(remote := w.remote[r.createId(r.uidOf(w.files[file]).value) := w.files[file]]))
  {
    var u := r.uidOf(w.files[file]).value;
    var id := r.createId(u);
    var w' := w.(remote := w.remote[id := w.files[file]]);
    assert DistinctUids(r, w'.remote) by {
      CreateIsFresh(r, w, file);
      CopyAfterSet(r, w.remote, id, w.files[file], u);
    }
    forall k | k in w'.remote && k !in w'.entries ensures UntrackedOk(r, w', k) {
      CreateUntracked(r, w, file, k);
    }
    forall k | k in w'.entries ensures TrackedOk(r, w', k) && (!r.propagateDeletes ==> !Renamed(r, w', k)) {
      CreateTracked(r, w, file, k);
    }
  }

  lemma CreateKeepsOutcome(r: Rules, w: World, file: string)
    requires r.Valid() && Good(r, w) && EntriesPresent(w)
    requires file in w.files && !Used(w.entries, file)
    requires !HasUid(r, w.remote, r.uidOf(w.files[file]))
    ensures SameOutcome(r, w, w.(remote := w.remote[r.createId(r.uidOf(w.files[file]).value) := w.files[file]]))
  {
    var u := r.uidOf(w.files[file]).value;
    var id := r.createId(u);
    var w' := w.(remote := w.remote[id := w.files[file]]);
    assert forall k :: k in w.remote ==> r.uidOf(w.remote[k]) != Some(u);
    CopyAfterSet(r, w.remote, id, w.files[file], u);
    CopyOfIs(r, w.files, file, u);
    forall k | k in w.entries ensures w.entries[k].uid != u {
      assert TrackedOk(r, w, k);
    }
    hide TrackedOk, UntrackedOk, DistinctUids, SameOutcome;
    OutcomeOfOneCell(r, w, w', u);
  }

  // ------------------------------------------------------------ synchronized worlds

  lemma SyncedIsGood(r: Rules, w: World)
    requires Synced(r, w) && ReservedIds(r, w.remote)
    ensures Good(r, w)
  {
  }

  /** A synchronized world is left as it is. */
  lemma SyncedCell(r: Rules, w: World, id: string)
    requires Synced(r, w)
    requires id in w.entries
    ensures
      var e := w.entries[id];
      CellAt(r, w, e.uid) == Cell(Some(Copy(e.file, w.files[e.file])), Some(Copy(id, w.remote[id])), Some(Tracked(id, e)))
  {
  }

  lemma SyncedOutcome(r: Rules, w: World, u: string)
    requires Synced(r, w)
    ensures Outcome(r, w, u) == CellAt(r, w, u)
  {
  }

  lemma SameCellsInclude(r: Rules, a: World, b: World, id: string)
    requires Synced(r, a) && Synced(r, b)
    requires forall u :: CellAt(r, a, u) == CellAt(r, b, u)
    requires id in a.entries
    ensures
      var e := a.entries[id];
      id in b.entries && b.entries[id] == e
      && e.file in b.files && b.files[e.file] == a.files[e.file] && b.remote[id] == a.remote[id]
  {
    var e := a.entries[id];
    SyncedCell(r, a, id);
    assert EntryOf(b.entries, e.uid) == Some(Tracked(id, e));
    SyncedCell(r, b, id);
    assert Settled(r, b, id);
  }

  /** Two synchronized worlds with the same outcome are the same world. */
  lemma SyncedUnique(r: Rules, a: World, b: World)
    requires Synced(r, a) && Synced(r, b) && SameOutcome(r, a, b)
    ensures a == b
  {
    forall u ensures CellAt(r, a, u) == CellAt(r, b, u) {
      SyncedOutcome(r, a, u);
      SyncedOutcome(r, b, u);
    }
    SameCellsSubset(r, a, b);
    SameCellsSubset(r, b, a);
    WithinBoth(a, b);
  }

  ghost predicate Within(a: World, b: World) {
    && (forall id :: id in a.entries ==> id in b.entries && b.entries[id] == a.entries[id])
    && (forall id :: id in a.remote ==> id in b.remote && b.remote[id] == a.remote[id])
    && (forall f :: f in a.files ==> f in b.files && b.files[f] == a.files[f])
  }

  lemma SameCellsSubset(r: Rules, a: World, b: World)
    requires Synced(r, a) && Synced(r, b)
    requires forall u :: CellAt(r, a, u) == CellAt(r, b, u)
    ensures Within(a, b)
  {
    forall id | id in a.entries ensures id in b.entries && b.entries[id] == a.entries[id] && b.remote[id] == a.remote[id] {
      SameCellsInclude(r, a, b, id);
    }
    forall f | f in a.files ensures f in b.files && b.files[f] == a.files[f] {
      assert Used(a.entries, f);
      var id :| id in a.entries && a.entries[id].file == f;
      SameCellsInclude(r, a, b, id);
    }
  }

  lemma WithinBoth(a: World, b: World)
    requires Within(a, b) && Within(b, a)
    ensures a == b
  {
  }
}
