/** What two runs after another do. */
module CollectionRecovery {
  import opened Wrappers
  import opened CollectionWorld
  import opened CollectionProofs
  import opened CollectionBackend
  import opened CollectionSafety
  import opened CollectionSync

  /** Two undisturbed installations in the same state, one that earlier runs may have left. */
  ghost predicate Twins(rules: Rules, disk: Directory, server: Server, disk': Directory, server': Server)
    reads disk, server, disk', server'
  {
    && disk != disk' && server != server'
    && rules.Valid() && server.rules == rules && server'.rules == rules
    && server.quiet && server.verbatim && server'.quiet && server'.verbatim
    && server.Valid() && server'.Valid()
    && disk.files == disk'.files && disk.Entries() == disk'.Entries() && Bodies(server.items) == Bodies(server'.items)
    && ItemNames(rules, disk.files)
    && Good(rules, World(disk.files, Bodies(server.items), disk.Entries()))
  }

  /** A run that is cut short anywhere, and a second run after it, end exactly
      where one uninterrupted run ends. */
  method CrashRecovery(rules: Rules, identity: string, disk: Directory, server: Server, disk': Directory, server': Server)
    returns (straight: Result<(), Error>, again: Result<(), Error>)
    requires Twins(rules, disk, server, disk', server')
    modifies disk, server, disk', server'
    ensures again.Err? ==> !Rejects(again.error) || again.error == StateMismatch
    ensures straight.Ok? && again.Ok? ==>
      && disk'.files == disk.files
      && disk'.Entries() == disk.Entries()
      && Bodies(server'.items) == Bodies(server.items)
  {
    ghost var start := World(disk.files, Bodies(server.items), disk.Entries());
    var run := new Run(rules, identity, disk, server);
    straight := run.SyncCollection();
    ghost var end := run.Now();

    var cut := new Run(rules, identity, disk', server');
    var _ := cut.SyncCollection();
    ghost var middle := cut.Now();
    var rerun := new Run(rules, identity, disk', server');
    again := rerun.SyncCollection();
    ghost var end' := rerun.Now();

    if straight.Ok? && again.Ok? {
      SameEnd(rules, start, middle, end, end');
    }
  }

  lemma SameEnd(r: Rules, start: World, middle: World, end: World, end': World)
    requires SameOutcome(r, start, end) && SameOutcome(r, start, middle) && SameOutcome(r, middle, end')
    requires Synced(r, end) && Synced(r, end')
    ensures end == end'
  {
    forall u ensures Outcome(r, end, u) == Outcome(r, end', u) {
      assert Outcome(r, start, u) == Outcome(r, end, u);
      assert Outcome(r, start, u) == Outcome(r, middle, u) == Outcome(r, end', u);
    }
    SyncedUnique(r, end, end');
  }

  /** After a run that finished undisturbed, whatever form the server keeps its objects in, the
      next run changes nothing and asks nothing of the server. */
  method SecondRun(rules: Rules, identity: string, disk: Directory, server: Server)
    returns (first: Result<(), Error>, ghost between: World, ghost backup: map<string, Bytes>, ghost log: seq<Event>)
    requires rules.Valid() && server.rules == rules && server.Valid() && server.quiet
    requires ItemNames(rules, disk.files)
    requires Regular(rules, World(disk.files, Bodies(server.items), disk.Entries()))
    modifies disk, server
    ensures first.Ok? ==> Synced(rules, between)
    ensures first.Ok? ==> World(disk.files, Bodies(server.items), disk.Entries()) == between
    ensures first.Ok? ==> disk.backup == backup && server.log == log
  {
    hide Synced, NoStrandedRename, DistinctUids, Safe, Good, SameOutcome;
    var run := new Run(rules, identity, disk, server);
    first := run.SyncCollection();
    between, backup, log := run.Now(), disk.backup, server.log;
    var next := new Run(rules, identity, disk, server);
    var _ := next.SyncCollection();
  }

  /** Why recovery asks for a server that keeps what it is given: an edit that the server took in
      another form, cut off before the answer was stored, is accepted by the next run exactly
      when the form has the hash of the edit or of the last common version. */
  lemma CutUploadAccepted(r: Rules, w: World, id: string, body: Bytes)
    requires Accepts(r, w) && id in w.entries && id in w.remote && w.entries[id].file in w.files
    requires LocalChanged(r, w, id) && r.uidOf(body) == Some(w.entries[id].uid)
    ensures Accepts(r, w.(remote := w.remote[id := body])) <==>
            r.hashOf(body) in {r.hashOf(w.files[w.entries[id].file]), w.entries[id].hash}
  {
    var w' := w.(remote := w.remote[id := body]);
    assert TrackedOk(r, w, id);
    CopyAfterSet(r, w.remote, id, body, w.entries[id].uid);
    forall k | k in w.entries && k != id ensures TrackedOk(r, w', k) {
      assert TrackedOk(r, w, k);
    }
    forall k | k in w'.remote && k !in w'.entries ensures UntrackedOk(r, w', k) {
      assert UntrackedOk(r, w, k);
    }
    assert TrackedOk(r, w', id) <==> r.hashOf(body) in {r.hashOf(w.files[w.entries[id].file]), w.entries[id].hash};
  }

  /** So is a creation, if its object has no other file and no other object, exactly when the form has the
      hash of the file. */
  lemma CutCreationAccepted(r: Rules, w: World, file: string, id: string, body: Bytes)
    requires Accepts(r, w) && file in w.files && !Used(w.entries, file) && id !in w.remote && id !in w.entries
    requires r.uidOf(body) == r.uidOf(w.files[file]) && !HasUid(r, w.remote, r.uidOf(body))
    ensures Accepts(r, w.(remote := w.remote[id := body])) <==> r.hashOf(body) == r.hashOf(w.files[file])
  {
    var w' := w.(remote := w.remote[id := body]);
    forall k | k in w.entries ensures TrackedOk(r, w', k) {
      assert TrackedOk(r, w, k);
    }
    forall k | k in w.remote && k !in w.entries ensures UntrackedOk(r, w', k) {
      assert UntrackedOk(r, w, k);
    }
    assert DistinctUids(r, w'.remote);
    forall f | f in w.files && r.uidOf(w.files[f]) == r.uidOf(body) ensures f == file {
    }
    assert HasUid(r, w.files, r.uidOf(body));
    assert UntrackedOk(r, w', id) <==> r.hashOf(body) == r.hashOf(w.files[file]);
  }

  /** A run that is accepted although an item was renamed, and comes to its end, leaves two
      files of one UID, and the next run fails. */
  method StrandedRename(rules: Rules, identity: string, disk: Directory, server: Server)
    returns (first: Result<(), Error>, next: Result<(), Error>, ghost between: map<string, Bytes>)
    requires rules.Valid() && server.rules == rules && server.Valid() && server.quiet
    requires ItemNames(rules, disk.files) && DistinctEntryUids(disk.Entries())
    requires !NoStrandedRename(rules, World(disk.files, Bodies(server.items), disk.Entries()))
    modifies disk, server
    ensures first.Ok? ==> !DistinctUids(rules, between) && next.Err?
  {
    hide Synced, NoStrandedRename, DistinctUids, Safe, Good, SameOutcome;
    var run := new Run(rules, identity, disk, server);
    first := run.SyncCollection();
    between := disk.files;
    var again := new Run(rules, identity, disk, server);
    next := again.SyncCollection();
    if next.Ok? { AcceptedFiles(rules, again.origin.start); }
  }

  lemma AcceptedFiles(r: Rules, w: World)
    requires Accepts(r, w)
    ensures DistinctUids(r, w.files)
  {
  }

  // ------------------------------------------------------------------ a collection with a stranded rename

  /** An injective digest without slashes: two letters for every one. */
  function Doubled(id: string): (d: string) {
    if id == "" then "" else (if id[0] == '/' then "s0" else ['c', id[0]]) + Doubled(id[1..])
  }

  lemma {:induction false} DoubledInjective(a: string, b: string)
    requires Doubled(a) == Doubled(b)
    ensures a == b
  {
    if a != "" && b != "" {
      var x, y := Doubled(a), Doubled(b);
      assert x[0] == y[0] && x[1] == y[1] && x[2..] == y[2..];
      assert x[2..] == Doubled(a[1..]) && y[2..] == Doubled(b[1..]);
      DoubledInjective(a[1..], b[1..]);
      assert a == [a[0]] + a[1..] && b == [b[0]] + b[1..];
    }
  }

  lemma {:induction false} DoubledIsPlain(id: string)
    ensures '/' !in Doubled(id)
  {
    if id != "" {
      DoubledIsPlain(id[1..]);
    }
  }

  /** The rules of a card collection without delete propagation, a card being its own UID. */
  function CardRules(): (r: Rules) {
    Rules(".vcf", false, d => if d == "" then None else Some(d), d => d, id => "d" + Doubled(id), u => "c" + u)
  }

  lemma CardRulesValid()
    ensures CardRules().Valid()
  {
    var r := CardRules();
    forall id, id' | r.digestOf(id) == r.digestOf(id') ensures id == id' {
      assert ("d" + Doubled(id))[1..] == Doubled(id) && ("d" + Doubled(id'))[1..] == Doubled(id');
      DoubledInjective(id, id');
    }
    forall u, u' | r.createId(u) == r.createId(u') ensures u == u' {
      assert ("c" + u)[1..] == u && ("c" + u')[1..] == u';
    }
    forall id ensures ItemName(r.FileFor(id), r.ext) {
      DoubledIsPlain(id);
      var f := "d" + Doubled(id) + ".vcf";
      assert f[|f| - 4..] == ".vcf";
    }
  }

  /** Preflight accepts a renamed item, so the condition is one it does not check: the tracked
      file is gone, another file carries its UID, and the object is unchanged. A run from here is
      within StrandedRename: it ends with two files of one UID or not at all. */
  lemma StrandedRenameIsAccepted()
    ensures
      var r := CardRules();
      var w := World(map["new.vcf" := "u"], map["1" := "u"], map["1" := Entry("old.vcf", "u", "u")]);
      && r.Valid() && ItemNames(r, w.files)
      && Accepts(r, w) && DistinctEntryUids(w.entries) && !NoStrandedRename(r, w)
      && NoStrandedRename(r.(propagateDeletes := true), w)
  {
    CardRulesValid();
    RenamedIsAccepted(CardRules());
    RenamedIsStranded(CardRules());
  }

  lemma RenamedIsAccepted(r: Rules)
    requires r == CardRules()
    ensures
      var w := World(map["new.vcf" := "u"], map["1" := "u"], map["1" := Entry("old.vcf", "u", "u")]);
      ItemNames(r, w.files) && Accepts(r, w) && DistinctEntryUids(w.entries)
  {
    hide Doubled;
    var w := World(map["new.vcf" := "u"], map["1" := "u"], map["1" := Entry("old.vcf", "u", "u")]);
    assert "old.vcf"[3..] == ".vcf" && "new.vcf"[3..] == ".vcf";
    assert ItemName("old.vcf", r.ext) && ItemName("new.vcf", r.ext);
    hide ItemName;
    assert TrackedOk(r, w, "1");
  }

  lemma RenamedIsStranded(r: Rules)
    requires r == CardRules()
    ensures
      var w := World(map["new.vcf" := "u"], map["1" := "u"], map["1" := Entry("old.vcf", "u", "u")]);
      !NoStrandedRename(r, w) && NoStrandedRename(r.(propagateDeletes := true), w)
  {
    var w := World(map["new.vcf" := "u"], map["1" := "u"], map["1" := Entry("old.vcf", "u", "u")]);
    assert w.files["new.vcf"] == "u";
    assert Renamed(r, w, "1");
  }
}
