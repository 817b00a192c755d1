/** A mail run over JMAP: mapping by mapping, local removals and moves go to the server,
    then vanished messages leave the Maildir, then missing ones are downloaded. */
module JmapSync {
  import opened Wrappers
  import opened MailWorld
  import opened JmapMail
  import opened JmapChanges
  import JmapPages

  datatype MailError =
    | Failed                   // the file system or the network
    | Unresolved               // no such remote mailbox
    | Copied                   // the file is in several mapped Maildirs
    | NotInSource              // somebody else moved the message meanwhile
    | Collision                // the destination tracks another file

  /** What propagating the removal of entry k of mapping i leaves. */
  ghost predicate Propagated(a: Account, w: World, v: World, i: nat, k: Key)
    requires i < |a.maps|
  {
    && v.dirs == w.dirs && k !in v.entries
    && (forall q: Key :: q.mailbox == a.maps[i].remote && q != k ==>
          (q in v.entries <==> q in w.entries) && (q in w.entries ==> v.entries[q] == w.entries[q]))
    && CarriedFrom(a.maps, w.entries, v.entries, i)
  }

  /** The mapping tracks the same message with another file. */
  predicate Taken(a: Account, entries: Entries, k: Key, j: nat)
    requires k in entries && j < |a.maps|
  {
    KeyAt(a, j, k.id) in entries && entries[KeyAt(a, j, k.id)].file != entries[k].file
  }

  /** The file was moved to a mapping that tracks the same message with another file. */
  ghost predicate Collides(a: Account, entries: Entries, dirs: Maildirs, i: nat, k: Key)
    requires i < |a.maps| && k in entries
  {
    exists j: nat :: j < |a.maps| && Copies(a.maps, entries, dirs, i, k) == {j as int} && Taken(a, entries, k, j)
  }

  /** The entry stops every pass over the mapping. */
  ghost predicate Blocks(a: Account, entries: Entries, dirs: Maildirs, i: nat, k: Key) {
    a.propagate && Missing(a.maps, entries, dirs, i, k) && Collides(a, entries, dirs, i, k)
  }

  ghost predicate Unblocked(a: Account, stages: seq<Stage>) {
    forall i: nat, k: Key :: i < |stages| ==> !Blocks(a, stages[i].entries, stages[i].dirs, i, k)
  }

  lemma StageUnblocked(a: Account, stages: seq<Stage>, now: Stage, i: nat)
    requires |stages| == i && Unblocked(a, stages)
    ensures Unblocked(a, stages + [now]) <==> forall k :: !Blocks(a, now.entries, now.dirs, i, k)
  {
    hide Blocks;
    assert (stages + [now])[i] == now;
  }

  lemma StagesStart(a: Account, start: Stage, log: seq<Change>)
    ensures Staged(a.maps, start, []) && Arrives(a.maps, start, [], start, 0) && Unblocked(a, [])
    ensures LawfulStages(a, [], log, |log|)
  {
  }

  /** Entries that follow their files block nothing that was not blocked before. */
  lemma BlocksAlike(a: Account, w: World, u: World, i: nat, k: Key)
    requires i < |a.maps| && Distinct(a.maps) && Identified(a.maps, w.entries) && Identified(a.maps, u.entries)
    requires u.dirs == w.dirs && CarriedFrom(a.maps, w.entries, u.entries, i)
    requires k in w.entries && k in u.entries && u.entries[k] == w.entries[k] && k.mailbox == a.maps[i].remote
    ensures Collides(a, w.entries, w.dirs, i, k) <==> Collides(a, u.entries, u.dirs, i, k)
  {
    hide Found;
    forall j: nat | j < |a.maps| && Copies(a.maps, w.entries, w.dirs, i, k) == {j as int}
      ensures Taken(a, w.entries, k, j) <==> Taken(a, u.entries, k, j)
    {
      assert j as int in Copies(a.maps, w.entries, w.dirs, i, k);
    }
  }

  /** A message tracked in two mapped mailboxes, whose first file was moved into the second Maildir. */
  lemma BlockedMove()
    ensures
      var a := Account([Mapping("A", "a"), Mapping("B", "b")], true, map["A" := 1, "B" := 2]);
      var k, other := Key("A", "1"), Key("B", "1");
      var f, g := StableKey("A", "1"), StableKey("B", "1");
      var entries := map[k := Entry("A", "1", "a", f), other := Entry("B", "1", "b", g)];
      var dirs := map["b" := map[f := ["text"], g := ["text"]]];
      a.Valid() && Identified(a.maps, entries) && Blocks(a, entries, dirs, 0, k)
  {
    var a := Account([Mapping("A", "a"), Mapping("B", "b")], true, map["A" := 1, "B" := 2]);
    var k, other := Key("A", "1"), Key("B", "1");
    var f, g := StableKey("A", "1"), StableKey("B", "1");
    var entries := map[k := Entry("A", "1", "a", f), other := Entry("B", "1", "b", g)];
    var dirs := map["b" := map[f := ["text"], g := ["text"]]];
    assert Copies(a.maps, entries, dirs, 0, k) == {1};
    assert Taken(a, entries, k, 1);
  }

  /** The pass over an earlier mapping m leaves the entry blocking exactly if the file is still in the one other
      Maildir only, and that mapping still tracks the message with another file. Unless it is mapping m's
      own Maildir, only the file's coming there can change that. */
  lemma BlocksThroughPass(a: Account, s: Stage, t: Stage, m: nat, i: nat, j: nat, k: Key)
    requires a.Valid() && Follows(a.maps, s, t, m) && m != i && i < |a.maps| && j < |a.maps| && i != j
    requires Blocks(a, s.entries, s.dirs, i, k) && Copies(a.maps, s.entries, s.dirs, i, k) == {j as int}
    ensures Missing(a.maps, t.entries, t.dirs, i, k) && t.entries[k] == s.entries[k]
    ensures Copies(a.maps, t.entries, t.dirs, i, k) == {j as int} && Taken(a, t.entries, k, j) ==>
      Blocks(a, t.entries, t.dirs, i, k)
    ensures m != j && !Found(t.dirs, a.maps[m].local, s.entries[k].file) ==> Blocks(a, t.entries, t.dirs, i, k)
  {
    hide FilesKept;
    var f := s.entries[k].file;
    assert Taken(a, s.entries, k, j);
    if m != j && !Found(t.dirs, a.maps[m].local, f) {
      forall x ensures x in Copies(a.maps, t.entries, t.dirs, i, k) <==> x in Copies(a.maps, s.entries, s.dirs, i, k) {
        if x == m {
          assert m as int !in {j as int};
        }
      }
      assert Taken(a, t.entries, k, j);
    }
  }

  /** What blocked the pass still does. */
  ghost predicate StillBlocks(a: Account, w: World, entries: Entries, i: nat) {
    forall k :: Blocks(a, w.entries, w.dirs, i, k) ==> Blocks(a, entries, w.dirs, i, k)
  }

  lemma BlocksRest(a: Account, w: World, v: World, i: nat, todo: set<Key>)
    requires i < |a.maps| && Distinct(a.maps) && Identified(a.maps, w.entries) && Identified(a.maps, v.entries)
    requires v.dirs == w.dirs && CarriedFrom(a.maps, w.entries, v.entries, i) && RestOf(a, w.entries, v.entries, i, todo)
    requires forall k :: Blocks(a, w.entries, w.dirs, i, k) ==> k in todo
    ensures StillBlocks(a, w, v.entries, i)
  {
    forall k | Blocks(a, w.entries, w.dirs, i, k) ensures Blocks(a, v.entries, w.dirs, i, k) {
      BlocksAlike(a, w, v, i, k);
    }
  }

  /** Every entry is as it was saved. */
  predicate AsSaved(entries: Entries, saved: Entries) {
    forall k :: k in entries ==> k in saved && saved[k] == entries[k]
  }

  lemma BlocksAsSaved(a: Account, entries: Entries, saved: Entries, dirs: Maildirs, i: nat)
    requires AsSaved(entries, saved)
    ensures forall k :: Blocks(a, entries, dirs, i, k) ==> Blocks(a, saved, dirs, i, k)
  {
    forall k | Blocks(a, entries, dirs, i, k) ensures Blocks(a, saved, dirs, i, k) {
      assert Copies(a.maps, entries, dirs, i, k) == Copies(a.maps, saved, dirs, i, k);
      var j: nat :| j < |a.maps| && Copies(a.maps, entries, dirs, i, k) == {j as int} && Taken(a, entries, k, j);
      assert Taken(a, saved, k, j);
    }
  }

  lemma StillBlocksSaved(a: Account, w: World, entries: Entries, saved: Entries, i: nat)
    requires StillBlocks(a, w, entries, i) && AsSaved(entries, saved)
    ensures StillBlocks(a, w, saved, i)
  {
    BlocksAsSaved(a, entries, saved, w.dirs, i);
    hide Blocks;
  }

  lemma BlockingTracked(a: Account, w: World, i: nat)
    ensures forall k :: Blocks(a, w.entries, w.dirs, i, k) ==> k in w.entries
  {
  }

  lemma LoneMembership(s: set<Box>, b: Box)
    ensures b in s && |s| <= 1 ==> s == {b}
  {
    if b in s && |s| <= 1 {
      assert |s| == |s - {b}| + 1;
      assert s == s - {b} + {b};
    }
  }

  /** So the mailbox was at some moment since place n of the log. */
  ghost predicate Met(a: Account, start: Emails, log: seq<Change>, n: nat, b: Box, listing: seq<Id>) {
    exists m: nat :: n <= m <= |log| && IsListing(Replay(a, start, log[..m]), b, listing)
  }

  ghost predicate IsListing(emails: Emails, b: Box, listing: seq<Id>) {
    forall id :: id in listing <==> Member(emails, id, b)
  }

  lemma MetOn(a: Account, start: Emails, before: seq<Change>, log: seq<Change>, n: nat, b: Box, answers: seq<JmapPages.Answer>)
    requires before <= log && forall x :: x in answers ==> Met(a, start, before, n, b, x.listing)
    ensures forall x :: x in answers ==> Met(a, start, log, n, b, x.listing)
  {
    forall x | x in answers ensures Met(a, start, log, n, b, x.listing) {
      assert Met(a, start, before, n, b, x.listing);
      var m: nat :| n <= m <= |before| && IsListing(Replay(a, start, before[..m]), b, x.listing);
      assert log[..m] == before[..m];
    }
  }

  lemma MetNow(a: Account, start: Emails, log: seq<Change>, n: nat, b: Box, listing: seq<Id>)
    requires n <= |log| && IsListing(Replay(a, start, log), b, listing)
    ensures Met(a, start, log, n, b, listing)
  {
    assert log[..|log|] == log;
  }

  /** The listing, each id once. */
  function OrderOf(listingOf: Order, emails: Emails, b: Box): (l: seq<Id>)
    requires Orders(listingOf)
    ensures JmapPages.NoRepeats(l) && l == listingOf(emails, b) && forall id :: id in l <==> Member(emails, id, b)
  {
    listingOf(emails, b)
  }

  lemma MoveIsPropagated(a: Account, w: World, i: nat, j: nat, k: Key, emails: Emails)
    requires a.Valid() && i < |a.maps| && j < |a.maps| && i != j
    requires Identified(a.maps, w.entries) && k in w.entries && k.mailbox == a.maps[i].remote
    requires !Taken(a, w.entries, k, j)
    ensures var v := World(MovedEntry(a, w.entries, k, j), w.dirs, emails);
      Propagated(a, w, v, i, k) && Identified(a.maps, v.entries)
  {
    MoveIsIdentified(a, w.entries, j, k);
    MoveIsCarried(a, w.entries, i, j, k);
    hide CarriedFrom, Identified, Taken;
  }

  lemma MoveIsIdentified(a: Account, entries: Entries, j: nat, k: Key)
    requires a.Valid() && j < |a.maps| && Identified(a.maps, entries) && k in entries
    ensures Identified(a.maps, MovedEntry(a, entries, k, j))
  {
  }

  lemma MoveIsCarried(a: Account, entries: Entries, i: nat, j: nat, k: Key)
    requires a.Valid() && i < |a.maps| && j < |a.maps| && i != j && Identified(a.maps, entries)
    requires k in entries && k.mailbox == a.maps[i].remote && !Taken(a, entries, k, j)
    ensures CarriedFrom(a.maps, entries, MovedEntry(a, entries, k, j), i)
  {
    var key := KeyAt(a, j, k.id);
    assert key in entries ==> entries[key] == Entry(a.maps[j].remote, k.id, a.maps[j].local, entries[k].file);
    assert entries[k].file in FilesAt(entries, a.maps[i].remote);
    hide Identified;
  }

  /** The entry follows its file to the one other mapping that has it. */
  ghost predicate Followed(a: Account, w: World, now: Entries, i: nat, k: Key, j: nat) {
    && i < |a.maps| && j < |a.maps| && k in w.entries && Copies(a.maps, w.entries, w.dirs, i, k) == {j as int}
    && now == MovedEntry(a, w.entries, k, j)
  }

  /** Messages of the mapping whose files were missing are no longer in its mailbox, but for those to do. */
  ghost predicate Gone(a: Account, w: World, emails: Emails, i: nat, todo: set<Key>)
    requires a.Resolves(i)
  {
    forall k :: k in w.entries && k !in todo && k.mailbox == a.maps[i].remote && !Found(w.dirs, a.maps[i].local, w.entries[k].file) ==>
      !Member(emails, k.id, a.BoxOf(i))
  }

  /** No message comes into the mailbox, and this one is not there. */
  ghost predicate LeavesOnly(a: Account, s: Emails, t: Emails, i: nat, id: Id)
    requires a.Resolves(i)
  {
    !Member(t, id, a.BoxOf(i)) && forall q: Id :: Member(t, q, a.BoxOf(i)) ==> Member(s, q, a.BoxOf(i))
  }

  lemma MovedLeaves(a: Account, s: Emails, i: nat, j: nat, id: Id)
    requires a.Valid() && a.Resolves(i) && a.Resolves(j) && i != j
    ensures LeavesOnly(a, s, Moved(s, id, a.BoxOf(i), a.BoxOf(j)), i, id)
  {
  }

  lemma UnlinkedLeaves(a: Account, s: Emails, i: nat, id: Id)
    requires a.Resolves(i)
    ensures LeavesOnly(a, s, Unlinked(s, id, a.BoxOf(i)), i, id)
  {
  }

  lemma OneMoreGone(a: Account, w: World, s: Emails, t: Emails, i: nat, k: Key, todo: set<Key>)
    requires a.Resolves(i) && Gone(a, w, s, i, todo + {k}) && LeavesOnly(a, s, t, i, k.id)
    ensures Gone(a, w, t, i, todo)
  {
  }

  /** Where the loop over the entries of mapping i stands. */
  ghost predicate Propagating(a: Account, quiet: bool, w: World, v: World, i: nat, todo: set<Key>)
    requires a.Resolves(i)
  {
    && v.dirs == w.dirs
    && CarriedFrom(a.maps, w.entries, v.entries, i)
    && RestOf(a, w.entries, v.entries, i, todo)
    && (a.propagate ==> FoundBut(a, v, i, todo))
    && (!a.propagate || AllFound(a, w, i) ==> v == w)
    && (quiet ==> KeepsCovered(a, w, v, i) && (a.propagate ==> Gone(a, w, v.emails, i, todo)))
  }

  /** What is known however the loop ends. */
  ghost predicate Shrunk(a: Account, w: World, v: World, i: nat)
    requires i < |a.maps|
  {
    && v.dirs == w.dirs && CarriedFrom(a.maps, w.entries, v.entries, i)
    && FilesAt(v.entries, a.maps[i].remote) <= FilesAt(w.entries, a.maps[i].remote)
  }

  lemma PropagatingStarts(a: Account, quiet: bool, w: World, i: nat)
    requires a.Resolves(i)
    ensures Propagating(a, quiet, w, w, i, w.entries.Keys)
  {
  }

  lemma PropagatingEnds(a: Account, quiet: bool, w: World, v: World, i: nat)
    requires a.Resolves(i) && Propagating(a, quiet, w, v, i, {})
    ensures Shrunk(a, w, v, i)
    ensures a.propagate ==> AllFound(a, v, i)
    ensures !a.propagate || AllFound(a, w, i) ==> v == w
    ensures quiet ==> KeepsCovered(a, w, v, i) && (a.propagate ==> Gone(a, w, v.emails, i, {}))
  {
  }

  lemma PropagatingSkip(a: Account, quiet: bool, w: World, v: World, i: nat, k: Key, todo: set<Key>)
    requires a.Resolves(i) && Propagating(a, quiet, w, v, i, todo + {k}) && k in w.entries && Filed(a.maps, w.entries)
    requires k.mailbox != a.maps[i].remote || Found(v.dirs, a.maps[i].local, w.entries[k].file) || !a.propagate
    ensures Propagating(a, quiet, w, v, i, todo)
  {
  }

  /** The entry whose file is missing is still there. */
  lemma PropagatingStill(a: Account, quiet: bool, w: World, v: World, i: nat, k: Key, todo: set<Key>)
    requires a.Resolves(i) && Propagating(a, quiet, w, v, i, todo + {k}) && k in w.entries && k.mailbox == a.maps[i].remote
    requires !Found(v.dirs, a.maps[i].local, w.entries[k].file)
    ensures k in v.entries && v.entries[k] == w.entries[k] && v.dirs == w.dirs && !AllFound(a, w, i)
  {
  }

  lemma PropagatedStep(a: Account, quiet: bool, w: World, u: World, v: World, i: nat, k: Key, todo: set<Key>)
    requires a.Resolves(i) && Propagating(a, quiet, w, u, i, todo + {k}) && k !in todo && k.mailbox == a.maps[i].remote
    requires Propagated(a, u, v, i, k) && a.propagate && !AllFound(a, w, i)
    ensures Shrunk(a, w, v, i) && RestOf(a, w.entries, v.entries, i, todo)
    ensures (quiet ==> KeepsCovered(a, u, v, i) && LeavesOnly(a, u.emails, v.emails, i, k.id)) ==> Propagating(a, quiet, w, v, i, todo)
  {
    EntriesStep(a, w, u, v, i, k, todo);
    RestFiles(a, w.entries, v.entries, i, todo);
    if quiet && LeavesOnly(a, u.emails, v.emails, i, k.id) {
      OneMoreGone(a, w, u.emails, v.emails, i, k, todo);
    }
    hide CarriedFrom, RestOf, FoundBut, Propagated, Gone, LeavesOnly, FilesAt, Covered;
  }

  lemma PropagatingCarried(a: Account, quiet: bool, w: World, u: World, i: nat, todo: set<Key>)
    requires a.Resolves(i) && Propagating(a, quiet, w, u, i, todo)
    ensures CarriedFrom(a.maps, w.entries, u.entries, i) && u.dirs == w.dirs
  {
  }

  lemma PropagatingRest(a: Account, quiet: bool, w: World, u: World, i: nat, todo: set<Key>)
    requires a.Resolves(i) && Propagating(a, quiet, w, u, i, todo)
    ensures RestOf(a, w.entries, u.entries, i, todo)
  {
  }

  lemma PropagatingShrunk(a: Account, quiet: bool, w: World, u: World, v: World, i: nat, todo: set<Key>)
    requires a.Resolves(i) && Propagating(a, quiet, w, u, i, todo) && v.entries == u.entries && v.dirs == u.dirs
    ensures Shrunk(a, w, v, i)
  {
  }

  class Run {
    const a: Account
    const rawOf: FileKey -> Raw        // the message a marker names
    const listingOf: Order
    const quiet: bool                  // nobody else changes the server
    var entries: Entries
    var saved: Entries
    var dirs: Maildirs
    var emails: Emails
    ghost const start: Emails
    ghost var log: seq<Change>

    constructor (a: Account, rawOf: FileKey -> Raw, listingOf: Order, quiet: bool, entries: Entries, dirs: Maildirs, emails: Emails)
      requires a.Valid() && Identified(a.maps, entries) && Orders(listingOf)
      ensures this.a == a && this.quiet == quiet && Valid() && W() == World(entries, dirs, emails)
      ensures saved == entries && start == emails && log == []
    {
      this.a, this.rawOf, this.listingOf, this.quiet := a, rawOf, listingOf, quiet;
      this.entries, this.saved, this.dirs, this.emails := entries, entries, dirs, emails;
      start, log := emails, [];
    }

    function W(): (w: World)
      reads this
    {
      World(entries, dirs, emails)
    }

    /** Everything that happened on the server is in the log. */
    ghost predicate Logged()
      reads this
    {
      && emails == Replay(a, start, log)
      && (quiet ==> Undisturbed(a, start, log))
    }

    ghost predicate Valid()
      reads this
    {
      a.Valid() && Identified(a.maps, entries) && Orders(listingOf) && Logged()
    }

    lemma LogStep(c: Change)
      requires Logged() && (quiet ==> !c.Foreign? && Timely(emails, c))
      ensures Apply(a, c, emails) == Replay(a, start, log + [c])
      ensures quiet ==> Undisturbed(a, start, log + [c])
    {
      var longer := log + [c];
      assert longer[..|log|] == log;
      if quiet {
        forall n | 0 <= n < |longer| ensures !longer[n].Foreign? && Timely(Replay(a, start, longer[..n]), longer[n]) {
          if n < |log| {
            assert longer[..n] == log[..n];
          }
        }
      }
    }

    /** Other clients. */
    method Others()
      requires Valid()
      modifies this`emails, this`log
      ensures Valid() && old(log) <= log && OnlyForeign(log, |old(log)|)
      ensures quiet ==> emails == old(emails) && log == old(log)
    {
      var disturbed: bool := *;
      if !quiet && disturbed {
        var now: Emails := *;
        LogStep(Foreign(now));
        log := log + [Foreign(now)];
        emails := now;
      }
    }

    /** The server does what is asked, and the log says so. */
    method Ask(c: Change)
      requires Valid() && !c.Foreign? && (quiet ==> Timely(emails, c))
      modifies this`emails, this`log
      ensures Valid() && log == old(log) + [c] && emails == Apply(a, c, old(emails))
    {
      LogStep(c);
      log := log + [c];
      emails := Apply(a, c, emails);
    }

    /** The memberships of a message, or nothing when it does not exist. */
    method GetEmail(id: Id) returns (r: Result<Option<set<Box>>, MailError>)
      requires Valid()
      modifies this`emails, this`log
      ensures Valid() && old(log) <= log && OnlyForeign(log, |old(log)|)
      ensures quiet ==> emails == old(emails) && log == old(log)
      ensures r.Ok? ==> r.value == if id in emails then Some(emails[id]) else None
      ensures r.Err? ==> r.error == Failed
    {
      Others();
      if * {
        return Err(Failed);
      }
      return Ok(if id in emails then Some(emails[id]) else None);
    }

    /** Carries the membership from one mailbox to the other; a message that is gone, or there already, is left. */
    method MoveBetweenMailboxes(i: nat, j: nat, k: Key) returns (r: Result<(), MailError>)
      requires Valid() && a.Resolves(i) && a.Resolves(j) && i != j
      modifies this`emails, this`log
      ensures Valid() && old(log) <= log
      ensures forall m :: |old(log)| <= m < |log| ==> log[m].Foreign? || log[m] == Transfer(i, k, j)
      ensures r.Err? ==> r.error in {Failed, NotInSource}
      ensures quiet && r.Ok? ==>
        && emails == Moved(old(emails), k.id, a.BoxOf(i), a.BoxOf(j))
        && (k.id in emails ==> Member(emails, k.id, a.BoxOf(j)))
    {
      var got := GetEmail(k.id);
      if got.Err? {
        return Err(got.error);
      }
      if got.value.None? {
        return Ok(());
      }
      if a.BoxOf(i) !in got.value.value {
        if a.BoxOf(j) in got.value.value {
          return Ok(());
        }
        return Err(NotInSource);
      }
      Others();
      var refused: bool := *;
      if k.id !in emails || refused {
        return Err(Failed);
      }
      Ask(Transfer(i, k, j));
      var lost: bool := *;
      return if lost then Err(Failed) else Ok(());
    }

    /** Takes the message out of the mailbox, or destroys it when it was read to be in no other. */
    method RemoveFromMailbox(i: nat, k: Key) returns (r: Result<(), MailError>, read: set<Box>)
      requires Valid() && a.Resolves(i)
      modifies this`emails, this`log
      ensures Valid() && old(log) <= log
      ensures forall m :: |old(log)| <= m < |log| ==>
        log[m].Foreign? || (a.BoxOf(i) in read && log[m] == Removal(i, k, read))
      ensures r.Err? ==> r.error == Failed
      ensures quiet && r.Ok? ==> emails == Unlinked(old(emails), k.id, a.BoxOf(i))
    {
      hide Undisturbed, Identified, Replay;
      var b := a.BoxOf(i);
      read := {};
      var got := GetEmail(k.id);
      if got.Err? {
        r := Err(got.error);
        return;
      }
      if got.value.None? || b !in got.value.value {
        r := Ok(());
        return;
      }
      read := got.value.value;
      r := Err(Failed);
      Others();
      if * {
        return;
      }
      if |read| > 1 && (k.id !in emails || emails[k.id] == {b}) {
        return;
      }
      LoneMembership(read, b);
      Ask(Removal(i, k, read));
      if * {
        return;   // the answer is lost
      }
      r := Ok(());
    }

    method Save() returns (r: Result<(), MailError>)
      requires Valid()
      modifies this`saved
      ensures Valid() && W() == old(W()) && log == old(log)
      ensures r.Ok? ==> saved == entries
      ensures r.Err? ==> r.error == Failed && saved == old(saved)
    {
      if * {
        return Err(Failed);
      }
      saved := entries;
      return Ok(());
    }

    /** A tracked file is missing in its own Maildir: it was moved to another one, or removed.
        With several copies nothing is asked of the server. */
    method PropagateOne(i: nat, k: Key) returns (r: Result<(), MailError>)
      requires Valid() && a.Resolves(i) && k in entries && k.mailbox == a.maps[i].remote
      requires !Found(dirs, a.maps[i].local, entries[k].file)
      modifies this`entries, this`saved, this`emails, this`log
      ensures Valid() && old(log) <= log && dirs == old(dirs)
      ensures r.Ok? || entries != old(entries) ==> Propagated(a, old(W()), W(), i, k)
      ensures r.Ok? && quiet ==> KeepsCovered(a, old(W()), W(), i)
      ensures LawfulFrom(a, old(entries), old(dirs), i, log, |old(log)|) && OnlyFor(log, |old(log)|, i, k)
      ensures r.Err? && r.error == Collision ==> Collides(a, old(entries), old(dirs), i, k) && entries == old(entries)
      ensures r.Ok? || entries != old(entries) ==> !Collides(a, old(entries), old(dirs), i, k)
      ensures r.Ok? && quiet ==> LeavesOnly(a, old(emails), emails, i, k.id)
      ensures r.Ok? && Copies(a.maps, old(entries), old(dirs), i, k) == {} ==> entries == old(entries) - {k}
      ensures r.Ok? && Copies(a.maps, old(entries), old(dirs), i, k) != {} ==> exists j: nat :: Followed(a, old(W()), entries, i, k, j)
      ensures AsSaved(old(entries), old(saved)) && r.Ok? ==> AsSaved(entries, saved)
      ensures r.Err? ==> saved == old(saved)
    {
      hide Propagated, KeepsCovered, Identified, Undisturbed;
      var move := FindTrackedMove(a.maps, dirs, a.maps[i].local, entries[k].file);
      match move
      case Ambiguous =>
        return Err(Copied);
      case In(j) =>
        assert j as int in Elsewhere(a.maps, dirs, a.maps[i].local, entries[k].file);
        ghost var w := W();
        r := PropagateMove(i, j, k);
        if !Taken(a, w.entries, k, j) {
          MoveIsPropagated(a, w, i, j, k, emails);
        }
        assert r.Ok? ==> Followed(a, w, entries, i, k, j);
      case Nowhere =>
        r := PropagateRemoval(i, k);
    }

    /** The file is in one other mapped Maildir: the message follows it there, unless that mapping
        tracks the message with another file. */
    method PropagateMove(i: nat, j: nat, k: Key) returns (r: Result<(), MailError>)
      requires Valid() && a.Resolves(i) && j < |a.maps| && i != j
      requires k in entries && k.mailbox == a.maps[i].remote && Found(dirs, a.maps[j].local, entries[k].file)
      modifies this`entries, this`saved, this`emails, this`log
      ensures Valid() && old(log) <= log
      ensures r.Ok? || entries != old(entries) ==>
        entries == MovedEntry(a, old(entries), k, j) && !Taken(a, old(entries), k, j)
      ensures r.Err? && r.error == Collision ==> Taken(a, old(entries), k, j) && entries == old(entries)
      ensures r.Ok? ==> a.Resolves(j)
      ensures r.Ok? && quiet ==> emails == Moved(old(emails), k.id, a.BoxOf(i), a.BoxOf(j))
      ensures r.Ok? && quiet ==> LeavesOnly(a, old(emails), emails, i, k.id) && KeepsCovered(a, old(W()), W(), i)
      ensures forall m :: |old(log)| <= m < |log| ==> log[m].Foreign? || (log[m] == Transfer(i, k, j) && a.Resolves(j))
      ensures AsSaved(old(entries), old(saved)) && r.Ok? ==> AsSaved(entries, saved)
      ensures r.Err? ==> saved == old(saved)
    {
      hide KeepsCovered, Undisturbed, Replay, Covered, Orders, LeavesOnly, Propagated, Identified;
      ghost var w := W();
      var e := entries[k];
      if !a.Resolves(j) {
        return Err(Unresolved);
      }
      var moved := MoveBetweenMailboxes(i, j, k);
      if moved.Err? {
        return moved;
      }
      var newKey := KeyAt(a, j, k.id);
      if newKey in entries && entries[newKey].file != e.file {
        return Err(Collision);
      }
      MoveIsPropagated(a, w, i, j, k, emails);
      if quiet {
        MoveKeepsCovered(a, w, i, j, k, emails);
        MovedLeaves(a, w.emails, i, j, k.id);
      }
      entries := (entries - {k})[newKey := Entry(a.maps[j].remote, k.id, a.maps[j].local, e.file)];
      r := Save();
    }

    /** The file is in no mapped Maildir: the message leaves the mailbox. */
    method PropagateRemoval(i: nat, k: Key) returns (r: Result<(), MailError>)
      requires Valid() && a.Resolves(i) && k in entries && k.mailbox == a.maps[i].remote
      modifies this`entries, this`emails, this`log
      ensures Valid() && old(log) <= log
      ensures r.Ok? || entries != old(entries) ==> Propagated(a, old(W()), W(), i, k)
      ensures r.Ok? && quiet ==> KeepsCovered(a, old(W()), W(), i)
      ensures forall m :: |old(log)| <= m < |log| ==>
        log[m].Foreign? || log[m] == Unlink(i, k) || log[m] == Destroy(i, k, {a.BoxOf(i)})
      ensures r.Err? ==> r.error == Failed
      ensures r.Ok? && quiet ==> LeavesOnly(a, old(emails), emails, i, k.id)
      ensures entries == if r.Ok? then old(entries) - {k} else old(entries)
      ensures r.Ok? && quiet ==> emails == Unlinked(old(emails), k.id, a.BoxOf(i))
      ensures AsSaved(old(entries), saved) ==> AsSaved(entries, saved)
    {
      hide KeepsCovered, Undisturbed, Replay, Covered, Orders, LeavesOnly;
      ghost var w := W();
      var removed, read := RemoveFromMailbox(i, k);
      LoneMembership(read, a.BoxOf(i));
      if removed.Err? {
        return removed;
      }
      if quiet {
        RemovalKeepsCovered(a, w, i, k);
        UnlinkedLeaves(a, w.emails, i, k.id);
      }
      entries := entries - {k};
      return Ok(());
    }

    /** Local removals and moves of one mapping go to the server. */
    method Propagate(i: nat) returns (r: Result<(), MailError>)
      requires Valid() && a.Resolves(i)
      modifies this`entries, this`saved, this`emails, this`log
      ensures Valid() && old(log) <= log && Shrunk(a, old(W()), W(), i)
      ensures r.Ok? && a.propagate ==> AllFound(a, W(), i)
      ensures !a.propagate || AllFound(a, old(W()), i) ==> W() == old(W()) && r.Ok?
      ensures r.Ok? && quiet ==> KeepsCovered(a, old(W()), W(), i)
      ensures r.Ok? && quiet && a.propagate ==> Gone(a, old(W()), emails, i, {})
      ensures LawfulFrom(a, old(entries), old(dirs), i, log, |old(log)|)
      ensures r.Ok? ==> forall k :: !Blocks(a, old(entries), old(dirs), i, k)
      ensures r.Err? && r.error == Collision ==> exists k :: Blocks(a, old(entries), old(dirs), i, k)
      ensures StillBlocks(a, old(W()), entries, i) && (AsSaved(old(entries), old(saved)) ==> StillBlocks(a, old(W()), saved, i))
    {
      hide Propagating, Shrunk, AllFound, KeepsCovered, Identified, Undisturbed, Gone, Lawful, Blocks, AsSaved;
      ghost var w := W();
      var copy := entries;
      var todo := copy.Keys;
      PropagatingStarts(a, quiet, w, i);
      BlockingTracked(a, w, i);
      while todo != {}
        invariant Valid() && old(log) <= log && copy == w.entries
        invariant todo <= copy.Keys && Propagating(a, quiet, w, W(), i, todo)
        invariant LawfulFrom(a, w.entries, w.dirs, i, log, |old(log)|)
        invariant forall k :: Blocks(a, w.entries, w.dirs, i, k) ==> k in todo
        invariant AsSaved(old(entries), old(saved)) ==> AsSaved(entries, saved)
        decreases |todo|
      {
        var k :| k in todo;
        assert todo == todo - {k} + {k};
        todo := todo - {k};
        ghost var before := log;
        r := PropagateEntry(i, k, copy[k], w, todo);
        LawfulOn(a, w.entries, w.dirs, i, before, log, |old(log)|);
        if r.Err? {
          return;
        }
      }
      PropagatingEnds(a, quiet, w, W(), i);
      return Ok(());
    }

    method PropagateEntry(i: nat, k: Key, e: Entry, ghost w: World, ghost todo: set<Key>) returns (r: Result<(), MailError>)
      requires Valid() && a.Resolves(i) && Propagating(a, quiet, w, W(), i, todo + {k}) && k !in todo
      requires k in w.entries && w.entries[k] == e && Identified(a.maps, w.entries)
      requires forall q :: Blocks(a, w.entries, w.dirs, i, q) ==> q in todo + {k}
      modifies this`entries, this`saved, this`emails, this`log
      ensures Valid() && old(log) <= log
      ensures if r.Ok? then Propagating(a, quiet, w, W(), i, todo) else Shrunk(a, w, W(), i)
      ensures r.Err? ==> a.propagate && !AllFound(a, w, i)
      ensures LawfulFrom(a, w.entries, w.dirs, i, log, |old(log)|)
      ensures r.Ok? ==> !Blocks(a, w.entries, w.dirs, i, k)
      ensures r.Err? && r.error == Collision ==> Blocks(a, w.entries, w.dirs, i, k)
      ensures r.Err? ==> StillBlocks(a, w, entries, i)
      ensures AsSaved(old(entries), old(saved)) ==> if r.Ok? then AsSaved(entries, saved) else StillBlocks(a, w, saved, i)
    {
      hide Orders, Propagating, Shrunk, AllFound, RestOf, StillBlocks, AsSaved, KeepsCovered, Undisturbed, Lawful, Propagated, LeavesOnly;
      ghost var u := W();
      PropagatingCarried(a, quiet, w, u, i, todo + {k});
      if e.mailbox != a.maps[i].remote || e.local != a.maps[i].local || Found(dirs, a.maps[i].local, e.file) || !a.propagate {
        PropagatingSkip(a, quiet, w, u, i, k, todo);
        return Ok(());
      }
      PropagatingStill(a, quiet, w, u, i, k, todo);
      PropagatingRest(a, quiet, w, u, i, todo + {k});
      BlocksRest(a, w, u, i, todo + {k});
      if AsSaved(entries, saved) {
        StillBlocksSaved(a, w, entries, saved, i);
      }
      BlocksAlike(a, w, u, i, k);
      r := PropagateOne(i, k);
      LawfulAlike(a, u.entries, w.entries, w.dirs, i, log, |old(log)|, k);
      if r.Ok? || entries != u.entries {
        PropagatedStep(a, quiet, w, u, W(), i, k, todo);
        if r.Err? {
          ShrunkMeans(a, w, W(), i);
          BlocksRest(a, w, W(), i, todo);
        }
      } else {
        PropagatingShrunk(a, quiet, w, u, W(), i, todo + {k});
      }
    }

    /** The ids in a mailbox, page by page; a request may fail, and the whole may be interrupted. */
    method QueryEmailIDs(b: Box) returns (r: Result<set<Id>, MailError>, ghost answers: seq<JmapPages.Answer>)
      requires Valid()
      modifies this`emails, this`log
      ensures Valid() && old(log) <= log && OnlyForeign(log, |old(log)|)
      ensures quiet ==> emails == old(emails) && log == old(log)
      ensures r.Ok? ==> JmapPages.Complete(answers) && r.value == JmapPages.Ids(JmapPages.AllOf(answers))
      ensures forall x :: x in answers ==> Met(a, start, log, |old(log)|, b, x.listing)
      ensures r.Ok? && quiet ==> forall id :: id in r.value <==> Member(emails, id, b)
      ensures r.Err? ==> r.error == Failed
    {
      hide Undisturbed, Identified, Replay, JmapPages.AllOf, JmapPages.Position, JmapPages.Page, JmapPages.NoRepeats;
      var patience: nat := *;
      var all: seq<Id> := [];
      var position := 0;
      answers := [];
      JmapPages.NoAnswers();
      while patience > 0
        invariant Valid() && old(log) <= log && OnlyForeign(log, |old(log)|)
        invariant quiet ==> emails == old(emails) && log == old(log) && forall x :: x in answers ==> x.listing == listingOf(emails, b)
        invariant position == JmapPages.Position(answers) && all == JmapPages.AllOf(answers) && JmapPages.Asking(answers)
        invariant forall x :: x in answers ==> Met(a, start, log, |old(log)|, b, x.listing)
      {
        ghost var before := log;
        Others();
        var limit: nat := *;
        var broken: bool := *;
        if broken || limit < 1 || limit > JmapPages.PageLimit {
          MetOn(a, start, before, log, |old(log)|, b, answers);
          return Err(Failed), answers;
        }
        var listing := OrderOf(listingOf, emails, b);
        var x := JmapPages.Answer(listing, limit);
        var page := JmapPages.Page(x, position);
        MetOn(a, start, before, log, |old(log)|, b, answers);
        MetNow(a, start, log, |old(log)|, b, listing);
        JmapPages.AskOn(answers, x);
        answers, all, position := answers + [x], all + page, position + |page|;
        if page == [] || position >= |listing| {
          if quiet {
            JmapPages.UnchangedIsListed(answers, listing);
          }
          return Ok(JmapPages.Ids(all)), answers;
        }
        patience := patience - 1;
      }
      return Err(Failed), answers;
    }

    method DropEntry(i: nat, k: Key, file: FileKey)
      requires Valid() && i < |a.maps| && Identified(a.maps, entries - {k})
      modifies this`entries, this`dirs
      ensures Valid() && entries == old(entries) - {k} && dirs == Remove(old(dirs), a.maps[i].local, file)
    {
      entries, dirs := entries - {k}, Remove(dirs, a.maps[i].local, file);
    }

    method AddEntry(i: nat, key: Key, e: Entry, raw: Raw)
      requires Valid() && i < |a.maps| && Identified(a.maps, entries[key := e])
      modifies this`entries, this`dirs
      ensures Valid() && entries == old(entries)[key := e] && dirs == Put(old(dirs), a.maps[i].local, e.file, raw)
    {
      entries, dirs := entries[key := e], Put(dirs, a.maps[i].local, e.file, raw);
    }

    /** Messages no longer in the mailbox leave the Maildir and the entries. */
    method DropVanished(i: nat, ids: set<Id>) returns (r: Result<(), MailError>)
      requires Valid() && i < |a.maps|
      modifies this`entries, this`dirs
      ensures Valid() && Dropping(a, old(W()), W(), i, ids, if r.Ok? then {} else old(entries).Keys)
      ensures Genuine(rawOf, old(dirs), dirs)
      ensures r.Err? ==> r.error == Failed
    {
      hide Undisturbed;
      ghost var w := W();
      var copy := entries;
      var todo := copy.Keys;
      DroppingStarts(a, w, i, ids);
      SameGenuine(rawOf, dirs);
      while todo != {}
        invariant Genuine(rawOf, w.dirs, dirs)
        invariant Valid() && todo <= copy.Keys && copy == w.entries && Dropping(a, w, W(), i, ids, todo)
        decreases |todo|
      {
        hide Dropping, Logged, Identified, Genuine;
        var k :| k in todo;
        var e := copy[k];
        if e.mailbox == a.maps[i].remote && e.local == a.maps[i].local && e.id !in ids {
          if * {
            DroppingFails(a, w, W(), i, ids, todo);
            return Err(Failed);
          }
          DropOne(a, w, W(), i, ids, todo, k);
          RemoveGenuine(rawOf, w.dirs, dirs, a.maps[i].local, e.file);
          DropEntry(i, k, e.file);
        } else {
          SkipOne(a, w, W(), i, ids, todo, k);
        }
        todo := todo - {k};
      }
      return Ok(());
    }

    /** Members without an entry or a file are downloaded; what vanished meanwhile is left for the next run. */
    method Download(i: nat, ids: set<Id>) returns (r: Result<(), MailError>)
      requires Valid() && i < |a.maps|
      modifies this`entries, this`dirs, this`emails, this`log
      ensures Valid() && old(log) <= log && OnlyForeign(log, |old(log)|)
      ensures quiet ==> emails == old(emails) && log == old(log)
      ensures
        var w := World(old(entries), old(dirs), emails);
        var missing := Wanted(a, w, i, ids);
        Fetching(a, w, W(), i, missing, if r.Ok? then {} else missing)
      ensures Genuine(rawOf, old(dirs), dirs)
      ensures r.Err? ==> r.error == Failed
    {
      hide Identified, Undisturbed, Genuine;
      SameGenuine(rawOf, dirs);
      var missing := Wanted(a, W(), i, ids);
      Others();
      ghost var w := W();
      FetchingStarts(a, w, i, missing);
      assert missing == Wanted(a, w, i, ids);
      if * {
        return Err(Failed);
      }
      var present := set id | id in missing && id in emails;
      var todo := missing;
      while todo != {}
        invariant Valid() && old(log) <= log && (quiet ==> log == old(log)) && emails == w.emails
        invariant OnlyForeign(log, |old(log)|)
        invariant todo <= missing && Fetching(a, w, W(), i, missing, todo) && Genuine(rawOf, w.dirs, dirs)
        decreases |todo|
      {
        hide Fetching, Logged, Wanted;
        var id :| id in todo;
        if id in present {
          if * {
            FetchingFails(a, w, W(), i, missing, todo);
            return Err(Failed);
          }
          var key := KeyAt(a, i, id);
          var fileKey := StableKey(key.mailbox, key.id);
          FetchOne(a, w, W(), i, missing, todo, id, rawOf(fileKey));
          PutGenuine(rawOf, w.dirs, dirs, a.maps[i].local, fileKey);
          AddEntry(i, key, Entry(a.maps[i].remote, id, a.maps[i].local, fileKey), rawOf(fileKey));
        } else {
          FetchNone(a, w, W(), i, missing, todo, id);
        }
        todo := todo - {id};
      }
      return Ok(());
    }

    /** One mapping: local changes out, vanished messages away, missing messages in, state saved. */
    method SyncMailbox(i: nat) returns (r: Result<(), MailError>)
      requires Valid() && i < |a.maps|
      modifies this`entries, this`saved, this`dirs, this`emails, this`log
      ensures Valid() && old(log) <= log
      ensures FilesKept(old(dirs), dirs, FilesAt(old(entries), a.maps[i].remote)) && Genuine(rawOf, old(dirs), dirs)
      ensures CarriedFrom(a.maps, old(entries), entries, i)
      ensures r.Ok? ==> a.Resolves(i) && saved == entries
      ensures r.Ok? && quiet ==> Brought(a, old(W()), W(), i)
      ensures r.Err? && quiet && a.Resolves(i) && AllFound(a, old(W()), i) ==> r.error == Failed
      ensures LawfulFrom(a, old(entries), old(dirs), i, log, |old(log)|) && OthersAlike(a.maps, old(dirs), dirs, i)
      ensures r.Ok? && quiet && a.propagate ==> Gone(a, old(W()), emails, i, {})
      ensures r.Ok? ==> forall k :: !Blocks(a, old(entries), old(dirs), i, k)
      ensures r.Err? && r.error == Collision ==> exists k :: Blocks(a, old(entries), old(dirs), i, k)
      ensures StillBlocks(a, old(W()), entries, i) && (AsSaved(old(entries), old(saved)) ==> StillBlocks(a, old(W()), saved, i))
    {
      hide Logged, OthersAlike, Identified, FilesKept, CarriedFrom, AllFound, KeepsCovered, Brought, FilesAt, Genuine, Blocks, Orders, Gone, Lawful, Shrunk;
      ghost var w := W();
      NothingYet(a, w, i);
      SameGenuine(rawOf, dirs);
      if !a.Resolves(i) {
        if AsSaved(entries, saved) {
          BlocksAsSaved(a, entries, saved, dirs, i);
        }
        return Err(Unresolved);
      }
      r := Propagate(i);
      ShrunkMeans(a, w, W(), i);
      if r.Ok? {
        r := Receive(i, w);
      }
    }

    /** The second half: vanished messages away, missing messages in, state saved. */
    method Receive(i: nat, ghost w: World) returns (r: Result<(), MailError>)
      requires Valid() && a.Resolves(i) && Shrunk(a, w, W(), i) && Identified(a.maps, w.entries)
      modifies this`entries, this`saved, this`dirs, this`emails, this`log
      ensures Valid() && old(log) <= log && OnlyForeign(log, |old(log)|)
      ensures FilesKept(w.dirs, dirs, FilesAt(w.entries, a.maps[i].remote)) && Genuine(rawOf, old(dirs), dirs)
      ensures CarriedFrom(a.maps, w.entries, entries, i) && OthersAlike(a.maps, w.dirs, dirs, i)
      ensures quiet ==> emails == old(emails)
      ensures if r.Ok? then saved == entries else r.error == Failed
      ensures r.Ok? && quiet && KeepsCovered(a, w, old(W()), i) && (AllFound(a, w, i) ==> old(W()) == w) ==> Brought(a, w, W(), i)
    {
      hide Logged, OthersAlike, Identified, FilesKept, CarriedFrom, AllFound, KeepsCovered, Dropping, Fetching, Brought, Wanted, FilesAt, Genuine, Orders, Met, JmapPages.Complete, JmapPages.AllOf, Member;
      ghost var w1 := W();
      ShrunkMeans(a, w, w1, i);
      SameGenuine(rawOf, dirs);
      var ids, _ := QueryEmailIDs(a.BoxOf(i));
      if ids.Err? {
        return Err(ids.error);
      }
      ghost var w2 := W();
      r := DropVanished(i, ids.value);
      DroppedSoFar(a, w, w1, w2, W(), i, ids.value, if r.Ok? then {} else w2.entries.Keys);
      if r.Err? {
        return;
      }
      ghost var w3 := W();
      r := Download(i, ids.value);
      GenuineThen(rawOf, w1.dirs, w3.dirs, dirs);
      ghost var w4 := World(w3.entries, w3.dirs, emails);
      FetchedSoFar(a, w, w3, w4, W(), i, ids.value, if r.Ok? then {} else Wanted(a, w4, i, ids.value));
      if r.Err? {
        return;
      }
      if quiet && KeepsCovered(a, w, w1, i) && (AllFound(a, w, i) ==> w1 == w) {
        IsBrought(a, w, w1, w3, W(), i, ids.value);
      }
      r := Save();
    }

    /** All mappings in order. Stage i is what mapping i began with; every change on the server was
        lawful with the entries and Maildirs of its mapping's stage. */
    method Sync() returns (r: Result<(), MailError>, ghost stages: seq<Stage>)
      requires Valid()
      modifies this`entries, this`saved, this`dirs, this`emails, this`log
      ensures Valid() && old(log) <= log
      ensures FilesKept(old(dirs), dirs, FilesOf(old(entries))) && Genuine(rawOf, old(dirs), dirs)
      ensures r.Ok? ==> AllResolve(a) && (a.maps != [] ==> saved == entries)
      ensures r.Ok? && quiet ==>
        && AllCovered(a, W())
        && (AllCovered(a, old(W())) ==> AllSettled(a, W()) && emails == old(emails))
        && (AllSettled(a, old(W())) ==> W() == old(W()))
      ensures r.Err? && quiet && AllResolve(a) && AllCovered(a, old(W())) ==> r.error == Failed
      ensures Staged(a.maps, Stage(old(entries), old(dirs)), stages) && (r.Ok? ==> |stages| == |a.maps|)
      ensures LawfulStages(a, stages, log, |old(log)|)
      ensures r.Ok? ==> Unblocked(a, stages)
      ensures r.Err? && r.error == Collision ==> stages != [] && !Unblocked(a, stages)
    {
      hide Arrives, OthersAlike, Staged, LawfulStages, LawfulFrom, Logged, Identified, FilesKept, FilesOf, CarriedFrom, Carried, Progress, Brought, Genuine, Blocks, Unblocked, AllCovered, AllSettled;
      stages := [];
      ghost var w := W();
      RunStarts(a, w);
      StagesStart(a, Stage(entries, dirs), log);
      SameGenuine(rawOf, dirs);
      var i := 0;
      while i < |a.maps|
        invariant Genuine(rawOf, w.dirs, dirs)
        invariant i <= |a.maps| && Valid() && old(log) <= log
        invariant FilesKept(w.dirs, dirs, FilesOf(w.entries)) && Carried(a.maps, w.entries, entries, i)
        invariant (forall m: nat :: m < i ==> a.Resolves(m)) && (i > 0 ==> saved == entries)
        invariant quiet ==> Progress(a, w, W(), i)
        invariant |stages| == i && Staged(a.maps, Stage(w.entries, w.dirs), stages) && LawfulStages(a, stages, log, |old(log)|)
        invariant Unblocked(a, stages)
        invariant Arrives(a.maps, Stage(w.entries, w.dirs), stages, Stage(entries, dirs), i)
      {
        ghost var v := W();
        if quiet {
          StillFound(a, w, v, i);
        }
        ghost var before := log;
        r := SyncMailbox(i);
        ghost var now := Stage(v.entries, v.dirs);
        NextStage(a.maps, Stage(w.entries, w.dirs), stages, now, Stage(entries, dirs), i);
        StageLawful(a, stages, now, before, log, |old(log)|, i);
        StageUnblocked(a, stages, now, i);
        stages := stages + [now];
        GenuineThen(rawOf, w.dirs, v.dirs, dirs);
        CarriedStep(a.maps, w.entries, w.dirs, v.entries, v.dirs, entries, dirs, i);
        if r.Err? {
          return;
        }
        if quiet {
          ProgressStep(a, w, v, W(), i);
        }
        i := i + 1;
      }
      if quiet {
        RunEnds(a, w, W());
      }
      r := Ok(());
    }
  }

  /** Three runs with nobody else about. The first covers every member, the second settles
      every mapping and needs no change on the server, the third changes nothing. */
  method ThreeRuns(run: Run)
    returns (first: Result<(), MailError>, second: Result<(), MailError>, third: Result<(), MailError>,
             ghost w1: World, ghost w2: World)
    requires run.Valid() && run.quiet
    modifies run
    ensures run.Valid()
    ensures second.Err? && first.Ok? ==> second.error == Failed
    ensures third.Err? && second.Ok? ==> third.error == Failed
    ensures first.Ok? ==> AllResolve(run.a) && AllCovered(run.a, w1)
    ensures second.Ok? ==> first.Ok? && AllSettled(run.a, w2) && w2.emails == w1.emails
    ensures third.Ok? ==> second.Ok? && run.W() == w2 && (run.a.maps != [] ==> run.saved == w2.entries)
  {
    hide Covered, Settled, Identified, FilesKept, Undisturbed, Run.Logged;
    ghost var stages;
    first, stages := run.Sync();
    second, third := first, first;
    w1, w2 := run.W(), run.W();
    if first.Ok? {
      second, stages := run.Sync();
      third := second;
      w2 := run.W();
      if second.Ok? {
        third, stages := run.Sync();
      }
    }
  }

  // ------------------------------------------------------------------ the loops over one mapping

  /** Every entry of the mapping has its file. */
  ghost predicate AllFound(a: Account, w: World, i: nat)
    requires i < |a.maps|
  {
    FoundBut(a, w, i, {})
  }

  ghost predicate FoundBut(a: Account, w: World, i: nat, todo: set<Key>)
    requires i < |a.maps|
  {
    forall k :: k in w.entries && k.mailbox == a.maps[i].remote && k !in todo ==> Found(w.dirs, a.maps[i].local, w.entries[k].file)
  }

  /** The mapping's entries are old ones, and those still to do are all there. */
  ghost predicate RestOf(a: Account, copy: Entries, entries: Entries, i: nat, todo: set<Key>)
    requires i < |a.maps|
  {
    && (forall k :: k in entries && k.mailbox == a.maps[i].remote ==> k in copy && entries[k] == copy[k])
    && (forall k :: k in todo && k in copy && k.mailbox == a.maps[i].remote ==> k in entries)
  }

  lemma RestFiles(a: Account, copy: Entries, entries: Entries, i: nat, todo: set<Key>)
    requires i < |a.maps| && RestOf(a, copy, entries, i, todo)
    ensures FilesAt(entries, a.maps[i].remote) <= FilesAt(copy, a.maps[i].remote)
  {
  }

  lemma EntriesStep(a: Account, w: World, u: World, v: World, i: nat, k: Key, todo: set<Key>)
    requires i < |a.maps| && Propagated(a, u, v, i, k) && k.mailbox == a.maps[i].remote && k !in todo
    requires CarriedFrom(a.maps, w.entries, u.entries, i) && RestOf(a, w.entries, u.entries, i, todo + {k})
    ensures CarriedFrom(a.maps, w.entries, v.entries, i) && RestOf(a, w.entries, v.entries, i, todo)
    ensures FoundBut(a, u, i, todo + {k}) ==> FoundBut(a, v, i, todo)
  {
  }

  /** What dropping the vanished entries of mapping i has done so far. */
  ghost predicate Dropping(a: Account, w: World, v: World, i: nat, ids: set<Id>, todo: set<Key>)
    requires i < |a.maps|
  {
    var r := a.maps[i].remote;
    && OnlyAt(a, w, v, i) && Identified(a.maps, w.entries)
    && (forall k :: k in v.entries ==> k in w.entries && v.entries[k] == w.entries[k])
    && (forall k :: k in w.entries && (k.mailbox != r || k.id in ids) ==> k in v.entries)
    && (forall k :: k in v.entries && k.mailbox == r ==> k.id in ids || k in todo)
    && (forall k :: k in w.entries && k.mailbox == r && k.id in ids && Found(w.dirs, a.maps[i].local, w.entries[k].file) ==>
          Found(v.dirs, a.maps[i].local, w.entries[k].file))
    && FilesKept(w.dirs, v.dirs, FilesAt(w.entries, r))
    && ((forall k :: k in w.entries && k.mailbox == r ==> k.id in ids) ==> v == w)
  }

  lemma DroppingStarts(a: Account, w: World, i: nat, ids: set<Id>)
    requires i < |a.maps| && Identified(a.maps, w.entries)
    ensures Dropping(a, w, w, i, ids, w.entries.Keys)
  {
  }

  lemma DroppingFails(a: Account, w: World, v: World, i: nat, ids: set<Id>, todo: set<Key>)
    requires i < |a.maps| && Dropping(a, w, v, i, ids, todo)
    ensures Dropping(a, w, v, i, ids, w.entries.Keys)
  {
  }

  lemma SkipOne(a: Account, w: World, v: World, i: nat, ids: set<Id>, todo: set<Key>, k: Key)
    requires i < |a.maps| && Dropping(a, w, v, i, ids, todo)
    requires k in w.entries && (k.mailbox == a.maps[i].remote ==> k.id in ids)
    ensures Dropping(a, w, v, i, ids, todo - {k})
  {
  }

  lemma DropOne(a: Account, w: World, v: World, i: nat, ids: set<Id>, todo: set<Key>, k: Key)
    requires i < |a.maps| && Dropping(a, w, v, i, ids, todo)
    requires k in w.entries && k.mailbox == a.maps[i].remote && k.id !in ids
    ensures Dropping(a, w, World(v.entries - {k}, Remove(v.dirs, a.maps[i].local, w.entries[k].file), v.emails), i, ids, todo - {k})
    ensures Identified(a.maps, v.entries - {k})
  {
    DropKeepsFiles(a, w, v, i, k);
    RemoveEffect(v.dirs, a.maps[i].local, w.entries[k].file);
    hide FilesKept, FilesAt, Remove;
  }

  lemma DropKeepsFiles(a: Account, w: World, v: World, i: nat, k: Key)
    requires i < |a.maps| && k in w.entries && k.mailbox == a.maps[i].remote
    requires FilesKept(w.dirs, v.dirs, FilesAt(w.entries, a.maps[i].remote))
    ensures FilesKept(w.dirs, Remove(v.dirs, a.maps[i].local, w.entries[k].file), FilesAt(w.entries, a.maps[i].remote))
  {
  }
  /** The ids whose entry or file is missing. */
  function Wanted(a: Account, w: World, i: nat, ids: set<Id>): (s: set<Id>)
    requires i < |a.maps|
  {
    set id | id in ids && (KeyAt(a, i, id) !in w.entries || !Found(w.dirs, a.maps[i].local, w.entries[KeyAt(a, i, id)].file))
  }

  /** What downloading the missing messages of mapping i has done so far. */
  ghost predicate Fetching(a: Account, w: World, v: World, i: nat, missing: set<Id>, todo: set<Id>)
    requires i < |a.maps|
  {
    var r := a.maps[i].remote;
    && OnlyAt(a, w, v, i)
    && (forall k :: k in w.entries ==> k in v.entries)
    && (forall k :: k in w.entries && (k.mailbox != r || k.id !in missing) ==> v.entries[k] == w.entries[k])
    && (forall k :: k in v.entries ==> k in w.entries || (k.mailbox == r && k.id in missing))
    && (forall id :: id in missing && id !in todo && id in w.emails ==> HasFile(v, KeyAt(a, i, id)))
    && FilesKept(w.dirs, v.dirs, {})
    && (missing == {} ==> v == w)
  }

  lemma FetchingStarts(a: Account, w: World, i: nat, missing: set<Id>)
    requires i < |a.maps|
    ensures Fetching(a, w, w, i, missing, missing)
  {
  }

  lemma FetchingFails(a: Account, w: World, v: World, i: nat, missing: set<Id>, todo: set<Id>)
    requires i < |a.maps| && Fetching(a, w, v, i, missing, todo)
    ensures Fetching(a, w, v, i, missing, missing)
  {
  }

  lemma FetchNone(a: Account, w: World, v: World, i: nat, missing: set<Id>, todo: set<Id>, id: Id)
    requires i < |a.maps| && Fetching(a, w, v, i, missing, todo) && id !in w.emails
    ensures Fetching(a, w, v, i, missing, todo - {id})
  {
  }

  lemma PutKeeps(was: Maildirs, dirs: Maildirs, local: string, f: FileKey, raw: Raw)
    requires FilesKept(was, dirs, {})
    ensures FilesKept(was, Put(dirs, local, f, raw), {})
  {
  }

  lemma FetchIdentified(a: Account, entries: Entries, i: nat, id: Id)
    requires i < |a.maps| && Identified(a.maps, entries) && Distinct(a.maps)
    ensures
      var m := a.maps[i];
      Identified(a.maps, entries[KeyAt(a, i, id) := Entry(m.remote, id, m.local, StableKey(m.remote, id))])
  {
  }

  lemma FetchOne(a: Account, w: World, v: World, i: nat, missing: set<Id>, todo: set<Id>, id: Id, raw: Raw)
    requires i < |a.maps| && Fetching(a, w, v, i, missing, todo) && id in missing
    requires Identified(a.maps, v.entries) && Distinct(a.maps)
    ensures
      var m := a.maps[i];
      var f := StableKey(m.remote, id);
      var u := World(v.entries[KeyAt(a, i, id) := Entry(m.remote, id, m.local, f)], Put(v.dirs, m.local, f, raw), v.emails);
      Fetching(a, w, u, i, missing, todo - {id}) && Identified(a.maps, u.entries)
  {
    var m := a.maps[i];
    var f := StableKey(m.remote, id);
    PutEffect(v.dirs, m.local, f, raw);
    PutKeeps(w.dirs, v.dirs, m.local, f, raw);
    FetchIdentified(a, v.entries, i, id);
    hide FilesKept, Put, Identified;
    var u := World(v.entries[KeyAt(a, i, id) := Entry(m.remote, id, m.local, f)], Put(v.dirs, m.local, f, raw), v.emails);
    forall q | q in missing && q !in todo - {id} && q in w.emails ensures HasFile(u, KeyAt(a, i, q)) {
      assert q != id ==> HasFile(v, KeyAt(a, i, q));
    }
  }
  // ------------------------------------------------------------------ a mapping, a run

  /** What a quiet pass over mapping i brings about. */
  ghost predicate Brought(a: Account, w: World, v: World, i: nat)
    requires i < |a.maps|
  {
    && a.Resolves(i) && Settled(a, v, i) && KeepsCovered(a, w, v, i)
    && (Covered(a, w, i) ==> v.emails == w.emails && KeepsSettled(a, w, v, i))
    && (Settled(a, w, i) ==> v == w)
  }

  ghost predicate KeepsSettled(a: Account, w: World, v: World, i: nat) {
    forall m: nat :: m < |a.maps| && m != i && a.Resolves(m) && Settled(a, w, m) ==> Settled(a, v, m)
  }

  lemma NothingYet(a: Account, w: World, i: nat)
    requires i < |a.maps|
    ensures FilesKept(w.dirs, w.dirs, FilesAt(w.entries, a.maps[i].remote)) && CarriedFrom(a.maps, w.entries, w.entries, i)
    ensures OthersAlike(a.maps, w.dirs, w.dirs, i)
  {
  }

  lemma ShrunkMeans(a: Account, w: World, v: World, i: nat)
    requires i < |a.maps| && Shrunk(a, w, v, i)
    ensures v.dirs == w.dirs && CarriedFrom(a.maps, w.entries, v.entries, i)
    ensures FilesAt(v.entries, a.maps[i].remote) <= FilesAt(w.entries, a.maps[i].remote)
    ensures FilesKept(w.dirs, v.dirs, FilesAt(w.entries, a.maps[i].remote)) && OthersAlike(a.maps, w.dirs, v.dirs, i)
  {
  }

  lemma DroppedSoFar(a: Account, w: World, w1: World, w2: World, v: World, i: nat, ids: set<Id>, todo: set<Key>)
    requires i < |a.maps| && w1.dirs == w.dirs && w2.dirs == w1.dirs && w2.entries == w1.entries
    requires CarriedFrom(a.maps, w.entries, w1.entries, i)
    requires FilesAt(w1.entries, a.maps[i].remote) <= FilesAt(w.entries, a.maps[i].remote)
    requires Dropping(a, w2, v, i, ids, todo)
    ensures FilesKept(w.dirs, v.dirs, FilesAt(w.entries, a.maps[i].remote)) && CarriedFrom(a.maps, w.entries, v.entries, i)
    ensures OthersAlike(a.maps, w.dirs, v.dirs, i)
  {
  }

  lemma FetchedSoFar(a: Account, w: World, w3: World, w4: World, v: World, i: nat, ids: set<Id>, todo: set<Id>)
    requires i < |a.maps| && w4.entries == w3.entries && w4.dirs == w3.dirs
    requires FilesKept(w.dirs, w3.dirs, FilesAt(w.entries, a.maps[i].remote)) && CarriedFrom(a.maps, w.entries, w3.entries, i)
    requires Fetching(a, w4, v, i, Wanted(a, w4, i, ids), todo) && OthersAlike(a.maps, w.dirs, w3.dirs, i)
    ensures OthersAlike(a.maps, w.dirs, v.dirs, i)
    ensures FilesKept(w.dirs, v.dirs, FilesAt(w.entries, a.maps[i].remote)) && CarriedFrom(a.maps, w.entries, v.entries, i)
  {
  }

  /** After both halves, with the mailbox as it was queried, the mapping is settled. */
  lemma HalvesSettle(a: Account, w1: World, w3: World, v: World, i: nat, ids: set<Id>)
    requires a.Resolves(i) && Identified(a.maps, w3.entries) && Identified(a.maps, v.entries)
    requires forall id :: id in ids <==> Member(w1.emails, id, a.BoxOf(i))
    requires Dropping(a, w1, w3, i, ids, {}) && Fetching(a, w3, v, i, Wanted(a, w3, i, ids), {})
    ensures Settled(a, v, i)
  {
  }

  lemma IsBrought(a: Account, w: World, w1: World, w3: World, v: World, i: nat, ids: set<Id>)
    requires a.Valid() && a.Resolves(i)
    requires Identified(a.maps, w1.entries) && Identified(a.maps, w3.entries) && Identified(a.maps, v.entries)
    requires Identified(a.maps, w.entries)
    requires forall id :: id in ids <==> Member(w1.emails, id, a.BoxOf(i))
    requires KeepsCovered(a, w, w1, i) && (AllFound(a, w, i) ==> w1 == w)
    requires Dropping(a, w1, w3, i, ids, {}) && Fetching(a, w3, v, i, Wanted(a, w3, i, ids), {})
    ensures Brought(a, w, v, i)
  {
    HalvesSettle(a, w1, w3, v, i, ids);
    forall m: nat | m < |a.maps| && m != i && a.Resolves(m)
      ensures Covered(a, w1, m) ==> Covered(a, v, m)
      ensures Settled(a, w1, m) ==> Settled(a, v, m)
    {
      OnlyAtKeeps(a, w1, w3, i, m);
      OnlyAtKeeps(a, w3, v, i, m);
    }
    if Covered(a, w, i) {
      CoveredFound(a, w, i);
    }
    if Settled(a, w, i) {
      SettledCovered(a, w, i);
      SettledNothing(a, w, i, ids);
    }
  }

  lemma CoveredFound(a: Account, w: World, i: nat)
    requires a.Resolves(i) && Identified(a.maps, w.entries) && Covered(a, w, i)
    ensures AllFound(a, w, i)
  {
    forall k | k in w.entries && k.mailbox == a.maps[i].remote ensures Found(w.dirs, a.maps[i].local, w.entries[k].file) {
      assert k == KeyAt(a, i, k.id);
    }
  }

  lemma SettledNothing(a: Account, w: World, i: nat, ids: set<Id>)
    requires a.Resolves(i) && Identified(a.maps, w.entries) && Settled(a, w, i)
    requires forall id :: id in ids <==> Member(w.emails, id, a.BoxOf(i))
    ensures Wanted(a, w, i, ids) == {}
    ensures forall k :: k in w.entries && k.mailbox == a.maps[i].remote ==> k.id in ids
  {
    forall id | id in ids ensures id !in Wanted(a, w, i, ids) {
      assert IsMember(a, w, i, id) && HasFile(w, KeyAt(a, i, id));
    }
    forall k | k in w.entries && k.mailbox == a.maps[i].remote ensures k.id in ids {
      assert k == KeyAt(a, i, k.id);
      assert IsMember(a, w, i, k.id);
    }
  }

  /** Mappings before i are done; if all was covered or settled at first, that still shows. */
  ghost predicate Progress(a: Account, w: World, v: World, i: nat) {
    && (forall m: nat :: m < i && m < |a.maps| ==> a.Resolves(m) && Covered(a, v, m))
    && (AllResolve(a) && AllCovered(a, w) ==>
          && v.emails == w.emails && AllCovered(a, v)
          && forall m: nat :: m < i && m < |a.maps| ==> Settled(a, v, m))
    && (AllResolve(a) && AllSettled(a, w) ==> v == w)
  }

  lemma RunStarts(a: Account, w: World)
    ensures FilesKept(w.dirs, w.dirs, FilesOf(w.entries)) && Carried(a.maps, w.entries, w.entries, 0) && Progress(a, w, w, 0)
  {
  }

  lemma StillFound(a: Account, w: World, v: World, i: nat)
    requires i < |a.maps| && Progress(a, w, v, i) && Identified(a.maps, v.entries)
    ensures AllResolve(a) && AllCovered(a, w) ==> AllFound(a, v, i)
  {
    if AllResolve(a) && AllCovered(a, w) {
      CoveredFound(a, v, i);
    }
  }

  lemma ProgressStep(a: Account, w: World, v: World, u: World, i: nat)
    requires i < |a.maps| && Progress(a, w, v, i) && Brought(a, v, u, i)
    ensures Progress(a, w, u, i + 1)
  {
  }

  lemma RunEnds(a: Account, w: World, v: World)
    requires Progress(a, w, v, |a.maps|)
    ensures AllResolve(a) && AllCovered(a, v)
    ensures AllCovered(a, w) ==> AllSettled(a, v) && v.emails == w.emails
    ensures AllSettled(a, w) ==> v == w
  {
  }
}
