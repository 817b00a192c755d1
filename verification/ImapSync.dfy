/** A mail run over IMAP within one UIDVALIDITY epoch, and any history of runs, crashes,
    deliveries and local moves. */
module ImapSync {
  import opened Wrappers
  import opened MailWorld
  import opened ImapMail
  import opened ImapChanges

  datatype MailError = Failed | Refused | Copied | Collision

  class Run {
    const maps: seq<Mapping>
    const propagate: bool
    const uidplus: bool              // the server can expunge one message alone and tells new UIDs
    const override: bool             // without that, all marked messages may be expunged
    const atomicMove: bool           // the server can move in one step
    const quiet: bool                // nobody else changes the server
    const steady: bool               // nobody else takes a mark back
    const rawOf: FileKey -> Raw      // the message a marker names
    var entries: Entries
    var saved: Entries
    var dirs: Maildirs
    var server: Imap
    ghost const start: Imap
    ghost var log: seq<Change>

    constructor (maps: seq<Mapping>, propagate: bool, uidplus: bool, override: bool, atomicMove: bool,
                 quiet: bool, steady: bool, rawOf: FileKey -> Raw, server: Imap)
      requires Distinct(maps) && Sane(server) && (quiet ==> steady)
      ensures Valid() && this.maps == maps && this.propagate == propagate && this.server == server
      ensures this.uidplus == uidplus && this.override == override && this.quiet == quiet && this.steady == steady
      ensures entries == map[] && saved == map[] && start == server && log == []
    {
      this.maps, this.propagate, this.uidplus, this.override, this.atomicMove := maps, propagate, uidplus, override, atomicMove;
      this.quiet, this.steady, this.rawOf := quiet, steady, rawOf;
      this.entries, this.saved, this.dirs, this.server := map[], map[], map[], server;
      start, log := server, [];
    }

    function W(): (w: World)
      reads this
    {
      World(entries, dirs, server)
    }

    /** Everything that happened on the server is in the log. */
    ghost predicate Logged()
      reads this`server, this`log
    {
      && server == Replay(maps, start, log) && Aging(maps, start, log) && CopiedFirst(log)
      && forall c :: c in log ==> (c.Foreign? ==> !quiet) && (c.Sweep? ==> !uidplus && override)
    }

    ghost predicate Valid()
      reads this
    {
      && Distinct(maps) && Sane(server) && (quiet ==> steady) && Logged()
      && Sound(maps, steady, entries, server) && Sound(maps, steady, saved, server)
    }

    /** The server moves on by one logged change. */
    method Log(c: Change)
      requires Valid() && Later(server, Apply(maps, c, server)) && Sane(Apply(maps, c, server))
      requires CopiedBefore(log, c)
      requires (c.Foreign? ==> !quiet) && (c.Sweep? ==> !uidplus && override)
      modifies this`server, this`log
      ensures Valid() && server == Apply(maps, c, old(server)) && log == old(log) + [c]
    {
      hide Later, Apply, Sound, Sane;
      LogGrows(maps, start, log, c);
      LaterKeepsSound(maps, steady, entries, server, Apply(maps, c, server));
      LaterKeepsSound(maps, steady, saved, server, Apply(maps, c, server));
      server, log := Apply(maps, c, server), log + [c];
    }

    /** Deliveries and other clients, within the epoch. */
    method Others()
      requires Valid()
      modifies this`server, this`log
      ensures Valid() && Later(old(server), server) && (steady ==> MarksKept(old(server), server))
      ensures old(log) <= log && OnlyForeign(log, |old(log)|)
      ensures quiet ==> server == old(server) && log == old(log)
    {
      hide Later, MarksKept, Logged, Sound;
      UnchangedLater(server);
      if quiet {
        return;
      }
      var now: Imap := server;
      var n: nat := *;
      while n > 0
        invariant Sane(now) && Later(server, now) && (steady ==> MarksKept(server, now))
        invariant Valid() && log == old(log) && server == old(server)
      {
        ghost var was := now;
        now := OneOther(now);
        LaterTransitive(server, was, now);
        if steady {
          MarksKeptOn(server, was, now);
        }
        n := n - 1;
      }
      Log(Foreign(now));
    }

    /** One step of another client. */
    method OneOther(now: Imap) returns (next: Imap)
      requires Sane(now)
      ensures Sane(next) && Later(now, next) && (steady ==> MarksKept(now, next))
    {
      var m: string := *;
      var id: Id := *;
      var marked: bool := *;
      TakenLater(now, m, id);
      MarkLater(now, m, id);
      hide Later, MarksKept, Sane;
      if !now.Used(m, id) {
        DeliveredLater(now, m, id, marked);
        return now.Delivered(m, id, marked);
      }
      if marked {
        return now.WithMark(m, id);
      }
      if * {
        return now.Taken(m, id);
      }
      UnchangedLater(now);
      return if steady then now else now.WithoutMark(m, id);
    }

    /** Moves one message and learns its new UID, in one step or by copy and removal. */
    method MoveUID(i: nat, j: nat, k: Key) returns (r: Result<Id, MailError>)
      requires Valid() && i < |maps| && j < |maps| && k in entries && maps[j].remote != k.mailbox
      modifies this`server, this`log
      ensures Valid() && old(log) <= log && OnlyCarries(log, |old(log)|, i, k, j)
      ensures r == Err(Refused) <==> !uidplus
      ensures !uidplus ==> log == old(log)
      ensures r.Ok? ==> Later(old(server), server) && !old(server).Used(maps[j].remote, r.value)
      ensures r.Ok? && steady ==> !server.Has(k.mailbox, k.id)
      ensures r.Ok? ==> Key(maps[j].remote, r.value) !in entries && Sound(maps, steady, MovedEntry(maps, entries, k, j, r.value), server)
      ensures r.Ok? && quiet ==>
        Leaves(uidplus, old(server), server, k) && SameElsewhere(old(server), server, k.mailbox, {Key(maps[j].remote, r.value)})
      ensures r.Err? ==> r.error in {Failed, Refused}
    {
      if !uidplus {
        return Err(Refused);
      }
      hide Sound, Logged, Leaves, SameElsewhere, Later;
      ghost var first := server;
      Others();
      var id: Id := *;
      if server.Used(maps[j].remote, id) || !server.Has(k.mailbox, k.id) {
        return Err(Failed);
      }
      ghost var s := server;
      var done := CarryOver(i, j, k, id);
      if !done {
        return Err(Failed);
      }
      LaterTransitive(first, s, server);
      MoveKeepsSound(maps, steady, entries, k, j, id, s, server);
      UsedBefore(first, s, maps[j].remote, id);
      return Ok(id);
    }

    /** The message gets its new UID and loses its old one. */
    method CarryOver(i: nat, j: nat, k: Key, id: Id) returns (done: bool)
      requires Valid() && i < |maps| && j < |maps| && maps[j].remote != k.mailbox && uidplus
      requires !server.Used(maps[j].remote, id) && server.Used(k.mailbox, k.id)
      modifies this`server, this`log
      ensures Valid() && old(log) <= log && OnlyCarries(log, |old(log)|, i, k, j)
      ensures done ==> Later(old(server), server) && server.Used(maps[j].remote, id) && (steady ==> !server.Has(k.mailbox, k.id))
      ensures done && quiet ==>
        Leaves(true, old(server), server, k) && SameElsewhere(old(server), server, k.mailbox, {Key(maps[j].remote, id)})
    {
      hide Sound, Logged, Leaves, SameElsewhere;
      ghost var s := server;
      var marked: bool := *;
      DeliveredLater(s, maps[j].remote, id, marked);
      CarryLeaves(s, k, maps[j].remote, id, marked);
      ghost var delivered := s.Delivered(maps[j].remote, id, marked);
      if atomicMove {
        TakenLater(delivered, k.mailbox, k.id);
        LaterTransitive(s, delivered, delivered.Taken(k.mailbox, k.id));
        Log(Carry(i, k, j, id, marked));
      } else {
        Log(Copy(i, k, j, id, marked));
        if * {
          return false;
        }
        assert log[|old(log)|] == Copy(i, k, j, id, marked);
        var removed := MarkAndExpunge(i, k, Finish(i, k, j));
        if !removed {
          return false;
        }
        LaterTransitive(s, delivered, server);
      }
      done := *;
    }

    /** Marks a message and asks for its removal, alone or with all marked ones. */
    method MarkAndExpunge(i: nat, k: Key, c: Change) returns (done: bool)
      requires Valid() && !c.Foreign? && c.i == i && c.k == k && (c.Finish? || c.Expunge? || c.Sweep?)
      requires CopiedBefore(log, c) && server.Used(k.mailbox, k.id)
      requires c.Sweep? ==> !uidplus && override
      modifies this`server, this`log
      ensures Valid() && old(log) <= log
      ensures forall m :: |old(log)| <= m < |log| ==> log[m].Foreign? || log[m] == Mark(i, k) || log[m] == c
      ensures done ==> Later(old(server), server) && (steady ==> !server.Has(k.mailbox, k.id))
      ensures done && quiet ==> server == Removal(!c.Sweep?, old(server), k)
    {
      hide Sound, Logged;
      done := false;
      ghost var s := server;
      Others();
      ghost var t := server;
      if * {
        return;
      }
      MarkLater(t, k.mailbox, k.id);
      Log(Mark(i, k));
      ghost var u := server;
      Others();
      if * {
        return;
      }
      ghost var v := server;
      ExpungedLater(v, k.mailbox, k.id);
      SweptLater(v, k.mailbox);
      CopiedStays(old(log), log, c);
      Log(c);
      LaterTransitive(s, t, u);
      LaterTransitive(s, u, v);
      LaterTransitive(s, v, server);
      done := *;
    }

    /** Removes one message from the selected mailbox; a missing one is fine. Without the server's help it is
        refused, unless expunging all marked messages was allowed. */
    method DeleteUID(i: nat, k: Key) returns (r: Result<(), MailError>)
      requires Valid() && i < |maps| && server.Used(k.mailbox, k.id)
      modifies this`server, this`log
      ensures Valid() && old(log) <= log && OnlyRemoves(log, |old(log)|, i, k)
      ensures r.Err? ==> r.error in {Failed, Refused}
      ensures r == Err(Refused) <==> !uidplus && !override
      ensures r == Err(Refused) ==> log == old(log)
      ensures r.Ok? ==> Later(old(server), server) && (steady ==> !server.Has(k.mailbox, k.id))
      ensures r.Ok? && quiet ==> Leaves(uidplus, old(server), server, k) && SameElsewhere(old(server), server, k.mailbox, {})
    {
      hide Sound, Logged, Leaves, SameElsewhere, Removal;
      if !uidplus && !override {
        return Err(Refused);
      }
      RemovalLeaves(uidplus, server, k);
      var done := MarkAndExpunge(i, k, if uidplus then Expunge(i, k) else Sweep(i, k));
      return if done then Ok(()) else Err(Failed);
    }

    method Save() returns (r: Result<(), MailError>)
      requires Valid()
      modifies this`saved
      ensures Valid() && (r.Err? ==> r.error == Failed) && (r.Ok? ==> saved == entries)
    {
      if * {
        return Err(Failed);
      }
      saved := entries;
      return Ok(());
    }

    /** A tracked file is missing in its own Maildir: it was moved to another one, or removed.
        With several copies nothing is asked of the server, nor without its help, unless allowed. */
    method PropagateOne(i: nat, k: Key) returns (r: Result<(), MailError>)
      requires Valid() && i < |maps| && k in entries && k.mailbox == maps[i].remote
      requires !Found(dirs, maps[i].local, entries[k].file)
      modifies this`entries, this`saved, this`server, this`log
      ensures Valid() && (r.Err? ==> r.error != Collision)
      ensures Shifted(maps, old(entries), entries, i, k) && (r.Ok? ==> k !in entries)
      ensures r.Ok? && quiet ==> KeepsSettled(maps, old(W()), W(), i) && Leaves(uidplus, old(server), server, k)
      ensures old(log) <= log && LawfulFrom(maps, old(entries), old(dirs), i, log, |old(log)|)
      ensures r.Ok? ==> Later(old(server), server) && (steady ==> !server.Has(k.mailbox, k.id))
      ensures OnlyFor(log, |old(log)|, i, k)
      ensures r.Ok? && Copies(maps, old(entries), old(dirs), i, k) == {} ==> entries == old(entries) - {k}
      ensures r.Ok? && Copies(maps, old(entries), old(dirs), i, k) != {} ==>
        exists j: nat, id: Id :: Followed(maps, old(W()), entries, i, k, j, id)
      ensures r == Err(Refused) <==>
        !uidplus && !Spared(maps, old(entries), old(dirs), i, k) && (override ==> Copies(maps, old(entries), old(dirs), i, k) != {})
      ensures r == Err(Refused) || r == Err(Copied) ==> log == old(log) && entries == old(entries)
    {
      hide Sound, Logged, KeepsSettled, Shifted, Leaves;
      var move := FindTrackedMove(maps, dirs, maps[i].local, entries[k].file);
      match move
      case Ambiguous =>
        assert Copies(maps, entries, dirs, i, k) == Elsewhere(maps, dirs, maps[i].local, entries[k].file);
        RemovedShifts(maps, entries, i, k);
        return Err(Copied);
      case In(j) =>
        assert j as int in Elsewhere(maps, dirs, maps[i].local, entries[k].file);
        ghost var w := W();
        r := PropagateMove(i, j, k);
        if r.Ok? {
          ghost var id: Id :| !w.server.Used(maps[j].remote, id) && entries == MovedEntry(maps, w.entries, k, j, id);
          assert Followed(maps, w, entries, i, k, j, id);
        }
      case Nowhere =>
        r := PropagateRemoval(i, k);
    }

    /** The file is in one other mapped Maildir: the message follows it there. */
    method PropagateMove(i: nat, j: nat, k: Key) returns (r: Result<(), MailError>)
      requires Valid() && i < |maps| && j < |maps| && i != j
      requires k in entries && k.mailbox == maps[i].remote && Found(dirs, maps[j].local, entries[k].file)
      modifies this`entries, this`saved, this`server, this`log
      ensures Valid() && (r.Err? ==> r.error in {Failed, Refused})
      ensures r == Err(Refused) <==> !uidplus
      ensures r == Err(Refused) ==> log == old(log) && entries == old(entries)
      ensures Shifted(maps, old(entries), entries, i, k) && (r.Ok? ==> k !in entries)
      ensures r.Ok? && quiet ==> KeepsSettled(maps, old(W()), W(), i) && Leaves(uidplus, old(server), server, k)
      ensures old(log) <= log && OnlyCarries(log, |old(log)|, i, k, j)
      ensures r.Ok? ==> Later(old(server), server) && (steady ==> !server.Has(k.mailbox, k.id))
      ensures r.Ok? ==> exists id: Id :: !old(server).Used(maps[j].remote, id) && entries == MovedEntry(maps, old(entries), k, j, id)
    {
      hide Logged, Known, Identity, Sane, KeepsSettled, Shifted, Leaves, SameElsewhere, Later;
      ghost var w := W();
      SoundMeans(maps, steady, entries, server);
      var e := entries[k];
      RemovedShifts(maps, entries, i, k);
      var newID := MoveUID(i, j, k);
      if newID.Err? {
        return Err(newID.error);
      }
      var newKey := Key(maps[j].remote, newID.value);
      r := CheckDestination(newKey, e.file);
      if quiet {
        CarryKeepsSettled(maps, w, i, j, k, newID.value, server);
      }
      MovedShifts(maps, entries, i, j, k, newID.value);
      if r.Ok? {
        entries := (entries - {k})[newKey := Entry(maps[j].remote, newID.value, maps[j].local, e.file)];
        r := Save();
      }
    }

    /** The file is in no mapped Maildir: the message leaves the mailbox. */
    method PropagateRemoval(i: nat, k: Key) returns (r: Result<(), MailError>)
      requires Valid() && i < |maps| && k in entries && k.mailbox == maps[i].remote
      modifies this`entries, this`server, this`log
      ensures Valid() && (r.Err? ==> r.error in {Failed, Refused})
      ensures r == Err(Refused) <==> !uidplus && !override
      ensures r == Err(Refused) ==> log == old(log)
      ensures Shifted(maps, old(entries), entries, i, k) && (r.Ok? ==> k !in entries)
      ensures r.Ok? && quiet ==> KeepsSettled(maps, old(W()), W(), i) && Leaves(uidplus, old(server), server, k)
      ensures old(log) <= log && OnlyRemoves(log, |old(log)|, i, k)
      ensures r.Ok? ==> Later(old(server), server) && (steady ==> !server.Has(k.mailbox, k.id))
      ensures entries == if r.Ok? then old(entries) - {k} else old(entries)
    {
      hide Logged, Known, Identity, Sane, KeepsSettled, Shifted, Leaves, SameElsewhere, Later, Sound;
      ghost var w := W();
      RemovedShifts(maps, entries, i, k);
      SoundMeans(maps, steady, entries, server);
      r := DeleteUID(i, k);
      if r.Ok? {
        LessKeepsSound(maps, steady, entries, k, server);
        if quiet {
          RemovalKeepsSettled(maps, w, i, k, server);
        }
        entries := entries - {k};
      }
    }

    /** The new key must not track another file. */
    method CheckDestination(newKey: Key, file: FileKey) returns (r: Result<(), MailError>)
      ensures r == if newKey in entries && entries[newKey].file != file then Err(Collision) else Ok(())
    {
      if newKey in entries && entries[newKey].file != file {
        return Err(Collision);
      }
      return Ok(());
    }

    /** Local removals and moves of one mapping go to the server. */
    method Propagate(i: nat) returns (r: Result<(), MailError>)
      requires Valid() && i < |maps|
      modifies this`entries, this`saved, this`server, this`log
      ensures Valid() && (r.Err? ==> r.error != Collision)
      ensures Shrunk(maps, old(W()), W(), i)
      ensures r.Ok? ==> Propagating(maps, propagate, quiet, old(W()), W(), i, {})
      ensures old(log) <= log && LawfulFrom(maps, old(entries), old(dirs), i, log, |old(log)|)
      ensures r.Ok? && propagate ==> Later(old(server), server) && (steady ==> Gone(maps, old(W()), server, i, {}))
      ensures r.Ok? && propagate && quiet ==> Left(maps, uidplus, old(W()), server, i, {})
    {
      hide Propagating, Shrunk, Sound, Filed, Later, Gone, Logged, Lawful, Left;
      ghost var w := W();
      var copy := entries;
      var todo := copy.Keys;
      SoundMeans(maps, steady, copy, server);
      LaterStarts(server);
      LeftStarts(maps, uidplus, w, i);
      PropagatingStarts(maps, propagate, quiet, w, i);
      while todo != {}
        invariant Valid() && todo <= copy.Keys && copy == w.entries && Filed(maps, copy)
        invariant Propagating(maps, propagate, quiet, w, W(), i, todo)
        invariant propagate ==> Later(w.server, server) && (steady ==> Gone(maps, w, server, i, todo))
        invariant propagate && quiet ==> Left(maps, uidplus, w, server, i, todo)
        invariant old(log) <= log && LawfulFrom(maps, w.entries, w.dirs, i, log, |old(log)|)
        decreases |todo|
      {
        var k :| k in todo;
        assert todo == todo - {k} + {k};
        todo := todo - {k};
        ghost var before := log;
        r := PropagateEntry(i, k, copy[k], w, todo);
        LawfulOn(maps, w.entries, w.dirs, i, before, log, |old(log)|);
        if r.Err? {
          return;
        }
      }
      PropagatingShrunk(maps, propagate, quiet, w, W(), i, {});
      return Ok(());
    }

    method PropagateEntry(i: nat, k: Key, e: Entry, ghost w: World, ghost todo: set<Key>) returns (r: Result<(), MailError>)
      requires Valid() && i < |maps| && Filed(maps, w.entries) && k in w.entries && w.entries[k] == e && k !in todo
      requires Propagating(maps, propagate, quiet, w, W(), i, todo + {k})
      requires propagate ==> Later(w.server, server) && (steady ==> Gone(maps, w, server, i, todo + {k}))
      requires propagate && quiet ==> Left(maps, uidplus, w, server, i, todo + {k})
      modifies this`entries, this`saved, this`server, this`log
      ensures Valid() && (r.Err? ==> r.error != Collision)
      ensures r.Ok? ==> Propagating(maps, propagate, quiet, w, W(), i, todo)
      ensures r.Err? ==> Shrunk(maps, w, W(), i)
      ensures old(log) <= log && LawfulFrom(maps, w.entries, w.dirs, i, log, |old(log)|)
      ensures r.Ok? && propagate ==> Later(w.server, server) && (steady ==> Gone(maps, w, server, i, todo))
      ensures r.Ok? && propagate && quiet ==> Left(maps, uidplus, w, server, i, todo)
    {
      hide Propagating, Shrunk, Sound, Later, Gone, Logged, Lawful, Left, Leaves, KeepsSettled, Shifted;
      ghost var u := W();
      PropagatingDirs(maps, propagate, quiet, w, u, i, todo + {k});
      if e.mailbox != maps[i].remote || e.local != maps[i].local || Found(dirs, maps[i].local, e.file) || !propagate {
        PropagatingSkip(maps, propagate, quiet, w, u, i, k, todo);
        if propagate {
          SkipGone(maps, uidplus, w, server, i, todo, k);
        }
        return Ok(());
      }
      PropagatingStill(maps, propagate, quiet, w, u, i, k, todo);
      SoundMeans(maps, steady, entries, server);
      r := PropagateOne(i, k);
      LawfulAlike(maps, u.entries, w.entries, w.dirs, i, log, |old(log)|, k);
      if r.Ok? {
        PropagatedStep(maps, propagate, quiet, w, u, W(), i, k, todo);
        LaterTransitive(w.server, u.server, server);
        UsedAfter(u.server, server, k.mailbox, k.id);
        if steady {
          StaysGone(maps, w, u.server, server, i, todo + {k});
          OneMoreGone(maps, w, server, i, k, todo);
        }
        if quiet {
          LeftStep(maps, uidplus, w, u.server, server, i, todo, k);
        }
      } else {
        PropagatedHalf(maps, propagate, quiet, w, u, W(), i, k, todo + {k});
      }
    }

    method DropEntry(i: nat, k: Key, file: FileKey)
      requires Valid() && i < |maps|
      modifies this`entries, this`dirs
      ensures Valid() && entries == old(entries) - {k} && dirs == Remove(old(dirs), maps[i].local, file)
    {
      LessKeepsSound(maps, steady, entries, k, server);
      entries, dirs := entries - {k}, Remove(dirs, maps[i].local, file);
    }

    /** Messages no longer in the mailbox leave the Maildir and the entries. */
    method DropVanished(i: nat, uids: set<Id>) returns (r: Result<(), MailError>)
      requires Valid() && i < |maps|
      modifies this`entries, this`dirs
      ensures Valid() && (r.Err? ==> r.error == Failed)
      ensures Dropping(maps, old(W()), W(), i, uids, if r.Ok? then {} else old(entries).Keys)
      ensures Genuine(rawOf, old(dirs), dirs)
    {
      hide Dropping, Sound, Filed, Sane, Genuine, Logged;
      ghost var w := W();
      var copy := entries;
      var todo := copy.Keys;
      SoundMeans(maps, steady, copy, server);
      DroppingStarts(maps, w, i, uids);
      SameGenuine(rawOf, dirs);
      while todo != {}
        invariant Valid() && todo <= copy.Keys && copy == w.entries && Dropping(maps, w, W(), i, uids, todo)
        invariant server == w.server && Filed(maps, copy) && Genuine(rawOf, w.dirs, dirs)
        decreases |todo|
      {
        var k :| k in todo;
        assert copy[k] == w.entries[k] && k == Key(copy[k].mailbox, copy[k].id) by { FiledAt(maps, copy, k); }
        var e := copy[k];
        if e.mailbox == maps[i].remote && e.local == maps[i].local && e.id !in uids {
          if * {
            DroppingFails(maps, w, W(), i, uids, todo);
            return Err(Failed);
          }
          DropOne(maps, w, W(), i, uids, todo, k);
          RemoveGenuine(rawOf, w.dirs, dirs, maps[i].local, e.file);
          DropEntry(i, k, e.file);
        } else {
          SkipOne(maps, w, W(), i, uids, todo, k);
        }
        todo := todo - {k};
      }
      return Ok(());
    }

    /** Members without an entry or a file are downloaded. */
    method Download(i: nat, uids: set<Id>) returns (r: Result<(), MailError>)
      requires Valid() && i < |maps|
      modifies this`entries, this`dirs, this`server, this`log
      ensures old(log) <= log && OnlyForeign(log, |old(log)|)
      ensures Later(old(server), server)
      ensures Valid() && (r.Err? ==> r.error == Failed) && (quiet ==> server == old(server))
      ensures Fetching(maps, old(W()), W(), i, uids, if r.Ok? then {} else uids)
      ensures Genuine(rawOf, old(dirs), dirs)
    {
      ghost var w := W();
      var todo := uids;
      FetchingStarts(maps, w, i, uids);
      LaterStarts(server);
      SameGenuine(rawOf, dirs);
      while todo != {}
        invariant Valid() && Filed(maps, w.entries) && (quiet ==> server == w.server)
        invariant old(log) <= log && OnlyForeign(log, |old(log)|) && Later(w.server, server)
        invariant todo <= uids && Fetching(maps, w, W(), i, uids, todo) && Genuine(rawOf, w.dirs, dirs)
        decreases |todo|
      {
        hide Fetching, Sound, Filed, Genuine, Later, Logged;
        var id :| id in todo;
        var key := Key(maps[i].remote, id);
        if key in entries && Found(dirs, entries[key].local, entries[key].file) {
          FetchNone(maps, w, W(), i, uids, todo, id);
        } else {
          ghost var before, s := dirs, server;
          r := DownloadOne(i, id, w, uids, todo);
          GenuineThen(rawOf, w.dirs, before, dirs);
          LaterTransitive(w.server, s, server);
          if r.Err? {
            FetchingFails(maps, w, W(), i, uids, todo);
            return;
          }
        }
        todo := todo - {id};
      }
      return Ok(());
    }

    method DownloadOne(i: nat, id: Id, ghost w: World, ghost uids: set<Id>, ghost todo: set<Id>) returns (r: Result<(), MailError>)
      requires Valid() && i < |maps| && Filed(maps, w.entries) && id in uids
      requires Fetching(maps, w, W(), i, uids, todo) && !Tracks(W(), Key(maps[i].remote, id))
      modifies this`entries, this`dirs, this`server, this`log
      ensures old(log) <= log && OnlyForeign(log, |old(log)|)
      ensures Later(old(server), server)
      ensures Valid() && (r.Err? ==> r.error == Failed) && (quiet ==> server == old(server))
      ensures Fetching(maps, w, W(), i, uids, if r.Ok? then todo - {id} else todo)
      ensures Genuine(rawOf, old(dirs), dirs)
    {
      hide Fetching, Tracks, Genuine, Logged, Identity;
      SameGenuine(rawOf, dirs);
      ghost var u := W();
      var raw := UIDFetch(i, id);
      FetchingMoves(maps, w, u, i, uids, todo, server);
      if raw.Err? {
        return Err(raw.error);
      }
      var key := Key(maps[i].remote, id);
      var file := StableKey(key.mailbox, key.id);
      TracksAlike(u, server, key);
      FetchKeepsSound(maps, steady, entries, i, id, server);
      FetchOne(maps, w, W(), i, uids, todo, id, raw.value);
      PutGenuine(rawOf, dirs, dirs, maps[i].local, file);
      dirs := Put(dirs, maps[i].local, file, raw.value);
      entries := entries[key := Entry(maps[i].remote, id, maps[i].local, file)];
      return Ok(());
    }

    method UIDFetch(i: nat, id: Id) returns (r: Result<Raw, MailError>)
      requires Valid() && i < |maps|
      modifies this`server, this`log
      ensures old(log) <= log && OnlyForeign(log, |old(log)|)
      ensures Later(old(server), server)
      ensures Valid() && (r.Err? ==> r.error == Failed)
      ensures r.Ok? ==> server.Has(maps[i].remote, id) && r.value == rawOf(StableKey(maps[i].remote, id))
      ensures quiet ==> server == old(server)
    {
      Others();
      var broken: bool := *;
      if broken || !server.Has(maps[i].remote, id) {
        return Err(Failed);
      }
      return Ok(rawOf(StableKey(maps[i].remote, id)));
    }

    method UIDSearchAll(i: nat) returns (r: Result<set<Id>, MailError>)
      requires Valid() && i < |maps|
      modifies this`server, this`log
      ensures old(log) <= log && OnlyForeign(log, |old(log)|)
      ensures Later(old(server), server)
      ensures Valid() && (r.Err? ==> r.error == Failed) && (quiet ==> server == old(server))
      ensures r.Ok? ==> r.value == if maps[i].remote in server.present then server.present[maps[i].remote] else {}
    {
      Others();
      if * {
        return Err(Failed);
      }
      return Ok(if maps[i].remote in server.present then server.present[maps[i].remote] else {});
    }

    method SyncMailbox(i: nat) returns (r: Result<(), MailError>)
      requires Valid() && i < |maps|
      modifies this`entries, this`saved, this`dirs, this`server, this`log
      ensures Valid() && (r.Err? ==> r.error != Collision)
      ensures FilesKept(old(dirs), dirs, FilesAt(old(entries), maps[i].remote)) && Genuine(rawOf, old(dirs), dirs)
      ensures CarriedFrom(maps, old(entries), entries, i)
      ensures r.Ok? && quiet ==> Brought(maps, old(W()), W(), i)
      ensures r.Ok? ==> saved == entries
      ensures old(log) <= log && LawfulFrom(maps, old(entries), old(dirs), i, log, |old(log)|)
      ensures OthersAlike(maps, old(dirs), dirs, i)
      ensures r.Ok? && propagate ==> Later(old(server), server) && (steady ==> Gone(maps, old(W()), server, i, {}))
      ensures r.Ok? && propagate && quiet ==> Left(maps, uidplus, old(W()), server, i, {})
    {
      hide Propagating, Shrunk, Dropping, Fetching, FilesKept, CarriedFrom, FilesAt, Brought, Sound, Filed, OneFileEach, Sane, Genuine, Gone, Left, Later, Lawful, Logged, OthersAlike;
      ghost var w := W();
      SameGenuine(rawOf, dirs);
      r := Propagate(i);
      ghost var w1 := W();
      SoundMeans(maps, steady, w.entries, w.server);
      SoundMeans(maps, steady, entries, server);
      ShrunkFiles(maps, w, w1, i);
      ghost var before := log;
      if r.Err? {
        return;
      }
      var uids := UIDSearchAll(i);
      if uids.Err? {
        return Err(uids.error);
      }
      ghost var w1' := W();
      r := DropVanished(i, uids.value);
      ghost var w2 := W();
      SoundMeans(maps, steady, entries, server);
      DroppedOnly(maps, w, w1, w1', w2, i, uids.value, if r.Ok? then {} else w1'.entries.Keys);
      if r.Err? {
        return;
      }
      r := Download(i, uids.value);
      GenuineThen(rawOf, w.dirs, w2.dirs, dirs);
      FetchedOnly(maps, w, w2, W(), i, uids.value, if r.Ok? then {} else uids.value);
      if r.Err? {
        return;
      }
      LaterTransitive(w1.server, w1'.server, server);
      if propagate {
        LaterTransitive(w.server, w1.server, server);
        if steady {
          StaysGone(maps, w, w1.server, server, i, {});
        }
      }
      if quiet {
        SoundMeans(maps, steady, entries, server);
        QuietPass(maps, propagate, w, w1, w2, W(), i, uids.value);
      }
      r := Save();
    }

    /** All mappings in order. However it ends, identities hold, every change on the server was
        lawful with the entries and Maildirs of its mapping's stage, and no file is gone that was not
        tracked when the run began. A run that comes to its end with nobody else about settles every
        mapping, and changes nothing if all were settled before. */
    method Sync() returns (r: Result<(), MailError>, ghost stages: seq<Stage>)
      requires Valid()
      modifies this`entries, this`saved, this`dirs, this`server, this`log
      ensures Valid() && old(log) <= log && (r.Err? ==> r.error != Collision)
      ensures FilesKept(old(dirs), dirs, FilesOf(old(entries))) && Genuine(rawOf, old(dirs), dirs)
      ensures r.Ok? && quiet ==> AllSettled(maps, W()) && (AllSettled(maps, old(W())) ==> W() == old(W()))
      ensures r.Ok? && maps != [] ==> saved == entries
      ensures Staged(maps, Stage(old(entries), old(dirs)), stages) && (r.Ok? ==> |stages| == |maps|)
      ensures LawfulStages(maps, stages, log, |old(log)|)
      ensures r.Ok? && propagate && steady ==> GoneBefore(maps, old(W()), server, |maps|)
    {
      ghost var w := W();
      SameGenuine(rawOf, dirs);
      stages := [];
      var i := 0;
      while i < |maps|
        invariant Genuine(rawOf, w.dirs, dirs)
        invariant i <= |maps| && Valid() && old(log) <= log && (i > 0 ==> saved == entries)
        invariant FilesKept(w.dirs, dirs, FilesOf(w.entries)) && Carried(maps, w.entries, entries, i)
        invariant quiet ==> Progress(maps, w, W(), i)
        invariant propagate && steady ==> GoneBefore(maps, w, server, i)
        invariant |stages| == i && Staged(maps, Stage(w.entries, w.dirs), stages) && LawfulStages(maps, stages, log, |old(log)|)
        invariant Arrives(maps, Stage(w.entries, w.dirs), stages, Stage(entries, dirs), i)
      {
        hide Arrives, OthersAlike, Staged, LawfulStages, LawfulFrom, Logged, Sound, FilesKept, FilesOf, FilesAt, CarriedFrom, Carried, Progress, Brought, Genuine;
        ghost var v := W();
        ghost var before := log;
        r := SyncMailbox(i);
        ghost var now := Stage(v.entries, v.dirs);
        NextStage(maps, Stage(w.entries, w.dirs), stages, now, Stage(entries, dirs), i);
        StageLawful(maps, stages, now, before, log, |old(log)|, i);
        stages := stages + [now];
        GenuineThen(rawOf, w.dirs, v.dirs, dirs);
        CarriedStep(maps, w.entries, w.dirs, v.entries, v.dirs, entries, dirs, i);
        if r.Err? {
          return;
        }
        if propagate && steady {
          GoneStep(maps, w, v, server, i);
        }
        if quiet {
          ProgressStep(maps, w, v, W(), i);
        }
        i := i + 1;
      }
      if quiet {
        RunEnds(maps, w, W());
      }
      r := Ok(());
    }

    /** Any number of runs, broken off or not, with local changes of any kind and other clients in between. */
    method History(n: nat) returns (collided: bool)
      requires Valid()
      modifies this`entries, this`saved, this`dirs, this`server, this`log
      ensures Valid() && !collided
    {
      collided := false;
      var k := n;
      while k > 0
        invariant Valid() && !collided
      {
        k := k - 1;
        dirs := *;
        Others();
        entries := saved;
        var r, _ := Sync();
        collided := collided || r == Err(Collision);
      }
    }
  }

  /** A run, and what it leaves alone: however it ends, a message whose file was in place when it began, and
      that other clients keep, stays exactly if it is not expunged along with others. It stays if the server
      can expunge one message alone, if nothing else was allowed, or if it was not marked and nobody else
      marks it. */
  method SyncSpares(run: Run) returns (r: Result<(), MailError>)
    requires run.Valid()
    modifies run
    ensures run.Valid() && old(run.log) <= run.log
    ensures forall i: nat, k: Key ::
      InPlace(run.maps, old(run.entries), old(run.dirs), i, k) && old(run.server).Has(k.mailbox, k.id) ==>
        Stays(run.maps, run.start, run.log, |old(run.log)|, k)
    ensures run.uidplus || !run.override ==> forall i: nat, k: Key ::
      InPlace(run.maps, old(run.entries), old(run.dirs), i, k) && old(run.server).Has(k.mailbox, k.id) ==>
        OthersKeep(run.maps, run.start, run.log, |old(run.log)|, k.mailbox, k.id) ==> run.server.Has(k.mailbox, k.id)
    ensures run.quiet ==> forall i: nat, k: Key ::
      InPlace(run.maps, old(run.entries), old(run.dirs), i, k) && old(run.server).Has(k.mailbox, k.id) ==>
        !old(run.server).Marked(k.mailbox, k.id) ==> run.server.Has(k.mailbox, k.id)
  {
    hide Replay, Aging, Sound, Stays, CopiedFirst, SweptFrom, Staged, LawfulStages;
    ghost var s := Stage(run.entries, run.dirs);
    ghost var n := |run.log|;
    ghost var before := run.server;
    ghost var log := run.log;
    ghost var stages;
    r, stages := run.Sync();
    assert run.log[..n] == log;
    forall i: nat, k: Key | InPlace(run.maps, s.entries, s.dirs, i, k) && before.Has(k.mailbox, k.id)
      ensures Stays(run.maps, run.start, run.log, n, k)
    {
      InPlaceSurvive(run.maps, s, stages, run.start, run.log, n, i, k);
    }
    SparedMeans(run.maps, run.start, run.log, n);
  }
}
