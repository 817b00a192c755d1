/** Messages of an IMAP account within one UIDVALIDITY epoch, on values: identities of
    messages, entries and files, and settled mappings. */
module ImapMail {
  import opened MailWorld

  /** Messages by mailbox, every UID a mailbox has ever given out, and those marked as deleted. */
  datatype Imap = Imap(present: map<string, set<Id>>, used: map<string, set<Id>>, deleted: map<string, set<Id>>) {
    predicate Has(mailbox: string, id: Id) {
      id in IdsAt(present, mailbox)
    }

    predicate Used(mailbox: string, id: Id) {
      id in IdsAt(used, mailbox)
    }

    predicate Marked(mailbox: string, id: Id) {
      Has(mailbox, id) && id in IdsAt(deleted, mailbox)
    }

    /** A mark on a message that is not there is ignored. */
    function WithMark(mailbox: string, id: Id): (s: Imap) {
      if Has(mailbox, id) then this.(deleted := deleted[mailbox := IdsAt(deleted, mailbox) + {id}]) else this
    }

    function WithoutMark(mailbox: string, id: Id): (s: Imap) {
      this.(deleted := deleted[mailbox := IdsAt(deleted, mailbox) - {id}])
    }

    function Taken(mailbox: string, id: Id): (s: Imap) {
      this.(present := present[mailbox := IdsAt(present, mailbox) - {id}])
    }

    /** Removes one message if it is marked. */
    function Expunged(mailbox: string, id: Id): (s: Imap) {
      if Marked(mailbox, id) then Taken(mailbox, id) else this
    }

    /** Removes every marked message of the mailbox. */
    function Swept(mailbox: string): (s: Imap) {
      this.(present := present[mailbox := IdsAt(present, mailbox) - IdsAt(deleted, mailbox)])
    }

    function Delivered(mailbox: string, id: Id, marked: bool): (s: Imap) {
      if Has(mailbox, id) then this
      else Imap(present[mailbox := IdsAt(present, mailbox) + {id}], used[mailbox := IdsAt(used, mailbox) + {id}],
                deleted[mailbox := IdsAt(deleted, mailbox) - {id} + if marked then {id} else {}])
    }
  }

  function IdsAt(m: map<string, set<Id>>, mailbox: string): (ids: set<Id>) {
    if mailbox in m then m[mailbox] else {}
  }

  /** UIDs are never taken back: a message that was gone stays gone. */
  ghost predicate Later(s: Imap, t: Imap) {
    && (forall m: string, id: Id :: s.Used(m, id) ==> t.Used(m, id))
    && (forall m: string, id: Id :: t.Has(m, id) ==> t.Used(m, id))
    && (forall m: string, id: Id :: t.Has(m, id) && s.Used(m, id) ==> s.Has(m, id))
  }

  // ------------------------------------------------------------------ identity

  /** Entries and files name UIDs that were given out, and a file that was carried away
      from the message it was downloaded for outlives that message. */
  ghost predicate Issued(entries: Entries, s: Imap) {
    forall k :: k in entries ==>
      && s.Used(k.mailbox, k.id)
      && s.Used(entries[k].file.mailbox, entries[k].file.id)
      && (entries[k].file != StableKey(k.mailbox, k.id) ==> !s.Has(entries[k].file.mailbox, entries[k].file.id))
  }

  ghost predicate OneFileEach(entries: Entries) {
    forall k, q :: k in entries && q in entries && entries[k].file == entries[q].file ==> k == q
  }

  /** Every key is that of its entry, no file belongs to two entries, every UID is real. */
  ghost predicate Identity(maps: seq<Mapping>, entries: Entries, s: Imap) {
    Filed(maps, entries) && Issued(entries, s) && OneFileEach(entries)
  }

  /** Every key is that of its entry, and its UID was given out. */
  ghost predicate Known(maps: seq<Mapping>, entries: Entries, s: Imap) {
    Filed(maps, entries) && forall k :: k in entries ==> s.Used(k.mailbox, k.id)
  }

  /** What always holds of the entries, and of steady servers. */
  ghost predicate Sound(maps: seq<Mapping>, steady: bool, entries: Entries, s: Imap) {
    Known(maps, entries, s) && (steady ==> Identity(maps, entries, s))
  }

  lemma SoundMeans(maps: seq<Mapping>, steady: bool, entries: Entries, s: Imap)
    requires Sound(maps, steady, entries, s)
    ensures Filed(maps, entries) && (steady ==> OneFileEach(entries))
    ensures forall k :: k in entries ==> s.Used(k.mailbox, k.id)
  {
  }

  lemma LaterKeepsIdentity(maps: seq<Mapping>, entries: Entries, s: Imap, t: Imap)
    requires Identity(maps, entries, s) && Later(s, t)
    ensures Identity(maps, entries, t)
  {
  }

  lemma LaterKeepsSound(maps: seq<Mapping>, steady: bool, entries: Entries, s: Imap, t: Imap)
    requires Sound(maps, steady, entries, s) && Later(s, t)
    ensures Sound(maps, steady, entries, t)
  {
    if steady {
      LaterKeepsIdentity(maps, entries, s, t);
    }
    hide Identity;
  }

  lemma LaterStarts(s: Imap)
    ensures Sane(s) ==> Later(s, s)
  {
  }

  lemma UnchangedLater(s: Imap)
    requires Sane(s)
    ensures Later(s, s) && MarksKept(s, s)
  {
  }

  lemma UsedAfter(s: Imap, t: Imap, m: string, id: Id)
    requires Later(s, t) && s.Used(m, id)
    ensures t.Used(m, id)
  {
  }

  lemma UsedBefore(s: Imap, t: Imap, m: string, id: Id)
    requires Later(s, t) && !t.Used(m, id)
    ensures !s.Used(m, id)
  {
  }

  lemma LaterTransitive(s: Imap, t: Imap, u: Imap)
    requires Later(s, t) && Later(t, u)
    ensures Later(s, u)
  {
  }

  ghost predicate Sane(s: Imap) {
    forall m: string, id: Id :: s.Has(m, id) ==> s.Used(m, id)
  }

  /** No mark is taken back. */
  ghost predicate MarksKept(s: Imap, t: Imap) {
    forall m: string, id: Id :: s.Marked(m, id) && t.Has(m, id) ==> t.Marked(m, id)
  }

  lemma MarksKeptOn(s: Imap, t: Imap, u: Imap)
    requires Sane(s) && Later(s, t) && Later(t, u) && MarksKept(s, t) && MarksKept(t, u)
    ensures MarksKept(s, u)
  {
  }

  lemma TakenLater(s: Imap, m: string, id: Id)
    requires Sane(s)
    ensures var t := s.Taken(m, id); Later(s, t) && Sane(t) && MarksKept(s, t) && !t.Has(m, id)
  {
  }

  lemma ExpungedLater(s: Imap, m: string, id: Id)
    requires Sane(s)
    ensures var t := s.Expunged(m, id); Later(s, t) && Sane(t) && (t.Has(m, id) <==> s.Has(m, id) && !s.Marked(m, id))
  {
  }

  lemma SweptLater(s: Imap, m: string)
    requires Sane(s)
    ensures var t := s.Swept(m); Later(s, t) && Sane(t) && forall id :: t.Has(m, id) <==> s.Has(m, id) && !s.Marked(m, id)
  {
  }

  lemma MarkLater(s: Imap, m: string, id: Id)
    requires Sane(s)
    ensures var t := s.WithMark(m, id); Later(s, t) && Sane(t) && MarksKept(s, t) && (t.Has(m, id) ==> t.Marked(m, id))
    ensures Later(s, s.WithoutMark(m, id)) && Sane(s.WithoutMark(m, id))
  {
  }

  lemma DeliveredLater(s: Imap, m: string, id: Id, marked: bool)
    requires Sane(s) && !s.Used(m, id)
    ensures var t := s.Delivered(m, id, marked); Later(s, t) && Sane(t) && MarksKept(s, t) && t.Used(m, id)
  {
  }

  lemma LessKeepsSound(maps: seq<Mapping>, steady: bool, entries: Entries, k: Key, s: Imap)
    requires Sound(maps, steady, entries, s)
    ensures Sound(maps, steady, entries - {k}, s)
  {
  }

  // ------------------------------------------------------------------ removal

  /** Marks one message and expunges it alone, or with all marked ones where the server cannot do that. */
  function Removal(uidplus: bool, s: Imap, k: Key): (t: Imap) {
    var marked := s.WithMark(k.mailbox, k.id);
    if uidplus then marked.Expunged(k.mailbox, k.id) else marked.Swept(k.mailbox)
  }

  /** A removal without others about spares every other message of the mailbox exactly when the server
      can expunge one message alone, or no other is marked. */
  lemma RemovalSparesIff(uidplus: bool, s: Imap, k: Key)
    ensures (forall id :: id != k.id && s.Has(k.mailbox, id) ==> Removal(uidplus, s, k).Has(k.mailbox, id)) <==>
      (uidplus || forall id :: id != k.id ==> !s.Marked(k.mailbox, id))
  {
    forall id | id != k.id
      ensures Removal(uidplus, s, k).Has(k.mailbox, id) <==> s.Has(k.mailbox, id) && (uidplus || !s.Marked(k.mailbox, id))
    {
    }
  }

  /** In the message's mailbox it goes, and where needed all marked ones with it; marks stay. */
  ghost predicate Leaves(uidplus: bool, s: Imap, t: Imap, k: Key) {
    && (forall id: Id :: t.Has(k.mailbox, id) <==>
          s.Has(k.mailbox, id) && id != k.id && (uidplus || !s.Marked(k.mailbox, id)))
    && (forall id: Id :: t.Has(k.mailbox, id) ==> (t.Marked(k.mailbox, id) <==> s.Marked(k.mailbox, id)))
  }

  /** In other mailboxes nothing goes, and only these messages come. */
  ghost predicate SameElsewhere(s: Imap, t: Imap, mailbox: string, come: set<Key>) {
    forall m: string, id: Id :: m != mailbox ==> (t.Has(m, id) <==> s.Has(m, id) || Key(m, id) in come)
  }

  lemma RemovalLeaves(uidplus: bool, s: Imap, k: Key)
    ensures Leaves(uidplus, s, Removal(uidplus, s, k), k) && SameElsewhere(s, Removal(uidplus, s, k), k.mailbox, {})
  {
  }

  /** The message comes to another mailbox and leaves this one, in one step or by copy and removal. */
  lemma CarryLeaves(s: Imap, k: Key, m: string, id: Id, marked: bool)
    requires m != k.mailbox
    ensures
      var t := s.Delivered(m, id, marked);
      && Leaves(true, s, t.Taken(k.mailbox, k.id), k) && SameElsewhere(s, t.Taken(k.mailbox, k.id), k.mailbox, {Key(m, id)})
      && Leaves(true, s, Removal(true, t, k), k) && SameElsewhere(s, Removal(true, t, k), k.mailbox, {Key(m, id)})
  {
  }

  function MovedEntry(maps: seq<Mapping>, entries: Entries, k: Key, j: nat, id: Id): (r: Entries)
    requires k in entries && j < |maps|
  {
    (entries - {k})[Key(maps[j].remote, id) := Entry(maps[j].remote, id, maps[j].local, entries[k].file)]
  }

  /** An entry that follows its file to a fresh UID, which no entry has yet, keeps every identity apart
      exactly if the message that the file was downloaded for does not stay behind. */
  lemma MoveKeepsIdentity(maps: seq<Mapping>, entries: Entries, k: Key, j: nat, id: Id, s: Imap, t: Imap)
    requires Distinct(maps) && j < |maps| && k in entries && Identity(maps, entries, s)
    requires !s.Used(maps[j].remote, id) && Later(s, t) && t.Used(maps[j].remote, id)
    ensures Key(maps[j].remote, id) !in entries
    ensures Identity(maps, MovedEntry(maps, entries, k, j, id), t) <==>
      (entries[k].file == StableKey(k.mailbox, k.id) ==> !t.Has(k.mailbox, k.id))
  {
    var moved := MovedEntry(maps, entries, k, j, id);
    assert Filed(maps, moved) && OneFileEach(moved);
    var key := Key(maps[j].remote, id);
    assert key in moved && moved[key].file == entries[k].file;
    assert forall q :: q in moved && q != key ==> q in entries && moved[q] == entries[q];
  }

  lemma MoveKeepsSound(maps: seq<Mapping>, steady: bool, entries: Entries, k: Key, j: nat, id: Id, s: Imap, t: Imap)
    requires Distinct(maps) && j < |maps| && k in entries && Sound(maps, steady, entries, s)
    requires !s.Used(maps[j].remote, id) && Later(s, t) && t.Used(maps[j].remote, id) && (steady ==> !t.Has(k.mailbox, k.id))
    ensures Sound(maps, steady, MovedEntry(maps, entries, k, j, id), t)
    ensures Key(maps[j].remote, id) !in entries
  {
    if steady {
      MoveKeepsIdentity(maps, entries, k, j, id, s, t);
    }
    hide Identity;
  }

  function Fetched(maps: seq<Mapping>, entries: Entries, i: nat, id: Id): (r: Entries)
    requires i < |maps|
  {
    var m := maps[i];
    entries[Key(m.remote, id) := Entry(m.remote, id, m.local, StableKey(m.remote, id))]
  }

  /** A message that is there is downloaded under a marker no other entry has. */
  lemma FetchKeepsIdentity(maps: seq<Mapping>, entries: Entries, i: nat, id: Id, s: Imap)
    requires Distinct(maps) && i < |maps| && Identity(maps, entries, s) && s.Has(maps[i].remote, id) && Sane(s)
    ensures Identity(maps, Fetched(maps, entries, i, id), s)
  {
  }

  lemma FetchKeepsSound(maps: seq<Mapping>, steady: bool, entries: Entries, i: nat, id: Id, s: Imap)
    requires Distinct(maps) && i < |maps| && Sound(maps, steady, entries, s) && s.Has(maps[i].remote, id) && Sane(s)
    ensures Sound(maps, steady, Fetched(maps, entries, i, id), s)
  {
    if steady {
      FetchKeepsIdentity(maps, entries, i, id, s);
    }
    hide Identity;
  }

  // ------------------------------------------------------------------ settled

  datatype World = World(entries: Entries, dirs: Maildirs, server: Imap)

  predicate Tracks(w: World, k: Key) {
    k in w.entries && Found(w.dirs, w.entries[k].local, w.entries[k].file)
  }

  function KeyAt(maps: seq<Mapping>, i: nat, id: Id): (k: Key)
    requires i < |maps|
  {
    Key(maps[i].remote, id)
  }

  /** Entries, messages and files of the mapping correspond one to one. */
  ghost predicate Settled(maps: seq<Mapping>, w: World, i: nat)
    requires i < |maps|
  {
    forall id: Id ::
      && (KeyAt(maps, i, id) in w.entries <==> w.server.Has(maps[i].remote, id))
      && (KeyAt(maps, i, id) in w.entries ==> Tracks(w, KeyAt(maps, i, id)))
  }

  ghost predicate AllSettled(maps: seq<Mapping>, w: World) {
    forall i: nat :: i < |maps| ==> Settled(maps, w, i)
  }

  ghost predicate KeepsSettled(maps: seq<Mapping>, w: World, v: World, i: nat) {
    forall m: nat :: m < |maps| && m != i && Settled(maps, w, m) ==> Settled(maps, v, m)
  }

  /** Every entry of the mapping has its file. */
  ghost predicate AllFound(maps: seq<Mapping>, w: World, i: nat)
    requires i < |maps|
  {
    FoundBut(maps, w, i, {})
  }

  ghost predicate FoundBut(maps: seq<Mapping>, w: World, i: nat, todo: set<Key>)
    requires i < |maps|
  {
    forall k :: k in w.entries && k.mailbox == maps[i].remote && k !in todo ==> Found(w.dirs, maps[i].local, w.entries[k].file)
  }

  /** Only the entries and files of mapping i differ. */
  ghost predicate OnlyAt(maps: seq<Mapping>, w: World, v: World, i: nat)
    requires i < |maps|
  {
    && v.server == w.server
    && (forall k: Key :: k.mailbox != maps[i].remote ==>
          (k in v.entries <==> k in w.entries) && (k in w.entries ==> v.entries[k] == w.entries[k]))
    && (forall l: string, f: FileKey :: l != maps[i].local ==> (Found(w.dirs, l, f) <==> Found(v.dirs, l, f)))
  }

  lemma OnlyAtKeeps(maps: seq<Mapping>, w: World, v: World, i: nat)
    requires Distinct(maps) && i < |maps| && Filed(maps, w.entries) && OnlyAt(maps, w, v, i)
    ensures KeepsSettled(maps, w, v, i)
  {
  }

  /** Carrying a message to another mapping settles it there and unsettles no other but the one it leaves. */
  lemma CarryKeepsSettled(maps: seq<Mapping>, w: World, i: nat, j: nat, k: Key, id: Id, server: Imap)
    requires Distinct(maps) && i < |maps| && j < |maps| && i != j && Filed(maps, w.entries)
    requires k in w.entries && k.mailbox == maps[i].remote && Found(w.dirs, maps[j].local, w.entries[k].file)
    requires SameElsewhere(w.server, server, k.mailbox, {Key(maps[j].remote, id)})
    ensures KeepsSettled(maps, w, World(MovedEntry(maps, w.entries, k, j, id), w.dirs, server), i)
  {
  }

  lemma RemovalKeepsSettled(maps: seq<Mapping>, w: World, i: nat, k: Key, server: Imap)
    requires Distinct(maps) && i < |maps| && k.mailbox == maps[i].remote && SameElsewhere(w.server, server, k.mailbox, {})
    ensures KeepsSettled(maps, w, World(w.entries - {k}, w.dirs, server), i)
  {
  }

  // ------------------------------------------------------------------ the three loops of a mapping

  /** What one propagated entry changes among the entries. */
  ghost predicate Shifted(maps: seq<Mapping>, was: Entries, now: Entries, i: nat, k: Key)
    requires i < |maps|
  {
    && CarriedFrom(maps, was, now, i)
    && (forall q: Key :: q.mailbox == maps[i].remote && q != k ==>
          (q in now <==> q in was) && (q in was ==> now[q] == was[q]))
    && (k in now ==> k in was && now[k] == was[k])
  }

  lemma MovedShifts(maps: seq<Mapping>, entries: Entries, i: nat, j: nat, k: Key, id: Id)
    requires Distinct(maps) && i < |maps| && j < |maps| && i != j && k in entries && k.mailbox == maps[i].remote
    requires Key(maps[j].remote, id) !in entries
    ensures Shifted(maps, entries, MovedEntry(maps, entries, k, j, id), i, k) && k !in MovedEntry(maps, entries, k, j, id)
  {
  }

  lemma RemovedShifts(maps: seq<Mapping>, entries: Entries, i: nat, k: Key)
    requires i < |maps| && k.mailbox == maps[i].remote
    ensures Shifted(maps, entries, entries - {k}, i, k) && Shifted(maps, entries, entries, i, k)
  {
  }

  /** The entry follows its file to the one other mapping that has it, under a fresh UID. */
  ghost predicate Followed(maps: seq<Mapping>, w: World, now: Entries, i: nat, k: Key, j: nat, id: Id) {
    && i < |maps| && j < |maps| && k in w.entries && Copies(maps, w.entries, w.dirs, i, k) == {j as int}
    && !w.server.Used(maps[j].remote, id) && now == MovedEntry(maps, w.entries, k, j, id)
  }

  /** Messages of the mapping whose files were missing are no longer there, but for those to do. */
  ghost predicate Gone(maps: seq<Mapping>, w: World, server: Imap, i: nat, todo: set<Key>)
    requires i < |maps|
  {
    forall k :: k in w.entries && k !in todo && k.mailbox == maps[i].remote && !Found(w.dirs, maps[i].local, w.entries[k].file) ==>
      server.Used(k.mailbox, k.id) && !server.Has(k.mailbox, k.id)
  }

  lemma StaysGone(maps: seq<Mapping>, w: World, s: Imap, t: Imap, i: nat, todo: set<Key>)
    requires i < |maps| && Gone(maps, w, s, i, todo) && Later(s, t)
    ensures Gone(maps, w, t, i, todo)
  {
  }

  lemma OneMoreGone(maps: seq<Mapping>, w: World, s: Imap, i: nat, k: Key, todo: set<Key>)
    requires i < |maps| && Gone(maps, w, s, i, todo + {k}) && s.Used(k.mailbox, k.id) && !s.Has(k.mailbox, k.id)
    ensures Gone(maps, w, s, i, todo)
  {
  }

  /** The mappings before i. */
  ghost predicate GoneBefore(maps: seq<Mapping>, w: World, server: Imap, i: nat) {
    forall m: nat :: m < i && m < |maps| ==> Gone(maps, w, server, m, {})
  }

  lemma GoneStep(maps: seq<Mapping>, w: World, v: World, server: Imap, i: nat)
    requires i < |maps| && GoneBefore(maps, w, v.server, i) && Gone(maps, v, server, i, {}) && Later(v.server, server)
    requires OwnAlike(maps, Stage(w.entries, w.dirs), Stage(v.entries, v.dirs), i)
    ensures GoneBefore(maps, w, server, i + 1)
  {
    hide Later;
    forall m: nat | m < i ensures Gone(maps, w, server, m, {}) {
      StaysGone(maps, w, v.server, server, m, {});
    }
  }

  /** The file of an entry of the mapping is missing, and its turn has been. */
  ghost predicate Done(maps: seq<Mapping>, w: World, i: nat, todo: set<Key>, k: Key)
    requires i < |maps|
  {
    k in w.entries && k !in todo && k.mailbox == maps[i].remote && !Found(w.dirs, maps[i].local, w.entries[k].file)
  }

  /** What is left in the mailbox: all but the messages of missing files, and where one message cannot be
      expunged alone, all but the marked ones as soon as one was removed. */
  ghost predicate Left(maps: seq<Mapping>, uidplus: bool, w: World, server: Imap, i: nat, todo: set<Key>)
    requires i < |maps|
  {
    var r := maps[i].remote;
    && (forall id: Id :: server.Has(r, id) <==>
          && w.server.Has(r, id) && !Done(maps, w, i, todo, KeyAt(maps, i, id))
          && (uidplus || !w.server.Marked(r, id) || forall k :: !Done(maps, w, i, todo, k)))
    && (forall id: Id :: server.Has(r, id) ==> (server.Marked(r, id) <==> w.server.Marked(r, id)))
  }

  lemma LeftStarts(maps: seq<Mapping>, uidplus: bool, w: World, i: nat)
    requires i < |maps|
    ensures Left(maps, uidplus, w, w.server, i, w.entries.Keys)
  {
  }

  lemma LeftStep(maps: seq<Mapping>, uidplus: bool, w: World, s: Imap, t: Imap, i: nat, todo: set<Key>, k: Key)
    requires i < |maps| && Left(maps, uidplus, w, s, i, todo + {k}) && Leaves(uidplus, s, t, k) && Done(maps, w, i, todo, k)
    ensures Left(maps, uidplus, w, t, i, todo)
  {
    forall q ensures Done(maps, w, i, todo, q) <==> q == k || Done(maps, w, i, todo + {k}, q) {
    }
    hide Done;
    forall id: Id ensures KeyAt(maps, i, id) == k <==> k.mailbox == maps[i].remote && id == k.id {
    }
    assert k.mailbox == maps[i].remote by { DoneHere(maps, w, i, todo, k); }
  }

  lemma DoneHere(maps: seq<Mapping>, w: World, i: nat, todo: set<Key>, k: Key)
    requires i < |maps| && Done(maps, w, i, todo, k)
    ensures k.mailbox == maps[i].remote
  {
  }

  lemma LeftSkip(maps: seq<Mapping>, uidplus: bool, w: World, s: Imap, i: nat, todo: set<Key>, k: Key)
    requires i < |maps| && Left(maps, uidplus, w, s, i, todo + {k}) && !Done(maps, w, i, todo, k)
    ensures Left(maps, uidplus, w, s, i, todo)
  {
    forall q ensures Done(maps, w, i, todo, q) <==> Done(maps, w, i, todo + {k}, q) {
    }
    hide Done;
  }

  lemma SkipGone(maps: seq<Mapping>, uidplus: bool, w: World, s: Imap, i: nat, todo: set<Key>, k: Key)
    requires i < |maps| && !Done(maps, w, i, todo, k)
    ensures Gone(maps, w, s, i, todo + {k}) ==> Gone(maps, w, s, i, todo)
    ensures Left(maps, uidplus, w, s, i, todo + {k}) ==> Left(maps, uidplus, w, s, i, todo)
  {
    if Left(maps, uidplus, w, s, i, todo + {k}) {
      LeftSkip(maps, uidplus, w, s, i, todo, k);
    }
    hide Left;
  }

  /** An undisturbed pass spares every message whose file is in place, or that has none yet, exactly when the
      server can expunge one message alone, no file was missing, or none of them was marked. */
  lemma PassSparesIff(maps: seq<Mapping>, uidplus: bool, w: World, server: Imap, i: nat)
    requires i < |maps| && Left(maps, uidplus, w, server, i, {})
    ensures
      var r := maps[i].remote;
      (forall id :: w.server.Has(r, id) && !Done(maps, w, i, {}, KeyAt(maps, i, id)) ==> server.Has(r, id)) <==>
      (uidplus || (forall k :: !Done(maps, w, i, {}, k))
        || forall id :: w.server.Marked(r, id) ==> Done(maps, w, i, {}, KeyAt(maps, i, id)))
  {
    hide Done;
  }

  /** Where the loop over missing files stands. */
  ghost predicate Propagating(maps: seq<Mapping>, propagate: bool, quiet: bool, w: World, v: World, i: nat, todo: set<Key>)
    requires i < |maps|
  {
    && v.dirs == w.dirs
    && CarriedFrom(maps, w.entries, v.entries, i)
    && (forall k :: k in v.entries && k.mailbox == maps[i].remote ==> k in w.entries && v.entries[k] == w.entries[k])
    && (forall k :: k in todo && k in w.entries && k.mailbox == maps[i].remote ==> k in v.entries)
    && (propagate ==> FoundBut(maps, v, i, todo))
    && (quiet ==> KeepsSettled(maps, w, v, i))
    && (!propagate || AllFound(maps, w, i) ==> v.entries == w.entries && (quiet ==> v.server == w.server))
  }

  lemma PropagatedStep(maps: seq<Mapping>, propagate: bool, quiet: bool, w: World, u: World, v: World, i: nat, k: Key, todo: set<Key>)
    requires i < |maps| && Propagating(maps, propagate, quiet, w, u, i, todo + {k}) && k !in todo
    requires Shifted(maps, u.entries, v.entries, i, k) && v.dirs == u.dirs && k !in v.entries && k.mailbox == maps[i].remote
    requires propagate && !AllFound(maps, w, i) && (quiet ==> KeepsSettled(maps, u, v, i))
    ensures Propagating(maps, propagate, quiet, w, v, i, todo)
  {
  }

  lemma PropagatingStarts(maps: seq<Mapping>, propagate: bool, quiet: bool, w: World, i: nat)
    requires i < |maps|
    ensures Propagating(maps, propagate, quiet, w, w, i, w.entries.Keys) && Gone(maps, w, w.server, i, w.entries.Keys)
  {
  }

  lemma PropagatingDirs(maps: seq<Mapping>, propagate: bool, quiet: bool, w: World, v: World, i: nat, todo: set<Key>)
    requires i < |maps| && Propagating(maps, propagate, quiet, w, v, i, todo)
    ensures v.dirs == w.dirs
  {
  }

  /** What is known of the entries however the loop ends. */
  ghost predicate Shrunk(maps: seq<Mapping>, w: World, v: World, i: nat)
    requires i < |maps|
  {
    && v.dirs == w.dirs && CarriedFrom(maps, w.entries, v.entries, i)
    && forall k :: k in v.entries && k.mailbox == maps[i].remote ==> k in w.entries && v.entries[k] == w.entries[k]
  }

  lemma PropagatingShrunk(maps: seq<Mapping>, propagate: bool, quiet: bool, w: World, v: World, i: nat, todo: set<Key>)
    requires i < |maps| && Propagating(maps, propagate, quiet, w, v, i, todo)
    ensures Shrunk(maps, w, v, i)
  {
  }

  lemma PropagatedHalf(maps: seq<Mapping>, propagate: bool, quiet: bool, w: World, u: World, v: World, i: nat, k: Key, todo: set<Key>)
    requires i < |maps| && Propagating(maps, propagate, quiet, w, u, i, todo)
    requires Shifted(maps, u.entries, v.entries, i, k) && v.dirs == u.dirs
    ensures Shrunk(maps, w, v, i)
  {
  }

  lemma PropagatingSkip(maps: seq<Mapping>, propagate: bool, quiet: bool, w: World, u: World, i: nat, k: Key, todo: set<Key>)
    requires i < |maps| && Propagating(maps, propagate, quiet, w, u, i, todo + {k}) && Filed(maps, w.entries) && k in w.entries
    requires !propagate || k.mailbox != maps[i].remote || Found(u.dirs, maps[i].local, w.entries[k].file)
    ensures Propagating(maps, propagate, quiet, w, u, i, todo)
  {
  }

  lemma PropagatingStill(maps: seq<Mapping>, propagate: bool, quiet: bool, w: World, u: World, i: nat, k: Key, todo: set<Key>)
    requires i < |maps| && Propagating(maps, propagate, quiet, w, u, i, todo + {k}) && k in w.entries && k.mailbox == maps[i].remote
    requires !Found(u.dirs, maps[i].local, w.entries[k].file)
    ensures k in u.entries && u.entries[k] == w.entries[k] && !AllFound(maps, w, i)
  {
  }

  /** What dropping the vanished entries of mapping i has done so far. */
  ghost predicate Dropping(maps: seq<Mapping>, w: World, v: World, i: nat, uids: set<Id>, todo: set<Key>)
    requires i < |maps|
  {
    var r := maps[i].remote;
    && OnlyAt(maps, w, v, i) && Filed(maps, w.entries)
    && (forall k :: k in v.entries ==> k in w.entries && v.entries[k] == w.entries[k])
    && (forall k :: k in w.entries && (k.mailbox != r || k.id in uids) ==> k in v.entries)
    && (forall k :: k in v.entries && k.mailbox == r ==> k.id in uids || k in todo)
    && (OneFileEach(w.entries) ==>
          forall k :: k in v.entries && k.mailbox == r && Found(w.dirs, maps[i].local, w.entries[k].file) ==>
            Found(v.dirs, maps[i].local, w.entries[k].file))
    && FilesKept(w.dirs, v.dirs, FilesAt(w.entries, r))
    && ((forall k :: k in w.entries && k.mailbox == r ==> k.id in uids) ==> v == w)
  }

  lemma DroppingStarts(maps: seq<Mapping>, w: World, i: nat, uids: set<Id>)
    requires i < |maps| && Filed(maps, w.entries)
    ensures Dropping(maps, w, w, i, uids, w.entries.Keys)
  {
  }

  lemma DroppingFails(maps: seq<Mapping>, w: World, v: World, i: nat, uids: set<Id>, todo: set<Key>)
    requires i < |maps| && Dropping(maps, w, v, i, uids, todo)
    ensures Dropping(maps, w, v, i, uids, w.entries.Keys)
  {
  }

  lemma SkipOne(maps: seq<Mapping>, w: World, v: World, i: nat, uids: set<Id>, todo: set<Key>, k: Key)
    requires i < |maps| && Dropping(maps, w, v, i, uids, todo)
    requires k in w.entries && (k.mailbox == maps[i].remote ==> k.id in uids)
    ensures Dropping(maps, w, v, i, uids, todo - {k})
  {
  }

  lemma DropKeepsFiles(maps: seq<Mapping>, w: World, v: World, i: nat, k: Key)
    requires i < |maps| && k in w.entries && k.mailbox == maps[i].remote
    requires FilesKept(w.dirs, v.dirs, FilesAt(w.entries, maps[i].remote))
    ensures FilesKept(w.dirs, Remove(v.dirs, maps[i].local, w.entries[k].file), FilesAt(w.entries, maps[i].remote))
  {
  }

  lemma DropOne(maps: seq<Mapping>, w: World, v: World, i: nat, uids: set<Id>, todo: set<Key>, k: Key)
    requires i < |maps| && Dropping(maps, w, v, i, uids, todo)
    requires k in w.entries && k.mailbox == maps[i].remote && k.id !in uids
    ensures Dropping(maps, w, World(v.entries - {k}, Remove(v.dirs, maps[i].local, w.entries[k].file), v.server), i, uids, todo - {k})
  {
    hide FilesKept, FilesAt, Remove, Found, OneFileEach, Filed;
    DropKeepsFiles(maps, w, v, i, k);
    DropFinds(maps, w, v, i, k);
  }

  /** Dropping one file loses no other entry's file, and touches no other Maildir. */
  lemma DropFinds(maps: seq<Mapping>, w: World, v: World, i: nat, k: Key)
    requires i < |maps| && k in w.entries && k.mailbox == maps[i].remote
    ensures OneFileEach(w.entries) ==> forall q :: q in w.entries && q != k && Found(v.dirs, maps[i].local, w.entries[q].file) ==>
      Found(Remove(v.dirs, maps[i].local, w.entries[k].file), maps[i].local, w.entries[q].file)
    ensures forall l: string, f: FileKey :: l != maps[i].local ==>
      (Found(v.dirs, l, f) <==> Found(Remove(v.dirs, maps[i].local, w.entries[k].file), l, f))
  {
  }

  /** What downloading missing messages of mapping i has done so far. */
  ghost predicate Fetching(maps: seq<Mapping>, w: World, v: World, i: nat, uids: set<Id>, todo: set<Id>)
    requires i < |maps|
  {
    var r := maps[i].remote;
    && OnlyAt(maps, World(w.entries, w.dirs, v.server), v, i)
    && (forall k :: k in w.entries ==> k in v.entries)
    && (forall k :: k in v.entries && k.mailbox == r ==> k in w.entries || k.id in uids)
    && (forall id :: id in uids && id !in todo ==> Tracks(v, Key(r, id)))
    && FilesKept(w.dirs, v.dirs, {})
    && ((forall id :: id in uids ==> Tracks(w, Key(r, id))) ==> v.entries == w.entries && v.dirs == w.dirs)
  }

  lemma FetchingStarts(maps: seq<Mapping>, w: World, i: nat, uids: set<Id>)
    requires i < |maps|
    ensures Fetching(maps, w, w, i, uids, uids)
  {
  }

  lemma FetchingFails(maps: seq<Mapping>, w: World, v: World, i: nat, uids: set<Id>, todo: set<Id>)
    requires i < |maps| && Fetching(maps, w, v, i, uids, todo)
    ensures Fetching(maps, w, v, i, uids, uids)
  {
  }

  lemma FetchingMoves(maps: seq<Mapping>, w: World, v: World, i: nat, uids: set<Id>, todo: set<Id>, server: Imap)
    requires i < |maps| && Fetching(maps, w, v, i, uids, todo)
    ensures Fetching(maps, w, v.(server := server), i, uids, todo)
  {
  }

  lemma FetchNone(maps: seq<Mapping>, w: World, v: World, i: nat, uids: set<Id>, todo: set<Id>, id: Id)
    requires i < |maps| && Fetching(maps, w, v, i, uids, todo) && Tracks(v, Key(maps[i].remote, id))
    ensures Fetching(maps, w, v, i, uids, todo - {id})
  {
  }

  lemma PutKeeps(was: Maildirs, dirs: Maildirs, local: string, f: FileKey, raw: Raw)
    requires FilesKept(was, dirs, {})
    ensures FilesKept(was, Put(dirs, local, f, raw), {})
  {
  }

  lemma FetchOne(maps: seq<Mapping>, w: World, v: World, i: nat, uids: set<Id>, todo: set<Id>, id: Id, raw: Raw)
    requires i < |maps| && Distinct(maps) && Fetching(maps, w, v, i, uids, todo) && id in uids
    requires !Tracks(v, Key(maps[i].remote, id)) && Filed(maps, v.entries) && Filed(maps, w.entries)
    ensures
      var m := maps[i];
      Fetching(maps, w, World(Fetched(maps, v.entries, i, id), Put(v.dirs, m.local, StableKey(m.remote, id), raw), v.server), i, uids, todo - {id})
  {
    var m := maps[i];
    var f := StableKey(m.remote, id);
    PutEffect(v.dirs, m.local, f, raw);
    PutKeeps(w.dirs, v.dirs, m.local, f, raw);
    hide FilesKept, Put;
    var u := World(Fetched(maps, v.entries, i, id), Put(v.dirs, m.local, f, raw), v.server);
    forall q | q in uids && q !in todo - {id} ensures Tracks(u, Key(m.remote, q)) {
      assert q != id ==> Tracks(v, Key(m.remote, q));
    }
  }

  lemma FiledAt(maps: seq<Mapping>, entries: Entries, k: Key)
    requires Filed(maps, entries) && k in entries
    ensures k == Key(entries[k].mailbox, entries[k].id)
    ensures forall i :: 0 <= i < |maps| && maps[i].remote == k.mailbox ==> entries[k].local == maps[i].local
  {
  }

  lemma TracksAlike(w: World, server: Imap, k: Key)
    ensures Tracks(w.(server := server), k) <==> Tracks(w, k)
  {
  }

  // ------------------------------------------------------------------ a mapping, a run

  lemma ShrunkFiles(maps: seq<Mapping>, w: World, v: World, i: nat)
    requires i < |maps| && Shrunk(maps, w, v, i)
    ensures FilesAt(v.entries, maps[i].remote) <= FilesAt(w.entries, maps[i].remote)
    ensures FilesKept(w.dirs, v.dirs, FilesAt(w.entries, maps[i].remote)) && CarriedFrom(maps, w.entries, v.entries, i)
    ensures v.dirs == w.dirs && OthersAlike(maps, w.dirs, v.dirs, i)
  {
  }

  lemma DroppedOnly(maps: seq<Mapping>, w: World, w1: World, u: World, v: World, i: nat, uids: set<Id>, todo: set<Key>)
    requires i < |maps| && Shrunk(maps, w, w1, i) && u.entries == w1.entries && u.dirs == w1.dirs
    requires Dropping(maps, u, v, i, uids, todo)
    ensures FilesKept(w.dirs, v.dirs, FilesAt(w.entries, maps[i].remote)) && CarriedFrom(maps, w.entries, v.entries, i)
    ensures OthersAlike(maps, w.dirs, v.dirs, i)
  {
  }

  lemma FetchedOnly(maps: seq<Mapping>, w: World, w2: World, v: World, i: nat, uids: set<Id>, todo: set<Id>)
    requires i < |maps|
    requires FilesKept(w.dirs, w2.dirs, FilesAt(w.entries, maps[i].remote)) && CarriedFrom(maps, w.entries, w2.entries, i)
    requires Fetching(maps, w2, v, i, uids, todo)
    requires OthersAlike(maps, w.dirs, w2.dirs, i)
    ensures FilesKept(w.dirs, v.dirs, FilesAt(w.entries, maps[i].remote)) && CarriedFrom(maps, w.entries, v.entries, i)
    ensures OthersAlike(maps, w.dirs, v.dirs, i)
  {
  }

  /** The three loops of a quiet pass together. */
  lemma QuietPass(maps: seq<Mapping>, propagate: bool, w: World, w1: World, w2: World, v: World, i: nat, uids: set<Id>)
    requires Distinct(maps) && i < |maps| && v.server == w2.server
    requires Filed(maps, w.entries) && Filed(maps, w1.entries) && Filed(maps, w2.entries) && Filed(maps, v.entries)
    requires OneFileEach(w1.entries)
    requires forall id :: id in uids <==> w1.server.Has(maps[i].remote, id)
    requires Propagating(maps, propagate, true, w, w1, i, {})
    requires Dropping(maps, w1, w2, i, uids, {}) && Fetching(maps, w2, v, i, uids, {})
    ensures Brought(maps, w, v, i)
  {
    IsBrought(maps, w, w1, w2, v, i, uids);
  }

  /** What a quiet pass over mapping i brings about. */
  ghost predicate Brought(maps: seq<Mapping>, w: World, v: World, i: nat)
    requires i < |maps|
  {
    Settled(maps, v, i) && KeepsSettled(maps, w, v, i) && (Settled(maps, w, i) ==> v == w)
  }

  lemma IsBrought(maps: seq<Mapping>, w: World, w1: World, w2: World, v: World, i: nat, uids: set<Id>)
    requires Distinct(maps) && i < |maps| && v.server == w2.server
    requires Filed(maps, w.entries) && Filed(maps, w1.entries) && Filed(maps, w2.entries) && Filed(maps, v.entries)
    requires OneFileEach(w1.entries)
    requires forall id :: id in uids <==> w1.server.Has(maps[i].remote, id)
    requires KeepsSettled(maps, w, w1, i) && (AllFound(maps, w, i) ==> w1 == w)
    requires Dropping(maps, w1, w2, i, uids, {}) && Fetching(maps, w2, v, i, uids, {})
    ensures Brought(maps, w, v, i)
  {
    OnlyAtKeeps(maps, w1, w2, i);
    OnlyAtKeeps(maps, w2, v, i);
    if Settled(maps, w, i) {
      forall k | k in w.entries && k.mailbox == maps[i].remote
        ensures Found(w.dirs, maps[i].local, w.entries[k].file) && w.server.Has(k.mailbox, k.id)
      {
        assert k == KeyAt(maps, i, k.id);
      }
      assert w1 == w && w2 == w;
      forall id | id in uids ensures Tracks(w, Key(maps[i].remote, id)) {
        assert KeyAt(maps, i, id) in w.entries;
      }
    }
    forall id: Id
      ensures KeyAt(maps, i, id) in v.entries <==> v.server.Has(maps[i].remote, id)
      ensures KeyAt(maps, i, id) in v.entries ==> Tracks(v, KeyAt(maps, i, id))
    {
      assert KeyAt(maps, i, id) == Key(maps[i].remote, id);
    }
  }

  /** Mappings before i are settled; if all were at first, nothing has changed. */
  ghost predicate Progress(maps: seq<Mapping>, w: World, v: World, i: nat) {
    && (forall m: nat :: m < i && m < |maps| ==> Settled(maps, v, m))
    && (AllSettled(maps, w) ==> v == w)
  }

  lemma ProgressStep(maps: seq<Mapping>, w: World, v: World, u: World, i: nat)
    requires i < |maps| && Progress(maps, w, v, i) && Brought(maps, v, u, i)
    ensures Progress(maps, w, u, i + 1)
  {
  }

  lemma RunEnds(maps: seq<Mapping>, w: World, v: World)
    requires Progress(maps, w, v, |maps|)
    ensures AllSettled(maps, v) && (AllSettled(maps, w) ==> v == w)
  {
  }
}
