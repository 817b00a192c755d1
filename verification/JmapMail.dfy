/** What a mail run over JMAP may do, on values: memberships on the server, entries
    and Maildirs, and when a mapping is settled. */
module JmapMail {
  import opened MailWorld
  import JmapPages

  type Box = nat
  type Emails = map<Id, set<Box>>

  /** The mappings of an account and the mailbox that each remote name resolves to. */
  datatype Account = Account(maps: seq<Mapping>, propagate: bool, boxes: map<string, Box>) {
    ghost predicate Valid() {
      && Distinct(maps)
      && forall r, q :: r in boxes && q in boxes && r != q ==> boxes[r] != boxes[q]
    }

    predicate Resolves(i: nat) {
      i < |maps| && maps[i].remote in boxes
    }

    function BoxOf(i: nat): (b: Box)
      requires Resolves(i)
    {
      boxes[maps[i].remote]
    }
  }

  datatype World = World(entries: Entries, dirs: Maildirs, emails: Emails)

  // ------------------------------------------------------------------ the server's answers to updates

  predicate Member(emails: Emails, id: Id, b: Box) {
    id in emails && b in emails[id]
  }

  /** The order in which the server lists a mailbox. */
  type Order = (Emails, Box) -> seq<Id>

  ghost predicate Orders(listingOf: Order) {
    forall emails, b :: JmapPages.NoRepeats(listingOf(emails, b)) && forall id :: id in listingOf(emails, b) <==> Member(emails, id, b)
  }

  /** Takes one membership away; a message in no mailbox does not exist. */
  function Unlinked(emails: Emails, id: Id, b: Box): (r: Emails) {
    if !Member(emails, id, b) then emails
    else if emails[id] == {b} then emails - {id}
    else emails[id := emails[id] - {b}]
  }

  function Destroyed(emails: Emails, id: Id): (r: Emails) {
    emails - {id}
  }

  function Transferred(emails: Emails, id: Id, b: Box, c: Box): (r: Emails) {
    if id !in emails then emails else emails[id := emails[id] - {b} + {c}]
  }

  /** A membership is carried to another mailbox if it is there. */
  function Moved(emails: Emails, id: Id, b: Box, c: Box): (r: Emails) {
    if Member(emails, id, b) then Transferred(emails, id, b, c) else emails
  }

  // ------------------------------------------------------------------ entries

  /** Files keep the identity of the message they were downloaded for. */
  predicate Identified(maps: seq<Mapping>, entries: Entries) {
    Filed(maps, entries) && forall k :: k in entries ==> entries[k].file.id == k.id
  }

  predicate HasFile(w: World, k: Key) {
    k in w.entries && Found(w.dirs, w.entries[k].local, w.entries[k].file)
  }

  function KeyAt(a: Account, i: nat, id: Id): (k: Key)
    requires i < |a.maps|
  {
    Key(a.maps[i].remote, id)
  }

  function MovedEntry(a: Account, entries: Entries, k: Key, j: nat): (r: Entries)
    requires k in entries && j < |a.maps|
  {
    (entries - {k})[KeyAt(a, j, k.id) := Entry(a.maps[j].remote, k.id, a.maps[j].local, entries[k].file)]
  }

  // ------------------------------------------------------------------ settled

  predicate IsMember(a: Account, w: World, i: nat, id: Id)
    requires a.Resolves(i)
  {
    Member(w.emails, id, a.BoxOf(i))
  }

  /** Entries, members and files of the mapping correspond one to one. */
  ghost predicate Settled(a: Account, w: World, i: nat)
    requires a.Resolves(i)
  {
    forall id: Id ::
      && (KeyAt(a, i, id) in w.entries <==> IsMember(a, w, i, id))
      && (KeyAt(a, i, id) in w.entries ==> HasFile(w, KeyAt(a, i, id)))
  }

  /** Every member has its entry and file; any other entry is of a message that no longer exists. */
  ghost predicate Covered(a: Account, w: World, i: nat)
    requires a.Resolves(i)
  {
    forall id: Id ::
      && (IsMember(a, w, i, id) ==> KeyAt(a, i, id) in w.entries)
      && (KeyAt(a, i, id) in w.entries ==> HasFile(w, KeyAt(a, i, id)) && (IsMember(a, w, i, id) || id !in w.emails))
  }

  ghost predicate AllResolve(a: Account) {
    forall i: nat :: i < |a.maps| ==> a.Resolves(i)
  }

  ghost predicate AllSettled(a: Account, w: World)
    requires AllResolve(a)
  {
    forall i: nat :: i < |a.maps| ==> Settled(a, w, i)
  }

  ghost predicate AllCovered(a: Account, w: World)
    requires AllResolve(a)
  {
    forall i: nat :: i < |a.maps| ==> Covered(a, w, i)
  }

  lemma SettledCovered(a: Account, w: World, i: nat)
    requires a.Resolves(i) && Settled(a, w, i)
    ensures Covered(a, w, i)
  {
  }

  /** Only the entries and files of mapping i differ. */
  ghost predicate OnlyAt(a: Account, w: World, v: World, i: nat)
    requires i < |a.maps|
  {
    && v.emails == w.emails
    && (forall k: Key :: k.mailbox != a.maps[i].remote ==>
          (k in v.entries <==> k in w.entries) && (k in w.entries ==> v.entries[k] == w.entries[k]))
    && (forall l: string, f: FileKey :: l != a.maps[i].local ==> (Found(w.dirs, l, f) <==> Found(v.dirs, l, f)))
  }

  lemma OnlyAtKeeps(a: Account, w: World, v: World, i: nat, m: nat)
    requires a.Valid() && a.Resolves(i) && a.Resolves(m) && m != i
    requires Identified(a.maps, w.entries) && OnlyAt(a, w, v, i)
    ensures Covered(a, w, m) ==> Covered(a, v, m)
    ensures Settled(a, w, m) ==> Settled(a, v, m)
  {
  }

  ghost predicate KeepsCovered(a: Account, w: World, v: World, i: nat) {
    forall m: nat :: m < |a.maps| && m != i && a.Resolves(m) && Covered(a, w, m) ==> Covered(a, v, m)
  }

  /** Carrying a message over to another mapping keeps every mapping but the left one covered. */
  lemma MoveKeepsCovered(a: Account, w: World, i: nat, j: nat, k: Key, emails: Emails)
    requires a.Valid() && a.Resolves(i) && a.Resolves(j) && i != j
    requires Identified(a.maps, w.entries) && k in w.entries && k.mailbox == a.maps[i].remote
    requires Found(w.dirs, a.maps[j].local, w.entries[k].file)
    requires emails == w.emails || emails == Transferred(w.emails, k.id, a.BoxOf(i), a.BoxOf(j))
    requires k.id in emails ==> a.BoxOf(j) in emails[k.id]
    ensures KeepsCovered(a, w, World(MovedEntry(a, w.entries, k, j), w.dirs, emails), i)
  {
  }

  /** Taking a message out of a mailbox keeps every other mapping covered. */
  lemma RemovalKeepsCovered(a: Account, w: World, i: nat, k: Key)
    requires a.Valid() && a.Resolves(i) && k in w.entries && k.mailbox == a.maps[i].remote
    ensures KeepsCovered(a, w, World(w.entries - {k}, w.dirs, Unlinked(w.emails, k.id, a.BoxOf(i))), i)
  {
  }
}
