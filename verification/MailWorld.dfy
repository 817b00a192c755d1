/** The Maildirs of an account, the entries that tie their files to remote messages,
    and the search for a file that was moved between mapped Maildirs. */
module MailWorld {
  type Raw = string
  type Id = string

  /** One mapped mailbox of an account. */
  datatype Mapping = Mapping(remote: string, local: string)

  /** The marker in a file's name. Markers of different remote identities differ. */
  datatype FileKey = StableKey(mailbox: string, id: Id)

  datatype Key = Key(mailbox: string, id: Id)

  datatype Entry = Entry(mailbox: string, id: Id, local: string, file: FileKey)

  /** The managed files of a Maildir by marker, every marker with its copies. */
  type Maildir = map<FileKey, seq<Raw>>
  type Maildirs = map<string, Maildir>
  type Entries = map<Key, Entry>

  function DirOf(dirs: Maildirs, local: string): (d: Maildir) {
    if local in dirs then dirs[local] else map[]
  }

  /** A file with the marker is there. */
  predicate Found(dirs: Maildirs, local: string, k: FileKey) {
    k in DirOf(dirs, local)
  }

  /** Delivers a file unless the marker is there already. */
  function Put(dirs: Maildirs, local: string, k: FileKey, raw: Raw): (r: Maildirs) {
    if Found(dirs, local, k) then dirs else dirs[local := DirOf(dirs, local)[k := [raw]]]
  }

  /** Removes one file with the marker, if there is one. */
  function Remove(dirs: Maildirs, local: string, k: FileKey): (r: Maildirs) {
    if !Found(dirs, local, k) then dirs
    else
      var d := dirs[local];
      dirs[local := if |d[k]| <= 1 then d - {k} else d[k := d[k][1..]]]
  }

  /** Outside one place, nothing moved. */
  ghost predicate SameBut(a: Maildirs, b: Maildirs, local: string, k: FileKey) {
    forall l, j :: (l != local || j != k) ==>
      (Found(a, l, j) <==> Found(b, l, j)) && (Found(a, l, j) ==> a[l][j] == b[l][j])
  }

  lemma PutEffect(dirs: Maildirs, local: string, k: FileKey, raw: Raw)
    ensures var r := Put(dirs, local, k, raw);
      SameBut(dirs, r, local, k) && Found(r, local, k) && (Found(dirs, local, k) ==> r == dirs)
  {
  }

  lemma RemoveEffect(dirs: Maildirs, local: string, k: FileKey)
    ensures SameBut(dirs, Remove(dirs, local, k), local, k)
  {
  }

  // ------------------------------------------------------------------ mappings

  predicate Distinct(maps: seq<Mapping>) {
    forall i, j :: 0 <= i < j < |maps| ==> maps[i].remote != maps[j].remote && maps[i].local != maps[j].local
  }

  /** The mappings, other than the one with this local path, whose Maildir has the file. */
  ghost function Elsewhere(maps: seq<Mapping>, dirs: Maildirs, local: string, k: FileKey): (s: set<int>) {
    set j: int | 0 <= j < |maps| && maps[j].local != local && Found(dirs, maps[j].local, k)
  }

  datatype Search = Nowhere | In(index: nat) | Ambiguous

  /** Looks for the file in the other mapped Maildirs and stops at the second find. */
  method FindTrackedMove(maps: seq<Mapping>, dirs: Maildirs, local: string, k: FileKey) returns (r: Search)
    ensures r.Nowhere? <==> Elsewhere(maps, dirs, local, k) == {}
    ensures r.In? ==> r.index < |maps| && Elsewhere(maps, dirs, local, k) == {r.index}
    ensures r.Ambiguous? <==> exists i, j :: i in Elsewhere(maps, dirs, local, k) && j in Elsewhere(maps, dirs, local, k) && i != j
  {
    r := Nowhere;
    var i := 0;
    while i < |maps|
      invariant i <= |maps|
      invariant r == Nowhere ==> forall j :: 0 <= j < i ==> j !in Elsewhere(maps, dirs, local, k)
      invariant r.In? ==> r.index < i && r.index in Elsewhere(maps, dirs, local, k)
      invariant r.In? ==> forall j :: 0 <= j < i && j != r.index ==> j !in Elsewhere(maps, dirs, local, k)
      invariant r != Ambiguous
    {
      if maps[i].local != local && Found(dirs, maps[i].local, k) {
        assert i in Elsewhere(maps, dirs, local, k);
        if r.In? {
          return Ambiguous;
        }
        r := In(i);
      }
      i := i + 1;
    }
    if r.In? {
      assert Elsewhere(maps, dirs, local, k) == {r.index as int};
    }
  }

  /** Every entry is filed under its own identity and, when its mailbox is mapped, under that mapping. */
  predicate Filed(maps: seq<Mapping>, entries: Entries) {
    && (forall k :: k in entries ==> k == Key(entries[k].mailbox, entries[k].id))
    && (forall k, i :: k in entries && 0 <= i < |maps| && maps[i].remote == k.mailbox ==> entries[k].local == maps[i].local)
  }

  // ------------------------------------------------------------------ when a message may be changed on the server

  /** The entry is tracked in mapping i and its file is missing there. */
  ghost predicate Missing(maps: seq<Mapping>, entries: Entries, dirs: Maildirs, i: nat, k: Key) {
    && i < |maps| && k in entries && k.mailbox == maps[i].remote
    && !Found(dirs, maps[i].local, entries[k].file)
  }

  /** The other mapped Maildirs that have the entry's file. */
  ghost function Copies(maps: seq<Mapping>, entries: Entries, dirs: Maildirs, i: nat, k: Key): (s: set<int>)
    requires i < |maps| && k in entries
  {
    Elsewhere(maps, dirs, maps[i].local, entries[k].file)
  }

  /** The entry is not tracked in mapping i, or its file is in place, or it is in several other Maildirs. */
  ghost predicate Spared(maps: seq<Mapping>, entries: Entries, dirs: Maildirs, i: nat, k: Key) {
    i < |maps| && (Missing(maps, entries, dirs, i, k) ==>
      exists x, y :: x in Copies(maps, entries, dirs, i, k) && y in Copies(maps, entries, dirs, i, k) && x != y)
  }

  /** In every Maildir but the mapping's own, the same files are found. */
  ghost predicate OthersAlike(maps: seq<Mapping>, a: Maildirs, b: Maildirs, i: nat) {
    i < |maps| && forall l: string, f: FileKey :: l != maps[i].local ==> (Found(a, l, f) <==> Found(b, l, f))
  }

  // ------------------------------------------------------------------ tracked files

  function FilesAt(entries: Entries, mailbox: string): (s: set<FileKey>) {
    set k | k in entries && k.mailbox == mailbox :: entries[k].file
  }

  function FilesOf(entries: Entries): (s: set<FileKey>) {
    set k | k in entries :: entries[k].file
  }

  /** Files whose marker is not in the set stay, with their content. */
  ghost predicate FilesKept(a: Maildirs, b: Maildirs, but: set<FileKey>) {
    forall l: string, f: FileKey :: Found(a, l, f) && f !in but ==> Found(b, l, f) && b[l][f] == a[l][f]
  }

  /** A file that appears holds the message its marker names, and a single file never changes
      into anything else. */
  ghost predicate Genuine(rawOf: FileKey -> Raw, a: Maildirs, b: Maildirs) {
    forall l: string, f: FileKey :: Found(b, l, f) ==>
      if !Found(a, l, f) then b[l][f] == [rawOf(f)]
      else |a[l][f]| <= 1 ==> b[l][f] == a[l][f] || b[l][f] == [rawOf(f)]
  }

  lemma GenuineThen(rawOf: FileKey -> Raw, a: Maildirs, b: Maildirs, c: Maildirs)
    requires Genuine(rawOf, a, b) && Genuine(rawOf, b, c)
    ensures Genuine(rawOf, a, c)
  {
  }

  lemma SameGenuine(rawOf: FileKey -> Raw, a: Maildirs)
    ensures Genuine(rawOf, a, a)
  {
  }

  lemma PutGenuine(rawOf: FileKey -> Raw, a: Maildirs, b: Maildirs, local: string, k: FileKey)
    requires Genuine(rawOf, a, b)
    ensures Genuine(rawOf, a, Put(b, local, k, rawOf(k)))
  {
  }

  lemma RemoveGenuine(rawOf: FileKey -> Raw, a: Maildirs, b: Maildirs, local: string, k: FileKey)
    requires Genuine(rawOf, a, b)
    ensures Genuine(rawOf, a, Remove(b, local, k))
  {
  }

  /** The entries of other mappings stay, and new ones carry a file of mapping i. */
  ghost predicate CarriedFrom(maps: seq<Mapping>, was: Entries, now: Entries, i: nat)
    requires i < |maps|
  {
    && (forall q: Key :: q in was && q.mailbox != maps[i].remote ==> q in now && now[q] == was[q])
    && (forall q: Key :: q in now && q.mailbox != maps[i].remote ==> q in was || now[q].file in FilesAt(was, maps[i].remote))
  }

  /** Entries of mappings still to come carry files that were tracked when the run began. */
  ghost predicate Carried(maps: seq<Mapping>, start: Entries, entries: Entries, i: nat) {
    forall k :: k in entries && (forall m: nat :: m < i && m < |maps| ==> k.mailbox != maps[m].remote) ==>
      entries[k].file in FilesOf(start)
  }

  lemma CarriedStep(maps: seq<Mapping>, first: Entries, firstDirs: Maildirs, was: Entries, wasDirs: Maildirs,
                    now: Entries, nowDirs: Maildirs, i: nat)
    requires i < |maps| && Distinct(maps)
    requires FilesKept(firstDirs, wasDirs, FilesOf(first)) && Carried(maps, first, was, i)
    requires FilesKept(wasDirs, nowDirs, FilesAt(was, maps[i].remote)) && CarriedFrom(maps, was, now, i)
    ensures FilesKept(firstDirs, nowDirs, FilesOf(first)) && Carried(maps, first, now, i + 1)
  {
  }

  // ------------------------------------------------------------------ the stages of a run

  /** The entries and Maildirs that the pass over one mapping begins with. */
  datatype Stage = Stage(entries: Entries, dirs: Maildirs)

  /** What the pass over mapping i leaves to the next. */
  ghost predicate Follows(maps: seq<Mapping>, s: Stage, t: Stage, i: nat) {
    && i < |maps|
    && FilesKept(s.dirs, t.dirs, FilesAt(s.entries, maps[i].remote))
    && CarriedFrom(maps, s.entries, t.entries, i)
    && OthersAlike(maps, s.dirs, t.dirs, i)
  }

  /** From mapping i on, the Maildirs of the mappings have the files they had, and no entry is lost. */
  ghost predicate OwnAlike(maps: seq<Mapping>, s: Stage, t: Stage, i: nat) {
    && (forall m: nat, f: FileKey :: i <= m < |maps| ==> (Found(s.dirs, maps[m].local, f) <==> Found(t.dirs, maps[m].local, f)))
    && (forall m: nat, k: Key :: i <= m < |maps| && k in s.entries && k.mailbox == maps[m].remote ==>
          k in t.entries && t.entries[k] == s.entries[k])
  }

  /** The stages follow one another from the start, and until a mapping's turn it has the files and
      the entries it had when the run began. */
  ghost predicate Staged(maps: seq<Mapping>, start: Stage, stages: seq<Stage>) {
    && |stages| <= |maps| && (stages != [] ==> stages[0] == start)
    && (forall i: nat :: i < |stages| ==> OwnAlike(maps, start, stages[i], i))
    && (forall i: nat :: i + 1 < |stages| ==> Follows(maps, stages[i], stages[i + 1], i))
  }

  /** The run has come to mapping i. */
  ghost predicate Arrives(maps: seq<Mapping>, start: Stage, stages: seq<Stage>, now: Stage, i: nat) {
    && |stages| == i
    && (if i == 0 then now == start else Follows(maps, stages[i - 1], now, i - 1))
    && OwnAlike(maps, start, now, i)
  }

  lemma NextStage(maps: seq<Mapping>, start: Stage, stages: seq<Stage>, now: Stage, next: Stage, i: nat)
    requires Distinct(maps) && i < |maps| && Staged(maps, start, stages) && Arrives(maps, start, stages, now, i)
    requires OthersAlike(maps, now.dirs, next.dirs, i)
    requires FilesKept(now.dirs, next.dirs, FilesAt(now.entries, maps[i].remote)) && CarriedFrom(maps, now.entries, next.entries, i)
    ensures Staged(maps, start, stages + [now]) && Arrives(maps, start, stages + [now], next, i + 1)
  {
    hide FilesKept;
    OwnStaysAlike(maps, start, now, next, i);
    hide OwnAlike, OthersAlike, CarriedFrom;
  }

  lemma OwnStaysAlike(maps: seq<Mapping>, s: Stage, t: Stage, u: Stage, i: nat)
    requires Distinct(maps) && i < |maps| && OwnAlike(maps, s, t, i)
    requires OthersAlike(maps, t.dirs, u.dirs, i) && CarriedFrom(maps, t.entries, u.entries, i)
    ensures OwnAlike(maps, s, u, i + 1)
  {
  }
}
