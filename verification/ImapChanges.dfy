/** The changes a mail run makes on an IMAP server, when they are lawful, and what they leave
    alone, whatever other clients do in between. */
module ImapChanges {
  import opened MailWorld
  import opened ImapMail

  /** Changes of this run name the mapping and the entry they were made for. */
  datatype Change =
    | Foreign(now: Imap)                                          // somebody else, anything within the epoch
    | Mark(i: nat, k: Key)
    | Expunge(i: nat, k: Key)
    | Sweep(i: nat, k: Key)                                       // expunges every marked message of the mailbox
    | Carry(i: nat, k: Key, to: nat, id: Id, marked: bool)        // one step
    | Copy(i: nat, k: Key, to: nat, id: Id, marked: bool)
    | Finish(i: nat, k: Key, to: nat)                             // expunges the original of a copy

  function Apply(maps: seq<Mapping>, c: Change, s: Imap): (t: Imap) {
    match c
    case Foreign(now) => now
    case Mark(_, k) => s.WithMark(k.mailbox, k.id)
    case Expunge(_, k) => s.Expunged(k.mailbox, k.id)
    case Sweep(_, k) => s.Swept(k.mailbox)
    case Carry(_, k, to, id, marked) =>
      if to < |maps| then s.Delivered(maps[to].remote, id, marked).Taken(k.mailbox, k.id) else s
    case Copy(_, _, to, id, marked) => if to < |maps| then s.Delivered(maps[to].remote, id, marked) else s
    case Finish(_, k, _) => s.Expunged(k.mailbox, k.id)
  }

  function Replay(maps: seq<Mapping>, start: Imap, log: seq<Change>): (s: Imap) {
    if log == [] then start else Apply(maps, log[|log| - 1], Replay(maps, start, log[..|log| - 1]))
  }

  // ------------------------------------------------------------------ lawful changes

  /** With these entries and Maildirs, the change may be made: a message is marked only if its tracked
      file is missing and has at most one copy, removed only if the file is in no mapped Maildir, and copied
      or carried to another mailbox only if that one's Maildir alone has it. */
  ghost predicate Lawful(maps: seq<Mapping>, entries: Entries, dirs: Maildirs, c: Change) {
    c.Foreign? || (
      && Missing(maps, entries, dirs, c.i, c.k)
      && match c
         case Foreign(_) => true
         case Mark(i, k) => !Spared(maps, entries, dirs, i, k)
         case Expunge(i, k) => Copies(maps, entries, dirs, i, k) == {}
         case Sweep(i, k) => Copies(maps, entries, dirs, i, k) == {}
         case Carry(i, k, to, _, _) => Copies(maps, entries, dirs, i, k) == {to as int}
         case Copy(i, k, to, _, _) => Copies(maps, entries, dirs, i, k) == {to as int}
         case Finish(i, k, to) => Copies(maps, entries, dirs, i, k) == {to as int}
    )
  }

  /** From place n on, every own change is of mapping i and lawful with these entries and Maildirs. */
  ghost predicate LawfulFrom(maps: seq<Mapping>, entries: Entries, dirs: Maildirs, i: nat, log: seq<Change>, n: nat) {
    forall m :: n <= m < |log| ==> log[m].Foreign? || (log[m].i == i && Lawful(maps, entries, dirs, log[m]))
  }

  /** From place n on, every own change is for this entry. */
  predicate OnlyFor(log: seq<Change>, n: nat, i: nat, k: Key) {
    forall m :: n <= m < |log| ==> log[m].Foreign? || (log[m].i == i && log[m].k == k)
  }

  /** From place n on, every own change is for carrying this entry's message to mapping j. */
  predicate OnlyCarries(log: seq<Change>, n: nat, i: nat, k: Key, j: nat) {
    forall m :: n <= m < |log| ==>
      log[m].Foreign? || (log[m].i == i && log[m].k == k &&
        (log[m].Mark? || ((log[m].Carry? || log[m].Copy? || log[m].Finish?) && log[m].to == j)))
  }

  /** From place n on, every own change is for removing this entry's message. */
  predicate OnlyRemoves(log: seq<Change>, n: nat, i: nat, k: Key) {
    forall m :: n <= m < |log| ==> log[m].Foreign? || log[m] in {Mark(i, k), Expunge(i, k), Sweep(i, k)}
  }

  predicate OnlyForeign(log: seq<Change>, n: nat) {
    forall m :: n <= m < |log| ==> log[m].Foreign?
  }

  /** The original of a copy is expunged after it was copied. */
  ghost predicate CopiedBefore(log: seq<Change>, c: Change) {
    c.Finish? ==> exists n :: 0 <= n < |log| && log[n].Copy? && log[n].k == c.k && log[n].to == c.to
  }

  ghost predicate CopiedFirst(log: seq<Change>) {
    forall m :: 0 <= m < |log| ==> CopiedBefore(log[..m], log[m])
  }

  lemma CopiedStays(before: seq<Change>, log: seq<Change>, c: Change)
    requires before <= log && CopiedBefore(before, c)
    ensures CopiedBefore(log, c)
  {
    if c.Finish? {
      var n :| 0 <= n < |before| && before[n].Copy? && before[n].k == c.k && before[n].to == c.to;
      assert log[n] == before[n];
    }
  }

  lemma LawfulOn(maps: seq<Mapping>, entries: Entries, dirs: Maildirs, i: nat, before: seq<Change>, log: seq<Change>, n: nat)
    requires before <= log && n <= |before|
    requires LawfulFrom(maps, entries, dirs, i, before, n) && LawfulFrom(maps, entries, dirs, i, log, |before|)
    ensures LawfulFrom(maps, entries, dirs, i, log, n)
  {
  }

  /** What the changes depend on is the entry's file and the Maildirs. */
  lemma LawfulAlike(maps: seq<Mapping>, entries: Entries, others: Entries, dirs: Maildirs, i: nat, log: seq<Change>, n: nat, k: Key)
    requires LawfulFrom(maps, entries, dirs, i, log, n) && OnlyFor(log, n, i, k)
    requires k in entries && k in others && entries[k] == others[k]
    ensures LawfulFrom(maps, others, dirs, i, log, n)
  {
    if i < |maps| {
      assert Copies(maps, entries, dirs, i, k) == Copies(maps, others, dirs, i, k);
    }
    forall m | n <= m < |log| && !log[m].Foreign? ensures Lawful(maps, others, dirs, log[m]) {
      assert Lawful(maps, entries, dirs, log[m]);
    }
  }

  // ------------------------------------------------------------------ what survives

  /** From place n on, no other client removes the message. */
  ghost predicate OthersKeep(maps: seq<Mapping>, start: Imap, log: seq<Change>, n: nat, mailbox: string, id: Id) {
    forall m :: n <= m < |log| && log[m].Foreign? && Replay(maps, start, log[..m]).Has(mailbox, id) ==> log[m].now.Has(mailbox, id)
  }

  /** From place n on, no other client marks the message. */
  ghost predicate OthersSpare(log: seq<Change>, n: nat, mailbox: string, id: Id) {
    forall m :: n <= m < |log| && log[m].Foreign? ==> !log[m].now.Marked(mailbox, id)
  }

  /** The change takes this message, and perhaps others, out of this mailbox or marks it for that. */
  predicate Names(c: Change, mailbox: string, id: Id) {
    !c.Foreign? && !c.Copy? && c.k == Key(mailbox, id)
  }

  ghost predicate Unnamed(log: seq<Change>, n: nat, mailbox: string, id: Id) {
    forall m :: n <= m < |log| ==> !Names(log[m], mailbox, id)
  }

  /** The message is there and marked when all marked ones of its mailbox are expunged. */
  ghost predicate SweptAt(maps: seq<Mapping>, start: Imap, log: seq<Change>, m: nat, mailbox: string, id: Id) {
    m < |log| && log[m].Sweep? && log[m].k.mailbox == mailbox && Replay(maps, start, log[..m]).Marked(mailbox, id)
  }

  ghost predicate SweptBetween(maps: seq<Mapping>, start: Imap, log: seq<Change>, n: nat, m: nat, mailbox: string, id: Id) {
    exists l: nat :: n <= l < m && SweptAt(maps, start, log, l, mailbox, id)
  }

  ghost predicate SweptFrom(maps: seq<Mapping>, start: Imap, log: seq<Change>, n: nat, mailbox: string, id: Id) {
    SweptBetween(maps, start, log, n, |log|, mailbox, id)
  }

  lemma SweptStep(maps: seq<Mapping>, start: Imap, log: seq<Change>, n: nat, m: nat, mailbox: string, id: Id)
    requires n <= m
    ensures SweptBetween(maps, start, log, n, m + 1, mailbox, id) <==>
      SweptBetween(maps, start, log, n, m, mailbox, id) || SweptAt(maps, start, log, m, mailbox, id)
  {
    hide SweptAt;
  }

  /** UIDs are never given out again. */
  ghost predicate Aging(maps: seq<Mapping>, start: Imap, log: seq<Change>) {
    forall m :: 0 <= m < |log| ==> Later(Replay(maps, start, log[..m]), Replay(maps, start, log[..m + 1]))
  }

  lemma ReplayLast(maps: seq<Mapping>, start: Imap, log: seq<Change>, m: nat)
    requires m < |log|
    ensures Replay(maps, start, log[..m + 1]) == Apply(maps, log[m], Replay(maps, start, log[..m]))
  {
    assert log[..m + 1][..m] == log[..m];
  }

  /** One more change is logged. */
  lemma LogGrows(maps: seq<Mapping>, start: Imap, log: seq<Change>, c: Change)
    requires Aging(maps, start, log) && CopiedFirst(log)
    requires var s := Replay(maps, start, log); Later(s, Apply(maps, c, s))
    requires CopiedBefore(log, c)
    ensures Replay(maps, start, log + [c]) == Apply(maps, c, Replay(maps, start, log))
    ensures Aging(maps, start, log + [c]) && CopiedFirst(log + [c])
  {
    assert (log + [c])[..|log|] == log;
    AgingGrows(maps, start, log, c);
    CopiedGrows(log, c);
    hide Later, CopiedBefore;
  }

  lemma AgingGrows(maps: seq<Mapping>, start: Imap, log: seq<Change>, c: Change)
    requires Aging(maps, start, log)
    requires var s := Replay(maps, start, log); Later(s, Apply(maps, c, s))
    ensures Aging(maps, start, log + [c])
  {
    hide Later, Apply, Replay;
    var longer := log + [c];
    assert longer[..|log|] == log;
    ReplayLast(maps, start, longer, |log|);
    forall m | 0 <= m < |longer| ensures Later(Replay(maps, start, longer[..m]), Replay(maps, start, longer[..m + 1])) {
      if m < |log| {
        assert longer[..m] == log[..m] && longer[..m + 1] == log[..m + 1];
      }
    }
  }

  lemma CopiedGrows(log: seq<Change>, c: Change)
    requires CopiedFirst(log) && CopiedBefore(log, c)
    ensures CopiedFirst(log + [c])
  {
    hide CopiedBefore;
    var longer := log + [c];
    forall m | 0 <= m < |longer| ensures CopiedBefore(longer[..m], longer[m]) {
      assert longer[..m] == log[..m];
    }
  }

  /** Whatever other clients do besides, a message that they keep and no own change names survives until
      place m exactly if no expunging of all marked messages found it marked. */
  lemma {:induction false} SurvivesUntil(maps: seq<Mapping>, start: Imap, log: seq<Change>, n: nat, m: nat, mailbox: string, id: Id)
    requires n <= m <= |log| && Aging(maps, start, log)
    requires Replay(maps, start, log[..n]).Used(mailbox, id) && Replay(maps, start, log[..n]).Has(mailbox, id)
    requires OthersKeep(maps, start, log, n, mailbox, id) && Unnamed(log, n, mailbox, id)
    ensures Replay(maps, start, log[..m]).Used(mailbox, id)
    ensures Replay(maps, start, log[..m]).Has(mailbox, id) <==> !SweptBetween(maps, start, log, n, m, mailbox, id)
  {
    hide Replay, Apply, Names, SweptBetween;
    if n < m {
      SurvivesUntil(maps, start, log, n, m - 1, mailbox, id);
      SweptStep(maps, start, log, n, m - 1, mailbox, id);
      OneStepSpares(maps, start, log, n, m - 1, mailbox, id);
    } else {
      NotSweptYet(maps, start, log, n, mailbox, id);
    }
  }

  lemma NotSweptYet(maps: seq<Mapping>, start: Imap, log: seq<Change>, n: nat, mailbox: string, id: Id)
    ensures !SweptBetween(maps, start, log, n, n, mailbox, id)
  {
  }

  lemma OneStepSpares(maps: seq<Mapping>, start: Imap, log: seq<Change>, n: nat, m: nat, mailbox: string, id: Id)
    requires n <= m < |log| && Aging(maps, start, log) && Replay(maps, start, log[..m]).Used(mailbox, id)
    requires OthersKeep(maps, start, log, n, mailbox, id) && Unnamed(log, n, mailbox, id)
    ensures Replay(maps, start, log[..m + 1]).Used(mailbox, id)
    ensures Replay(maps, start, log[..m + 1]).Has(mailbox, id) <==>
      Replay(maps, start, log[..m]).Has(mailbox, id) && !SweptAt(maps, start, log, m, mailbox, id)
  {
    ReplayLast(maps, start, log, m);
    StepSpares(maps, log[m], Replay(maps, start, log[..m]), mailbox, id);
    assert Later(Replay(maps, start, log[..m]), Replay(maps, start, log[..m + 1]));
    hide Replay;
  }

  /** A change of this run that does not name a message takes it along only by expunging all marked ones. */
  lemma StepSpares(maps: seq<Mapping>, c: Change, s: Imap, mailbox: string, id: Id)
    requires !Names(c, mailbox, id)
    ensures !c.Foreign? && s.Has(mailbox, id) ==>
      (Apply(maps, c, s).Has(mailbox, id) <==> !(c.Sweep? && c.k.mailbox == mailbox && s.Marked(mailbox, id)))
    ensures !c.Foreign? && s.Has(mailbox, id) && !s.Marked(mailbox, id) ==> !Apply(maps, c, s).Marked(mailbox, id)
  {
  }

  /** The same until the end. */
  lemma UnrelatedSurvive(maps: seq<Mapping>, start: Imap, log: seq<Change>, n: nat, mailbox: string, id: Id)
    requires n <= |log| && Aging(maps, start, log)
    requires Replay(maps, start, log[..n]).Used(mailbox, id) && Replay(maps, start, log[..n]).Has(mailbox, id)
    requires OthersKeep(maps, start, log, n, mailbox, id) && Unnamed(log, n, mailbox, id)
    ensures Replay(maps, start, log).Has(mailbox, id) <==> !SweptFrom(maps, start, log, n, mailbox, id)
  {
    SurvivesUntil(maps, start, log, n, |log|, mailbox, id);
    assert log[..|log|] == log;
  }

  /** What is not marked and stays so is never expunged along. */
  lemma {:induction false} UnmarkedUntil(maps: seq<Mapping>, start: Imap, log: seq<Change>, n: nat, m: nat, mailbox: string, id: Id)
    requires n <= m <= |log| && Replay(maps, start, log[..n]).Has(mailbox, id) && !Replay(maps, start, log[..n]).Marked(mailbox, id)
    requires OthersKeep(maps, start, log, n, mailbox, id) && OthersSpare(log, n, mailbox, id) && Unnamed(log, n, mailbox, id)
    ensures Replay(maps, start, log[..m]).Has(mailbox, id) && !Replay(maps, start, log[..m]).Marked(mailbox, id)
  {
    if n < m {
      UnmarkedUntil(maps, start, log, n, m - 1, mailbox, id);
      ReplayLast(maps, start, log, m - 1);
      StepSpares(maps, log[m - 1], Replay(maps, start, log[..m - 1]), mailbox, id);
      hide Replay, Apply, Names;
    }
  }

  lemma UnmarkedUnswept(maps: seq<Mapping>, start: Imap, log: seq<Change>, n: nat, mailbox: string, id: Id)
    requires n <= |log| && Replay(maps, start, log[..n]).Has(mailbox, id) && !Replay(maps, start, log[..n]).Marked(mailbox, id)
    requires OthersKeep(maps, start, log, n, mailbox, id) && OthersSpare(log, n, mailbox, id) && Unnamed(log, n, mailbox, id)
    ensures !SweptFrom(maps, start, log, n, mailbox, id)
  {
    forall m: nat | n <= m ensures !SweptAt(maps, start, log, m, mailbox, id) {
      if m < |log| {
        UnmarkedUntil(maps, start, log, n, m, mailbox, id);
      }
    }
  }

  /** A spared entry is named by no lawful change. */
  lemma SparedUntouched(maps: seq<Mapping>, entries: Entries, dirs: Maildirs, i: nat, log: seq<Change>, n: nat, k: Key)
    requires LawfulFrom(maps, entries, dirs, i, log, n) && Spared(maps, entries, dirs, i, k)
    ensures forall m :: n <= m < |log| ==> log[m].Foreign? || log[m].k != k
  {
  }

  /** A message whose file is in place, or has two or more copies, or that is not tracked, stays in
      its mailbox if other clients keep it there, exactly if it is not expunged along with others; so it
      does if it is not marked, and nobody else marks it. */
  lemma SparedSurvive(maps: seq<Mapping>, entries: Entries, dirs: Maildirs, i: nat, start: Imap, log: seq<Change>, n: nat, id: Id)
    requires LawfulFrom(maps, entries, dirs, i, log, n) && i < |maps| && Spared(maps, entries, dirs, i, KeyAt(maps, i, id))
    requires n <= |log| && Aging(maps, start, log) && Sane(Replay(maps, start, log[..n]))
    requires Replay(maps, start, log[..n]).Has(maps[i].remote, id) && OthersKeep(maps, start, log, n, maps[i].remote, id)
    ensures Replay(maps, start, log).Has(maps[i].remote, id) <==> !SweptFrom(maps, start, log, n, maps[i].remote, id)
    ensures !Replay(maps, start, log[..n]).Marked(maps[i].remote, id) && OthersSpare(log, n, maps[i].remote, id) ==>
      Replay(maps, start, log).Has(maps[i].remote, id)
  {
    hide Replay, SweptFrom, OthersKeep, OthersSpare, Aging;
    SparedUntouched(maps, entries, dirs, i, log, n, KeyAt(maps, i, id));
    assert Unnamed(log, n, maps[i].remote, id);
    UnrelatedSurvive(maps, start, log, n, maps[i].remote, id);
    if !Replay(maps, start, log[..n]).Marked(maps[i].remote, id) && OthersSpare(log, n, maps[i].remote, id) {
      UnmarkedUnswept(maps, start, log, n, maps[i].remote, id);
    }
  }

  // ------------------------------------------------------------------ expunged along

  const Inbox: seq<Mapping> := [Mapping("INBOX", "in")]
  const One: Key := Key("INBOX", "1")
  const Other: Key := Key("INBOX", "2")

  function FileOf(id: Id): (f: FileKey) {
    StableKey("INBOX", id)
  }

  /** Both messages are tracked. */
  function BothTracked(): (entries: Entries) {
    map[One := Entry("INBOX", "1", "in", FileOf("1")), Other := Entry("INBOX", "2", "in", FileOf("2"))]
  }

  function OnlyFile(id: Id): (dirs: Maildirs) {
    map["in" := map[FileOf(id) := ["text"]]]
  }

  function Both(deleted: set<Id>): (s: Imap) {
    Imap(map["INBOX" := {"1", "2"}], map["INBOX" := {"1", "2"}], map["INBOX" := deleted])
  }

  /** The second message has its file, but somebody marked it; the file of the first was removed, and the
      server cannot expunge one message alone. */
  lemma MarkedIsTakenAlong()
    ensures
      var log := [Mark(0, One), Sweep(0, One)];
      && LawfulFrom(Inbox, BothTracked(), OnlyFile("2"), 0, log, 0) && Spared(Inbox, BothTracked(), OnlyFile("2"), 0, Other)
      && Both({"2"}).Has("INBOX", "2") && !Replay(Inbox, Both({"2"}), log).Has("INBOX", "2")
  {
    ReplayTwo(Inbox, Both({"2"}), Mark(0, One), Sweep(0, One));
  }

  /** Without others: a run that removes the second message is cut off after marking it, its file is put
      back, and the next run removes the first. */
  lemma CutOffMarkIsTakenAlong()
    ensures
      var before, log := [Mark(0, Other)], [Mark(0, One), Sweep(0, One)];
      && LawfulFrom(Inbox, BothTracked(), OnlyFile("1"), 0, before, 0)
      && LawfulFrom(Inbox, BothTracked(), OnlyFile("2"), 0, log, 0) && Spared(Inbox, BothTracked(), OnlyFile("2"), 0, Other)
      && var s := Replay(Inbox, Both({}), before); s.Has("INBOX", "2") && !Replay(Inbox, s, log).Has("INBOX", "2")
  {
    assert [Mark(0, Other)][..0] == [];
    ReplayTwo(Inbox, Replay(Inbox, Both({}), [Mark(0, Other)]), Mark(0, One), Sweep(0, One));
    assert Replay(Inbox, Both({}), [Mark(0, Other)]) == Apply(Inbox, Mark(0, Other), Replay(Inbox, Both({}), []));
  }

  /** A message is copied to another mailbox and its original marked, but another client takes the mark
      back before it is expunged: the original stays, and the file would be downloaded for it again. */
  lemma MarkTakenBackLosesIdentity()
    ensures
      var maps := Inbox + [Mapping("Done", "done")];
      var entries, dirs := map[One := Entry("INBOX", "1", "in", FileOf("1"))], map["done" := map[FileOf("1") := ["text"]]];
      var start := Imap(map["INBOX" := {"1"}], map["INBOX" := {"1"}], map[]);
      var log := [Copy(0, One, 1, "9", false), Mark(0, One), Foreign(start.Delivered("Done", "9", false)), Finish(0, One, 1)];
      && LawfulFrom(maps, entries, dirs, 0, log, 0) && CopiedFirst(log)
      && Identity(maps, entries, start) && !Identity(maps, MovedEntry(maps, entries, One, 1, "9"), Replay(maps, start, log))
  {
    var maps := Inbox + [Mapping("Done", "done")];
    var entries, dirs := map[One := Entry("INBOX", "1", "in", FileOf("1"))], map["done" := map[FileOf("1") := ["text"]]];
    var start := Imap(map["INBOX" := {"1"}], map["INBOX" := {"1"}], map[]);
    var now := start.Delivered("Done", "9", false);
    var log := [Copy(0, One, 1, "9", false), Mark(0, One), Foreign(now), Finish(0, One, 1)];
    assert 1 in Copies(maps, entries, dirs, 0, One);
    assert log[..3][2] == Foreign(now) && log[0].Copy?;
    assert Replay(maps, start, log[..3]) == now;
    assert Replay(maps, start, log) == now.Expunged("INBOX", "1") == now;
    var key := Key("Done", "9");
    var moved := MovedEntry(maps, entries, One, 1, "9");
    assert key in moved && moved[key].file == FileOf("1") && now.Has("INBOX", "1");
  }

  lemma ReplayTwo(maps: seq<Mapping>, start: Imap, c: Change, d: Change)
    ensures Replay(maps, start, [c, d]) == Apply(maps, d, Apply(maps, c, start))
  {
    assert [c, d][..1] == [c];
    assert Replay(maps, start, [c]) == Apply(maps, c, Replay(maps, start, []));
  }

  // ------------------------------------------------------------------ a whole run

  /** The entry is tracked in mapping i and has its file there. */
  ghost predicate InPlace(maps: seq<Mapping>, entries: Entries, dirs: Maildirs, i: nat, k: Key) {
    i < |maps| && k in entries && k.mailbox == maps[i].remote && Found(dirs, maps[i].local, entries[k].file)
  }

  /** From place n on, every own change is lawful with the stage of its mapping. */
  ghost predicate LawfulStages(maps: seq<Mapping>, stages: seq<Stage>, log: seq<Change>, n: nat) {
    forall m :: n <= m < |log| && !log[m].Foreign? ==>
      log[m].i < |stages| && Lawful(maps, stages[log[m].i].entries, stages[log[m].i].dirs, log[m])
  }

  lemma StageLawful(maps: seq<Mapping>, stages: seq<Stage>, now: Stage, before: seq<Change>, log: seq<Change>, n: nat, i: nat)
    requires |stages| == i && before <= log && n <= |before| && LawfulStages(maps, stages, before, n)
    requires LawfulFrom(maps, now.entries, now.dirs, i, log, |before|)
    ensures LawfulStages(maps, stages + [now], log, n)
  {
  }

  /** A change was made only for a file with at most one copy that was missing in its mapping's
      Maildir when the run began. */
  lemma ChangedWasMissing(maps: seq<Mapping>, start: Stage, stages: seq<Stage>, log: seq<Change>, n: nat, m: nat)
    requires Staged(maps, start, stages) && LawfulStages(maps, stages, log, n) && n <= m < |log| && !log[m].Foreign?
    ensures
      var c := log[m];
      && c.i < |stages| && !Spared(maps, stages[c.i].entries, stages[c.i].dirs, c.i, c.k)
      && c.k in stages[c.i].entries && !Found(start.dirs, maps[c.i].local, stages[c.i].entries[c.k].file)
  {
  }

  /** An entry whose file was in place when the run began is named by no change of the run. */
  lemma InPlaceUntouched(maps: seq<Mapping>, start: Stage, stages: seq<Stage>, log: seq<Change>, n: nat, i: nat, k: Key)
    requires Staged(maps, start, stages) && LawfulStages(maps, stages, log, n) && Distinct(maps) && i < |maps|
    requires k in start.entries && k.mailbox == maps[i].remote && Found(start.dirs, maps[i].local, start.entries[k].file)
    ensures forall m :: n <= m < |log| ==> log[m].Foreign? || log[m].k != k
  {
  }

  /** If other clients keep the message there, it stays exactly if it is not expunged along with others; so
      it does if it was not marked at place n, and nobody else marks it. */
  ghost predicate Stays(maps: seq<Mapping>, start: Imap, log: seq<Change>, n: nat, k: Key)
    requires n <= |log|
  {
    OthersKeep(maps, start, log, n, k.mailbox, k.id) ==>
      && (Replay(maps, start, log).Has(k.mailbox, k.id) <==> !SweptFrom(maps, start, log, n, k.mailbox, k.id))
      && (!Replay(maps, start, log[..n]).Marked(k.mailbox, k.id) && OthersSpare(log, n, k.mailbox, k.id) ==>
            Replay(maps, start, log).Has(k.mailbox, k.id))
  }

  /** So it stays in its mailbox if other clients keep it there, exactly if it is not expunged along with
      others; so it does if it was not marked when the run began, and nobody else marks it. */
  lemma InPlaceSurvive(maps: seq<Mapping>, s: Stage, stages: seq<Stage>, start: Imap, log: seq<Change>, n: nat, i: nat, k: Key)
    requires Staged(maps, s, stages) && LawfulStages(maps, stages, log, n) && Distinct(maps) && i < |maps|
    requires k in s.entries && k.mailbox == maps[i].remote && Found(s.dirs, maps[i].local, s.entries[k].file)
    requires n <= |log| && Aging(maps, start, log) && Sane(Replay(maps, start, log[..n]))
    requires Replay(maps, start, log[..n]).Has(k.mailbox, k.id)
    ensures Stays(maps, start, log, n, k)
  {
    hide Replay, SweptFrom, OthersKeep, OthersSpare, Aging;
    InPlaceUntouched(maps, s, stages, log, n, i, k);
    assert Unnamed(log, n, k.mailbox, k.id);
    if OthersKeep(maps, start, log, n, k.mailbox, k.id) {
      UnrelatedSurvive(maps, start, log, n, k.mailbox, k.id);
      if !Replay(maps, start, log[..n]).Marked(k.mailbox, k.id) && OthersSpare(log, n, k.mailbox, k.id) {
        UnmarkedUnswept(maps, start, log, n, k.mailbox, k.id);
      }
    }
  }

  /** What staying comes to where nothing is expunged along, or nobody else is about. */
  lemma SparedMeans(maps: seq<Mapping>, start: Imap, log: seq<Change>, n: nat)
    requires n <= |log|
    ensures (forall c :: c in log ==> !c.Sweep?) ==> forall k: Key ::
      Stays(maps, start, log, n, k) && OthersKeep(maps, start, log, n, k.mailbox, k.id) ==> Replay(maps, start, log).Has(k.mailbox, k.id)
    ensures (forall c :: c in log ==> !c.Foreign?) ==> forall k: Key ::
      Stays(maps, start, log, n, k) && !Replay(maps, start, log[..n]).Marked(k.mailbox, k.id) ==> Replay(maps, start, log).Has(k.mailbox, k.id)
  {
    hide Replay;
  }
}
