/** The changes a mail run makes on a JMAP server, when they are lawful, and what they leave
    alone, whatever other clients do in between. */
module JmapChanges {
  import opened MailWorld
  import opened JmapMail

  /** Changes of this run name the mapping and the entry they were made for. */
  datatype Change =
    | Foreign(now: Emails)                       // somebody else, anything
    | Unlink(i: nat, k: Key)
    | Destroy(i: nat, k: Key, seen: set<Box>)    // the memberships that were read before
    | Transfer(i: nat, k: Key, to: nat)

  function Apply(a: Account, c: Change, emails: Emails): (r: Emails) {
    match c
    case Foreign(now) => now
    case Unlink(i, k) => if a.Resolves(i) then Unlinked(emails, k.id, a.BoxOf(i)) else emails
    case Destroy(_, k, _) => Destroyed(emails, k.id)
    case Transfer(i, k, to) =>
      if a.Resolves(i) && a.Resolves(to) then Transferred(emails, k.id, a.BoxOf(i), a.BoxOf(to)) else emails
  }

  function Replay(a: Account, start: Emails, log: seq<Change>): (r: Emails) {
    if log == [] then start else Apply(a, log[|log| - 1], Replay(a, start, log[..|log| - 1]))
  }

  // ------------------------------------------------------------------ lawful changes

  /** With these entries and Maildirs, the change may be made: a message is taken out of a mailbox
      only if its tracked file is in no mapped Maildir, and carried to another only if that one's
      Maildir alone has it. */
  ghost predicate Lawful(a: Account, entries: Entries, dirs: Maildirs, c: Change) {
    c.Foreign? || (
      && a.Resolves(c.i) && Missing(a.maps, entries, dirs, c.i, c.k)
      && match c
         case Foreign(_) => true
         case Unlink(i, k) => Copies(a.maps, entries, dirs, i, k) == {}
         case Destroy(i, k, seen) => Copies(a.maps, entries, dirs, i, k) == {} && seen == {a.BoxOf(i)}
         case Transfer(i, k, to) => a.Resolves(to) && Copies(a.maps, entries, dirs, i, k) == {to}
    )
  }

  /** From place n on, every own change is of mapping i and lawful with these entries and Maildirs. */
  ghost predicate LawfulFrom(a: Account, entries: Entries, dirs: Maildirs, i: nat, log: seq<Change>, n: nat) {
    forall m :: n <= m < |log| ==> log[m].Foreign? || (log[m].i == i && Lawful(a, entries, dirs, log[m]))
  }

  /** From place n on, every own change is for this entry. */
  predicate OnlyFor(log: seq<Change>, n: nat, i: nat, k: Key) {
    forall m :: n <= m < |log| ==> log[m].Foreign? || (log[m].i == i && log[m].k == k)
  }

  predicate OnlyForeign(log: seq<Change>, n: nat) {
    forall m :: n <= m < |log| ==> log[m].Foreign?
  }

  /** What the change depends on is the entry's file and the Maildirs. */
  lemma LawfulAlike(a: Account, entries: Entries, others: Entries, dirs: Maildirs, i: nat, log: seq<Change>, n: nat, k: Key)
    requires LawfulFrom(a, entries, dirs, i, log, n) && OnlyFor(log, n, i, k)
    requires k in entries && k in others && entries[k] == others[k]
    ensures LawfulFrom(a, others, dirs, i, log, n)
  {
  }

  // ------------------------------------------------------------------ what survives

  /** Nobody else changed anything, and what was read still held when it was acted on. */
  ghost predicate Undisturbed(a: Account, start: Emails, log: seq<Change>) {
    forall n :: 0 <= n < |log| ==> !log[n].Foreign? && Timely(Replay(a, start, log[..n]), log[n])
  }

  /** What was read of the message still holds. */
  predicate Timely(emails: Emails, c: Change) {
    c.Destroy? ==> c.k.id in emails && emails[c.k.id] == c.seen
  }

  /** No other client takes the message out of the mailbox. */
  ghost predicate OthersKeep(a: Account, start: Emails, log: seq<Change>, id: Id, b: Box) {
    forall n :: 0 <= n < |log| && log[n].Foreign? && Member(Replay(a, start, log[..n]), id, b) ==> Member(log[n].now, id, b)
  }

  /** Every time the message is destroyed, it is what was read, and that was the last membership. */
  ghost predicate TimelyFor(a: Account, start: Emails, log: seq<Change>, id: Id) {
    forall n :: 0 <= n < |log| && log[n].Destroy? && log[n].k.id == id ==>
      a.Resolves(log[n].i) && log[n].seen == {a.BoxOf(log[n].i)} && Timely(Replay(a, start, log[..n]), log[n])
  }

  /** The change takes this message out of this mailbox. */
  predicate TakesOut(a: Account, c: Change, id: Id, b: Box) {
    !c.Foreign? && c.k.id == id && a.Resolves(c.i) && a.BoxOf(c.i) == b
  }

  /** Whatever other clients do besides, a membership that they keep survives a run unless an own
      change takes out exactly it. */
  lemma {:induction false} UnrelatedSurvive(a: Account, start: Emails, log: seq<Change>, id: Id, b: Box)
    requires Member(start, id, b) && OthersKeep(a, start, log, id, b) && TimelyFor(a, start, log, id)
    requires forall c :: c in log ==> !TakesOut(a, c, id, b)
    ensures Member(Replay(a, start, log), id, b)
  {
    if log != [] {
      var n := |log| - 1;
      var front := log[..n];
      forall m | 0 <= m < n ensures front[m] == log[m] && front[..m] == log[..m] {
      }
      UnrelatedSurvive(a, start, front, id, b);
      assert log[n] in log;
    }
  }

  /** A spared entry is named by no lawful change. */
  lemma SparedUntouched(a: Account, entries: Entries, dirs: Maildirs, i: nat, log: seq<Change>, n: nat, k: Key)
    requires LawfulFrom(a, entries, dirs, i, log, n) && Spared(a.maps, entries, dirs, i, k)
    ensures forall m :: n <= m < |log| ==> log[m].Foreign? || log[m].k != k
  {
  }

  /** A message whose file is in place, or has two or more copies, or that is not tracked, stays in
      the mailbox of the mapping, unless another client takes it out. */
  lemma {:induction false} SparedSurvive(a: Account, entries: Entries, dirs: Maildirs, i: nat, start: Emails, log: seq<Change>, id: Id)
    requires LawfulFrom(a, entries, dirs, i, log, 0) && a.Resolves(i) && Spared(a.maps, entries, dirs, i, KeyAt(a, i, id))
    requires Member(start, id, a.BoxOf(i)) && OthersKeep(a, start, log, id, a.BoxOf(i))
    ensures Member(Replay(a, start, log), id, a.BoxOf(i))
  {
    SparedUntouched(a, entries, dirs, i, log, 0, KeyAt(a, i, id));
    forall m | 0 <= m < |log| && !log[m].Foreign? ensures log[m].k.id != id {
      assert Lawful(a, entries, dirs, log[m]);
      assert log[m].k == KeyAt(a, i, log[m].k.id);
    }
    UnrelatedSurvive(a, start, log, id, a.BoxOf(i));
  }

  // ------------------------------------------------------------------ reading before removing

  /** What is asked of the server after the memberships were read. */
  function Removal(i: nat, k: Key, seen: set<Box>): (c: Change) {
    if |seen| <= 1 then Destroy(i, k, seen) else Unlink(i, k)
  }

  /** Whatever other clients do between the reading and the request, every other membership is
      spared exactly when more than one was read. */
  lemma RemovalSparesIff(a: Account, i: nat, k: Key, seen: set<Box>)
    requires a.Resolves(i) && a.BoxOf(i) in seen
    ensures |seen| > 1 <==>
      forall now: Emails, b: Box :: Member(now, k.id, b) && b != a.BoxOf(i) ==> Member(Apply(a, Removal(i, k, seen), now), k.id, b)
  {
    if |seen| <= 1 {
      var other := a.BoxOf(i) + 1;
      var now: Emails := map[k.id := {a.BoxOf(i), other}];
      assert Member(now, k.id, other) && !Member(Apply(a, Removal(i, k, seen), now), k.id, other);
    }
  }

  /** A lawful run in which that happens. */
  lemma DestroyRace(a: Account, entries: Entries, dirs: Maildirs, i: nat, k: Key, other: Box)
    requires a.Resolves(i) && other != a.BoxOf(i)
    requires Missing(a.maps, entries, dirs, i, k) && Copies(a.maps, entries, dirs, i, k) == {}
    ensures
      var log := [Foreign(map[k.id := {a.BoxOf(i), other}]), Removal(i, k, {a.BoxOf(i)})];
      LawfulFrom(a, entries, dirs, i, log, 0) && !Member(Replay(a, map[k.id := {a.BoxOf(i)}], log), k.id, other)
  {
  }

  // ------------------------------------------------------------------ a whole run

  /** From place n on, every own change is lawful with the stage of its mapping. */
  ghost predicate LawfulStages(a: Account, stages: seq<Stage>, log: seq<Change>, n: nat) {
    forall m :: n <= m < |log| && !log[m].Foreign? ==>
      log[m].i < |stages| && Lawful(a, stages[log[m].i].entries, stages[log[m].i].dirs, log[m])
  }

  lemma LawfulOn(a: Account, entries: Entries, dirs: Maildirs, i: nat, before: seq<Change>, log: seq<Change>, n: nat)
    requires before <= log && n <= |before|
    requires LawfulFrom(a, entries, dirs, i, before, n) && LawfulFrom(a, entries, dirs, i, log, |before|)
    ensures LawfulFrom(a, entries, dirs, i, log, n)
  {
  }

  lemma StageLawful(a: Account, stages: seq<Stage>, now: Stage, before: seq<Change>, log: seq<Change>, n: nat, i: nat)
    requires |stages| == i && before <= log && n <= |before| && LawfulStages(a, stages, before, n)
    requires LawfulFrom(a, now.entries, now.dirs, i, log, |before|)
    ensures LawfulStages(a, stages + [now], log, n)
  {
  }

  /** A change was made only for a file with at most one copy that was missing in its mapping's
      Maildir when the run began. */
  lemma ChangedWasMissing(a: Account, start: Stage, stages: seq<Stage>, log: seq<Change>, n: nat, m: nat)
    requires Staged(a.maps, start, stages) && LawfulStages(a, stages, log, n) && n <= m < |log| && !log[m].Foreign?
    ensures
      var c := log[m];
      && c.i < |stages| && !Spared(a.maps, stages[c.i].entries, stages[c.i].dirs, c.i, c.k)
      && c.k in stages[c.i].entries && !Found(start.dirs, a.maps[c.i].local, stages[c.i].entries[c.k].file)
  {
  }

  /** An entry whose file was in place when the run began is named by no change of the run. */
  lemma InPlaceUntouched(a: Account, start: Stage, stages: seq<Stage>, log: seq<Change>, n: nat, i: nat, k: Key)
    requires Staged(a.maps, start, stages) && LawfulStages(a, stages, log, n) && Distinct(a.maps) && i < |a.maps|
    requires k in start.entries && k.mailbox == a.maps[i].remote && Found(start.dirs, a.maps[i].local, start.entries[k].file)
    ensures forall m :: n <= m < |log| ==> log[m].Foreign? || log[m].k != k
  {
  }
}
