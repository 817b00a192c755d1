/** What a one-shot upload of local mail will count, as a function of the contents indexed on
    the server and of the local files, whatever ids uploaded messages get. */
module UploadForecast {
  import opened Matching

  type Box = nat

  /** Messages on the server, the mailboxes of each, and those uploaded by this run. */
  datatype Index = Index(messages: seq<Message>, locations: map<Id, set<Box>>, migrated: set<Id>) {
    ghost predicate Sound() {
      && (forall i, j :: 0 <= i < j < |messages| ==> messages[i].id != messages[j].id)
      && (forall i :: 0 <= i < |messages| ==> messages[i].id in locations)
      && (forall id :: id in migrated ==> id in locations)
    }

    function With(id: Id, raw: Raw, box: Box): (r: Index) {
      Index(messages + [Message(id, raw)], locations[id := {box}], migrated + {id})
    }
  }

  /** An indexed message without its id. */
  datatype Slot = Slot(raw: Raw, boxes: set<Box>, migrated: bool)

  function SlotOf(ix: Index, m: Message): (s: Slot) {
    Slot(m.raw, if m.id in ix.locations then ix.locations[m.id] else {}, m.id in ix.migrated)
  }

  function Slots(ix: Index): (s: seq<Slot>)
    ensures |s| == |ix.messages| && forall i :: 0 <= i < |s| ==> s[i] == SlotOf(ix, ix.messages[i])
  {
    seq(|ix.messages|, i requires 0 <= i < |ix.messages| => SlotOf(ix, ix.messages[i]))
  }

  function Contents(slots: seq<Slot>): (ms: seq<Message>)
    ensures |ms| == |slots| && forall i :: 0 <= i < |ms| ==> ms[i].raw == slots[i].raw
  {
    seq(|slots|, i requires 0 <= i < |slots| => Message("", slots[i].raw))
  }

  datatype Verdict =
    | Ambiguous
    | Retired(place: nat, how: Method)   // a copy of a message uploaded by this run
    | Elsewhere                          // only in other mailboxes
    | Here(place: nat, how: Method)      // in the target mailbox
    | New

  function Judge(rules: Rules, slots: seq<Slot>, box: Box, raw: Raw): (v: Verdict)
    ensures v.Here? || v.Retired? ==> v.place < |slots|
  {
    var (found, how) := Match(rules, raw, Contents(slots), {});
    if |found| > 1 then Ambiguous
    else if |found| == 1 then
      var s := slots[found[0]];
      if s.migrated then Retired(found[0], how)
      else if box !in s.boxes then Elsewhere
      else Here(found[0], how)
    else New
  }

  datatype File = File(box: Box, raw: Raw)

  /** Uploads, files found elsewhere, ambiguous ones, and those adopted or retired. */
  datatype Forecast = Forecast(uploaded: nat, elsewhere: nat, ambiguous: nat, settled: nat)

  function Add(f: Forecast, v: Verdict): (r: Forecast) {
    match v
    case Ambiguous => f.(ambiguous := f.ambiguous + 1)
    case Retired(_, _) => f.(settled := f.settled + 1)
    case Elsewhere => f.(elsewhere := f.elsewhere + 1)
    case Here(_, _) => f.(settled := f.settled + 1)
    case New => f.(uploaded := f.uploaded + 1)
  }

  datatype Prediction = Prediction(slots: seq<Slot>, counts: Forecast)

  function PredictOne(rules: Rules, p: Prediction, f: File): (q: Prediction) {
    var v := Judge(rules, p.slots, f.box, f.raw);
    Prediction(if v.New? then p.slots + [Slot(f.raw, {f.box}, true)] else p.slots, Add(p.counts, v))
  }

  /** File after file, the index growing by what is uploaded. */
  function Predict(rules: Rules, p: Prediction, files: seq<File>): (q: Prediction) {
    if files == [] then p
    else PredictOne(rules, Predict(rules, p, files[..|files| - 1]), files[|files| - 1])
  }

  lemma PredictNext(rules: Rules, p: Prediction, files: seq<File>, n: nat)
    requires n < |files|
    ensures Predict(rules, p, files[..n + 1]) == PredictOne(rules, Predict(rules, p, files[..n]), files[n])
  {
    assert files[..n + 1][..n] == files[..n];
  }

  lemma {:induction false} PredictConcat(rules: Rules, p: Prediction, a: seq<File>, b: seq<File>)
    ensures Predict(rules, p, a + b) == Predict(rules, Predict(rules, p, a), b)
  {
    hide PredictOne;
    if b == [] {
      assert a + b == a;
    } else {
      PredictConcat(rules, p, a, b[..|b| - 1]);
      assert (a + b)[..|a + b| - 1] == a + b[..|b| - 1];
    }
  }

  function Sum(f: Forecast, g: Forecast): (r: Forecast) {
    Forecast(f.uploaded + g.uploaded, f.elsewhere + g.elsewhere, f.ambiguous + g.ambiguous, f.settled + g.settled)
  }

  const Zero: Forecast := Forecast(0, 0, 0, 0)

  /** Counting may start anywhere. */
  lemma {:induction false} PredictFrom(rules: Rules, slots: seq<Slot>, c: Forecast, files: seq<File>)
    ensures
      var p, q := Predict(rules, Prediction(slots, Zero), files), Predict(rules, Prediction(slots, c), files);
      q == Prediction(p.slots, Sum(c, p.counts))
  {
    hide Judge;
    if files != [] {
      PredictFrom(rules, slots, c, files[..|files| - 1]);
    }
  }

  /** Every file is counted once, and the index grows by the uploads. */
  lemma {:induction false} PredictCountsAll(rules: Rules, p: Prediction, files: seq<File>)
    ensures
      var q := Predict(rules, p, files);
      |q.slots| - q.counts.uploaded == |p.slots| - p.counts.uploaded && p.slots <= q.slots
    ensures
      var f, g := p.counts, Predict(rules, p, files).counts;
      g.uploaded + g.elsewhere + g.ambiguous + g.settled == f.uploaded + f.elsewhere + f.ambiguous + f.settled + |files|
  {
    hide Judge;
    if files != [] {
      PredictCountsAll(rules, p, files[..|files| - 1]);
    }
  }

  /** The verdict depends on the index only through its slots. */
  lemma JudgeBySlots(rules: Rules, ix: Index, raw: Raw)
    ensures Match(rules, raw, ix.messages, {}) == Match(rules, raw, Contents(Slots(ix)), {})
  {
    MatchByContent(rules, raw, ix.messages, Contents(Slots(ix)));
  }

  lemma WithSlots(ix: Index, id: Id, raw: Raw, box: Box)
    requires ix.Sound() && id !in ix.locations
    ensures Slots(ix.With(id, raw, box)) == Slots(ix) + [Slot(raw, {box}, true)] && ix.With(id, raw, box).Sound()
  {
  }

  /** Messages from place n on agree in no way with any before them. */
  ghost predicate Fresh(rules: Rules, slots: seq<Slot>, n: nat) {
    forall i, j :: 0 <= i < j < |slots| && n <= j ==> Unmatched(rules, slots[j].raw, slots[i].raw)
  }

  /** What is uploaded agrees with nothing indexed before, uploads of this run included. */
  lemma NewIsFresh(rules: Rules, slots: seq<Slot>, box: Box, raw: Raw, n: nat)
    requires Fresh(rules, slots, n) && Judge(rules, slots, box, raw).New?
    ensures Fresh(rules, slots + [Slot(raw, {box}, true)], n)
  {
    hide Match, Unmatched;
    NoMatchIff(rules, raw, Contents(slots), {});
    forall i | 0 <= i < |slots| ensures Unmatched(rules, raw, slots[i].raw) {
      assert Contents(slots)[i].raw == slots[i].raw;
    }
  }
}
