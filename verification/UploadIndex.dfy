/** The index of an account's mapped mailboxes that a one-shot upload starts from. */
module UploadIndex {
  import opened Wrappers
  import opened JmapPages
  import opened Matching
  import opened UploadForecast

  /** The mailboxes of every message; a message's content never changes. */
  type Memberships = map<Id, set<Box>>

  function Listing(server: Memberships, box: Box): (ids: set<Id>) {
    set id | id in server && box in server[id]
  }

  // ------------------------------------------------------------------ what was read

  /** Mailboxes that were found to list the message. */
  function LocationsOf(boxes: seq<Box>, listed: seq<set<Id>>, id: Id): (bs: set<Box>)
    requires |boxes| == |listed|
  {
    if boxes == [] then {}
    else
      var n := |boxes| - 1;
      LocationsOf(boxes[..n], listed[..n], id) + if id in listed[n] then {boxes[n]} else {}
  }

  function Union(sets: seq<set<Id>>): (u: set<Id>) {
    if sets == [] then {} else Union(sets[..|sets| - 1]) + sets[|sets| - 1]
  }

  /** The index has these locations, and lists each of these messages once with its content. */
  ghost predicate Holds(rawOf: Id -> Raw, locations: Id -> set<Box>, got: set<Id>, index: Index) {
    && index.Sound() && index.migrated == {}
    && (forall id :: id in index.locations <==> locations(id) != {})
    && (forall id :: id in index.locations ==> index.locations[id] == locations(id))
    && (forall m :: m in index.messages <==> m.id in got && m.raw == rawOf(m.id))
  }

  /** The index lists each message once, with its content, if its data came with some listing, and
      with the mailboxes that listed it. */
  ghost predicate Lists(rawOf: Id -> Raw, boxes: seq<Box>, listed: seq<set<Id>>, found: seq<set<Id>>, index: Index) {
    && |listed| == |boxes|
    && Holds(rawOf, (id: Id) => LocationsOf(boxes, listed, id), Union(found), index)
  }

  /** The order in which the server lists a mailbox. */
  type Order = (Memberships, Box) -> seq<Id>

  ghost predicate Orders(listingOf: Order) {
    forall s, b :: NoRepeats(listingOf(s, b)) && Ids(listingOf(s, b)) == Listing(s, b)
  }

  /** From place n of the past on, the server has held this. */
  ghost predicate Held(past: seq<Memberships>, n: nat, s: Memberships) {
    n <= |past| && s in past[n..]
  }

  /** So the mailbox was at some moment since. */
  ghost predicate Was(past: seq<Memberships>, n: nat, box: Box, listing: seq<Id>) {
    exists s :: Held(past, n, s) && Ids(listing) == Listing(s, box)
  }

  /** The message has been in the mailbox ever since. */
  ghost predicate StaysIn(past: seq<Memberships>, n: nat, box: Box, id: Id) {
    forall s :: Held(past, n, s) ==> id in Listing(s, box)
  }

  /** Every request met the mailbox as it was at some moment since. */
  ghost predicate Answered(past: seq<Memberships>, n: nat, box: Box, answers: seq<Answer>) {
    forall a :: a in answers ==> Was(past, n, box, a.listing)
  }

  /** A message's data was there at some moment since, or was not. */
  ghost predicate DataOf(past: seq<Memberships>, n: nat, listed: set<Id>, found: set<Id>) {
    && found <= listed
    && (forall id :: id in found ==> exists s :: Held(past, n, s) && id in s)
    && (forall id :: id in listed - found ==> exists s :: Held(past, n, s) && id !in s)
  }

  /** A mailbox was listed page by page, and the data of the listed messages read. */
  ghost predicate WasRead(past: seq<Memberships>, n: nat, box: Box, answers: seq<Answer>, listed: set<Id>, found: set<Id>) {
    && Complete(answers) && Answered(past, n, box, answers)
    && listed == Ids(AllOf(answers)) && DataOf(past, n, listed, found)
  }

  ghost predicate AllRead(past: seq<Memberships>, n: nat, boxes: seq<Box>, pages: seq<seq<Answer>>,
                          listed: seq<set<Id>>, found: seq<set<Id>>) {
    && |pages| == |boxes| && |listed| == |boxes| && |found| == |boxes|
    && forall i :: 0 <= i < |boxes| ==> WasRead(past, n, boxes[i], pages[i], listed[i], found[i])
  }

  lemma HeldOn(past: seq<Memberships>, later: seq<Memberships>, n: nat, from: nat)
    requires past <= later && n <= from <= |past|
    ensures forall s :: Held(past, from, s) ==> Held(later, n, s)
  {
    forall s | Held(past, from, s) ensures Held(later, n, s) {
      var k :| 0 <= k < |past[from..]| && past[from..][k] == s;
      assert later[n..][from - n + k] == s;
    }
  }

  lemma StaysRead(past: seq<Memberships>, later: seq<Memberships>, n: nat, from: nat, box: Box,
                  answers: seq<Answer>, listed: set<Id>, found: set<Id>)
    requires past <= later && n <= from <= |past|
    ensures Answered(past, from, box, answers) ==> Answered(later, n, box, answers)
    ensures DataOf(past, from, listed, found) ==> DataOf(later, n, listed, found)
    ensures WasRead(past, from, box, answers, listed, found) ==> WasRead(later, n, box, answers, listed, found)
  {
    HeldOn(past, later, n, from);
    if Answered(past, from, box, answers) {
      AnsweredOn(past, later, n, from, box, answers);
    }
    hide Complete, AllOf, Answered, Held;
  }

  lemma AnsweredOn(past: seq<Memberships>, later: seq<Memberships>, n: nat, from: nat, box: Box, answers: seq<Answer>)
    requires past <= later && n <= from <= |past| && Answered(past, from, box, answers)
    ensures Answered(later, n, box, answers)
  {
    forall a | a in answers ensures Was(later, n, box, a.listing) {
      WasOn(past, later, n, from, box, a.listing);
    }
  }

  lemma WasOn(past: seq<Memberships>, later: seq<Memberships>, n: nat, from: nat, box: Box, listing: seq<Id>)
    requires past <= later && n <= from <= |past| && Was(past, from, box, listing)
    ensures Was(later, n, box, listing)
  {
    HeldOn(past, later, n, from);
    var s :| Held(past, from, s) && Ids(listing) == Listing(s, box);
    assert Held(later, n, s);
  }

  lemma OneMoreRead(past: seq<Memberships>, later: seq<Memberships>, n: nat, from: nat, boxes: seq<Box>, i: nat,
                    pages: seq<seq<Answer>>, listed: seq<set<Id>>, found: seq<set<Id>>, answers: seq<Answer>, l: set<Id>, f: set<Id>)
    requires past <= later && i < |boxes| && n <= from <= |later| && n <= |past|
    requires AllRead(past, n, boxes[..i], pages, listed, found) && WasRead(later, from, boxes[i], answers, l, f)
    ensures AllRead(later, n, boxes[..i + 1], pages + [answers], listed + [l], found + [f])
  {
    hide WasRead;
    StaysRead(later, later, n, from, boxes[i], answers, l, f);
    forall j | 0 <= j < i ensures WasRead(later, n, boxes[j], pages[j], listed[j], found[j]) {
      StaysRead(past, later, n, n, boxes[j], pages[j], listed[j], found[j]);
    }
  }

  // ------------------------------------------------------------------ duplicate protection

  lemma {:induction false} UnionHas(sets: seq<set<Id>>, i: nat, id: Id)
    requires i < |sets| && id in sets[i]
    ensures id in Union(sets)
  {
    if i < |sets| - 1 {
      UnionHas(sets[..|sets| - 1], i, id);
    }
  }

  lemma {:induction false} LocationsHave(boxes: seq<Box>, listed: seq<set<Id>>, i: nat, id: Id)
    requires |boxes| == |listed| && i < |boxes| && id in listed[i]
    ensures boxes[i] in LocationsOf(boxes, listed, id)
  {
    if i < |boxes| - 1 {
      LocationsHave(boxes[..|boxes| - 1], listed[..|listed| - 1], i, id);
    }
  }

  /** A message that stays in a mapped mailbox, and before which no other disappears there while it is listed,
      is indexed with its content, whatever else other clients do. One page is enough for that. */
  lemma StayingIsIndexed(past: seq<Memberships>, n: nat, rawOf: Id -> Raw, boxes: seq<Box>,
                         pages: seq<seq<Answer>>, listed: seq<set<Id>>, found: seq<set<Id>>, index: Index, id: Id, i: nat)
    requires AllRead(past, n, boxes, pages, listed, found)
    requires Lists(rawOf, boxes, listed, found, index) && i < |boxes|
    requires StaysIn(past, n, boxes[i], id)
    requires StaysListed(pages[i], id) ==> NeverMovesUp(pages[i], id)
    ensures Message(id, rawOf(id)) in index.messages && id in index.locations && boxes[i] in index.locations[id]
  {
    hide AllOf, LocationsOf, Union, NeverMovesUp, Held, StaysIn, Answered, DataOf, StaysListed, Complete;
    assert WasRead(past, n, boxes[i], pages[i], listed[i], found[i]);
    StaysOnAll(past, n, boxes[i], pages[i], id);
    CompleteIsSteady(pages[i], id);
    DataStays(past, n, boxes[i], listed[i], found[i], id);
    UnionHas(found, i, id);
    LocationsHave(boxes, listed, i, id);
  }

  lemma DataStays(past: seq<Memberships>, n: nat, box: Box, listed: set<Id>, found: set<Id>, id: Id)
    requires DataOf(past, n, listed, found) && id in listed && StaysIn(past, n, box, id)
    ensures id in found
  {
    assert id !in listed - found;
  }

  lemma StaysOnAll(past: seq<Memberships>, n: nat, box: Box, answers: seq<Answer>, id: Id)
    requires Answered(past, n, box, answers) && StaysIn(past, n, box, id)
    ensures StaysListed(answers, id)
  {
    forall k | 0 <= k < |answers| ensures id in answers[k].listing {
      assert answers[k] in answers;
      assert Was(past, n, box, answers[k].listing);
      var s :| Held(past, n, s) && Ids(answers[k].listing) == Listing(s, box);
      assert id in Ids(answers[k].listing);
    }
  }

  /** A message is indexed exactly if some mailbox listed it. */
  lemma IndexedIffListed(rawOf: Id -> Raw, boxes: seq<Box>, listed: seq<set<Id>>, found: seq<set<Id>>, index: Index, id: Id)
    requires Lists(rawOf, boxes, listed, found, index)
    ensures id in index.locations <==> exists i :: 0 <= i < |listed| && id in listed[i]
  {
    if i: int :| 0 <= i < |listed| && id in listed[i] {
      LocationsHave(boxes, listed, i, id);
    } else {
      NowhereListed(boxes, listed, id);
    }
  }

  /** One that is not is imported once more if nothing indexed agrees with it. */
  lemma SkippedIsImported(rules: Rules, rawOf: Id -> Raw, boxes: seq<Box>, listed: seq<set<Id>>, found: seq<set<Id>>,
                          index: Index, id: Id, box: Box)
    requires Lists(rawOf, boxes, listed, found, index)
    requires forall i :: 0 <= i < |listed| ==> id !in listed[i]
    requires forall m :: m in index.messages ==> Unmatched(rules, rawOf(id), m.raw)
    ensures id !in index.locations && Judge(rules, Slots(index), box, rawOf(id)).New?
  {
    NowhereListed(boxes, listed, id);
    hide LocationsOf, Union, Unmatched;
    forall i | 0 <= i < |Contents(Slots(index))| ensures Unmatched(rules, rawOf(id), Contents(Slots(index))[i].raw) {
      assert index.messages[i] in index.messages;
    }
    NoMatchIff(rules, rawOf(id), Contents(Slots(index)), {});
  }

  lemma {:induction false} NowhereListed(boxes: seq<Box>, listed: seq<set<Id>>, id: Id)
    requires |boxes| == |listed| && forall i :: 0 <= i < |listed| ==> id !in listed[i]
    ensures LocationsOf(boxes, listed, id) == {}
  {
    if boxes != [] {
      NowhereListed(boxes[..|boxes| - 1], listed[..|boxes| - 1], id);
    }
  }

  /** The index lists the messages of these mailboxes, each with those of the mailboxes it is in. */
  ghost predicate Indexed(server: Memberships, rawOf: Id -> Raw, boxes: seq<Box>, index: Index) {
    && index.Sound() && index.migrated == {}
    && (forall id :: id in index.locations <==> id in server && exists b :: b in boxes && b in server[id])
    && (forall id :: id in index.locations ==> index.locations[id] == set b | b in server[id] && b in boxes)
    && (forall m :: m in index.messages <==> m.id in index.locations && m.raw == rawOf(m.id))
  }

  lemma {:induction false} LocationsExact(server: Memberships, boxes: seq<Box>, listed: seq<set<Id>>, id: Id)
    requires |boxes| == |listed| && forall i :: 0 <= i < |boxes| ==> listed[i] == Listing(server, boxes[i])
    ensures LocationsOf(boxes, listed, id) == if id in server then set b | b in server[id] && b in boxes else {}
    ensures id in Union(listed) <==> LocationsOf(boxes, listed, id) != {}
  {
    if boxes != [] {
      var n := |boxes| - 1;
      LocationsExact(server, boxes[..n], listed[..n], id);
      assert boxes == boxes[..n] + [boxes[n]];
    }
  }

  /** If nobody else changes anything, the index is exactly what the mailboxes hold. */
  lemma QuietIsIndexed(server: Memberships, rawOf: Id -> Raw, boxes: seq<Box>, listed: seq<set<Id>>, found: seq<set<Id>>, index: Index)
    requires Lists(rawOf, boxes, listed, found, index) && found == listed
    requires forall i :: 0 <= i < |boxes| ==> listed[i] == Listing(server, boxes[i])
    ensures Indexed(server, rawOf, boxes, index)
  {
    forall id: Id
      ensures LocationsOf(boxes, listed, id) == if id in server then set b | b in server[id] && b in boxes else {}
      ensures id in Union(found) <==> LocationsOf(boxes, listed, id) != {}
    {
      LocationsExact(server, boxes, listed, id);
    }
    hide LocationsOf, Union;
    forall id: Id ensures id in index.locations <==> id in server && exists b :: b in boxes && b in server[id] {
      if id in server {
        var bs := set b | b in server[id] && b in boxes;
        assert forall b :: b in bs <==> b in boxes && b in server[id];
        assert bs != {} ==> exists b :: b in bs;
      }
    }
  }

  // ------------------------------------------------------------------ building the index

  /** One sighting of a message; the first that comes with its data is downloaded. */
  function Sighted(index: Index, id: Id, raw: Option<Raw>, box: Box): (r: Index) {
    var boxes := (if id in index.locations then index.locations[id] else {}) + {box};
    Index(if raw.Some? then index.messages + [Message(id, raw.value)] else index.messages, index.locations[id := boxes], index.migrated)
  }

  lemma SightedHolds(rawOf: Id -> Raw, was: Id -> set<Box>, now: Id -> set<Box>, got: set<Id>, index: Index, id: Id, here: bool, box: Box)
    requires Holds(rawOf, was, got, index)
    requires forall q: Id :: now(q) == was(q) + if q == id then {box} else {}
    ensures
      var raw := if here && id !in got then Some(rawOf(id)) else None;
      Holds(rawOf, now, got + if here then {id} else {}, Sighted(index, id, raw, box))
  {
  }

  lemma OneMoreSighted(rawOf: Id -> Raw, boxes: seq<Box>, listed: seq<set<Id>>, found: seq<set<Id>>, index: Index,
                       box: Box, done: set<Id>, here: set<Id>, id: Id)
    requires |listed| == |boxes| && Lists(rawOf, boxes + [box], listed + [done], found + [done * here], index)
    ensures
      var seen := exists m :: m in index.messages && m.id == id;
      var raw := if id in here && !seen then Some(rawOf(id)) else None;
      Lists(rawOf, boxes + [box], listed + [done + {id}], found + [(done + {id}) * here], Sighted(index, id, raw, box))
  {
    var was := (q: Id) => LocationsOf(boxes + [box], listed + [done], q);
    var now := (q: Id) => LocationsOf(boxes + [box], listed + [done + {id}], q);
    var got := Union(found + [done * here]);
    LocationsMore(boxes, listed, box, done, id);
    UnionMore(found, done * here, (done + {id}) * here);
    assert (exists m :: m in index.messages && m.id == id) <==> id in got by {
      assert id in got ==> Message(id, rawOf(id)) in index.messages;
    }
    hide LocationsOf, Union;
    SightedHolds(rawOf, was, now, got, index, id, id in here, box);
    assert got + (if id in here then {id} else {}) == Union(found + [(done + {id}) * here]);
  }

  lemma LocationsMore(boxes: seq<Box>, listed: seq<set<Id>>, box: Box, done: set<Id>, id: Id)
    requires |boxes| == |listed|
    ensures forall q: Id ::
      LocationsOf(boxes + [box], listed + [done + {id}], q) ==
      LocationsOf(boxes + [box], listed + [done], q) + (if q == id then {box} else {})
  {
  }

  lemma UnionMore(found: seq<set<Id>>, s: set<Id>, t: set<Id>)
    ensures Union(found + [t]) == Union(found) + t && Union(found + [s]) == Union(found) + s
  {
  }

  lemma ListsNext(rawOf: Id -> Raw, boxes: seq<Box>, listed: seq<set<Id>>, found: seq<set<Id>>, index: Index, box: Box)
    requires Lists(rawOf, boxes, listed, found, index)
    ensures Lists(rawOf, boxes + [box], listed + [{}], found + [{}], index)
  {
  }

  class Mail {
    const rawOf: Id -> Raw
    const listingOf: Order
    const quiet: bool                  // nobody else changes the server
    var server: Memberships
    ghost var past: seq<Memberships>   // what the server has held

    constructor (rawOf: Id -> Raw, listingOf: Order, quiet: bool, server: Memberships)
      requires Orders(listingOf)
      ensures Valid() && this.rawOf == rawOf && this.listingOf == listingOf && this.quiet == quiet
      ensures this.server == server && past == [server]
    {
      this.rawOf, this.listingOf, this.quiet, this.server, past := rawOf, listingOf, quiet, server, [server];
    }

    ghost predicate Valid()
      reads this
    {
      Orders(listingOf) && past != [] && past[|past| - 1] == server
    }

    /** The moment that has come. */
    ghost function Now(): (n: nat)
      requires past != []
      reads this`past
    {
      |past| - 1
    }

    /** Other clients. */
    method Others()
      requires Valid()
      modifies this`server, this`past
      ensures Valid() && old(past) <= past && (quiet ==> server == old(server) && past == old(past))
    {
      if !quiet {
        server := *;
        past := past + [server];
      }
    }

    /** The ids of a mailbox, page by page; a request may fail, and the whole may be interrupted. */
    method QueryEmailIDs(box: Box) returns (r: Result<seq<Id>, ()>, ghost answers: seq<Answer>)
      requires Valid()
      modifies this`server, this`past
      ensures Valid() && old(past) <= past && (quiet ==> server == old(server) && past == old(past))
      ensures r.Ok? ==> Complete(answers) && r.value == AllOf(answers) && Answered(past, old(Now()), box, answers)
      ensures r.Ok? && quiet ==> r.value == listingOf(server, box)
    {
      hide Position, AllOf, Page, Ended, NoRepeats;
      var patience: nat := *;
      var all: seq<Id> := [];
      var position := 0;
      answers := [];
      NoAnswers();
      while patience > 0
        invariant Valid() && old(past) <= past && (quiet ==> server == old(server) && past == old(past))
        invariant position == Position(answers) && all == AllOf(answers)
        invariant Answered(past, old(Now()), box, answers) && Asking(answers)
        invariant quiet ==> forall a :: a in answers ==> a.listing == listingOf(server, box)
      {
        ghost var before := past;
        Others();
        var limit: nat := *;
        var broken: bool := *;
        if broken || limit < 1 || limit > PageLimit {
          return Err(()), answers;
        }
        var a := Answer(listingOf(server, box), limit);
        var page := Page(a, position);
        AskedOnce(listingOf, before, past, old(Now()), box, answers, limit, server);
        AskOn(answers, a);
        answers, all, position := answers + [a], all + page, position + |page|;
        if page == [] || position >= |a.listing| {
          if quiet {
            UnchangedIsListed(answers, listingOf(server, box));
          }
          return Ok(all), answers;
        }
        patience := patience - 1;
      }
      return Err(()), answers;
    }

    /** Which of the messages there are, some at a time. */
    method GetEmails(ids: seq<Id>) returns (r: Result<set<Id>, ()>)
      requires Valid()
      modifies this`server, this`past
      ensures Valid() && old(past) <= past && (quiet ==> server == old(server) && past == old(past))
      ensures r.Ok? ==> DataOf(past, old(Now()), Ids(ids), r.value)
      ensures r.Ok? && quiet ==> r.value == set id | id in ids && id in server
    {
      hide Orders;
      var found: set<Id> := {};
      var start := 0;
      while start < |ids|
        invariant start <= |ids| && Valid() && old(past) <= past && (quiet ==> server == old(server) && past == old(past))
        invariant DataOf(past, old(Now()), Ids(ids[..start]), found)
        invariant quiet ==> found == set id | id in ids[..start] && id in server
      {
        var end := if start + 200 > |ids| then |ids| else start + 200;
        ghost var before := past;
        Others();
        if * {
          return Err(());
        }
        var more := set id | id in ids[start..end] && id in server;
        MoreData(before, past, old(Now()), Ids(ids[..start]), found, Ids(ids[start..end]), server);
        assert ids[..end] == ids[..start] + ids[start..end];
        assert Ids(ids[..end]) == Ids(ids[..start]) + Ids(ids[start..end]);
        assert more == set id | id in Ids(ids[start..end]) && id in server;
        found, start := found + more, end;
      }
      assert ids[..start] == ids;
      return Ok(found);
    }

    /** Indexes the messages of the mapped mailboxes; every one whose data can be read is downloaded once. */
    method BuildIndex(boxes: seq<Box>)
      returns (r: Result<Index, ()>, ghost pages: seq<seq<Answer>>, ghost listed: seq<set<Id>>, ghost found: seq<set<Id>>)
      requires Valid()
      modifies this`server, this`past
      ensures Valid() && old(past) <= past && (quiet ==> server == old(server))
      ensures r.Ok? ==>
        AllRead(past, old(Now()), boxes, pages, listed, found) && Lists(rawOf, boxes, listed, found, r.value)
      ensures r.Ok? && quiet ==> Indexed(server, rawOf, boxes, r.value)
    {
      hide WasRead, Lists, Indexed, Orders, Answered, DataOf, Complete, AllOf, Listing;
      var index := Index([], map[], {});
      pages, listed, found := [], [], [];
      ListsNothing(rawOf, index);
      var i := 0;
      while i < |boxes|
        invariant i <= |boxes| && Valid() && old(past) <= past
        invariant AllRead(past, old(Now()), boxes[..i], pages, listed, found)
        invariant Lists(rawOf, boxes[..i], listed, found, index)
        invariant quiet ==> server == old(server) && found == listed && forall j :: 0 <= j < i ==> listed[j] == Listing(server, boxes[j])
      {
        ghost var before := past;
        ghost var now := Now();
        var ids, answers := QueryEmailIDs(boxes[i]);
        if ids.Err? {
          return Err(()), pages, listed, found;
        }
        ghost var middle := past;
        ghost var from := Now();
        var here := GetEmails(ids.value);
        if here.Err? {
          return Err(()), pages, listed, found;
        }
        ghost var l := Ids(ids.value);
        StaysRead(middle, past, now, now, boxes[i], answers, l, here.value);
        StaysRead(past, past, now, from, boxes[i], answers, l, here.value);
        ReadIsRead(past, now, boxes[i], answers, l, here.value);
        OneMoreRead(before, past, old(Now()), now, boxes, i, pages, listed, found, answers, l, here.value);
        var indexed := IndexMailbox(boxes[..i], boxes[i], listed, found, ids.value, here.value, index);
        if indexed.Err? {
          return indexed, pages, listed, found;
        }
        index := indexed.value;
        assert boxes[..i] + [boxes[i]] == boxes[..i + 1];
        assert l * here.value == here.value by { FoundListed(past, now, l, here.value); }
        if quiet {
          QuietListing(listingOf, server, boxes[i]);
        }
        pages, listed, found := pages + [answers], listed + [l], found + [here.value];
        i := i + 1;
      }
      assert boxes[..i] == boxes;
      if quiet {
        QuietIsIndexed(server, rawOf, boxes, listed, found, index);
      }
      r := Ok(index);
    }

    /** The messages of one mailbox, each unless it was downloaded before. */
    method IndexMailbox(ghost before: seq<Box>, box: Box, ghost listed: seq<set<Id>>, ghost found: seq<set<Id>>,
                        ids: seq<Id>, here: set<Id>, index: Index) returns (r: Result<Index, ()>)
      requires Lists(rawOf, before, listed, found, index)
      ensures r.Ok? ==>
        Lists(rawOf, before + [box], listed + [Ids(ids)], found + [Ids(ids) * here], r.value)
    {
      hide Lists;
      var now := index;
      var n := 0;
      ListsNext(rawOf, before, listed, found, index, box);
      assert Ids(ids[..0]) == {} && Ids(ids[..0]) * here == {};
      while n < |ids|
        invariant n <= |ids|
        invariant Lists(rawOf, before + [box], listed + [Ids(ids[..n])], found + [Ids(ids[..n]) * here], now)
      {
        var id := ids[n];
        ghost var done := Ids(ids[..n]);
        OneMoreSighted(rawOf, before, listed, found, now, box, done, here, id);
        assert ids[..n + 1] == ids[..n] + [id];
        assert Ids(ids[..n + 1]) == done + {id};
        var seen := exists m :: m in now.messages && m.id == id;
        if id in here && !seen {
          if * {
            return Err(());
          }
          now := Sighted(now, id, Some(rawOf(id)), box);
        } else {
          now := Sighted(now, id, None, box);
        }
        n := n + 1;
      }
      assert ids[..n] == ids;
      return Ok(now);
    }
  }

  lemma ListsNothing(rawOf: Id -> Raw, index: Index)
    requires index == Index([], map[], {})
    ensures Lists(rawOf, [], [], [], index)
  {
  }

  lemma FoundListed(past: seq<Memberships>, n: nat, listed: set<Id>, found: set<Id>)
    requires DataOf(past, n, listed, found)
    ensures listed * found == found
  {
  }

  lemma ReadIsRead(past: seq<Memberships>, n: nat, box: Box, answers: seq<Answer>, listed: set<Id>, found: set<Id>)
    requires Complete(answers) && Answered(past, n, box, answers)
    requires listed == Ids(AllOf(answers)) && DataOf(past, n, listed, found)
    ensures WasRead(past, n, box, answers, listed, found)
  {
  }

  lemma QuietListing(listingOf: Order, server: Memberships, box: Box)
    requires Orders(listingOf)
    ensures Ids(listingOf(server, box)) == Listing(server, box)
    ensures (set id | id in listingOf(server, box) && id in server) == Listing(server, box)
  {
    assert forall id :: id in listingOf(server, box) <==> id in Ids(listingOf(server, box));
  }

  lemma AskedOnce(listingOf: Order, before: seq<Memberships>, past: seq<Memberships>, n: nat, box: Box,
                  answers: seq<Answer>, limit: nat, server: Memberships)
    requires Orders(listingOf) && before <= past && n < |past| && n <= |before| && past[|past| - 1] == server
    requires Answered(before, n, box, answers)
    ensures Answered(past, n, box, answers + [Answer(listingOf(server, box), limit)]) && NoRepeats(listingOf(server, box))
  {
    AnsweredOn(before, past, n, n, box, answers);
    assert Held(past, n, server) by { assert past[n..][|past| - 1 - n] == server; }
    assert Ids(listingOf(server, box)) == Listing(server, box) && Was(past, n, box, listingOf(server, box));
  }

  lemma MoreData(before: seq<Memberships>, past: seq<Memberships>, n: nat, listed: set<Id>, found: set<Id>,
                 more: set<Id>, server: Memberships)
    requires before <= past && n < |past| && n <= |before| && past[|past| - 1] == server && DataOf(before, n, listed, found)
    ensures DataOf(past, n, listed + more, found + set id | id in more && id in server)
  {
    HeldOn(before, past, n, n);
    var now := set id | id in more && id in server;
    assert Held(past, n, server) by { assert past[n..][|past| - 1 - n] == server; }
    forall id | id in listed - found ensures exists s :: Held(past, n, s) && id !in s {
      var s :| Held(before, n, s) && id !in s;
    }
    forall id | id in found ensures exists s :: Held(past, n, s) && id in s {
      var s :| Held(before, n, s) && id in s;
    }
    hide Held;
    assert forall id :: id in (listed + more) - (found + now) ==> id in listed - found || (id in more && id !in server);
  }
}
