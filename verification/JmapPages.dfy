/** A mailbox listed page by page, while other clients change it between the requests. */
module JmapPages {
  type Id = string

  /** What a request meets: the mailbox as it is then, and how many ids the server will give. */
  datatype Answer = Answer(listing: seq<Id>, limit: nat)

  /** The most ids that are asked for at once. */
  const PageLimit: nat := 500

  predicate NoRepeats(s: seq<Id>) {
    forall i, j :: 0 <= i < j < |s| ==> s[i] != s[j]
  }

  function Ids(s: seq<Id>): (ids: set<Id>) {
    set id | id in s
  }

  function Page(a: Answer, position: nat): (page: seq<Id>) {
    if position >= |a.listing| then []
    else if position + a.limit <= |a.listing| then a.listing[position..position + a.limit]
    else a.listing[position..]
  }

  /** The position after these requests. */
  function Position(answers: seq<Answer>): (p: nat) {
    if answers == [] then 0
    else
      var p := Position(answers[..|answers| - 1]);
      p + |Page(answers[|answers| - 1], p)|
  }

  function AllOf(answers: seq<Answer>): (ids: seq<Id>) {
    if answers == [] then []
    else AllOf(answers[..|answers| - 1]) + Page(answers[|answers| - 1], Position(answers[..|answers| - 1]))
  }

  /** The last page was empty, or the position has come to the total. */
  predicate Ended(answers: seq<Answer>) {
    answers != [] &&
    var a := answers[|answers| - 1];
    Page(a, Position(answers[..|answers| - 1])) == [] || Position(answers) >= |a.listing|
  }

  predicate ValidAnswer(a: Answer) {
    0 < a.limit <= PageLimit && NoRepeats(a.listing)
  }

  /** Requests of a listing that has not ended. */
  predicate Asking(answers: seq<Answer>) {
    answers == [] ||
    (Asking(answers[..|answers| - 1]) && ValidAnswer(answers[|answers| - 1]) && !Ended(answers))
  }

  /** All requests of one listing: it goes on until it has ended, and not beyond. */
  predicate Complete(answers: seq<Answer>) {
    answers != [] && Asking(answers[..|answers| - 1]) && ValidAnswer(answers[|answers| - 1]) && Ended(answers)
  }

  lemma {:induction false} AnswersAreValid(answers: seq<Answer>)
    requires Asking(answers) || Complete(answers)
    ensures forall a :: a in answers ==> ValidAnswer(a)
  {
    hide Ended, ValidAnswer;
    if answers != [] {
      AnswersAreValid(answers[..|answers| - 1]);
      assert answers == answers[..|answers| - 1] + [answers[|answers| - 1]];
    }
  }

  /** One more request either ends the listing or not. */
  lemma AskOn(answers: seq<Answer>, a: Answer)
    requires Asking(answers) && ValidAnswer(a)
    ensures
      var p, page, now := Position(answers), Page(a, Position(answers)), answers + [a];
      && Position(now) == p + |page| && AllOf(now) == AllOf(answers) + page
      && if page == [] || p + |page| >= |a.listing| then Complete(now) else Asking(now)
  {
    hide Page, Position, AllOf, ValidAnswer;
    OneMore(answers, a);
    assert (answers + [a])[..|answers|] == answers;
  }

  /** The place of a listed message. */
  function Place(l: seq<Id>, id: Id): (n: nat)
    requires id in l
    ensures n < |l| && l[n] == id
  {
    if l[0] == id then 0 else 1 + Place(l[1..], id)
  }

  /** The message is in the mailbox all the time. */
  predicate StaysListed(answers: seq<Answer>, id: Id) {
    forall n :: 0 <= n < |answers| ==> id in answers[n].listing
  }

  /** From one request to the next, it does not move towards the front. */
  predicate NeverMovesUp(answers: seq<Answer>, id: Id)
    requires StaysListed(answers, id)
  {
    forall n :: 0 <= n < |answers| - 1 ==> Place(answers[n].listing, id) <= Place(answers[n + 1].listing, id)
  }

  lemma OneMore(front: seq<Answer>, a: Answer)
    ensures Position(front + [a]) == Position(front) + |Page(a, Position(front))|
    ensures AllOf(front + [a]) == AllOf(front) + Page(a, Position(front))
  {
    assert (front + [a])[..|front|] == front;
  }

  lemma {:induction false} ListedOrAhead(answers: seq<Answer>, id: Id)
    requires answers != [] && StaysListed(answers, id) && NeverMovesUp(answers, id)
    requires forall n :: 0 <= n < |answers| ==> 0 < answers[n].limit
    ensures id in AllOf(answers) || Position(answers) <= Place(answers[|answers| - 1].listing, id)
  {
    hide Position, AllOf, Place;
    var n := |answers| - 1;
    var front, last := answers[..n], answers[n];
    assert answers == front + [last];
    OneMore(front, last);
    if n > 0 {
      assert StaysListed(front, id) && NeverMovesUp(front, id);
      ListedOrAhead(front, id);
    } else {
      NoAnswers();
    }
    if id !in AllOf(front) {
      assert n > 0 ==> Place(answers[n - 1].listing, id) <= Place(last.listing, id);
      OnPage(last, Position(front), id);
    }
  }

  lemma NoAnswers()
    ensures Position([]) == 0 && AllOf([]) == [] && Asking([])
  {
  }

  /** A message that is not before the position is on the page or after it. */
  lemma OnPage(a: Answer, p: nat, id: Id)
    requires id in a.listing && p <= Place(a.listing, id)
    ensures id in Page(a, p) || p + |Page(a, p)| <= Place(a.listing, id)
  {
    hide Place;
    var q := Place(a.listing, id);
    if q < p + |Page(a, p)| {
      assert Page(a, p)[q - p] == id;
    }
  }

  /** A message that stays and before which no other disappears between the requests is listed. */
  lemma SteadyIsListed(answers: seq<Answer>, id: Id)
    requires answers != [] && Ended(answers) && StaysListed(answers, id) && NeverMovesUp(answers, id)
    requires forall n :: 0 <= n < |answers| ==> 0 < answers[n].limit
    ensures id in AllOf(answers)
  {
    hide Position, AllOf, Place, NeverMovesUp, Ended;
    EndedIsBehind(answers);
    ListedOrAhead(answers, id);
  }

  lemma CompleteIsSteady(answers: seq<Answer>, id: Id)
    requires Complete(answers) && StaysListed(answers, id) && NeverMovesUp(answers, id)
    ensures id in AllOf(answers)
  {
    AnswersAreValid(answers);
    hide Ended, StaysListed, NeverMovesUp, AllOf, Asking;
    forall n | 0 <= n < |answers| ensures 0 < answers[n].limit {
      assert answers[n] in answers;
    }
    SteadyIsListed(answers, id);
  }

  lemma EndedIsBehind(answers: seq<Answer>)
    requires Ended(answers) && answers != [] && 0 < answers[|answers| - 1].limit
    ensures answers != [] && Position(answers) >= |answers[|answers| - 1].listing|
  {
  }

  /** With a mailbox that does not change, exactly its messages are listed, each once. */
  lemma {:induction false} UnchangedUpTo(answers: seq<Answer>, l: seq<Id>)
    requires forall a :: a in answers ==> a.listing == l
    ensures Position(answers) <= |l| && AllOf(answers) == l[..Position(answers)]
  {
    hide Position, AllOf;
    if answers == [] {
      NoAnswers();
    } else {
      var front, last := answers[..|answers| - 1], answers[|answers| - 1];
      assert answers == front + [last];
      OneMore(front, last);
      UnchangedUpTo(front, l);
      assert last in answers;
      PageOf(last, Position(front));
    }
  }

  lemma PageOf(a: Answer, p: nat)
    requires p <= |a.listing|
    ensures p + |Page(a, p)| <= |a.listing| && a.listing[..p] + Page(a, p) == a.listing[..p + |Page(a, p)|]
  {
  }

  lemma UnchangedIsListed(answers: seq<Answer>, l: seq<Id>)
    requires Complete(answers) && forall a :: a in answers ==> a.listing == l
    ensures AllOf(answers) == l
  {
    UnchangedUpTo(answers, l);
    UnchangedUpTo(answers[..|answers| - 1], l);
    assert answers[|answers| - 1] in answers;
    assert l[..|l|] == l;
  }

  /** Listings that begin with this answer and in which the message stays. */
  ghost predicate Keeps(first: Answer, id: Id, answers: seq<Answer>) {
    Complete(answers) && answers[0] == first && StaysListed(answers, id)
  }

  /** Whatever other clients do besides, a message that stays is listed, exactly if it is on the first page. */
  lemma AlwaysListedIff(first: Answer, n: nat)
    requires NoRepeats(first.listing) && n < |first.listing| && 0 < first.limit <= PageLimit
    ensures (forall answers :: Keeps(first, first.listing[n], answers) ==> first.listing[n] in AllOf(answers)) <==> n < first.limit
  {
    if n < first.limit {
      forall answers | Keeps(first, first.listing[n], answers) ensures first.listing[n] in AllOf(answers) {
        FirstPage(answers);
        assert Page(first, 0)[n] == first.listing[n];
      }
    } else {
      SkippedAfterRemoval(first, n);
    }
  }

  lemma {:induction false} FirstPage(answers: seq<Answer>)
    requires answers != []
    ensures Page(answers[0], 0) <= AllOf(answers)
  {
    if |answers| > 1 {
      FirstPage(answers[..|answers| - 1]);
    } else {
      assert AllOf(answers[..0]) == [] && Position(answers[..0]) == 0;
    }
  }

  /** The others remove so many messages before it that it comes to stand before the position reached, and
      those behind it. */
  lemma SkippedAfterRemoval(first: Answer, n: nat)
    requires NoRepeats(first.listing) && first.limit <= n < |first.listing| && 0 < first.limit <= PageLimit
    ensures
      var answers := [first, Answer(first.listing[n + 1 - first.limit..n + 1], first.limit)];
      Keeps(first, first.listing[n], answers) && first.listing[n] !in AllOf(answers)
  {
    var l, limit := first.listing, first.limit;
    var second := Answer(l[n + 1 - limit..n + 1], limit);
    var answers := [first, second];
    NoAnswers();
    assert [] + [first] == [first] && [first] + [second] == answers;
    AskOn([], first);
    AskOn([first], second);
    TwoPages(first, n);
    hide Position, AllOf, Page;
    assert answers[0] == first && answers[1] == second;
  }

  lemma TwoPages(first: Answer, n: nat)
    requires NoRepeats(first.listing) && first.limit <= n < |first.listing| && 0 < first.limit
    ensures
      var second := Answer(first.listing[n + 1 - first.limit..n + 1], first.limit);
      && Page(first, 0) == first.listing[..first.limit] && Page(second, first.limit) == []
      && NoRepeats(second.listing) && first.listing[n] in second.listing && first.listing[n] !in first.listing[..first.limit]
  {
    var second := Answer(first.listing[n + 1 - first.limit..n + 1], first.limit);
    assert second.listing[first.limit - 1] == first.listing[n];
  }

  /** One message more than a page, and one of the page removed before the next is asked for. */
  lemma OneRemovalSkips(l: seq<Id>)
    requires NoRepeats(l) && |l| == PageLimit + 1
    ensures
      var first, answers := Answer(l, PageLimit), [Answer(l, PageLimit), Answer(l[1..], PageLimit)];
      Keeps(first, l[PageLimit], answers) && l[PageLimit] !in AllOf(answers)
  {
    SkippedAfterRemoval(Answer(l, PageLimit), PageLimit);
    assert l[1..] == l[PageLimit + 1 - PageLimit..PageLimit + 1];
  }
}
