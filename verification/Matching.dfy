/** Which messages on the server a local message is: by content, else by Message-ID, else by headers. */
module Matching {
  import opened Wrappers

  type Raw = string
  type Id = string

  datatype Message = Message(id: Id, raw: Raw)

  datatype Method = Exact | MessageId | Header

  /** What is compared: the normalized content, the case-folded Message-ID and the header
      fingerprint of a message; the last two may be missing. */
  datatype Rules = Rules(content: Raw -> string, messageId: Raw -> string, fingerprint: Raw -> string)

  predicate Agree(rules: Rules, how: Method, a: Raw, b: Raw) {
    match how
    case Exact => rules.content(a) == rules.content(b)
    case MessageId => rules.messageId(a) != "" && rules.messageId(a) == rules.messageId(b)
    case Header => rules.fingerprint(a) != "" && rules.fingerprint(a) == rules.fingerprint(b)
  }

  /** The messages agree in no way at all. */
  predicate Unmatched(rules: Rules, a: Raw, b: Raw) {
    !Agree(rules, Exact, a, b) && !Agree(rules, MessageId, a, b) && !Agree(rules, Header, a, b)
  }

  /** The places of the unused messages that agree in one way. */
  function Tier(rules: Rules, how: Method, raw: Raw, remotes: seq<Message>, used: set<Id>): (r: seq<nat>)
    ensures forall i :: 0 <= i < |r| ==> r[i] < |remotes|
  {
    if remotes == [] then []
    else
      var n := |remotes| - 1;
      Tier(rules, how, raw, remotes[..n], used)
      + (if remotes[n].id !in used && Agree(rules, how, raw, remotes[n].raw) then [n] else [])
  }

  /** The first way in which some message agrees decides. */
  function Match(rules: Rules, raw: Raw, remotes: seq<Message>, used: set<Id>): (r: (seq<nat>, Method))
    ensures forall i :: 0 <= i < |r.0| ==> r.0[i] < |remotes|
  {
    var exact := Tier(rules, Exact, raw, remotes, used);
    if exact != [] then (exact, Exact)
    else
      var byId := Tier(rules, MessageId, raw, remotes, used);
      if byId != [] then (byId, MessageId) else (Tier(rules, Header, raw, remotes, used), Header)
  }

  lemma {:induction false} TierHas(rules: Rules, how: Method, raw: Raw, remotes: seq<Message>, used: set<Id>, k: nat)
    requires k < |remotes|
    ensures k in Tier(rules, how, raw, remotes, used) <==>
            remotes[k].id !in used && Agree(rules, how, raw, remotes[k].raw)
  {
    var n := |remotes| - 1;
    if k < n {
      TierHas(rules, how, raw, remotes[..n], used, k);
    }
  }

  predicate Increasing(t: seq<nat>) {
    forall i, j :: 0 <= i < j < |t| ==> t[i] < t[j]
  }

  /** No place is found twice. */
  lemma {:induction false} TierOnce(rules: Rules, how: Method, raw: Raw, remotes: seq<Message>, used: set<Id>)
    ensures Increasing(Tier(rules, how, raw, remotes, used))
  {
    if remotes != [] {
      var n := |remotes| - 1;
      var front, t := Tier(rules, how, raw, remotes[..n], used), Tier(rules, how, raw, remotes, used);
      TierOnce(rules, how, raw, remotes[..n], used);
      forall i, j | 0 <= i < j < |t| ensures t[i] < t[j] {
        assert t[i] == front[i];
        assert j < |front| ==> t[j] == front[j];
      }
    }
  }

  /** Nothing is found exactly when the message agrees with no unused one in any way. */
  lemma {:induction false} NoMatchIff(rules: Rules, raw: Raw, remotes: seq<Message>, used: set<Id>)
    ensures Match(rules, raw, remotes, used).0 == [] <==>
            forall k :: 0 <= k < |remotes| && remotes[k].id !in used ==> Unmatched(rules, raw, remotes[k].raw)
  {
    forall how, k | 0 <= k < |remotes|
      ensures k in Tier(rules, how, raw, remotes, used) <==>
              remotes[k].id !in used && Agree(rules, how, raw, remotes[k].raw)
    {
      TierHas(rules, how, raw, remotes, used, k);
    }
    if Match(rules, raw, remotes, used).0 != [] {
      var k := Match(rules, raw, remotes, used).0[0];
      assert k in Match(rules, raw, remotes, used).0;
      assert remotes[k].id !in used && !Unmatched(rules, raw, remotes[k].raw);
    }
  }

  /** A unique match agrees in the way reported, no other unused message does, and no unused
      message agrees in a stronger way. */
  lemma {:induction false} UniqueMatch(rules: Rules, raw: Raw, remotes: seq<Message>, used: set<Id>)
    requires |Match(rules, raw, remotes, used).0| == 1
    ensures
      var (found, how) := Match(rules, raw, remotes, used);
      && remotes[found[0]].id !in used && Agree(rules, how, raw, remotes[found[0]].raw)
      && (forall k :: 0 <= k < |remotes| && k != found[0] && remotes[k].id !in used ==> !Agree(rules, how, raw, remotes[k].raw))
      && (how != Exact ==> forall k :: 0 <= k < |remotes| && remotes[k].id !in used ==> !Agree(rules, Exact, raw, remotes[k].raw))
      && (how == Header ==> forall k :: 0 <= k < |remotes| && remotes[k].id !in used ==> !Agree(rules, MessageId, raw, remotes[k].raw))
  {
    forall how, k | 0 <= k < |remotes|
      ensures k in Tier(rules, how, raw, remotes, used) <==>
              remotes[k].id !in used && Agree(rules, how, raw, remotes[k].raw)
    {
      TierHas(rules, how, raw, remotes, used, k);
    }
    var (found, how) := Match(rules, raw, remotes, used);
    assert found[0] in found;
    assert forall k :: k in found ==> k == found[0];
  }

  /** One pass over the messages for each way. */
  method MatchRemote(rules: Rules, raw: Raw, remotes: seq<Message>, used: set<Id>) returns (found: seq<nat>, how: Method)
    ensures (found, how) == Match(rules, raw, remotes, used)
  {
    how := Exact;
    found := FindTier(rules, Exact, raw, remotes, used);
    if found != [] {
      return;
    }
    if rules.messageId(raw) != "" {
      how := MessageId;
      found := FindTier(rules, MessageId, raw, remotes, used);
      if found != [] {
        return;
      }
    } else {
      NothingFor(rules, MessageId, raw, remotes, used);
    }
    if rules.fingerprint(raw) == "" {
      NothingFor(rules, Header, raw, remotes, used);
      return [], Header;
    }
    how := Header;
    found := FindTier(rules, Header, raw, remotes, used);
  }

  method FindTier(rules: Rules, how: Method, raw: Raw, remotes: seq<Message>, used: set<Id>) returns (found: seq<nat>)
    ensures found == Tier(rules, how, raw, remotes, used)
  {
    found := [];
    var i := 0;
    while i < |remotes|
      invariant i <= |remotes| && found == Tier(rules, how, raw, remotes[..i], used)
    {
      assert remotes[..i + 1][..i] == remotes[..i];
      if remotes[i].id !in used && Agree(rules, how, raw, remotes[i].raw) {
        found := found + [i];
      }
      i := i + 1;
    }
    assert remotes[..i] == remotes;
  }

  lemma {:induction false} NothingFor(rules: Rules, how: Method, raw: Raw, remotes: seq<Message>, used: set<Id>)
    requires forall k :: 0 <= k < |remotes| ==> !Agree(rules, how, raw, remotes[k].raw)
    ensures Tier(rules, how, raw, remotes, used) == []
  {
    var t := Tier(rules, how, raw, remotes, used);
    if t != [] {
      assert t[0] in t;
      TierHas(rules, how, raw, remotes, used, t[0]);
    }
  }

  /** Only the contents matter, not the ids, as long as none is used. */
  lemma {:induction false} MatchByContent(rules: Rules, raw: Raw, a: seq<Message>, b: seq<Message>)
    requires |a| == |b| && forall k :: 0 <= k < |a| ==> a[k].raw == b[k].raw
    ensures Match(rules, raw, a, {}) == Match(rules, raw, b, {})
  {
    forall how ensures Tier(rules, how, raw, a, {}) == Tier(rules, how, raw, b, {}) {
      TierByContent(rules, how, raw, a, b);
    }
  }

  lemma {:induction false} TierByContent(rules: Rules, how: Method, raw: Raw, a: seq<Message>, b: seq<Message>)
    requires |a| == |b| && forall k :: 0 <= k < |a| ==> a[k].raw == b[k].raw
    ensures Tier(rules, how, raw, a, {}) == Tier(rules, how, raw, b, {})
  {
    if a != [] {
      TierByContent(rules, how, raw, a[..|a| - 1], b[..|b| - 1]);
    }
  }

  // ------------------------------------------------------------------ adopting

  /** Every adopted file is assigned a message of its own that was its only match among those not yet assigned. */
  ghost predicate Assigned(rules: Rules, locals: seq<Raw>, remotes: seq<Message>, given: seq<Option<nat>>) {
    && |given| <= |locals|
    && (forall i :: 0 <= i < |given| && given[i].Some? ==> given[i].value < |remotes|)
    && (forall i :: 0 <= i < |given| ==>
          var used := UsedBefore(remotes, given[..i]);
          var found := Match(rules, locals[i], remotes, used).0;
          if |found| == 1 then given[i] == Some(found[0]) else given[i] == None)
  }

  function UsedBefore(remotes: seq<Message>, given: seq<Option<nat>>): (s: set<Id>) {
    set k | 0 <= k < |given| && given[k].Some? && given[k].value < |remotes| :: remotes[given[k].value].id
  }

  function Count(given: seq<Option<nat>>): (n: nat) {
    if given == [] then 0
    else Count(given[..|given| - 1]) + (if given[|given| - 1].Some? then 1 else 0)
  }

  method AdoptMatches(rules: Rules, locals: seq<Raw>, remotes: seq<Message>)
    returns (adopted: nat, skipped: nat, given: seq<Option<nat>>)
    ensures |given| == |locals| && Assigned(rules, locals, remotes, given)
    ensures adopted == Count(given) && adopted + skipped == |locals|
  {
    given, adopted, skipped := [], 0, 0;
    var used: set<Id> := {};
    var i := 0;
    while i < |locals|
      invariant i <= |locals| && |given| == i
      invariant Assigned(rules, locals, remotes, given)
      invariant used == UsedBefore(remotes, given)
      invariant adopted == Count(given) && adopted + skipped == i
    {
      var found, how := MatchRemote(rules, locals[i], remotes, used);
      ghost var before := given;
      if |found| != 1 {
        skipped := skipped + 1;
        given := given + [None];
      } else {
        assert found[0] in found;
        used := used + {remotes[found[0]].id};
        adopted := adopted + 1;
        given := given + [Some(found[0])];
      }
      Extends(rules, locals, remotes, before, given, used);
      i := i + 1;
    }
  }

  lemma Extends(rules: Rules, locals: seq<Raw>, remotes: seq<Message>, before: seq<Option<nat>>, now: seq<Option<nat>>, used: set<Id>)
    requires Assigned(rules, locals, remotes, before) && |before| < |locals|
    requires |now| == |before| + 1 && now[..|before|] == before
    requires now[|before|].Some? ==> now[|before|].value < |remotes|
    requires
      var found := Match(rules, locals[|before|], remotes, UsedBefore(remotes, before)).0;
      if |found| == 1 then now[|before|] == Some(found[0]) else now[|before|] == None
    requires used == UsedBefore(remotes, before) + if now[|before|].Some? then {remotes[now[|before|].value].id} else {}
    ensures Assigned(rules, locals, remotes, now) && used == UsedBefore(remotes, now)
  {
    forall i | 0 <= i < |before| ensures now[..i] == before[..i] && now[i] == before[i] {
      assert now[i] == now[..|before|][i];
    }
  }

  /** No message is adopted twice. */
  lemma {:induction false} AdoptedOnce(rules: Rules, locals: seq<Raw>, remotes: seq<Message>, given: seq<Option<nat>>, i: nat, j: nat)
    requires Assigned(rules, locals, remotes, given) && i < j < |given|
    requires given[i].Some? && given[j].Some?
    ensures remotes[given[i].value].id != remotes[given[j].value].id
  {
    var used := UsedBefore(remotes, given[..j]);
    assert given[..j][i] == given[i];
    UniqueMatch(rules, locals[j], remotes, used);
  }
}
