/** Managed folder mappings laid over those of the configuration file. */
module FolderOverrides {
  import opened Wrappers
  import opened Utf8

  type Name = seq<byte>

  datatype Mailbox = Mailbox(remote: Name, local: Name)

  /** A mapping that replaces the configured one for its remote folder; a disabled one keeps its path. */
  datatype Override = Override(remote: Name, local: Name, enabled: bool)

  // ------------------------------------------------------------------ applying and saving

  /** The mailboxes whose remote is not among these. */
  function Except(ms: seq<Mailbox>, remotes: set<Name>): (r: seq<Mailbox>) {
    if ms == [] then [] else Except(ms[..|ms| - 1], remotes) + Kept(ms[|ms| - 1], remotes)
  }

  function Kept(m: Mailbox, remotes: set<Name>): (r: seq<Mailbox>) {
    if m.remote in remotes then [] else [m]
  }

  function Active(o: Override): (r: seq<Mailbox>) {
    if o.enabled then [Mailbox(o.remote, o.local)] else []
  }

  /** Override after override replaces or removes the mapping of its remote. */
  function Applied(ms: seq<Mailbox>, os: seq<Override>): (r: seq<Mailbox>) {
    if os == [] then ms
    else
      var last := os[|os| - 1];
      Except(Applied(ms, os[..|os| - 1]), {last.remote}) + Active(last)
  }

  /** The record replaces the one for its remote in place, or comes last. */
  function Saved(os: seq<Override>, o: Override): (r: seq<Override>) {
    if Index(os, o.remote) < |os| then os[Index(os, o.remote) := o] else os + [o]
  }

  function Index(os: seq<Override>, remote: Name): (i: nat)
    ensures i <= |os| && (i < |os| ==> os[i].remote == remote) && forall k :: 0 <= k < i ==> os[k].remote != remote
  {
    if os == [] || os[0].remote == remote then 0 else 1 + Index(os[1..], remote)
  }

  function Remotes(os: seq<Override>): (s: set<Name>)
    ensures forall r :: r in s <==> exists i :: 0 <= i < |os| && os[i].remote == r
  {
    set i | 0 <= i < |os| :: os[i].remote
  }

  function Enabled(os: seq<Override>): (r: seq<Mailbox>) {
    if os == [] then [] else Enabled(os[..|os| - 1]) + Active(os[|os| - 1])
  }

  predicate OncePerRemote(os: seq<Override>) {
    forall i, j :: 0 <= i < j < |os| ==> os[i].remote != os[j].remote
  }

  predicate OneMailboxPerRemote(ms: seq<Mailbox>) {
    forall i, j :: 0 <= i < j < |ms| ==> ms[i].remote != ms[j].remote
  }

  // ------------------------------------------------------------------ the closed form

  lemma {:induction false} ExceptHas(ms: seq<Mailbox>, s: set<Name>, m: Mailbox)
    ensures m in Except(ms, s) <==> m in ms && m.remote !in s
  {
    if ms != [] {
      ExceptHas(ms[..|ms| - 1], s, m);
      assert ms == ms[..|ms| - 1] + [ms[|ms| - 1]];
    }
  }

  lemma ExceptLast(ms: seq<Mailbox>, m: Mailbox, s: set<Name>)
    ensures Except(ms + [m], s) == Except(ms, s) + Kept(m, s)
  {
  }

  lemma {:induction false} ExceptConcat(a: seq<Mailbox>, b: seq<Mailbox>, s: set<Name>)
    ensures Except(a + b, s) == Except(a, s) + Except(b, s)
  {
    if b == [] {
      assert a + b == a;
      assert Except(a, s) + [] == Except(a, s);
    } else {
      hide Except, Kept;
      var front, last := b[..|b| - 1], b[|b| - 1];
      ExceptConcat(a, front, s);
      ExceptLast(a + front, last, s);
      ExceptLast(front, last, s);
      assert b == front + [last];
      Regroup(a, front, [last]);
      Regroup(Except(a, s), Except(front, s), Kept(last, s));
    }
  }

  lemma {:induction false} ExceptTwice(a: seq<Mailbox>, s: set<Name>, t: set<Name>)
    ensures Except(Except(a, s), t) == Except(a, s + t)
  {
    if a != [] {
      var front, last := a[..|a| - 1], a[|a| - 1];
      ExceptTwice(front, s, t);
      ExceptConcat(Except(front, s), if last.remote in s then [] else [last], t);
      ExceptOne(last, t);
    }
  }

  lemma ExceptOne(m: Mailbox, t: set<Name>)
    ensures Except([m], t) == if m.remote in t then [] else [m]
    ensures Except([], t) == []
  {
  }

  lemma {:induction false} ExceptAll(ms: seq<Mailbox>, s: set<Name>)
    ensures (forall m :: m in ms ==> m.remote in s) ==> Except(ms, s) == []
    ensures (forall m :: m in ms ==> m.remote !in s) ==> Except(ms, s) == ms
  {
    if ms != [] {
      var front, last := ms[..|ms| - 1], ms[|ms| - 1];
      assert last in ms && forall m :: m in front ==> m in ms;
      ExceptAll(front, s);
      assert ms == front + [last];
    }
  }

  lemma {:induction false} EnabledHas(os: seq<Override>, m: Mailbox)
    ensures m in Enabled(os) <==> exists i :: 0 <= i < |os| && os[i] == Override(m.remote, m.local, true)
  {
    if os != [] {
      var n := |os| - 1;
      EnabledHas(os[..n], m);
      if m in Active(os[n]) {
        assert os[n] == Override(m.remote, m.local, true);
      }
      if i :| 0 <= i < |os| && os[i] == Override(m.remote, m.local, true) {
        assert i < n ==> os[..n][i] == os[i];
      }
      if i :| 0 <= i < n && os[..n][i] == Override(m.remote, m.local, true) {
        assert os[i] == os[..n][i];
      }
    }
  }

  /** The configured mappings without an override, then the enabled overrides in their order. */
  lemma {:induction false} AppliedIs(ms: seq<Mailbox>, os: seq<Override>)
    requires OncePerRemote(os)
    ensures Applied(ms, os) == Except(ms, Remotes(os)) + Enabled(os)
  {
    if os == [] {
      assert Remotes(os) == {};
      ExceptAll(ms, {});
      assert Enabled(os) == [] && ms + [] == ms;
    } else {
      var n := |os| - 1;
      var front, last := os[..n], os[n];
      AppliedIs(ms, front);
      assert os == front + [last];
      RemotesConcat(front, last);
      EnabledElsewhere(front, last.remote) by {
        forall i | 0 <= i < n ensures front[i].remote != last.remote {
          assert front[i] == os[i];
        }
      }
      LaysOver(Except(ms, Remotes(front)), Enabled(front), last);
      ExceptTwice(ms, Remotes(front), {last.remote});
    }
  }

  lemma EnabledElsewhere(os: seq<Override>, remote: Name)
    requires forall i :: 0 <= i < |os| ==> os[i].remote != remote
    ensures Except(Enabled(os), {remote}) == Enabled(os)
  {
  }

  lemma LaysOver(a: seq<Mailbox>, b: seq<Mailbox>, last: Override)
    requires Except(b, {last.remote}) == b
    ensures Except(a + b, {last.remote}) + Active(last) == Except(a, {last.remote}) + (b + Active(last))
  {
    ExceptConcat(a, b, {last.remote});
  }

  lemma RemotesConcat(front: seq<Override>, last: Override)
    ensures Remotes(front + [last]) == Remotes(front) + {last.remote}
  {
    var os := front + [last];
    forall r ensures r in Remotes(os) <==> r in Remotes(front) || r == last.remote {
      if i :| 0 <= i < |front| && front[i].remote == r {
        assert os[i].remote == r;
      }
      if r == last.remote {
        assert os[|front|].remote == r;
      }
      if i :| 0 <= i < |os| && os[i].remote == r {
        assert i < |front| ==> front[i].remote == r;
      }
    }
  }

  /** Applying newer overrides to a list that has older ones applied gives what a fresh start gives, in order. */
  lemma {:induction false} ReapplyIsReload(base: seq<Mailbox>, older: seq<Override>, newer: seq<Override>)
    requires OncePerRemote(older) && OncePerRemote(newer) && Remotes(older) <= Remotes(newer)
    ensures Applied(Applied(base, older), newer) == Applied(base, newer)
  {
    var s, t := Remotes(older), Remotes(newer);
    AppliedIs(base, older);
    AppliedIs(Applied(base, older), newer);
    AppliedIs(base, newer);
    ExceptConcat(Except(base, s), Enabled(older), t);
    ExceptTwice(base, s, t);
    assert s + t == t;
    forall m | m in Enabled(older) ensures m.remote in t {
      EnabledHas(older, m);
      assert m.remote in s;
    }
    ExceptAll(Enabled(older), t);
    assert Except(base, t) + [] == Except(base, t);
  }

  lemma SavedOnce(os: seq<Override>, o: Override)
    requires OncePerRemote(os)
    ensures OncePerRemote(Saved(os, o)) && Remotes(Saved(os, o)) == Remotes(os) + {o.remote}
    ensures forall i :: 0 <= i < |Saved(os, o)| && Saved(os, o)[i].remote == o.remote ==> Saved(os, o)[i] == o
    ensures forall i :: 0 <= i < |Saved(os, o)| && Saved(os, o)[i].remote != o.remote ==> i < |os| && Saved(os, o)[i] == os[i]
    ensures exists i :: 0 <= i < |Saved(os, o)| && Saved(os, o)[i] == o
  {
    var r := Saved(os, o);
    var k := Index(os, o.remote);
    if k < |os| {
      assert r[k] == o;
      forall n ensures n in Remotes(r) <==> n in Remotes(os) + {o.remote} {
        if i :| 0 <= i < |r| && r[i].remote == n {
          assert os[i].remote == n;
        }
        if i :| 0 <= i < |os| && os[i].remote == n {
          assert r[i].remote == n;
        }
      }
    } else {
      assert r[|os|] == o;
      RemotesConcat(os, o);
    }
  }

  lemma {:induction false} EnabledOnce(os: seq<Override>)
    requires OncePerRemote(os)
    ensures OneMailboxPerRemote(Enabled(os))
  {
    if os != [] {
      var n := |os| - 1;
      EnabledOnce(os[..n]);
      var front, all := Enabled(os[..n]), Enabled(os);
      forall i, j | 0 <= i < j < |all| ensures all[i].remote != all[j].remote {
        assert all[i] == front[i] && front[i] in front;
        EnabledHas(os[..n], front[i]);
        var k :| 0 <= k < n && os[..n][k] == Override(front[i].remote, front[i].local, true);
        assert os[k] == os[..n][k];
        assert j < |front| ==> all[j] == front[j];
      }
    }
  }

  lemma {:induction false} ExceptOnce(ms: seq<Mailbox>, s: set<Name>)
    requires OneMailboxPerRemote(ms)
    ensures OneMailboxPerRemote(Except(ms, s))
  {
    if ms != [] {
      var front, r := Except(ms[..|ms| - 1], s), Except(ms, s);
      ExceptOnce(ms[..|ms| - 1], s);
      forall i, j | 0 <= i < j < |r| ensures r[i].remote != r[j].remote {
        assert r[i] == front[i] && front[i] in front;
        ExceptHas(ms[..|ms| - 1], s, front[i]);
        var k :| 0 <= k < |ms| - 1 && ms[..|ms| - 1][k] == front[i];
        assert ms[k] == front[i];
        assert j < |front| ==> r[j] == front[j];
      }
    }
  }

  /** Every remote is mapped once. */
  lemma {:induction false} AppliedOnce(base: seq<Mailbox>, os: seq<Override>)
    requires OneMailboxPerRemote(base) && OncePerRemote(os)
    ensures OneMailboxPerRemote(Applied(base, os))
  {
    AppliedIs(base, os);
    var a, b := Except(base, Remotes(os)), Enabled(os);
    ExceptOnce(base, Remotes(os));
    EnabledOnce(os);
    hide Applied, Enabled, OncePerRemote;
    var all := a + b;
    forall i, j | 0 <= i < j < |all| ensures all[i].remote != all[j].remote {
      if i < |a| <= j {
        assert a[i] in a && b[j - |a|] in b;
        ExceptHas(base, Remotes(os), a[i]);
        EnabledHas(os, b[j - |a|]);
      }
    }
  }

  lemma AppliedHas(base: seq<Mailbox>, os: seq<Override>, m: Mailbox)
    requires OncePerRemote(os)
    ensures m in Applied(base, os) <==>
            (m in base && m.remote !in Remotes(os)) || exists i :: 0 <= i < |os| && os[i] == Override(m.remote, m.local, true)
  {
    AppliedIs(base, os);
    EnabledHas(os, m);
    ExceptHas(base, Remotes(os), m);
  }
}
