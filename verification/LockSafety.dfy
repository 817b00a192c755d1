/**
 What every run of the lock protocol keeps: mutual exclusion, whose lock may be
 removed and by whom, and when a process that comes alone gets in.
 */
module LockSafety {
  import opened Wrappers
  import opened LockProtocol

  /** At most one live process or editor is inside the collection. */
  ghost predicate Exclusive(s: State) {
    && (forall p, q :: Holds(s, p) && Holds(s, q) ==> p == q)
    && (forall d, e :: Edits(s, d) && Edits(s, e) ==> d == e)
    && (forall p, e :: Holds(s, p) ==> !Edits(s, e))
  }

  lemma InvExclusive(site: Site, s: State)
    requires Inv(site, s)
    ensures Exclusive(s)
  {
    forall p, q | Holds(s, p) && Holds(s, q) ensures p == q {
      assert NameOf(s, p) && NameOf(s, q) && Apart(s, p, q);
    }
    forall d, e | Edits(s, d) && Edits(s, e) ensures d == e {
      assert NameOfEditor(s, d) && NameOfEditor(s, e) && ApartEditors(s, d, e);
    }
    forall p, e | Holds(s, p) ensures !Edits(s, e) {
      assert NameOf(s, p) && NameOfEditor(s, e) && FileOf(site, s, p) && FileOfEditor(s, e);
    }
  }

  lemma {:induction false} MutualExclusion(site: Site, run: seq<State>, k: nat)
    requires IsRun(site, run) && k < |run|
    ensures Exclusive(run[k])
  {
    RunInv(site, run, k);
    InvExclusive(site, run[k]);
  }

  /** Nobody who still runs is inside under this lock. */
  ghost predicate Ownerless(s: State) {
    (forall q :: !Holds(s, q)) && (forall e :: !Edits(s, e))
  }

  /** A process takes away the lock's name only from itself or from an owner of
      its own host that runs no more. */
  lemma RemovesOnlyDead(site: Site, run: seq<State>, k: nat, t: State, p: Proc)
    requires IsRun(site, run) && k < |run| && ProcAct(site, run[k], t, p)
    requires run[k].path.Some? && t.path != run[k].path
    ensures t.path == None && OwnedBy(run[k], run[k].path.value, site.hostOf(p))
    ensures Holds(run[k], p) || Ownerless(run[k])
  {
    var s := run[k];
    RunInv(site, run, k);
    ProcKeepsInv(site, s, t, p);
    forall q | q != p ensures !Holds(s, q) {
      OwnerHasGuard(site, s, p, q);
    }
    forall e ensures !Edits(s, e) {
      assert NameOfEditor(s, e) && FileOfEditor(s, e);
    }
  }

  /** Whoever holds under a lock of p's host has the guard of that host. */
  lemma OwnerHasGuard(site: Site, s: State, p: Proc, q: Proc)
    requires Inv(site, s) && s.path.Some? && OwnedBy(s, s.path.value, site.hostOf(p))
    requires p in s.alive && p in s.pc && HoldsGuard(s.pc[p]) && p != q
    ensures !Holds(s, q)
  {
    assert NameOf(s, q) && FileOf(site, s, q);
    if Holds(s, q) {
      GuardExcludes(site, s, p, q);
      assert false;
    }
  }

  /** Locks of editors, unreadable locks and locks of other hosts outlive every process step. */
  lemma ForeignLockStays(site: Site, run: seq<State>, k: nat, t: State, p: Proc)
    requires IsRun(site, run) && k < |run| && ProcAct(site, run[k], t, p)
    requires run[k].path.Some? && !OwnedBy(run[k], run[k].path.value, site.hostOf(p))
    ensures t.path == run[k].path && t.path.value in t.content
    ensures run[k].path.value in run[k].content && t.content[t.path.value] == run[k].content[t.path.value]
  {
    RunInv(site, run, k);
    ProcKeepsInv(site, run[k], t, p);
  }

  /** A lock that appears under the name through a process carries that process's complete record. */
  lemma PublishesOwnRecord(site: Site, run: seq<State>, k: nat, t: State, p: Proc)
    requires IsRun(site, run) && k < |run| && ProcAct(site, run[k], t, p)
    requires t.path.Some? && t.path != run[k].path
    ensures t.path.value in t.content && t.content[t.path.value] == Owner(site.pidOf(p), site.hostOf(p))
    ensures run[k].path == None && Holds(t, p) && Ownerless(run[k])
  {
    var s := run[k];
    RunInv(site, run, k);
    ProcKeepsInv(site, s, t, p);
    assert FileOf(site, s, p) && FileOf(site, t, p);
    forall q ensures !Holds(s, q) {
      assert NameOf(s, q);
    }
    forall e ensures !Edits(s, e) {
      assert NameOfEditor(s, e);
    }
  }

  /** No lock is ever found half-written. */
  lemma NeverPartial(site: Site, run: seq<State>, k: nat)
    requires IsRun(site, run) && k < |run| && run[k].path.Some?
    ensures run[k].path.value in run[k].content && run[k].content[run[k].path.value] != Draft
  {
    RunInv(site, run, k);
  }

  // ------------------------------------------------------------------ a process on its own

  /** The collection is free, or its lock is of p's host and the number in it runs no more. */
  predicate Acquirable(site: Site, s: State, p: Proc) {
    s.path.Some? ==>
      && OwnedBy(s, s.path.value, site.hostOf(p))
      && Exited(site, s.(alive := s.alive + {p}), s.content[s.path.value].pid, site.hostOf(p))
  }

  predicate AloneRun(site: Site, trail: seq<State>, p: Proc) {
    forall i :: 0 <= i < |trail| - 1 ==> ProcAct(site, trail[i], trail[i + 1], p)
  }

  predicate Shut(pc: Pc) {
    !(pc.Dead? || pc.Confirmed? || pc.Clear? || FileMade(pc).Some?)
  }

  /** Starting alone, p stays out as long as the lock is not its to take. */
  lemma {:induction false} StaysOut(site: Site, trail: seq<State>, p: Proc, k: nat)
    requires AloneRun(site, trail, p) && k < |trail|
    requires p in trail[0].pc && trail[0].pc[p] == Unborn
    requires Published(trail[0]) && !Acquirable(site, trail[0], p)
    ensures p in trail[k].pc && Shut(trail[k].pc[p])
    ensures trail[k].path == trail[0].path && trail[k].content == trail[0].content
    ensures trail[k].alive + {p} == trail[0].alive + {p}
    ensures trail[k].pc[p].Read? && p in trail[k].alive ==>
              trail[k].path.Some? && trail[k].pc[p].content == trail[0].content[trail[0].path.value]
  {
    if k > 0 {
      StaysOut(site, trail, p, k - 1);
      assert ProcAct(site, trail[k - 1], trail[k - 1 + 1], p);
      OneStepOut(site, trail[k - 1], trail[k], p);
    }
  }

  lemma OneStepOut(site: Site, s: State, s': State, p: Proc)
    requires ProcAct(site, s, s', p) && Shut(s.pc[p]) && Published(s) && !Acquirable(site, s, p)
    requires s.pc[p].Read? && p in s.alive ==> s.path.Some? && s.pc[p].content == s.content[s.path.value]
    ensures p in s'.pc && Shut(s'.pc[p])
    ensures s'.path == s.path && s'.content == s.content && s'.alive + {p} == s.alive + {p}
    ensures s'.pc[p].Read? && p in s'.alive ==> s'.path.Some? && s'.pc[p].content == s.content[s.path.value]
  {
  }

  lemma ThenStep(site: Site, trail: seq<State>, t: State, p: Proc) returns (longer: seq<State>)
    requires |trail| > 0 && AloneRun(site, trail, p) && ProcAct(site, trail[|trail| - 1], t, p)
    ensures longer == trail + [t] && longer[0] == trail[0] && longer[|longer| - 1] == t
    ensures AloneRun(site, longer, p)
  {
    longer := trail + [t];
  }

  /** Under the guard, a lock that is p's to take is cleared in a few steps. */
  lemma Clears(site: Site, s: State, p: Proc) returns (trail: seq<State>)
    requires p in s.pc && p in s.alive && s.pc[p] == Guarded && Acquirable(site, s, p)
    ensures |trail| > 0 && trail[0] == s && AloneRun(site, trail, p)
    ensures trail[|trail| - 1] == At(s.(path := None), p, Clear)
  {
    trail := [s];
    if s.path.Some? {
      var info := s.path.value;
      assert s.alive + {p} == s.alive;
      var c := s.content[info];
      trail := ThenStep(site, trail, At(s, p, Seen(info)), p);
      trail := ThenStep(site, trail, At(s, p, Read(info, c)), p);
      trail := ClearsDead(site, s, p, trail);
    } else {
      trail := ThenStep(site, trail, At(s.(path := None), p, Clear), p);
    }
  }

  lemma ClearsDead(site: Site, s: State, p: Proc, before: seq<State>) returns (trail: seq<State>)
    requires p in s.pc && p in s.alive && s.path.Some? && s.path.value in s.content && s.content[s.path.value].Owner?
    requires s.content[s.path.value].host == site.hostOf(p) && Exited(site, s, s.content[s.path.value].pid, site.hostOf(p))
    requires |before| > 0 && AloneRun(site, before, p)
    requires before[|before| - 1] == At(s, p, Read(s.path.value, s.content[s.path.value]))
    ensures |trail| > 0 && trail[0] == before[0] && AloneRun(site, trail, p)
    ensures trail[|trail| - 1] == At(s.(path := None), p, Clear)
  {
    hide AloneRun;
    trail := ThenStep(site, before, At(s, p, Dead(s.path.value)), p);
    trail := ConfirmsDead(site, s, p, trail);
  }

  lemma ConfirmsDead(site: Site, s: State, p: Proc, before: seq<State>) returns (trail: seq<State>)
    requires p in s.pc && p in s.alive && s.path.Some? && s.path.value in s.content
    requires |before| > 0 && AloneRun(site, before, p) && before[|before| - 1] == At(s, p, Dead(s.path.value))
    ensures |trail| > 0 && trail[0] == before[0] && AloneRun(site, trail, p)
    ensures trail[|trail| - 1] == At(s.(path := None), p, Clear)
  {
    hide AloneRun;
    trail := ThenStep(site, before, At(s, p, Confirmed(s.path.value)), p);
    trail := ThenStep(site, trail, At(s.(path := None), p, Clear), p);
  }

  lemma Publishes(site: Site, s: State, p: Proc, before: seq<State>) returns (trail: seq<State>)
    requires p in s.pc && p in s.alive && s.pc[p] == Clear && s.path == None
    requires |before| > 0 && AloneRun(site, before, p) && before[|before| - 1] == s
    ensures |trail| > 0 && trail[0] == before[0] && AloneRun(site, trail, p)
    ensures Holds(trail[|trail| - 1], p)
  {
    var n := s.next;
    var made := s.(content := s.content[n := Draft], next := n + 1);
    var written := made.(content := made.content[n := Owner(site.pidOf(p), site.hostOf(p))]);
    trail := ThenStep(site, before, At(made, p, Drafting(n)), p);
    trail := ThenStep(site, trail, At(written, p, Drafted(n)), p);
    trail := ThenStep(site, trail, At(written.(path := Some(n)), p, Held(n)), p);
  }

  /** Starting alone with the guard free and the lock its to take, p can get in. */
  lemma GetsIn(site: Site, s: State, p: Proc) returns (trail: seq<State>)
    requires p in s.pc && s.pc[p] == Unborn && site.hostOf(p) !in s.guard
    requires Acquirable(site, s, p)
    ensures |trail| > 0 && trail[0] == s && AloneRun(site, trail, p)
    ensures Holds(trail[|trail| - 1], p)
  {
    var started := At(s.(alive := s.alive + {p}), p, Start);
    var guarded := At(started.(guard := started.guard[site.hostOf(p) := p]), p, Guarded);
    var opening := ThenStep(site, [s], started, p);
    opening := ThenStep(site, opening, guarded, p);
    var clearing := Clears(site, guarded, p);
    var joined := opening + clearing[1..];
    assert AloneRun(site, joined, p) by {
      forall i | 0 <= i < |joined| - 1 ensures ProcAct(site, joined[i], joined[i + 1], p) {
        if i >= 2 {
          assert joined[i] == clearing[i - 2] && joined[i + 1] == clearing[i - 2 + 1];
        }
      }
    }
    trail := Publishes(site, joined[|joined| - 1], p, joined);
  }

  /** Left to itself, a process can get in exactly when the lock is its to take. */
  lemma {:induction false} AloneGetsInIff(site: Site, s: State, p: Proc)
    requires p in s.pc && s.pc[p] == Unborn && site.hostOf(p) !in s.guard && Published(s)
    ensures Acquirable(site, s, p) <==>
      exists trail: seq<State> :: |trail| > 0 && trail[0] == s && AloneRun(site, trail, p) && Holds(trail[|trail| - 1], p)
  {
    if Acquirable(site, s, p) {
      var trail := GetsIn(site, s, p);
    } else {
      forall trail: seq<State> | |trail| > 0 && trail[0] == s && AloneRun(site, trail, p)
        ensures !Holds(trail[|trail| - 1], p)
      {
        StaysOut(site, trail, p, |trail| - 1);
      }
    }
  }
}
