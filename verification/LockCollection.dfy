/**
 LockCollection and its release as the file system sees them: every effect is one
 step of the protocol, and between any two of them all others may take any number
 of steps. What they leave behind is a run of the protocol.
 */
module LockCollection {
  import opened Wrappers
  import opened LockProtocol
  import opened LockSafety

  datatype LockError =
    | AnotherSync | AnotherEditor
    | UnknownOwner | OtherHost(pid: nat, host: nat) | StillRunning(pid: nat)
    | Replaced
    | SystemFailure

  /** Why a process that finds things so must not take the lock, if there is a reason. */
  function Refusal(site: Site, s: State, p: Proc): (r: Option<LockError>) {
    if site.hostOf(p) in s.guard then Some(AnotherSync) else Blocked(site, s, p)
  }

  function Blocked(site: Site, s: State, p: Proc): (r: Option<LockError>) {
    if s.path == None || s.path.value !in s.content then None
    else match s.content[s.path.value]
      case Owner(pid, host) =>
        if host != site.hostOf(p) then Some(OtherHost(pid, host))
        else if !Exited(site, s, pid, host) then Some(StillRunning(pid))
        else None
      case _ => Some(UnknownOwner)
  }

  /** Nothing that decides about the lock differs. */
  predicate SameLock(s: State, t: State) {
    t.path == s.path && t.content == s.content && t.alive == s.alive
  }

  /** One process that takes the lock, and the world it runs in. */
  class Installation {
    const site: Site
    const me: Proc
    const alone: bool                // nobody else takes a step
    var s: State
    ghost var run: seq<State>

    constructor (site: Site, me: Proc, alone: bool, s: State)
      requires Initial(s) && me in s.pc
      ensures Valid() && this.site == site && this.me == me && this.alone == alone && this.s == s
    {
      this.site, this.me, this.alone, this.s := site, me, alone, s;
      run := [s];
    }

    ghost predicate Valid()
      reads this
    {
      |run| > 0 && IsRun(site, run) && run[|run| - 1] == s && me in s.pc
    }

    /** This process has not been cut short and is at the given place. */
    ghost predicate Is(pc: Pc)
      reads this
    {
      Valid() && me in s.alive && s.pc[me] == pc
    }

    /** One effect of this process. */
    method Step(t: State)
      requires Valid() && me in s.alive && ProcStep(site, s, t, me)
      modifies this
      ensures Valid() && s == t && run == old(run) + [t]
    {
      ghost var was := s;
      assert Next(site, was, t);
      s := t;
      run := run + [t];
      assert me in t.pc by { ProcActsAlone(site, was, t, me); }
      assert IsRun(site, run) by { Longer(site, old(run), t); }
    }

    predicate Foreign(t: State)
      reads this
    {
      || (exists p :: p in s.pc && p != me && ProcAct(site, s, t, p))
      || (exists e :: e in s.editors && EditorAct(s, t, e))
    }

    /** Everybody else takes any number of steps. */
    method Others()
      requires Valid()
      modifies this
      ensures Valid() && old(run) <= run
      ensures s.pc[me] == old(s.pc[me]) && (me in s.alive <==> me in old(s.alive))
      ensures alone ==> s == old(s)
    {
      if alone {
        return;
      }
      var n: nat := *;
      while n > 0
        invariant Valid() && old(run) <= run
        invariant s.pc[me] == old(s.pc[me]) && (me in s.alive <==> me in old(s.alive))
      {
        var t: State := *;
        if Foreign(t) {
          OthersSpare(site, s, t, me);
          Longer(site, run, t);
          s := t;
          run := run + [t];
        }
        n := n - 1;
      }
    }

    /** Gives up the guard. */
    method CloseGuard()
      requires Is(Closing)
      modifies this
      ensures Is(Done) && old(run) <= run
      ensures alone ==> s.path == old(s).path && s.guard == old(s).guard - {site.hostOf(me)}
    {
      Others();
      Step(At(s.(guard := s.guard - {site.hostOf(me)}), me, Done));
    }

    method Fail()
      requires Is(Guarded)
      modifies this
      ensures Is(Done) && old(run) <= run
    {
      Step(At(s, me, Closing));
      CloseGuard();
    }

    /** Acquires the collection, or reports why not and leaves nothing behind but drafts. */
    method Lock() returns (r: Result<Inode, LockError>)
      requires Is(Start)
      modifies this
      ensures Valid() && old(run) <= run
      ensures r.Ok? ==>
        Is(Held(r.value)) && s.path == Some(r.value) && Holds(s, me) && Exclusive(s)
        && r.value in s.content && s.content[r.value] == Owner(site.pidOf(me), site.hostOf(me))
      ensures r.Err? ==> Is(Done)
      ensures alone && r.Ok? ==> Refusal(site, old(s), me) == None
      ensures alone && r.Err? ==> r.error == SystemFailure || Refusal(site, old(s), me) == Some(r.error)
    {
      var guarded := TakeGuard();
      if !guarded {
        return Err(AnotherSync);
      }
      Others();
      var named: bool := *;
      if !named {
        Fail();
        return Err(SystemFailure);
      }
      r := ReclaimAndCreate();
      if r.Err? {
        CloseGuard();
        return;
      }
      HolderIsAlone(site, run, me);
    }

    /** The advisory guard of this host, or nothing. */
    method TakeGuard() returns (ok: bool)
      requires Is(Start)
      modifies this
      ensures old(run) <= run && Is(if ok then Guarded else Done)
      ensures alone ==> SameLock(old(s), s) && (ok <==> site.hostOf(me) !in old(s).guard)
    {
      Others();
      ok := site.hostOf(me) !in s.guard;
      if ok {
        Step(At(s.(guard := s.guard[site.hostOf(me) := me]), me, Guarded));
      } else {
        Step(At(s, me, Done));
      }
    }

    method ReclaimAndCreate() returns (r: Result<Inode, LockError>)
      requires Is(Guarded)
      modifies this
      ensures Valid() && me in s.alive && old(run) <= run
      ensures r.Ok? ==> s.pc[me] == Held(r.value) && s.path == Some(r.value)
      ensures r.Err? ==> s.pc[me] == Closing
      ensures alone && r.Ok? ==> Blocked(site, old(s), me) == None
      ensures alone && r.Err? ==> r.error == SystemFailure || Blocked(site, old(s), me) == Some(r.error)
    {
      var cleared := Reclaim();
      if cleared.Err? {
        return Err(cleared.error);
      }
      r := Create();
    }

    /** Clears the name of a lock whose owner, on this host, is gone. */
    method Reclaim() returns (r: Result<(), LockError>)
      requires Is(Guarded)
      modifies this
      ensures Valid() && me in s.alive && old(run) <= run
      ensures r.Ok? ==> s.pc[me] == Clear
      ensures r.Err? ==> s.pc[me] == Closing
      ensures alone && r.Ok? ==> Blocked(site, old(s), me) == None && s.path == None
      ensures alone && r.Err? ==> r.error == SystemFailure || Blocked(site, old(s), me) == Some(r.error)
    {
      hide IsRun;
      Others();
      var broken: bool := *;
      if broken {
        Step(At(s, me, Closing));
        return Err(SystemFailure);
      }
      if s.path == None {
        Step(At(s, me, Clear));
        return Ok(());
      }
      var info := s.path.value;
      Step(At(s, me, Seen(info)));
      Others();
      r := Examine(info);
      if r.Err? {
        return;
      }
      r := RemoveDead(info);
    }

    /** Reads the owner record and asks whether its process still runs. */
    method Examine(info: Inode) returns (r: Result<(), LockError>)
      requires Is(Seen(info)) && (alone ==> s.path == Some(info))
      modifies this
      ensures Valid() && me in s.alive && old(run) <= run
      ensures r.Ok? ==> s.pc[me] == Dead(info)
      ensures r.Err? ==> s.pc[me] == Closing
      ensures alone && r.Ok? ==> SameLock(old(s), s) && Blocked(site, old(s), me) == None
      ensures alone && r.Err? ==> r.error == SystemFailure || Blocked(site, old(s), me) == Some(r.error)
    {
      hide IsRun;
      var broken: bool := *;
      if broken || s.path == None || s.path.value !in s.content {
        Step(At(s, me, Closing));
        return Err(SystemFailure);
      }
      var c := s.content[s.path.value];
      Step(At(s, me, Read(info, c)));
      Others();
      if !c.Owner? {
        Step(At(s, me, Closing));
        return Err(UnknownOwner);
      }
      if c.host != site.hostOf(me) {
        Step(At(s, me, Closing));
        return Err(OtherHost(c.pid, c.host));
      }
      var known: bool := *;
      if !known || !Exited(site, s, c.pid, c.host) {
        Step(At(s, me, Closing));
        return Err(if known then StillRunning(c.pid) else SystemFailure);
      }
      Step(At(s, me, Dead(info)));
      return Ok(());
    }

    /** Removes the file under the lock's name if it is still the one looked at first. */
    method RemoveDead(info: Inode) returns (r: Result<(), LockError>)
      requires Is(Dead(info)) && (alone ==> s.path == Some(info))
      modifies this
      ensures Valid() && me in s.alive && old(run) <= run
      ensures r.Ok? ==> s.pc[me] == Clear
      ensures r.Err? ==> s.pc[me] == Closing
      ensures alone ==> if r.Ok? then s.path == None else r.error == SystemFailure
    {
      Others();
      var broken: bool := *;
      if broken {
        Step(At(s, me, Closing));
        return Err(SystemFailure);
      }
      if s.path == None {
        Step(At(s, me, Clear));
        return Ok(());
      }
      if s.path.value != info {
        Step(At(s, me, Closing));
        return Err(Replaced);
      }
      Step(At(s, me, Confirmed(info)));
      Others();
      broken := *;
      if broken || s.path == None {
        Step(At(s, me, Closing));
        return Err(SystemFailure);
      }
      Step(At(s.(path := None), me, Clear));
      return Ok(());
    }

    /** Writes the owner record aside and publishes it under the lock's name unless that is taken. */
    method Create() returns (r: Result<Inode, LockError>)
      requires Is(Clear)
      modifies this
      ensures Valid() && me in s.alive && old(run) <= run
      ensures r.Ok? ==> s.pc[me] == Held(r.value) && s.path == Some(r.value)
      ensures r.Err? ==> s.pc[me] == Closing
      ensures alone && r.Err? && old(s).path == None ==> r.error == SystemFailure
    {
      hide IsRun;
      Others();
      var broken: bool := *;
      if broken {
        Step(At(s, me, Closing));
        return Err(SystemFailure);
      }
      var tmp := s.next;
      Step(At(s.(content := s.content[tmp := Draft], next := tmp + 1), me, Drafting(tmp)));
      Others();
      broken := *;
      if broken {
        Step(At(s, me, Closing));
        return Err(SystemFailure);
      }
      Step(At(s.(content := s.content[tmp := Owner(site.pidOf(me), site.hostOf(me))]), me, Drafted(tmp)));
      r := Publish(tmp);
    }

    /** Links the finished file to the lock's name unless that is taken. */
    method Publish(tmp: Inode) returns (r: Result<Inode, LockError>)
      requires Is(Drafted(tmp))
      modifies this
      ensures Valid() && me in s.alive && old(run) <= run
      ensures r.Ok? ==> s.pc[me] == Held(r.value) && s.path == Some(r.value)
      ensures r.Err? ==> s.pc[me] == Closing
      ensures alone && r.Err? && old(s).path == None ==> r.error == SystemFailure
    {
      Others();
      var broken: bool := *;
      if broken || s.path.Some? {
        Step(At(s, me, Closing));
        return Err(if broken then SystemFailure else AnotherEditor);
      }
      Step(At(s.(path := Some(tmp)), me, Held(tmp)));
      return Ok(tmp);
    }

    /** The release: removes the lock only if it is still the own one, then gives up the guard.
        It always is still the own one; only the removal itself can fail. */
    method Release(mine: Inode) returns (removed: bool)
      requires Is(Held(mine))
      modifies this
      ensures Is(Done) && old(run) <= run
      ensures alone ==> s.path == if removed then None else Some(mine)
      ensures alone ==> s.guard == old(s).guard - {site.hostOf(me)}
    {
      hide IsRun;
      Others();
      var same := s.path == Some(mine);
      assert same by {
        RunInv(site, run, |run| - 1);
        assert NameOf(s, me);
      }
      Step(At(s, me, Leaving(mine, same)));
      Others();
      removed := *;
      if same && removed {
        Step(At(s.(path := None), me, Closing));
      } else {
        Step(At(s, me, Closing));
      }
      CloseGuard();
    }
  }

  lemma HolderIsAlone(site: Site, run: seq<State>, me: Proc)
    requires |run| > 0 && IsRun(site, run)
    requires var s := run[|run| - 1]; me in s.alive && me in s.pc && s.pc[me].Held?
    ensures var s := run[|run| - 1]; var mine := s.pc[me].mine;
      && Holds(s, me) && Exclusive(s) && s.path == Some(mine)
      && mine in s.content && s.content[mine] == Owner(site.pidOf(me), site.hostOf(me))
  {
    var s := run[|run| - 1];
    RunInv(site, run, |run| - 1);
    InvExclusive(site, s);
    assert FileOf(site, s, me) && NameOf(s, me);
  }

  lemma Longer(site: Site, run: seq<State>, t: State)
    requires |run| > 0 && IsRun(site, run) && Next(site, run[|run| - 1], t)
    ensures IsRun(site, run + [t])
  {
  }

  /** What others do leaves me where I am. */
  lemma OthersSpare(site: Site, s: State, t: State, me: Proc)
    requires me in s.pc
    requires (exists p :: p in s.pc && p != me && ProcAct(site, s, t, p)) || (exists e :: e in s.editors && EditorAct(s, t, e))
    ensures Next(site, s, t)
    ensures me in t.pc && t.pc[me] == s.pc[me] && (me in t.alive <==> me in s.alive)
  {
    if p :| p in s.pc && p != me && ProcAct(site, s, t, p) {
      ProcActsAlone(site, s, t, p);
    }
  }
}
