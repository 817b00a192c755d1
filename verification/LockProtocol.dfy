/**
 The collection lock as interleaved file-system steps. Any number of syncing
 processes on any number of hosts, and any number of editors that know only the
 plain exclusive-create lock file, take one atomic step at a time; a process or
 an editor may crash between any two of its steps.

 A process writes its owner record to a temporary file, publishes it under the
 lock's name with a link that never replaces, and keeps an advisory guard of its
 host from before it looks at the lock until after it has removed it. The system
 drops the guard of a process that exits.
 */
module LockProtocol {
  import opened Wrappers

  type Proc = nat
  type Editor = nat
  type Inode = nat

  /** What a file that was or will be a lock contains. */
  datatype Content =
    | Empty                         // an editor's lock
    | Draft                         // a temporary file before its record is written
    | Owner(pid: nat, host: nat)    // a complete owner record
    | Unrecognized                  // anything else

  /** Where a process is in LockCollection and in the release it returned. */
  datatype Pc =
    | Unborn | Start
    | Guarded                                // holds the guard, has not looked yet
    | Seen(info: Inode)                      // first lstat
    | Read(info: Inode, content: Content)    // read the file
    | Dead(info: Inode)                      // the owner is gone
    | Confirmed(info: Inode)                 // second lstat saw the same file
    | Clear                                  // the name was free or was cleared
    | Drafting(tmp: Inode) | Drafted(tmp: Inode)
    | Held(mine: Inode)
    | Leaving(mine: Inode, same: bool)       // lstat in the release
    | Closing                                // only the guard is left to release
    | Done

  datatype EditorPc = Idle | Editing(mine: Inode)

  /** The host and the process number of every process. Numbers may be reused. */
  datatype Site = Site(hostOf: Proc -> nat, pidOf: Proc -> nat)

  datatype State = State(
    path: Option<Inode>,
    content: map<Inode, Content>,
    guard: map<nat, Proc>,
    pc: map<Proc, Pc>,
    alive: set<Proc>,
    editors: map<Editor, EditorPc>,
    open: set<Editor>,                      // the editors that are editing and have not crashed
    next: Inode)                            // the number of the next file to be created

  /** Nobody runs yet; a lock of any recognizable or unrecognizable kind may be lying around. */
  predicate Initial(s: State) {
    && s.guard == map[] && s.alive == {} && s.open == {}
    && (s.path.Some? ==> s.path.value in s.content && s.content[s.path.value] != Draft)
    && (forall i :: i in s.content ==> i < s.next)
    && (forall p :: p in s.pc ==> s.pc[p] == Unborn)
    && (forall e :: e in s.editors ==> s.editors[e] == Idle)
  }

  function At(s: State, p: Proc, pc: Pc): State {
    s.(pc := s.pc[p := pc])
  }

  /** The probe may call a number dead only when no running process has it. */
  predicate Exited(site: Site, s: State, pid: nat, host: nat) {
    forall q :: q in s.alive ==> !(site.pidOf(q) == pid && site.hostOf(q) == host)
  }

  /** A step that takes the guard and clears the name of a dead owner's lock.
      Every step but the first may also fail and lead to giving up the guard. */
  predicate ReclaimStep(site: Site, s: State, s': State, p: Proc)
    requires p in s.pc
  {
    var h := site.hostOf(p);
    match s.pc[p]
    case Start =>
      if h in s.guard then s' == At(s, p, Done)
      else s' == At(s.(guard := s.guard[h := p]), p, Guarded)
    case Guarded =>
      || s' == At(s, p, Closing)
      || (s.path == None && s' == At(s, p, Clear))
      || (s.path.Some? && s' == At(s, p, Seen(s.path.value)))
    case Seen(info) =>
      || s' == At(s, p, Closing)
      || (s.path.Some? && s.path.value in s.content && s' == At(s, p, Read(info, s.content[s.path.value])))
    case Read(info, c) =>
      || s' == At(s, p, Closing)
      || (c.Owner? && c.host == h && Exited(site, s, c.pid, h) && s' == At(s, p, Dead(info)))
    case Dead(info) =>
      || s' == At(s, p, Closing)
      || (s.path == None && s' == At(s, p, Clear))
      || (s.path == Some(info) && s' == At(s, p, Confirmed(info)))
    case Confirmed(info) =>
      || s' == At(s, p, Closing)
      || (s.path.Some? && s' == At(s.(path := None), p, Clear))
    case _ => false
  }

  /** A step that publishes the own lock or, in the release, removes it. Until the lock
      is published every step may also fail. */
  predicate PublishStep(site: Site, s: State, s': State, p: Proc)
    requires p in s.pc
  {
    var h := site.hostOf(p);
    match s.pc[p]
    case Clear =>
      || s' == At(s, p, Closing)
      || s' == At(s.(content := s.content[s.next := Draft], next := s.next + 1), p, Drafting(s.next))
    case Drafting(tmp) =>
      || s' == At(s, p, Closing)
      || s' == At(s.(content := s.content[tmp := Owner(site.pidOf(p), h)]), p, Drafted(tmp))
    case Drafted(tmp) =>
      || s' == At(s, p, Closing)
      || (s.path == None && s' == At(s.(path := Some(tmp)), p, Held(tmp)))
    case Held(mine) =>
      s' == At(s, p, Leaving(mine, s.path == Some(mine)))
    case Leaving(mine, same) =>
      || s' == At(s, p, Closing)
      || (same && s' == At(s.(path := None), p, Closing))
    case Closing =>
      s' == At(s.(guard := s.guard - {h}), p, Done)
    case _ => false
  }

  predicate ProcStep(site: Site, s: State, s': State, p: Proc)
    requires p in s.pc
  {
    ReclaimStep(site, s, s', p) || PublishStep(site, s, s', p)
  }

  /** A process starts. */
  predicate Spawn(s: State, s': State, p: Proc)
    requires p in s.pc
  {
    s.pc[p] == Unborn && s' == At(s.(alive := s.alive + {p}), p, Start)
  }

  /** A process exits, at any point; the system drops its guard. */
  predicate Exit(site: Site, s: State, s': State, p: Proc)
    requires p in s.pc
  {
    var h := site.hostOf(p);
    s' == s.(alive := s.alive - {p}, guard := if h in s.guard && s.guard[h] == p then s.guard - {h} else s.guard)
  }

  /** An editor creates the lock file if there is none, and removes the file it created. */
  predicate EditorStep(s: State, s': State, e: Editor)
    requires e in s.editors
  {
    match s.editors[e]
    case Idle =>
      || (s.path.Some? && s' == s)
      || (s.path == None
          && s' == s.(path := Some(s.next), content := s.content[s.next := Empty], next := s.next + 1,
                      editors := s.editors[e := Editing(s.next)], open := s.open + {e}))
    case Editing(_) =>
      s' == s.(path := None, editors := s.editors[e := Idle], open := s.open - {e})
  }

  predicate EditorCrash(s: State, s': State, e: Editor) {
    s' == s.(open := s.open - {e})
  }

  predicate ProcAct(site: Site, s: State, s': State, p: Proc) {
    && p in s.pc
    && (Spawn(s, s', p) || (p in s.alive && (ProcStep(site, s, s', p) || Exit(site, s, s', p))))
  }

  predicate EditorAct(s: State, s': State, e: Editor) {
    && e in s.editors
    && (((e in s.open || s.editors[e].Idle?) && EditorStep(s, s', e)) || EditorCrash(s, s', e))
  }

  predicate Next(site: Site, s: State, s': State) {
    || (exists p :: p in s.pc && ProcAct(site, s, s', p))
    || (exists e :: e in s.editors && EditorAct(s, s', e))
  }

  predicate IsRun(site: Site, run: seq<State>) {
    && |run| > 0 && Initial(run[0])
    && forall i :: 0 <= i < |run| - 1 ==> Next(site, run[i], run[i + 1])
  }

  // ------------------------------------------------------------------ invariant

  /** The process has published its lock and not yet decided to leave it. */
  predicate Holds(s: State, p: Proc) {
    p in s.alive && p in s.pc && (s.pc[p].Held? || (s.pc[p].Leaving? && s.pc[p].same))
  }

  /** The editor is at work under the lock file it created. */
  predicate Edits(s: State, e: Editor) {
    e in s.open && e in s.editors && s.editors[e].Editing?
  }

  /** The file a process has made for itself. */
  function FileMade(pc: Pc): Option<Inode> {
    match pc
    case Drafting(i) => Some(i)
    case Drafted(i) => Some(i)
    case Held(i) => Some(i)
    case Leaving(i, _) => Some(i)
    case _ => None
  }

  predicate HoldsGuard(pc: Pc) {
    !(pc.Unborn? || pc.Start? || pc.Done?)
  }

  predicate OwnedBy(s: State, i: Inode, host: nat) {
    i in s.content && s.content[i].Owner? && s.content[i].host == host
  }

  /** A live process between its first and its last step holds its host's guard. */
  predicate GuardOf(site: Site, s: State, p: Proc) {
    && (p in s.alive ==> p in s.pc && s.pc[p] != Unborn)
    && (p in s.alive && HoldsGuard(s.pc[p]) ==> site.hostOf(p) in s.guard && s.guard[site.hostOf(p)] == p)
  }

  /** Nobody else does. */
  predicate GuardAt(site: Site, s: State, h: nat) {
    h in s.guard ==>
      && s.guard[h] in s.alive && s.guard[h] in s.pc
      && site.hostOf(s.guard[h]) == h && HoldsGuard(s.pc[s.guard[h]])
  }

  /** A process knows the file it made; a file still being written has no name yet. */
  predicate FileOf(site: Site, s: State, p: Proc) {
    p in s.pc ==>
      match s.pc[p]
      case Drafting(i) => i in s.content && s.content[i] == Draft
      case Drafted(i) => i in s.content && s.content[i] == Owner(site.pidOf(p), site.hostOf(p)) && s.path != Some(i)
      case Held(i) => i in s.content && s.content[i] == Owner(site.pidOf(p), site.hostOf(p))
      case Leaving(i, _) => i in s.content && s.content[i] == Owner(site.pidOf(p), site.hostOf(p))
      case _ => true
  }

  predicate FileOfEditor(s: State, e: Editor) {
    && (e in s.editors && s.editors[e].Editing? ==>
          s.editors[e].mine in s.content && s.content[s.editors[e].mine] == Empty)
    && (e in s.open ==> e in s.editors && s.editors[e].Editing?)
  }

  /** The file under the lock's name is complete. */
  predicate Published(s: State) {
    s.path.Some? ==> s.path.value in s.content && s.content[s.path.value] != Draft
  }

  /** A new file is a new one. */
  predicate Numbered(s: State) {
    forall i :: i in s.content ==> i < s.next
  }

  predicate Apart(s: State, p: Proc, q: Proc) {
    p in s.pc && q in s.pc && p != q && FileMade(s.pc[p]).Some? ==> FileMade(s.pc[p]) != FileMade(s.pc[q])
  }

  predicate ApartEditors(s: State, d: Editor, e: Editor) {
    d in s.editors && e in s.editors && d != e && s.editors[d].Editing? ==> s.editors[d] != s.editors[e]
  }

  /** Whoever holds the collection is the one whose file has the lock's name. */
  predicate NameOf(s: State, p: Proc) {
    Holds(s, p) ==> s.path == FileMade(s.pc[p])
  }

  predicate NameOfEditor(s: State, e: Editor) {
    Edits(s, e) ==> s.path == Some(s.editors[e].mine)
  }

  /** What a reclaiming process on host h knows about the file under the lock's name. */
  predicate Knows(s: State, pc: Pc, h: nat) {
    match pc
    case Seen(info) => s.path.Some? && OwnedBy(s, s.path.value, h) ==> s.path == Some(info)
    case Read(info, c) => c.Owner? && c.host == h ==> s.path == Some(info) && info in s.content && s.content[info] == c
    case Dead(info) => s.path == Some(info) && OwnedBy(s, info, h)
    case Confirmed(info) => s.path == Some(info) && OwnedBy(s, info, h)
    case _ => true
  }

  predicate KnowsOf(site: Site, s: State, p: Proc) {
    p in s.alive && p in s.pc ==> Knows(s, s.pc[p], site.hostOf(p))
  }

  ghost predicate Guards(site: Site, s: State) {
    (forall p :: GuardOf(site, s, p)) && (forall h :: GuardAt(site, s, h))
  }

  ghost predicate Files(site: Site, s: State) {
    && Numbered(s) && Published(s)
    && (forall p :: FileOf(site, s, p)) && (forall e :: FileOfEditor(s, e))
    && (forall p, q :: Apart(s, p, q)) && (forall d, e :: ApartEditors(s, d, e))
  }

  ghost predicate Named(site: Site, s: State) {
    && (forall p :: NameOf(s, p)) && (forall e :: NameOfEditor(s, e))
    && (forall p :: KnowsOf(site, s, p))
  }

  ghost predicate Inv(site: Site, s: State) {
    Guards(site, s) && Files(site, s) && Named(site, s)
  }

  // ------------------------------------------------------------------ preservation

  /** A step of p leaves everybody else where they are. */
  ghost predicate Alone(s: State, s': State, p: Proc) {
    && p in s.pc && s'.pc.Keys == s.pc.Keys && (forall q :: q in s.pc && q != p ==> s'.pc[q] == s.pc[q])
    && (forall q :: q != p ==> (q in s'.alive <==> q in s.alive))
    && s'.editors == s.editors && s'.open == s.open
  }

  /** It writes new files and drafts only. */
  ghost predicate Writes(s: State, s': State) {
    && s.next <= s'.next
    && (forall i :: i in s.content ==> i in s'.content && (s.content[i] != Draft ==> s'.content[i] == s.content[i]))
    && (forall i :: i in s'.content ==> i in s.content || i == s.next < s'.next)
  }

  /** How far a step of p can reach: it names its own file, or clears the name of a file of its own host. */
  ghost predicate Reach(site: Site, s: State, s': State, p: Proc) {
    && Alone(s, s', p)
    && Writes(s, s')
    && (s'.path != s.path ==> p in s.alive && HoldsGuard(s.pc[p]))
    && (s'.path != s.path ==>
          || (s.path == None && s'.path.Some? && s'.path == FileMade(s.pc[p]) && s.pc[p].Drafted?)
          || (s'.path == None && s.path.Some? && OwnedBy(s, s.path.value, site.hostOf(p))))
  }

  lemma ReclaimMoves(site: Site, s: State, s': State, p: Proc)
    requires p in s.pc && ReclaimStep(site, s, s', p)
    ensures p in s'.pc && s'.pc == s.pc[p := s'.pc[p]]
  {
  }

  lemma PublishMoves(site: Site, s: State, s': State, p: Proc)
    requires p in s.pc && PublishStep(site, s, s', p)
    ensures p in s'.pc && s'.pc == s.pc[p := s'.pc[p]]
  {
  }

  lemma StepSpares(site: Site, s: State, s': State, p: Proc)
    requires p in s.pc && ProcStep(site, s, s', p)
    ensures s'.alive == s.alive && s'.editors == s.editors && s'.open == s.open
  {
  }

  lemma ProcActsAlone(site: Site, s: State, s': State, p: Proc)
    requires ProcAct(site, s, s', p)
    ensures Alone(s, s', p)
  {
    hide ReclaimStep, PublishStep;
    if ReclaimStep(site, s, s', p) {
      ReclaimMoves(site, s, s', p);
      StepSpares(site, s, s', p);
    } else if PublishStep(site, s, s', p) {
      PublishMoves(site, s, s', p);
      StepSpares(site, s, s', p);
    }
  }

  lemma ProcWritesDrafts(site: Site, s: State, s': State, p: Proc)
    requires FileOf(site, s, p) && Numbered(s)
    requires ProcAct(site, s, s', p)
    ensures Writes(s, s')
  {
  }

  lemma ProcReaches(site: Site, s: State, s': State, p: Proc)
    requires Published(s) && Numbered(s) && FileOf(site, s, p) && NameOf(s, p) && KnowsOf(site, s, p)
    requires ProcAct(site, s, s', p)
    ensures Reach(site, s, s', p)
  {
    ProcActsAlone(site, s, s', p);
    ProcWritesDrafts(site, s, s', p);
  }

  lemma ReclaimKeepsOwnGuard(site: Site, s: State, s': State, p: Proc)
    requires GuardOf(site, s, p)
    requires p in s.pc && p in s.alive && ReclaimStep(site, s, s', p)
    ensures GuardOf(site, s', p)
  {
  }

  lemma PublishKeepsOwnGuard(site: Site, s: State, s': State, p: Proc)
    requires GuardOf(site, s, p)
    requires p in s.pc && p in s.alive && PublishStep(site, s, s', p)
    ensures GuardOf(site, s', p)
  {
  }

  lemma ProcKeepsOwnGuard(site: Site, s: State, s': State, p: Proc)
    requires GuardOf(site, s, p)
    requires ProcAct(site, s, s', p)
    ensures GuardOf(site, s', p)
  {
    hide ReclaimStep, PublishStep;
    if p in s.alive && ReclaimStep(site, s, s', p) {
      ReclaimKeepsOwnGuard(site, s, s', p);
    } else if p in s.alive && PublishStep(site, s, s', p) {
      PublishKeepsOwnGuard(site, s, s', p);
    }
  }

  lemma ReclaimKeepsGuardOf(site: Site, s: State, s': State, p: Proc, q: Proc)
    requires GuardOf(site, s, p) && GuardOf(site, s, q) && p != q
    requires p in s.pc && p in s.alive && ReclaimStep(site, s, s', p)
    ensures GuardOf(site, s', q)
  {
  }

  lemma PublishKeepsGuardOf(site: Site, s: State, s': State, p: Proc, q: Proc)
    requires GuardOf(site, s, p) && GuardOf(site, s, q) && p != q
    requires p in s.pc && p in s.alive && PublishStep(site, s, s', p)
    ensures GuardOf(site, s', q)
  {
  }

  lemma ProcKeepsGuardOf(site: Site, s: State, s': State, p: Proc, q: Proc)
    requires GuardOf(site, s, p) && GuardOf(site, s, q) && p != q
    requires ProcAct(site, s, s', p)
    ensures GuardOf(site, s', q)
  {
    hide ReclaimStep, PublishStep;
    if p in s.alive && ReclaimStep(site, s, s', p) {
      ReclaimKeepsGuardOf(site, s, s', p, q);
    } else if p in s.alive && PublishStep(site, s, s', p) {
      PublishKeepsGuardOf(site, s, s', p, q);
    }
  }

  lemma ReclaimKeepsGuardAt(site: Site, s: State, s': State, p: Proc, h: nat)
    requires GuardAt(site, s, h) && GuardOf(site, s, p)
    requires p in s.pc && p in s.alive && ReclaimStep(site, s, s', p)
    ensures GuardAt(site, s', h)
  {
  }

  lemma PublishKeepsGuardAt(site: Site, s: State, s': State, p: Proc, h: nat)
    requires GuardAt(site, s, h) && GuardOf(site, s, p)
    requires p in s.pc && p in s.alive && PublishStep(site, s, s', p)
    ensures GuardAt(site, s', h)
  {
  }

  lemma ProcKeepsGuardAt(site: Site, s: State, s': State, p: Proc, h: nat)
    requires GuardAt(site, s, h) && GuardOf(site, s, p)
    requires ProcAct(site, s, s', p)
    ensures GuardAt(site, s', h)
  {
    hide ReclaimStep, PublishStep;
    if p in s.alive && ReclaimStep(site, s, s', p) {
      ReclaimKeepsGuardAt(site, s, s', p, h);
    } else if p in s.alive && PublishStep(site, s, s', p) {
      PublishKeepsGuardAt(site, s, s', p, h);
    }
  }

  lemma ProcKeepsGuards(site: Site, s: State, s': State, p: Proc)
    requires Guards(site, s) && ProcAct(site, s, s', p)
    ensures Guards(site, s')
  {
    forall q ensures GuardOf(site, s', q) {
      assert GuardOf(site, s, q) && GuardOf(site, s, p);
      if q == p { ProcKeepsOwnGuard(site, s, s', p); } else { ProcKeepsGuardOf(site, s, s', p, q); }
    }
    forall h ensures GuardAt(site, s', h) {
      assert GuardAt(site, s, h) && GuardOf(site, s, p);
      ProcKeepsGuardAt(site, s, s', p, h);
    }
  }

  lemma ReclaimKeepsOwnFile(site: Site, s: State, s': State, p: Proc)
    requires Numbered(s) && Published(s) && FileOf(site, s, p)
    requires p in s.pc && p in s.alive && ReclaimStep(site, s, s', p)
    ensures FileOf(site, s', p)
    ensures p in s.pc && p in s'.pc && FileMade(s'.pc[p]) in {None, FileMade(s.pc[p]), Some(s.next)}
  {
  }

  lemma PublishKeepsOwnFile(site: Site, s: State, s': State, p: Proc)
    requires Numbered(s) && Published(s) && FileOf(site, s, p)
    requires p in s.pc && p in s.alive && PublishStep(site, s, s', p)
    ensures FileOf(site, s', p)
    ensures p in s.pc && p in s'.pc && FileMade(s'.pc[p]) in {None, FileMade(s.pc[p]), Some(s.next)}
  {
  }

  lemma ProcKeepsOwnFile(site: Site, s: State, s': State, p: Proc)
    requires Numbered(s) && Published(s) && FileOf(site, s, p)
    requires ProcAct(site, s, s', p)
    ensures FileOf(site, s', p)
    ensures p in s.pc && p in s'.pc && FileMade(s'.pc[p]) in {None, FileMade(s.pc[p]), Some(s.next)}
  {
    hide ReclaimStep, PublishStep;
    if p in s.alive && ReclaimStep(site, s, s', p) {
      ReclaimKeepsOwnFile(site, s, s', p);
    } else if p in s.alive && PublishStep(site, s, s', p) {
      PublishKeepsOwnFile(site, s, s', p);
    }
  }

  lemma ProcPublishes(site: Site, s: State, s': State, p: Proc)
    requires Numbered(s) && Published(s) && FileOf(site, s, p)
    requires ProcAct(site, s, s', p) && Writes(s, s')
    ensures Published(s') && Numbered(s')
  {
  }

  /** p writes only to its own draft, so what q made stays as it was. */
  lemma ProcWrites(site: Site, s: State, s': State, p: Proc, i: Inode)
    requires FileOf(site, s, p) && Numbered(s) && i in s.content
    requires ProcAct(site, s, s', p) && Some(i) != FileMade(s.pc[p])
    ensures i in s'.content && s'.content[i] == s.content[i]
  {
  }

  lemma ProcKeepsFileOf(site: Site, s: State, s': State, p: Proc, q: Proc)
    requires Numbered(s) && Reach(site, s, s', p) && p != q
    requires FileOf(site, s, q) && Apart(s, p, q)
    requires p in s'.pc && FileMade(s'.pc[p]) in {None, FileMade(s.pc[p]), Some(s.next)}
    requires q in s.pc && FileMade(s.pc[q]).Some? ==>
      var i := FileMade(s.pc[q]).value; i in s.content && i in s'.content && s'.content[i] == s.content[i]
    ensures FileOf(site, s', q) && Apart(s', p, q) && Apart(s', q, p)
  {
  }

  lemma ProcKeepsFiles(site: Site, s: State, s': State, p: Proc)
    requires Files(site, s) && Reach(site, s, s', p) && ProcAct(site, s, s', p)
    ensures Files(site, s')
  {
    assert FileOf(site, s, p);
    ProcKeepsOwnFile(site, s, s', p);
    ProcPublishes(site, s, s', p);
    forall q | q != p ensures FileOf(site, s', q) && Apart(s', p, q) && Apart(s', q, p) {
      assert FileOf(site, s, q) && Apart(s, p, q);
      if q in s.pc && FileMade(s.pc[q]).Some? {
        ProcWrites(site, s, s', p, FileMade(s.pc[q]).value);
      }
      ProcKeepsFileOf(site, s, s', p, q);
    }
    OtherFiles(site, s, s', p);
  }

  lemma OtherFiles(site: Site, s: State, s': State, p: Proc)
    requires Files(site, s) && Reach(site, s, s', p)
    ensures forall q, r :: q != p && r != p ==> Apart(s', q, r)
    ensures Apart(s', p, p)
    ensures (forall e :: FileOfEditor(s', e)) && (forall d, e :: ApartEditors(s', d, e))
  {
    forall q, r | q != p && r != p ensures Apart(s', q, r) {
      assert Apart(s, q, r);
    }
    forall e ensures FileOfEditor(s', e) {
      assert FileOfEditor(s, e);
    }
    forall d, e ensures ApartEditors(s', d, e) {
      assert ApartEditors(s, d, e);
    }
  }

  /** Two live processes of one host are never both past the guard. */
  lemma GuardExcludes(site: Site, s: State, p: Proc, q: Proc)
    requires Guards(site, s)
    requires p in s.alive && p in s.pc && HoldsGuard(s.pc[p])
    requires q in s.alive && q in s.pc && HoldsGuard(s.pc[q])
    requires site.hostOf(p) == site.hostOf(q)
    ensures p == q
  {
    assert GuardOf(site, s, p) && GuardOf(site, s, q);
  }

  lemma ReclaimKeepsOwnName(site: Site, s: State, s': State, p: Proc)
    requires NameOf(s, p)
    requires p in s.pc && p in s.alive && ReclaimStep(site, s, s', p)
    ensures NameOf(s', p)
  {
  }

  lemma PublishKeepsOwnName(site: Site, s: State, s': State, p: Proc)
    requires NameOf(s, p)
    requires p in s.pc && p in s.alive && PublishStep(site, s, s', p)
    ensures NameOf(s', p)
  {
  }

  lemma ProcKeepsOwnName(site: Site, s: State, s': State, p: Proc)
    requires NameOf(s, p)
    requires ProcAct(site, s, s', p)
    ensures NameOf(s', p)
  {
    hide ReclaimStep, PublishStep;
    if p in s.alive && ReclaimStep(site, s, s', p) {
      ReclaimKeepsOwnName(site, s, s', p);
    } else if p in s.alive && PublishStep(site, s, s', p) {
      PublishKeepsOwnName(site, s, s', p);
    }
  }

  lemma ReclaimKeepsOwnKnowledge(site: Site, s: State, s': State, p: Proc)
    requires Published(s) && NameOf(s, p) && KnowsOf(site, s, p)
    requires p in s.pc && p in s.alive && ReclaimStep(site, s, s', p)
    ensures KnowsOf(site, s', p)
  {
  }

  lemma PublishKeepsOwnKnowledge(site: Site, s: State, s': State, p: Proc)
    requires Published(s) && NameOf(s, p) && KnowsOf(site, s, p)
    requires p in s.pc && p in s.alive && PublishStep(site, s, s', p)
    ensures KnowsOf(site, s', p)
  {
  }

  lemma ProcKeepsOwnKnowledge(site: Site, s: State, s': State, p: Proc)
    requires Published(s) && NameOf(s, p) && KnowsOf(site, s, p)
    requires ProcAct(site, s, s', p)
    ensures KnowsOf(site, s', p)
  {
    hide ReclaimStep, PublishStep;
    if p in s.alive && ReclaimStep(site, s, s', p) {
      ReclaimKeepsOwnKnowledge(site, s, s', p);
    } else if p in s.alive && PublishStep(site, s, s', p) {
      PublishKeepsOwnKnowledge(site, s, s', p);
    }
  }

  /** A name owned by q's host moves only when q itself moves it. */
  lemma ProcKeepsNameOf(site: Site, s: State, s': State, p: Proc, q: Proc)
    requires Guards(site, s) && Published(s) && FileOf(site, s, q) && FileOf(site, s, p) && NameOf(s, q) && KnowsOf(site, s, q)
    requires Reach(site, s, s', p) && p != q
    requires FileOf(site, s', p)
    ensures NameOf(s', q) && KnowsOf(site, s', q)
  {
    if p in s.alive && HoldsGuard(s.pc[p]) && q in s.alive && q in s.pc && HoldsGuard(s.pc[q]) && site.hostOf(p) == site.hostOf(q) {
      GuardExcludes(site, s, p, q);
      assert false;
    }
  }

  lemma ProcKeepsInv(site: Site, s: State, s': State, p: Proc)
    requires Inv(site, s) && ProcAct(site, s, s', p)
    ensures Inv(site, s') && Reach(site, s, s', p)
  {
    assert FileOf(site, s, p) && NameOf(s, p) && KnowsOf(site, s, p);
    ProcReaches(site, s, s', p);
    ProcKeepsGuards(site, s, s', p);
    ProcKeepsFiles(site, s, s', p);
    assert FileOf(site, s', p);
    forall q ensures NameOf(s', q) && KnowsOf(site, s', q) {
      assert FileOf(site, s, q) && NameOf(s, q) && KnowsOf(site, s, q);
      if q == p {
        ProcKeepsOwnName(site, s, s', p);
        ProcKeepsOwnKnowledge(site, s, s', p);
      } else {
        ProcKeepsNameOf(site, s, s', p, q);
      }
    }
    forall e ensures NameOfEditor(s', e) {
      assert NameOfEditor(s, e) && FileOfEditor(s, e);
    }
  }

  lemma EditorKeepsInv(site: Site, s: State, s': State, e: Editor)
    requires Inv(site, s) && EditorAct(s, s', e)
    ensures Inv(site, s')
  {
    assert NameOfEditor(s, e) && FileOfEditor(s, e);
    forall p ensures GuardOf(site, s', p) && FileOf(site, s', p) && NameOf(s', p) && KnowsOf(site, s', p) {
      assert GuardOf(site, s, p) && FileOf(site, s, p) && NameOf(s, p) && KnowsOf(site, s, p);
    }
    forall h ensures GuardAt(site, s', h) {
      assert GuardAt(site, s, h);
    }
    forall p, q ensures Apart(s', p, q) {
      assert Apart(s, p, q);
    }
    forall d, f ensures ApartEditors(s', d, f) {
      assert ApartEditors(s, d, f) && FileOfEditor(s, f) && FileOfEditor(s, d);
    }
    forall f ensures NameOfEditor(s', f) && FileOfEditor(s', f) {
      assert NameOfEditor(s, f) && FileOfEditor(s, f) && ApartEditors(s, e, f);
    }
  }

  lemma InitialInv(site: Site, s: State)
    requires Initial(s)
    ensures Inv(site, s)
  {
  }

  lemma NextKeepsInv(site: Site, s: State, s': State)
    requires Inv(site, s) && Next(site, s, s')
    ensures Inv(site, s')
  {
    if p :| p in s.pc && ProcAct(site, s, s', p) {
      ProcKeepsInv(site, s, s', p);
    } else {
      var e :| e in s.editors && EditorAct(s, s', e);
      EditorKeepsInv(site, s, s', e);
    }
  }

  lemma {:induction false} RunInv(site: Site, run: seq<State>, k: nat)
    requires IsRun(site, run) && k < |run|
    ensures Inv(site, run[k])
  {
    if k == 0 {
      InitialInv(site, run[0]);
    } else {
      RunInv(site, run, k - 1);
      assert Next(site, run[k - 1], run[k - 1 + 1]);
      NextKeepsInv(site, run[k - 1], run[k]);
    }
  }
}
