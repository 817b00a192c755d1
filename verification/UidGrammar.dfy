/** The outer container and the identity of a vCard or iCalendar text (sections 3.1 and 3.4
    of RFC 5545, section 3.2 of RFC 6350): a stack machine over lines and the trees it accepts. */
module UidGrammar {
  import opened Wrappers

  /** What a content line means to the machine. Names are in upper case. */
  datatype Line = Begin(name: string) | End(name: string) | Uid(value: string) | Other | Broken

  datatype UidError = NoContainer | BrokenLine | SecondContainer | Unbalanced | Outside | SeveralUids | NoUid

  // ------------------------------------------------------------------ the grammar

  datatype Node = Prop(line: Line) | Component(name: string, body: Nodes)
  datatype Nodes = Nil | Cons(head: Node, tail: Nodes)

  predicate WellFormed(ns: Nodes) {
    match ns
    case Nil => true
    case Cons(Prop(line), tail) => (line.Uid? || line.Other?) && WellFormed(tail)
    case Cons(Component(_, body), tail) => WellFormed(body) && WellFormed(tail)
  }

  function Lines(ns: Nodes): (s: seq<Line>) {
    match ns
    case Nil => []
    case Cons(Prop(line), tail) => [line] + Lines(tail)
    case Cons(Component(name, body), tail) => [Begin(name)] + Lines(body) + [End(name)] + Lines(tail)
  }

  predicate Identifies(name: string) {
    name == "VCARD" || name == "VEVENT" || name == "VTODO"
  }

  /** The UIDs of the components that have an identity, in order, below a component of this name. */
  function Uids(ns: Nodes, name: string): (s: seq<string>) {
    match ns
    case Nil => []
    case Cons(Prop(line), tail) => (if line.Uid? && Identifies(name) then [line.value] else []) + Uids(tail, name)
    case Cons(Component(inner, body), tail) => Uids(body, inner) + Uids(tail, name)
  }

  /** From the first UID that is not empty on, all are equal to it. */
  ghost predicate OneUid(uids: seq<string>, u: string) {
    u != "" && exists n: nat :: OneFrom(uids, u, n)
  }

  predicate OneFrom(uids: seq<string>, u: string, n: nat) {
    n < |uids| && forall k :: 0 <= k < |uids| ==> uids[k] == if k < n then "" else u
  }

  /** A single well-nested container whose identity is u. */
  ghost predicate IsContainer(lines: seq<Line>, container: string, body: Nodes, u: string) {
    && WellFormed(body)
    && lines == [Begin(container)] + Lines(body) + [End(container)]
    && OneUid(Uids(body, container), u)
  }

  // ------------------------------------------------------------------ the machine

  datatype Machine = Machine(stack: seq<string>, uid: string, outer: nat)

  function Step(container: string, line: Line, m: Machine): (r: Result<Machine, UidError>) {
    match line
    case Broken => Err(BrokenLine)
    case Begin(name) =>
      if m.stack == [] then
        if m.outer != 0 || name != container then Err(SecondContainer) else Ok(Machine([name], m.uid, m.outer + 1))
      else Ok(m.(stack := m.stack + [name]))
    case End(name) =>
      if m.stack == [] || m.stack[|m.stack| - 1] != name then Err(Unbalanced)
      else Ok(m.(stack := m.stack[..|m.stack| - 1]))
    case Uid(value) =>
      if m.stack == [] then Err(Outside)
      else if !Identifies(m.stack[|m.stack| - 1]) then Ok(m)
      else if m.uid != "" && m.uid != value then Err(SeveralUids)
      else Ok(m.(uid := value))
    case Other => Ok(m)
  }

  function Run(container: string, lines: seq<Line>, m: Machine): (r: Result<Machine, UidError>) {
    if lines == [] then Ok(m)
    else
      var before :- Run(container, lines[..|lines| - 1], m);
      Step(container, lines[|lines| - 1], before)
  }

  const Fresh: Machine := Machine([], "", 0)

  /** The machine's verdict on the classified lines. */
  function Identity(container: string, lines: seq<Line>): (r: Result<string, UidError>) {
    var m :- Run(container, lines, Fresh);
    if m.stack != [] || m.uid == "" then Err(NoUid) else Ok(m.uid)
  }

  lemma {:induction false} RunConcat(container: string, a: seq<Line>, b: seq<Line>, m: Machine)
    ensures Run(container, a + b, m) ==
            match Run(container, a, m) case Ok(n) => Run(container, b, n) case Err(e) => Err(e)
  {
    if b == [] {
      assert a + b == a;
    } else {
      assert (a + b)[..|a + b| - 1] == a + b[..|b| - 1];
      RunConcat(container, a, b[..|b| - 1], m);
    }
  }

  lemma RunOne(container: string, line: Line, m: Machine)
    ensures Run(container, [line], m) == Step(container, line, m)
  {
  }

  // ------------------------------------------------------------------ identities

  /** What is left of the identity after some UIDs. */
  function After(uid: string, uids: seq<string>): (r: Option<string>)
    decreases |uids|
  {
    if uids == [] then Some(uid)
    else if uid != "" && uid != uids[0] then None
    else After(uids[0], uids[1..])
  }

  lemma {:induction false} AfterConcat(uid: string, a: seq<string>, b: seq<string>)
    ensures After(uid, a + b) == match After(uid, a) case Some(u) => After(u, b) case None => None
    decreases |a|
  {
    if a == [] {
      assert a + b == b;
    } else {
      assert (a + b)[1..] == a[1..] + b;
      AfterConcat(a[0], a[1..], b);
    }
  }

  lemma {:induction false} AfterKnown(uid: string, uids: seq<string>)
    requires uid != ""
    ensures After(uid, uids) == Some(uid) <==> forall k :: 0 <= k < |uids| ==> uids[k] == uid
    ensures After(uid, uids) in {Some(uid), None}
  {
    if uids != [] && uids[0] == uid {
      AfterKnown(uid, uids[1..]);
    }
  }

  lemma {:induction false} AfterIsOneUid(uids: seq<string>, u: string)
    requires u != ""
    ensures After("", uids) == Some(u) <==> OneUid(uids, u)
    decreases |uids|
  {
    if uids != [] {
      if uids[0] == "" {
        AfterIsOneUid(uids[1..], u);
        if n: nat :| OneFrom(uids[1..], u, n) {
          assert OneFrom(uids, u, n + 1);
        }
        if n: nat :| OneFrom(uids, u, n) {
          assert n > 0 && OneFrom(uids[1..], u, n - 1);
        }
      } else {
        AfterKnown(uids[0], uids[1..]);
        assert (forall k :: 0 <= k < |uids[1..]| ==> uids[1..][k] == uids[0]) && uids[0] == u <==> OneFrom(uids, u, 0);
        assert forall n: nat :: n > 0 ==> !OneFrom(uids, u, n);
      }
    }
  }

  // ------------------------------------------------------------------ every container is accepted

  /** What reading the UIDs makes of the machine. */
  function Reads(m: Machine, uids: seq<string>): (r: Result<Machine, UidError>) {
    match After(m.uid, uids)
    case Some(u) => Ok(m.(uid := u))
    case None => Err(SeveralUids)
  }

  function Then(r: Result<Machine, UidError>, uids: seq<string>): (q: Result<Machine, UidError>) {
    match r
    case Ok(m) => Reads(m, uids)
    case Err(e) => Err(e)
  }

  lemma ReadsConcat(m: Machine, a: seq<string>, b: seq<string>)
    ensures Reads(m, a + b) == Then(Reads(m, a), b)
  {
    AfterConcat(m.uid, a, b);
  }

  lemma ReadsProp(container: string, line: Line, m: Machine)
    requires (line.Uid? || line.Other?) && m.stack != []
    ensures Run(container, [line], m) ==
            Reads(m, if line.Uid? && Identifies(m.stack[|m.stack| - 1]) then [line.value] else [])
  {
    RunOne(container, line, m);
    assert m.(uid := m.uid) == m && After(m.uid, []) == Some(m.uid);
    if line.Uid? {
      var one := [line.value];
      assert one[1..] == [] && After(line.value, one[1..]) == Some(line.value);
    }
  }

  lemma ReadsComponent(container: string, name: string, body: seq<Line>, m: Machine, uids: seq<string>)
    requires m.stack != []
    requires Run(container, body, m.(stack := m.stack + [name])) == Reads(m.(stack := m.stack + [name]), uids)
    ensures Run(container, [Begin(name)] + body + [End(name)], m) == Reads(m, uids)
  {
    var inside := m.(stack := m.stack + [name]);
    RunOne(container, Begin(name), m);
    RunConcat(container, [Begin(name)], body, m);
    RunConcat(container, [Begin(name)] + body, [End(name)], m);
    assert inside.stack[..|inside.stack| - 1] == m.stack;
    if After(m.uid, uids).Some? {
      RunOne(container, End(name), inside.(uid := After(m.uid, uids).value));
    }
  }

  /** Inside a component the machine reads a body and is back where it was, but for the identity. */
  lemma {:induction false} ReadsBody(container: string, ns: Nodes, m: Machine)
    requires WellFormed(ns) && m.stack != []
    ensures Run(container, Lines(ns), m) == Reads(m, Uids(ns, m.stack[|m.stack| - 1]))
    decreases ns
  {
    hide Run, After, Identifies;
    var top := m.stack[|m.stack| - 1];
    match ns
    case Nil =>
      ReadsNothing(container, m);
    case Cons(Prop(line), tail) =>
      var here := if line.Uid? && Identifies(top) then [line.value] else [];
      ReadsProp(container, line, m);
      RunConcat(container, [line], Lines(tail), m);
      ReadsConcat(m, here, Uids(tail, top));
      if Reads(m, here).Ok? {
        ReadsBody(container, tail, Reads(m, here).value);
      }
    case Cons(Component(name, body), tail) =>
      var here := Uids(body, name);
      ReadsBody(container, body, m.(stack := m.stack + [name]));
      ReadsComponent(container, name, Lines(body), m, here);
      RunConcat(container, [Begin(name)] + Lines(body) + [End(name)], Lines(tail), m);
      ReadsConcat(m, here, Uids(tail, top));
      if Reads(m, here).Ok? {
        ReadsBody(container, tail, Reads(m, here).value);
      }
  }

  lemma ReadsNothing(container: string, m: Machine)
    ensures Run(container, [], m) == Reads(m, [])
  {
  }

  lemma {:induction false} ContainerAccepted(container: string, lines: seq<Line>, body: Nodes, u: string)
    requires IsContainer(lines, container, body, u)
    ensures Identity(container, lines) == Ok(u)
  {
    var started := Machine([container], "", 1);
    RunOne(container, Begin(container), Fresh);
    RunConcat(container, [Begin(container)], Lines(body), Fresh);
    RunConcat(container, [Begin(container)] + Lines(body), [End(container)], Fresh);
    ReadsBody(container, body, started);
    AfterIsOneUid(Uids(body, container), u);
    RunOne(container, End(container), started.(uid := u));
  }

  // ------------------------------------------------------------------ nothing else is

  /** A component that is still open, with what it holds so far. */
  datatype Frame = Frame(name: string, body: Nodes)

  function Append(a: Nodes, b: Nodes): (r: Nodes) {
    match a
    case Nil => b
    case Cons(h, t) => Cons(h, Append(t, b))
  }

  lemma {:induction false} AppendLines(a: Nodes, b: Nodes)
    ensures Lines(Append(a, b)) == Lines(a) + Lines(b)
    ensures WellFormed(Append(a, b)) <==> WellFormed(a) && WellFormed(b)
  {
    match a
    case Nil =>
    case Cons(Prop(_), tail) => AppendLines(tail, b);
    case Cons(Component(name, body), tail) =>
      AppendLines(tail, b);
      var here := [Begin(name)] + Lines(body) + [End(name)];
      assert here + (Lines(tail) + Lines(b)) == here + Lines(tail) + Lines(b);
  }

  lemma {:induction false} AppendUids(a: Nodes, b: Nodes, name: string)
    ensures Uids(Append(a, b), name) == Uids(a, name) + Uids(b, name)
  {
    hide Identifies;
    match a
    case Nil =>
    case Cons(Prop(_), tail) => AppendUids(tail, b, name);
    case Cons(Component(inner, body), tail) =>
      AppendUids(tail, b, name);
      assert Uids(body, inner) + (Uids(tail, name) + Uids(b, name)) == Uids(body, inner) + Uids(tail, name) + Uids(b, name);
  }

  function Opened(frames: seq<Frame>): (s: seq<Line>) {
    if frames == [] then []
    else Opened(frames[..|frames| - 1]) + ([Begin(frames[|frames| - 1].name)] + Lines(frames[|frames| - 1].body))
  }

  function OpenUids(frames: seq<Frame>): (s: seq<string>) {
    if frames == [] then []
    else OpenUids(frames[..|frames| - 1]) + Uids(frames[|frames| - 1].body, frames[|frames| - 1].name)
  }

  /** The machine stands inside these open components. */
  ghost predicate Inside(container: string, lines: seq<Line>, m: Machine, frames: seq<Frame>) {
    && frames != [] && frames[0].name == container
    && |m.stack| == |frames| && (forall i :: 0 <= i < |frames| ==> m.stack[i] == frames[i].name && WellFormed(frames[i].body))
    && Opened(frames) == lines
    && After("", OpenUids(frames)) == Some(m.uid)
    && m.outer == 1
  }

  /** The container was closed before these lines ended. */
  ghost predicate Closed(container: string, lines: seq<Line>, m: Machine, body: Nodes, rest: seq<Line>) {
    && m.stack == [] && m.outer == 1 && WellFormed(body)
    && lines == [Begin(container)] + Lines(body) + [End(container)] + rest
    && (forall i :: 0 <= i < |rest| ==> rest[i] == Other)
    && After("", Uids(body, container)) == Some(m.uid)
  }

  function Replaced(frames: seq<Frame>, body: Nodes): (r: seq<Frame>)
    requires frames != []
  {
    frames[..|frames| - 1] + [Frame(frames[|frames| - 1].name, body)]
  }

  /** Something complete joins the innermost open component. */
  lemma Joins(container: string, lines: seq<Line>, m: Machine, frames: seq<Frame>, n: Nodes, u: string)
    requires Inside(container, lines, m, frames) && WellFormed(n)
    requires After(m.uid, Uids(n, frames[|frames| - 1].name)) == Some(u)
    ensures Inside(container, lines + Lines(n), m.(uid := u), Replaced(frames, Append(frames[|frames| - 1].body, n)))
  {
    var last := frames[|frames| - 1];
    var body := Append(last.body, n);
    AppendLines(last.body, n);
    AppendUids(last.body, n, last.name);
    ReplacedOpen(frames, body, Lines(n), Uids(n, last.name));
    AfterConcat("", OpenUids(frames), Uids(n, last.name));
  }

  lemma ReplacedOpen(frames: seq<Frame>, body: Nodes, lines: seq<Line>, uids: seq<string>)
    requires frames != []
    requires Lines(body) == Lines(frames[|frames| - 1].body) + lines
    requires Uids(body, frames[|frames| - 1].name) == Uids(frames[|frames| - 1].body, frames[|frames| - 1].name) + uids
    ensures Opened(Replaced(frames, body)) == Opened(frames) + lines
    ensures OpenUids(Replaced(frames, body)) == OpenUids(frames) + uids
  {
  }

  lemma Opens(container: string, lines: seq<Line>, m: Machine, frames: seq<Frame>, name: string)
    requires Inside(container, lines, m, frames)
    ensures Inside(container, lines + [Begin(name)], m.(stack := m.stack + [name]), frames + [Frame(name, Nil)])
  {
    var now := frames + [Frame(name, Nil)];
    assert now[..|now| - 1] == frames;
    assert Opened(now) == lines + ([Begin(name)] + []);
    assert OpenUids(now) == OpenUids(frames) + [];
    assert OpenUids(now) == OpenUids(frames);
  }

  lemma ClosesInner(container: string, lines: seq<Line>, m: Machine, frames: seq<Frame>) returns (now: seq<Frame>)
    requires Inside(container, lines, m, frames) && |frames| > 1
    ensures Inside(container, lines + [End(frames[|frames| - 1].name)], m.(stack := m.stack[..|m.stack| - 1]), now)
  {
    var last, outer := frames[|frames| - 1], frames[..|frames| - 1];
    var parent := outer[|outer| - 1];
    var done := Cons(Component(last.name, last.body), Nil);
    AfterConcat("", OpenUids(outer), Uids(last.body, last.name));
    var before := After("", OpenUids(outer)).value;
    var inner := Machine(m.stack[..|m.stack| - 1], before, 1);
    assert Inside(container, Opened(outer), inner, outer);
    assert Uids(done, parent.name) == Uids(last.body, last.name) + [];
    assert Uids(done, parent.name) == Uids(last.body, last.name);
    Joins(container, Opened(outer), inner, outer, done, m.uid);
    now := Replaced(outer, Append(parent.body, done));
    assert Lines(done) == [Begin(last.name)] + Lines(last.body) + [End(last.name)];
    assert Opened(outer) + Lines(done) == lines + [End(last.name)];
    assert inner.(uid := m.uid) == m.(stack := m.stack[..|m.stack| - 1]);
  }

  lemma ClosesOuter(container: string, lines: seq<Line>, m: Machine, frames: seq<Frame>)
    requires Inside(container, lines, m, frames) && |frames| == 1
    ensures Closed(container, lines + [End(frames[0].name)], m.(stack := []), frames[0].body, [])
  {
    assert frames[..0] == [];
    assert Opened(frames) == [] + ([Begin(container)] + Lines(frames[0].body));
    assert OpenUids(frames) == [] + Uids(frames[0].body, container);
    assert OpenUids(frames) == Uids(frames[0].body, container);
  }

  /** After any lines that start the container, it is open along some components or closed for good. */
  lemma {:induction false} Follows(container: string, lines: seq<Line>, m: Machine)
    returns (frames: seq<Frame>, body: Nodes, rest: seq<Line>)
    requires lines != [] && lines[0] == Begin(container) && Run(container, lines, Fresh) == Ok(m)
    ensures Inside(container, lines, m, frames) || Closed(container, lines, m, body, rest)
    decreases |lines|
  {
    frames, body, rest := [], Nil, [];
    var front, line := lines[..|lines| - 1], lines[|lines| - 1];
    assert lines == front + [line];
    if front == [] {
      frames := [Frame(container, Nil)];
      assert frames[..0] == [];
      assert Opened(frames) == lines;
      assert OpenUids(frames) == [];
    } else {
      var before := Run(container, front, Fresh).value;
      frames, body, rest := Follows(container, front, before);
      if Inside(container, front, before, frames) {
        frames, body := FollowsOne(container, front, before, frames, line, m);
        rest := [];
      } else {
        rest := rest + [line];
        assert lines == [Begin(container)] + Lines(body) + [End(container)] + rest;
      }
    }
  }

  lemma FollowsOne(container: string, front: seq<Line>, before: Machine, frames: seq<Frame>, line: Line, m: Machine)
    returns (now: seq<Frame>, body: Nodes)
    requires Inside(container, front, before, frames) && Step(container, line, before) == Ok(m)
    ensures Inside(container, front + [line], m, now) || Closed(container, front + [line], m, body, [])
  {
    now, body := frames, Nil;
    match line
    case Begin(name) =>
      Opens(container, front, before, frames, name);
      now := frames + [Frame(name, Nil)];
    case End(name) =>
      if |frames| == 1 {
        ClosesOuter(container, front, before, frames);
        body := frames[0].body;
        assert before.stack[..|before.stack| - 1] == [];
      } else {
        now := ClosesInner(container, front, before, frames);
      }
    case Other =>
      now := FollowsProp(container, front, before, frames, line, m);
    case Uid(value) =>
      now := FollowsProp(container, front, before, frames, line, m);
  }

  lemma FollowsProp(container: string, front: seq<Line>, before: Machine, frames: seq<Frame>, line: Line, m: Machine)
    returns (now: seq<Frame>)
    requires Inside(container, front, before, frames) && (line.Uid? || line.Other?) && Step(container, line, before) == Ok(m)
    ensures Inside(container, front + [line], m, now)
  {
    var n := Cons(Prop(line), Nil);
    if line.Uid? {
      ReadsUid(frames[|frames| - 1].name, before.uid, line.value);
    }
    Joins(container, front, before, frames, n, m.uid);
    now := Replaced(frames, Append(frames[|frames| - 1].body, n));
    assert Lines(n) == [line];
  }

  lemma ReadsUid(name: string, uid: string, value: string)
    ensures After(uid, Uids(Cons(Prop(Uid(value)), Nil), name)) ==
            if !Identifies(name) then Some(uid) else if uid != "" && uid != value then None else Some(value)
  {
  }

  /** The machine accepts exactly the single containers that start on the first line and end on
      the last, and reports their identity. */
  lemma {:induction false} AcceptsIffContainer(container: string, lines: seq<Line>, u: string)
    requires lines != [] && lines[0] == Begin(container) && lines[|lines| - 1] == End(container)
    ensures Identity(container, lines) == Ok(u) <==> exists body :: IsContainer(lines, container, body, u)
  {
    if Identity(container, lines) == Ok(u) {
      var m := Run(container, lines, Fresh).value;
      var frames, body, rest := Follows(container, lines, m);
      assert Closed(container, lines, m, body, rest);
      assert lines == [Begin(container)] + Lines(body) + [End(container)];
      AfterIsOneUid(Uids(body, container), u);
      assert IsContainer(lines, container, body, u);
    }
    if body :| IsContainer(lines, container, body, u) {
      ContainerAccepted(container, lines, body, u);
    }
  }
}
