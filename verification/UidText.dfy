/** The identity of a vCard or iCalendar text: unfolding, lines, and the loop with its stack. */
module UidText {
  import opened Wrappers
  import opened UidGrammar

  // ------------------------------------------------------------------ lines of a text

  /** Replaces every occurrence of the two characters, from the left. */
  function ReplacePair(s: string, a: char, b: char, to: string): (r: string) {
    if |s| < 2 then s
    else if s[0] == a && s[1] == b then to + ReplacePair(s[2..], a, b, to)
    else [s[0]] + ReplacePair(s[1..], a, b, to)
  }

  /** Line ends become line feeds, and folded lines are joined. */
  function Unfolded(text: string): (r: string) {
    ReplacePair(ReplacePair(ReplacePair(text, '\r', '\n', "\n"), '\n', ' ', ""), '\n', '\t', "")
  }

  predicate Space(c: char) {
    c == ' ' || c == '\t' || c == '\n' || c == '\r' || c == 11 as char || c == 12 as char
  }

  function TrimLeft(s: string): (r: string) {
    if s == "" || !Space(s[0]) then s else TrimLeft(s[1..])
  }

  function TrimRight(s: string): (r: string) {
    if s == "" || !Space(s[|s| - 1]) then s else TrimRight(s[..|s| - 1])
  }

  function Split(s: string, c: char): (parts: seq<string>)
    ensures |parts| > 0
  {
    if s == "" then [""]
    else
      var rest := Split(s[1..], c);
      if s[0] == c then [""] + rest else [[s[0]] + rest[0]] + rest[1..]
  }

  function TextLines(text: string): (lines: seq<string>)
    ensures |lines| > 0
  {
    Split(TrimRight(TrimLeft(Unfolded(text))), '\n')
  }

  function UpperChar(c: char): (u: char) {
    if 'a' <= c <= 'z' then c - 'a' + 'A' else c
  }

  function Upper(s: string): (u: string)
    ensures |u| == |s| && forall i :: 0 <= i < |s| ==> u[i] == UpperChar(s[i])
  {
    seq(|s|, i requires 0 <= i < |s| => UpperChar(s[i]))
  }

  function IndexOf(s: string, c: char): (i: nat)
    ensures i <= |s| && (i < |s| ==> s[i] == c) && forall k :: 0 <= k < i ==> s[k] != c
  {
    if s == "" || s[0] == c then 0 else 1 + IndexOf(s[1..], c)
  }

  /** What follows the last dot. */
  function AfterDot(s: string): (r: string) {
    var i := IndexOf(s, '.');
    if i == |s| then s else AfterDot(s[i + 1..])
  }

  /** The name of a content line, without group and parameters, decides what it means. */
  function Classify(line: string): (l: Line) {
    var i := IndexOf(line, ':');
    if i == |line| then Broken
    else
      var key := AfterDot(Upper(line[..i][..IndexOf(line[..i], ';')]));
      var value := line[i + 1..];
      if key == "BEGIN" then Begin(Upper(value))
      else if key == "END" then End(Upper(value))
      else if key == "UID" then Uid(value)
      else Other
  }

  function Classified(lines: seq<string>): (r: seq<Line>)
    ensures |r| == |lines| && forall i :: 0 <= i < |lines| ==> r[i] == Classify(lines[i])
  {
    seq(|lines|, i requires 0 <= i < |lines| => Classify(lines[i]))
  }

  function Container(ext: string): (name: string) {
    if ext == ".ics" then "VCALENDAR" else "VCARD"
  }

  predicate Framed(lines: seq<string>, container: string) {
    && |lines| >= 3
    && Upper(lines[0]) == "BEGIN:" + container
    && Upper(lines[|lines| - 1]) == "END:" + container
  }

  /** The identity of the text, or why it has none. */
  function IdentityOf(text: string, ext: string): (r: Result<string, UidError>) {
    var lines := TextLines(text);
    if !Framed(lines, Container(ext)) then Err(NoContainer)
    else Identity(Container(ext), Classified(lines))
  }

  // ------------------------------------------------------------------ the loop

  method UID(text: string, ext: string) returns (r: Result<string, UidError>)
    ensures r == IdentityOf(text, ext)
  {
    var container := Container(ext);
    var lines := TextLines(text);
    if |lines| < 3 || Upper(lines[0]) != "BEGIN:" + container || Upper(lines[|lines| - 1]) != "END:" + container {
      return Err(NoContainer);
    }
    r := Scan(container, lines);
  }

  method Scan(container: string, lines: seq<string>) returns (r: Result<string, UidError>)
    ensures r == Identity(container, Classified(lines))
  {
    hide Run, Classify, Identifies;
    var stack: seq<string> := [];
    var uid := "";
    var outerCount := 0;
    ghost var all := Classified(lines);
    var i := 0;
    RunsNothing(container, all);
    while i < |lines|
      invariant i <= |lines|
      invariant Run(container, all[..i], Fresh) == Ok(Machine(stack, uid, outerCount))
    {
      Advances(container, all, i);
      var line := Classify(lines[i]);
      match line {
        case Broken =>
          return Err(BrokenLine);
        case Begin(name) =>
          if |stack| == 0 {
            outerCount := outerCount + 1;
            if outerCount != 1 || name != container {
              return Err(SecondContainer);
            }
          }
          assert |stack| == 0 ==> stack + [name] == [name];
          stack := stack + [name];
        case End(name) =>
          if |stack| == 0 || stack[|stack| - 1] != name {
            return Err(Unbalanced);
          }
          stack := stack[..|stack| - 1];
        case Uid(value) =>
          if |stack| == 0 {
            return Err(Outside);
          }
          if Identifies(stack[|stack| - 1]) {
            if uid != "" && uid != value {
              return Err(SeveralUids);
            }
            uid := value;
          }
        case Other =>
      }
      i := i + 1;
    }
    assert all[..i] == all;
    if |stack| != 0 || uid == "" {
      return Err(NoUid);
    }
    return Ok(uid);
  }

  lemma RunsNothing(container: string, all: seq<Line>)
    ensures Run(container, all[..0], Fresh) == Ok(Machine([], "", 0))
  {
  }

  /** One more line is one more step, and an error stays one. */
  lemma Advances(container: string, all: seq<Line>, i: nat)
    requires i < |all|
    ensures Run(container, all[..i], Fresh).Ok? ==>
      Run(container, all[..i + 1], Fresh) == Step(container, all[i], Run(container, all[..i], Fresh).value)
    ensures Run(container, all[..i + 1], Fresh).Err? ==> Run(container, all, Fresh) == Run(container, all[..i + 1], Fresh)
  {
    assert all[..i + 1][..i] == all[..i];
    assert all == all[..i + 1] + all[i + 1..];
    RunConcat(container, all[..i + 1], all[i + 1..], Fresh);
  }

  // ------------------------------------------------------------------ what is accepted

  lemma {:induction false} WithoutChar(s: string, c: char)
    requires forall i :: 0 <= i < |s| ==> s[i] != c
    ensures IndexOf(s, c) == |s|
  {
  }

  lemma FramingLine(line: string, key: string, container: string)
    requires key == "BEGIN" || key == "END"
    requires Upper(line) == key + ":" + container
    ensures Classify(line) == if key == "BEGIN" then Begin(container) else End(container)
  {
    var n := |key|;
    var whole := key + ":" + container;
    forall i | 0 <= i < n ensures UpperChar(line[i]) == key[i] && line[i] != ':' && line[i] != ';' {
      assert Upper(line)[i] == whole[i] == key[i];
    }
    assert UpperChar(line[n]) == whole[n] == ':';
    assert IndexOf(line, ':') == n;
    WithoutChar(line[..n], ';');
    assert line[..n][..n] == line[..n];
    assert Upper(line[..n]) == key;
    WithoutChar(key, '.');
    forall i | 0 <= i < |container| ensures Upper(line[n + 1..])[i] == container[i] {
      assert Upper(line)[n + 1 + i] == whole[n + 1 + i];
    }
    assert Upper(line[n + 1..]) == container;
  }

  /** A text is accepted with identity u exactly when its lines are a single well-nested
      container of the right kind, opened on the first line and closed on the last, whose
      component UIDs all equal the first one that is not empty, u. */
  lemma {:induction false} AcceptedIff(text: string, ext: string, u: string)
    ensures IdentityOf(text, ext) == Ok(u) <==>
      && Framed(TextLines(text), Container(ext))
      && exists body :: IsContainer(Classified(TextLines(text)), Container(ext), body, u)
  {
    hide TextLines, Classify;
    var lines, container := TextLines(text), Container(ext);
    if Framed(lines, container) {
      assert "BEGIN:" + container == "BEGIN" + ":" + container && "END:" + container == "END" + ":" + container;
      FramingLine(lines[0], "BEGIN", container);
      FramingLine(lines[|lines| - 1], "END", container);
      AcceptsIffContainer(container, Classified(lines), u);
    }
  }
}
