/** Default local paths of folders: an escape in the style of percent-encoding that is
    always a valid local path and can be undone. */
module FolderNames {
  import opened Wrappers
  import opened Utf8
  import opened MailboxNames

  const Slash: byte := '/' as int
  const Dot: byte := '.' as int
  const Blank: byte := 32
  const PercentSign: byte := '%' as int

  function Code(c: char): (b: byte) {
    c as int % 0x100
  }

  function Text(s: string): (b: seq<byte>)
    ensures |b| == |s| && forall i :: 0 <= i < |s| ==> b[i] == Code(s[i])
  {
    seq(|s|, i requires 0 <= i < |s| => Code(s[i]))
  }

  // ------------------------------------------------------------------ components

  function Split(s: seq<byte>): (parts: seq<seq<byte>>)
    ensures |parts| > 0
    ensures forall p :: p in parts ==> Slash !in p
    decreases |s|
  {
    var i := Index(s, Slash);
    if i == |s| then [s] else [s[..i]] + Split(s[i + 1..])
  }

  function Join(parts: seq<seq<byte>>): (s: seq<byte>)
    requires |parts| > 0
  {
    if |parts| == 1 then parts[0] else parts[0] + [Slash] + Join(parts[1..])
  }

  lemma {:induction false} JoinSplit(s: seq<byte>)
    ensures Join(Split(s)) == s
    decreases |s|
  {
    hide Index;
    var i := Index(s, Slash);
    if i < |s| {
      JoinSplit(s[i + 1..]);
      assert Split(s)[1..] == Split(s[i + 1..]);
      assert s == s[..i] + [Slash] + s[i + 1..];
    }
  }

  lemma SplitLast(s: seq<byte>)
    requires Slash !in s
    ensures Split(s) == [s]
  {
  }

  lemma SplitFirst(part: seq<byte>, rest: seq<byte>)
    requires Slash !in part
    ensures Split(part + [Slash] + rest) == [part] + Split(rest)
  {
    var s := part + [Slash] + rest;
    IndexAt(part, Slash, rest);
    assert s[..|part|] == part && s[|part| + 1..] == rest;
  }

  lemma {:induction false} SplitJoin(parts: seq<seq<byte>>)
    requires |parts| > 0 && forall p :: p in parts ==> Slash !in p
    ensures Split(Join(parts)) == parts
  {
    hide Index;
    var s := Join(parts);
    assert parts[0] in parts;
    if |parts| == 1 {
      SplitLast(s);
      assert parts == [parts[0]];
    } else {
      var rest := Join(parts[1..]);
      SplitFirst(parts[0], rest);
      SplitJoin(parts[1..]);
      assert parts == [parts[0]] + parts[1..];
    }
  }

  // ------------------------------------------------------------------ what a local path may be

  /** Never in a local path. */
  predicate Forbidden(c: byte) {
    c == 0 || c == 10 || c == 13
    || c == '\\' as int || c == ':' as int || c == '<' as int || c == '>' as int
    || c == '"' as int || c == '|' as int || c == '?' as int || c == '*' as int
  }

  function Upper(c: byte): (u: byte) {
    if 'a' as int <= c <= 'z' as int then c - 32 else c
  }

  function UpperAll(s: seq<byte>): (u: seq<byte>)
    ensures |u| == |s| && forall i :: 0 <= i < |s| ==> u[i] == Upper(s[i])
  {
    seq(|s|, i requires 0 <= i < |s| => Upper(s[i]))
  }

  predicate IsMaildirPart(p: seq<byte>) {
    p == Text("cur") || p == Text("new") || p == Text("tmp")
  }

  /** Device names that some systems reserve, with any extension. */
  predicate Reserved(p: seq<byte>) {
    var base := UpperAll(p[..Index(p, Dot)]);
    || base == Text("CON") || base == Text("PRN") || base == Text("AUX") || base == Text("NUL")
    || (|base| == 4 && (base[..3] == Text("COM") || base[..3] == Text("LPT")) && '1' as int <= base[3] <= '9' as int)
  }

  predicate ValidPart(p: seq<byte>) {
    && p != [] && p != [Dot] && p != [Dot, Dot] && !IsMaildirPart(p)
    && p[|p| - 1] != Dot && p[|p| - 1] != Blank
    && !Reserved(p)
  }

  /** ValidateFolderLocal accepts the path. */
  predicate ValidLocal(s: seq<byte>) {
    && s != [] && s[0] != Slash
    && (forall c :: c in s ==> !Forbidden(c))
    && (forall p :: p in Split(s) ==> ValidPart(p))
  }

  // ------------------------------------------------------------------ the escape

  function Hex(v: int): (c: byte)
    requires 0 <= v < 16
  {
    if v < 10 then '0' as int + v else 'A' as int + (v - 10)
  }

  function Percent(b: byte): (s: seq<byte>) {
    [PercentSign, Hex(b / 16), Hex(b % 16)]
  }

  function PercentAll(s: seq<byte>): (e: seq<byte>) {
    if s == [] then [] else Percent(s[0]) + PercentAll(s[1..])
  }

  predicate Control(r: Rune) {
    r < 0x20 || 0x7F <= r < 0xA0
  }

  predicate Special(r: Rune) {
    || Control(r) || r == Dot || r == PercentSign
    || (r < 0x80 && Forbidden(r))
  }

  function EscapeRune(r: Rune): (e: seq<byte>) {
    if Special(r) then PercentAll(EncodeRune(r)) else EncodeRune(r)
  }

  function EscapeRunes(rs: seq<Rune>): (e: seq<byte>) {
    if rs == [] then [] else EscapeRunes(rs[..|rs| - 1]) + EscapeRune(rs[|rs| - 1])
  }

  /** Blanks at the end are escaped too. */
  function EscapeTail(e: seq<byte>): (s: seq<byte>) {
    if e == [] || e[|e| - 1] != Blank then e else EscapeTail(e[..|e| - 1]) + Percent(Blank)
  }

  function EscapeFirst(p: seq<byte>): (e: seq<byte>)
    requires p != []
  {
    Percent(p[0]) + p[1..]
  }

  function EscapePart(s: seq<byte>): (p: seq<byte>)
    ensures p != []
  {
    if IsMaildirPart(s) then EscapeFirst(s)
    else
      var e := EscapeTail(EscapeRunes(Runes(s)));
      if e == [] then Percent(0) else e
  }

  function SafePart(s: seq<byte>): (p: seq<byte>)
    ensures p != []
  {
    var p := EscapePart(s);
    if ValidLocal(p) then p else EscapeFirst(p)
  }

  function SafeParts(parts: seq<seq<byte>>): (r: seq<seq<byte>>)
    ensures |r| == |parts| && forall i :: 0 <= i < |parts| ==> r[i] == SafePart(parts[i])
  {
    seq(|parts|, i requires 0 <= i < |parts| => SafePart(parts[i]))
  }

  /** The default path of a folder below the folder directory. */
  function Safe(name: seq<byte>): (s: seq<byte>) {
    Join(SafeParts(Split(name)))
  }

  // ------------------------------------------------------------------ the algorithm

  /** Escapes the components of a name in place, then joins them again. */
  method SafeLocal(name: seq<byte>) returns (local: seq<byte>)
    ensures local == Safe(name)
  {
    var parts := Split(name);
    ghost var was := parts;
    var i := 0;
    while i < |parts|
      invariant i <= |parts| == |was|
      invariant forall k :: 0 <= k < i ==> parts[k] == SafePart(was[k])
      invariant forall k :: i <= k < |parts| ==> parts[k] == was[k]
    {
      var p := EscapedPart(parts[i]);
      parts := parts[i := p];
      i := i + 1;
    }
    assert parts == SafeParts(was);
    local := Join(parts);
  }

  method EscapedPart(s: seq<byte>) returns (p: seq<byte>)
    ensures p == SafePart(s)
  {
    hide Runes, DecodeRune, EncodeRune, Special, ValidLocal, EscapeTail, PercentAll;
    var b: seq<byte> := [];
    var i := 0;
    ghost var done: seq<Rune> := [];
    while i < |s|
      invariant i <= |s|
      invariant b == EscapeRunes(done) && done + Runes(s[i..]) == Runes(s)
    {
      RunesStep(s, i);
      var h := DecodeRune(s[i..]);
      if Special(h.rune) {
        var v := PercentBytes(EncodeRune(h.rune));
        b := b + v;
      } else {
        b := b + EncodeRune(h.rune);
      }
      assert (done + [h.rune])[..|done|] == done;
      assert done + ([h.rune] + Runes(s[i + h.width..])) == done + [h.rune] + Runes(s[i + h.width..]);
      done := done + [h.rune];
      i := i + h.width;
    }
    NoRunes(s);
    assert done == Runes(s);
    p := EscapeTail(b);
    if p == [] {
      p := Percent(0);
    }
    if IsMaildirPart(s) {
      p := EscapeFirst(s);
    }
    if !ValidLocal(p) {
      p := EscapeFirst(p);
    }
  }

  method PercentBytes(v: seq<byte>) returns (b: seq<byte>)
    ensures b == PercentAll(v)
  {
    b := [];
    var j := 0;
    while j < |v|
      invariant j <= |v| && b + PercentAll(v[j..]) == PercentAll(v)
    {
      assert v[j..][1..] == v[j + 1..];
      assert b + (Percent(v[j]) + PercentAll(v[j + 1..])) == b + Percent(v[j]) + PercentAll(v[j + 1..]);
      b := b + Percent(v[j]);
      j := j + 1;
    }
  }

  lemma NoRunes(s: seq<byte>)
    ensures s[0..] == s && Runes(s[|s|..]) == []
  {
  }

  lemma EscapeTailNonempty(e: seq<byte>)
    ensures EscapeTail(e) == [] <==> e == []
  {
  }

  // ------------------------------------------------------------------ always valid

  /** Nothing in the component needs escaping but, perhaps, its first byte. */
  predicate Clean(p: seq<byte>) {
    && p != [] && p[|p| - 1] != Blank
    && forall c :: c in p ==> !Forbidden(c) && c != Slash && c != Dot
  }

  predicate Harmless(e: seq<byte>) {
    forall c :: c in e ==> !Forbidden(c) && c != Slash && c != Dot
  }

  lemma HexHarmless(b: byte)
    ensures Harmless(Percent(b)) && Percent(b)[2] != Blank
  {
  }

  lemma {:induction false} PercentAllHarmless(s: seq<byte>)
    ensures Harmless(PercentAll(s)) && (s != [] ==> PercentAll(s) != [])
  {
    if s != [] {
      HexHarmless(s[0]);
      PercentAllHarmless(s[1..]);
    }
  }

  lemma {:induction false} RunesWithoutSlash(s: seq<byte>)
    requires Slash !in s
    ensures Slash !in Runes(s)
  {
    if s != [] {
      var h := DecodeRune(s);
      if First(s).Some? {
        FirstIsEncoding(s);
        assert s[..h.width] == EncodeRune(h.rune);
        assert s[0] == s[..h.width][0];
        assert h.rune != Slash;
      }
      RunesWithoutSlash(s[h.width..]);
    }
  }

  lemma EscapeRuneHarmless(r: Rune)
    requires r != Slash
    ensures Harmless(EscapeRune(r))
  {
    PercentAllHarmless(EncodeRune(r));
  }

  lemma {:induction false} EscapeRunesHarmless(rs: seq<Rune>)
    requires Slash !in rs
    ensures Harmless(EscapeRunes(rs))
  {
    if rs != [] {
      EscapeRunesHarmless(rs[..|rs| - 1]);
      EscapeRuneHarmless(rs[|rs| - 1]);
    }
  }

  lemma {:induction false} EscapeTailClean(e: seq<byte>)
    requires Harmless(e) && e != []
    ensures Clean(EscapeTail(e))
  {
    HexHarmless(Blank);
    if e[|e| - 1] == Blank && |e| > 1 {
      var front := e[..|e| - 1];
      forall c | c in front ensures !Forbidden(c) && c != Slash && c != Dot {
        assert c in e;
      }
      EscapeTailClean(front);
    }
  }

  lemma MaildirPartLetters(s: seq<byte>)
    requires IsMaildirPart(s)
    ensures |s| == 3 && forall i :: 0 <= i < 3 ==> 'a' as int <= s[i] <= 'z' as int
  {
  }

  lemma MaildirPartClean(s: seq<byte>)
    requires IsMaildirPart(s)
    ensures Clean(EscapeFirst(s))
  {
    HexHarmless(s[0]);
    MaildirPartLetters(s);
    hide IsMaildirPart, Percent;
    assert EscapeFirst(s) == Percent(s[0]) + [s[1], s[2]];
  }

  lemma EscapePartClean(s: seq<byte>)
    requires Slash !in s
    ensures Clean(EscapePart(s))
  {
    if IsMaildirPart(s) {
      MaildirPartClean(s);
    } else {
      hide Runes, EscapeRunes, EscapeTail;
      RunesWithoutSlash(s);
      EscapeRunesHarmless(Runes(s));
      HexHarmless(0);
      if EscapeRunes(Runes(s)) != [] {
        EscapeTailClean(EscapeRunes(Runes(s)));
      }
    }
  }

  lemma WithoutDot(p: seq<byte>)
    requires Dot !in p
    ensures p[..Index(p, Dot)] == p
  {
  }

  /** A clean component that starts with an escape is never a reserved one. */
  lemma EscapedIsValid(p: seq<byte>)
    requires Clean(p) && p[0] == PercentSign
    ensures ValidPart(p) && ValidLocal(p)
  {
    WithoutDot(p);
    assert UpperAll(p)[0] == PercentSign;
    SplitJoin([p]);
    assert Split(p) == [p];
  }

  lemma CleanValid(p: seq<byte>)
    requires Clean(p) && ValidLocal(p)
    ensures ValidPart(p)
  {
    SplitJoin([p]);
    assert p in Split(p);
  }

  lemma EscapeFirstClean(p: seq<byte>)
    requires Clean(p)
    ensures Clean(EscapeFirst(p))
  {
    HexHarmless(p[0]);
  }

  lemma SafePartValid(s: seq<byte>)
    requires Slash !in s
    ensures Clean(SafePart(s)) && ValidPart(SafePart(s))
  {
    var p := EscapePart(s);
    EscapePartClean(s);
    if ValidLocal(p) {
      CleanValid(p);
    } else {
      EscapeFirstClean(p);
      EscapedIsValid(EscapeFirst(p));
    }
  }

  lemma {:induction false} JoinBytes(parts: seq<seq<byte>>)
    requires |parts| > 0
    ensures forall c :: c in Join(parts) ==> c == Slash || exists i :: 0 <= i < |parts| && c in parts[i]
  {
    if |parts| > 1 {
      JoinBytes(parts[1..]);
      forall c | c in Join(parts) ensures c == Slash || exists i :: 0 <= i < |parts| && c in parts[i] {
        if c != Slash && c !in parts[0] {
          var i :| 0 <= i < |parts| - 1 && c in parts[1..][i];
          assert c in parts[i + 1];
        }
      }
    }
  }

  /** Whatever a folder is called, its default path is a valid local path. */
  lemma {:induction false} SafeIsValid(name: seq<byte>)
    ensures ValidLocal(Text("Folders/") + Safe(name))
  {
    var parts := SafeParts(Split(name));
    var whole := [Text("Folders")] + parts;
    forall p | p in whole ensures Slash !in p && ValidPart(p) && forall c :: c in p ==> !Forbidden(c) {
      if p != Text("Folders") {
        var i :| 0 <= i < |parts| && parts[i] == p;
        assert Split(name)[i] in Split(name);
        SafePartValid(Split(name)[i]);
      } else {
        FoldersIsValid();
      }
    }
    hide ValidPart, SafeParts, Forbidden;
    assert whole[1..] == parts;
    assert Text("Folders/") == Text("Folders") + [Slash];
    assert Join(whole) == Text("Folders/") + Safe(name);
    SplitJoin(whole);
    JoinBytes(whole);
    forall c | c in Join(whole) ensures !Forbidden(c) {
      if c != Slash {
        var i :| 0 <= i < |whole| && c in whole[i];
        assert whole[i] in whole;
      }
    }
    assert Join(whole)[0] == Text("Folders")[0];
  }

  lemma FoldersIsValid()
    ensures ValidPart(Text("Folders")) && Slash !in Text("Folders") && forall c :: c in Text("Folders") ==> !Forbidden(c)
  {
    WithoutDot(Text("Folders"));
    assert |UpperAll(Text("Folders"))| == 7;
  }

  // ------------------------------------------------------------------ can be undone

  function HexValue(c: byte): (v: Option<nat>) {
    if '0' as int <= c <= '9' as int then Some(c - '0' as int)
    else if 'A' as int <= c <= 'F' as int then Some(c - 'A' as int + 10)
    else None
  }

  /** Percent-decoding. */
  function Unescape(s: seq<byte>): (r: seq<byte>) {
    if s == [] then []
    else if s[0] == PercentSign && |s| > 2 && HexValue(s[1]).Some? && HexValue(s[2]).Some? then
      [UnHex(HexValue(s[1]).value, HexValue(s[2]).value)] + Unescape(s[3..])
    else [s[0]] + Unescape(s[1..])
  }

  function UnHex(a: nat, b: nat): (c: byte) {
    (a * 16 + b) % 0x100
  }

  lemma UnescapePercent(b: byte, rest: seq<byte>)
    ensures Unescape(Percent(b) + rest) == [b] + Unescape(rest)
  {
  }

  lemma {:induction false} UnescapePercents(s: seq<byte>, rest: seq<byte>)
    ensures Unescape(PercentAll(s) + rest) == s + Unescape(rest)
  {
    hide Unescape, Percent;
    if s == [] {
      assert PercentAll(s) + rest == rest;
    } else {
      UnescapePercents(s[1..], rest);
      UnescapePercent(s[0], PercentAll(s[1..]) + rest);
      assert PercentAll(s) + rest == Percent(s[0]) + (PercentAll(s[1..]) + rest);
    }
  }

  lemma {:induction false} UnescapePlain(s: seq<byte>, rest: seq<byte>)
    requires PercentSign !in s
    ensures Unescape(s + rest) == s + Unescape(rest)
  {
    if s == [] {
      assert s + rest == rest;
    } else {
      UnescapePlain(s[1..], rest);
      assert (s + rest)[1..] == s[1..] + rest;
    }
  }

  lemma UnescapeRune(r: Rune, rest: seq<byte>)
    ensures Unescape(EscapeRune(r) + rest) == EncodeRune(r) + Unescape(rest)
  {
    if Special(r) {
      UnescapePercents(EncodeRune(r), rest);
    } else {
      UnescapePlain(EncodeRune(r), rest);
    }
  }

  lemma EncodeLast(rs: seq<Rune>)
    requires rs != []
    ensures Encode(rs) == Encode(rs[..|rs| - 1]) + EncodeRune(rs[|rs| - 1])
  {
    var last := rs[|rs| - 1];
    assert rs == rs[..|rs| - 1] + [last];
    EncodeConcat(rs[..|rs| - 1], [last]);
    EncodeOne(last);
  }

  lemma {:induction false} UnescapeRunes(rs: seq<Rune>, rest: seq<byte>)
    ensures Unescape(EscapeRunes(rs) + rest) == Encode(rs) + Unescape(rest)
  {
    hide Unescape, Encode, EncodeRune, EscapeRune;
    if rs == [] {
      EncodeFromNothing([]);
      assert EscapeRunes(rs) + rest == rest;
    } else {
      var front, last := rs[..|rs| - 1], rs[|rs| - 1];
      UnescapeRunes(front, EscapeRune(last) + rest);
      UnescapeRune(last, rest);
      EncodeLast(rs);
      assert EscapeRunes(rs) + rest == EscapeRunes(front) + (EscapeRune(last) + rest);
    }
  }

  /** A blank at the end of the escaped text is a blank of the name. */
  lemma LastBlank(r: Rune)
    ensures EscapeRune(r) != [] && (EscapeRune(r)[|EscapeRune(r)| - 1] == Blank <==> r == Blank)
  {
    var e := EncodeRune(r);
    if Special(r) {
      PercentAllEnd(e);
    }
  }

  lemma {:induction false} PercentAllEnd(e: seq<byte>)
    requires e != []
    ensures PercentAll(e) != [] && PercentAll(e)[|PercentAll(e)| - 1] != Blank
  {
    HexHarmless(e[0]);
    if |e| > 1 {
      PercentAllEnd(e[1..]);
    }
  }

  lemma {:induction false} UnescapeTail(rs: seq<Rune>, rest: seq<byte>)
    ensures Unescape(EscapeTail(EscapeRunes(rs)) + rest) == Encode(rs) + Unescape(rest)
  {
    hide Unescape, Encode, EncodeRune, EscapeRune, Percent;
    var e := EscapeRunes(rs);
    if e == [] || e[|e| - 1] != Blank {
      UnescapeRunes(rs, rest);
    } else {
      var front, last := rs[..|rs| - 1], rs[|rs| - 1];
      LastBlank(last);
      BlankAlone();
      assert e[..|e| - 1] == EscapeRunes(front);
      UnescapeTail(front, Percent(Blank) + rest);
      UnescapePercent(Blank, rest);
      EncodeLast(rs);
      assert EscapeTail(e) + rest == EscapeTail(EscapeRunes(front)) + (Percent(Blank) + rest);
    }
  }

  lemma BlankAlone()
    ensures EscapeRune(Blank) == EncodeRune(Blank) == [Blank]
  {
  }

  /** What decoding a component's default path gives back. */
  function Recovered(s: seq<byte>): (r: seq<byte>) {
    if s == [] then [0] else Encode(Runes(s))
  }

  lemma UnescapePart(s: seq<byte>)
    ensures Unescape(EscapePart(s)) == Recovered(s)
  {
    if IsMaildirPart(s) {
      UnescapePercent(s[0], s[1..]);
      UnescapePlain(s[1..], []);
      assert s[1..] + [] == s[1..] && s == [s[0]] + s[1..];
      MaildirPartValid(s);
      ValidIffReencodes(s);
    } else {
      var e := EscapeTail(EscapeRunes(Runes(s)));
      EscapeTailNonempty(EscapeRunes(Runes(s)));
      EscapeRunesNonempty(Runes(s));
      UnescapePercent(0, []);
      UnescapeTail(Runes(s), []);
      assert e + [] == e && Encode(Runes(s)) + [] == Encode(Runes(s)) && Percent(0) + [] == Percent(0);
    }
  }

  lemma EscapeRunesNonempty(rs: seq<Rune>)
    ensures EscapeRunes(rs) == [] <==> rs == []
  {
  }

  lemma {:induction false} AsciiValid(s: seq<byte>)
    requires forall i :: 0 <= i < |s| ==> s[i] < 0x80
    ensures Valid(s)
  {
    if s != [] {
      AsciiValid(s[1..]);
    }
  }

  lemma MaildirPartValid(s: seq<byte>)
    requires IsMaildirPart(s)
    ensures Valid(s) && PercentSign !in s && s != []
  {
    AsciiValid(s);
  }

  lemma UnescapeSafePart(s: seq<byte>)
    requires Slash !in s
    ensures Unescape(SafePart(s)) == Recovered(s)
  {
    var p := EscapePart(s);
    UnescapePart(s);
    EscapePartClean(s);
    if !ValidLocal(p) {
      if p[0] == PercentSign {
        EscapedIsValid(p);
        assert false;
      } else {
        UnescapePercent(p[0], p[1..]);
      }
    }
  }

  lemma {:induction false} UnescapeAcross(p: seq<byte>, rest: seq<byte>)
    ensures Unescape(p + [Slash] + rest) == Unescape(p) + [Slash] + Unescape(rest)
  {
    var s := p + [Slash] + rest;
    if p == [] {
      assert s[1..] == rest;
    } else if p[0] == PercentSign && |p| > 2 && HexValue(p[1]).Some? && HexValue(p[2]).Some? {
      UnescapeAcross(p[3..], rest);
      assert s[3..] == p[3..] + [Slash] + rest;
    } else {
      UnescapeAcross(p[1..], rest);
      assert s[1..] == p[1..] + [Slash] + rest;
    }
  }

  function RecoveredParts(parts: seq<seq<byte>>): (r: seq<seq<byte>>)
    ensures |r| == |parts| && forall i :: 0 <= i < |parts| ==> r[i] == Recovered(parts[i])
  {
    seq(|parts|, i requires 0 <= i < |parts| => Recovered(parts[i]))
  }

  lemma {:induction false} UnescapeParts(parts: seq<seq<byte>>)
    requires |parts| > 0 && forall p :: p in parts ==> Slash !in p
    ensures Unescape(Join(SafeParts(parts))) == Join(RecoveredParts(parts))
  {
    assert parts[0] in parts;
    UnescapeSafePart(parts[0]);
    if |parts| > 1 {
      UnescapeParts(parts[1..]);
      assert SafeParts(parts)[1..] == SafeParts(parts[1..]);
      assert RecoveredParts(parts)[1..] == RecoveredParts(parts[1..]);
      UnescapeAcross(SafePart(parts[0]), Join(SafeParts(parts[1..])));
    }
  }

  lemma {:induction false} RecoveredWithoutSlash(s: seq<byte>)
    requires Slash !in s
    ensures Slash !in Recovered(s)
  {
    RunesWithoutSlash(s);
    EncodeWithoutSlash(Runes(s));
  }

  lemma {:induction false} EncodeWithoutSlash(rs: seq<Rune>)
    requires Slash !in rs
    ensures Slash !in Encode(rs)
  {
    if rs != [] {
      EncodeWithoutSlash(rs[1..]);
    }
  }

  /** Components of a default path, decoded: the components of the name, ill-formed bytes
      replaced and an empty component turned into a zero byte. */
  lemma {:induction false} SafeRecovers(name: seq<byte>)
    ensures Split(Unescape(Safe(name))) == RecoveredParts(Split(name))
  {
    var parts := Split(name);
    UnescapeParts(parts);
    forall p | p in RecoveredParts(parts) ensures Slash !in p {
      var i :| 0 <= i < |parts| && RecoveredParts(parts)[i] == p;
      assert parts[i] in parts;
      RecoveredWithoutSlash(parts[i]);
    }
    SplitJoin(RecoveredParts(parts));
  }

  predicate Faithful(s: seq<byte>) {
    s != [] && Valid(s)
  }

  lemma RecoveredIff(s: seq<byte>)
    ensures Recovered(s) == s <==> Faithful(s)
  {
    if s != [] {
      ValidIffReencodes(s);
    }
  }

  /** Decoding a default path gives the name back exactly when every component is valid, nonempty text. */
  lemma {:induction false} SafeRoundTripIff(name: seq<byte>)
    ensures Unescape(Safe(name)) == name <==> forall p :: p in Split(name) ==> Faithful(p)
  {
    var parts := Split(name);
    SafeRecovers(name);
    JoinSplit(name);
    JoinSplit(Unescape(Safe(name)));
    if forall p :: p in parts ==> Faithful(p) {
      forall i | 0 <= i < |parts| ensures RecoveredParts(parts)[i] == parts[i] {
        assert parts[i] in parts;
        RecoveredIff(parts[i]);
      }
      assert RecoveredParts(parts) == parts;
    }
    if Unescape(Safe(name)) == name {
      forall p | p in parts ensures Faithful(p) {
        var i :| 0 <= i < |parts| && parts[i] == p;
        assert RecoveredParts(parts)[i] == p;
        RecoveredIff(p);
      }
    }
  }

  lemma {:induction false} WithoutReplacementValid(s: seq<byte>)
    requires Replacement !in Runes(s)
    ensures Valid(s)
  {
    if s != [] {
      WithoutReplacementValid(s[DecodeRune(s).width..]);
    }
  }

  lemma {:induction false} AsciiRunes(s: seq<byte>)
    requires forall i :: 0 <= i < |s| ==> s[i] < 0x80
    ensures Runes(s) == s
  {
    if s != [] {
      assert s == [s[0]] + s[1..];
      AsciiRunes(s[1..]);
    }
  }

  lemma MaildirPartAscii(s: seq<byte>)
    requires IsMaildirPart(s)
    ensures Runes(s) == s && Replacement !in s && 0 !in s && Encode([0]) == [0]
  {
    hide Runes, Encode;
    AsciiRunes(s);
    EncodeOne(0);
  }

  lemma MaildirPartRead(s: seq<byte>, t: seq<byte>)
    requires IsMaildirPart(s) && Recovered(s) == Recovered(t)
    ensures s == t
  {
    MaildirPartValid(s);
    MaildirPartAscii(s);
    hide IsMaildirPart, Runes, Encode, Valid;
    assert t != [];
    RunesOfEncoding(Runes(s));
    RunesOfEncoding(Runes(t));
    WithoutReplacementValid(t);
    ValidIffReencodes(s);
    ValidIffReencodes(t);
  }

  lemma EscapePartDepends(s: seq<byte>, t: seq<byte>)
    requires Recovered(s) == Recovered(t)
    ensures EscapePart(s) == EscapePart(t)
  {
    if IsMaildirPart(s) {
      MaildirPartRead(s, t);
    } else if IsMaildirPart(t) {
      MaildirPartRead(t, s);
    } else {
      RunesOfEncoding(Runes(s));
      RunesOfEncoding(Runes(t));
      RunesOfEncoding([0]);
      EncodeOne(0);
      ZeroAlone();
      if s != [] && t != [] {
        assert Runes(s) == Runes(t);
      }
    }
  }

  lemma ZeroAlone()
    ensures EscapeTail(EscapeRunes([0])) == Percent(0)
  {
  }

  /** Two folders share a default path exactly when their components read the same. */
  lemma {:induction false} SharedPathIff(a: seq<byte>, b: seq<byte>)
    ensures Safe(a) == Safe(b) <==> RecoveredParts(Split(a)) == RecoveredParts(Split(b))
  {
    var x, y := Split(a), Split(b);
    SafeRecovers(a);
    SafeRecovers(b);
    if RecoveredParts(x) == RecoveredParts(y) {
      forall i | 0 <= i < |x| ensures SafePart(x[i]) == SafePart(y[i]) {
        assert RecoveredParts(x)[i] == RecoveredParts(y)[i];
        EscapePartDepends(x[i], y[i]);
      }
      assert SafeParts(x) == SafeParts(y);
    }
  }

  /** Names whose components are text, none of them a lone zero byte, never share a default path. */
  lemma {:induction false} SafeInjective(a: seq<byte>, b: seq<byte>)
    requires forall p :: p in Split(a) || p in Split(b) ==> Valid(p) && p != [0]
    requires Safe(a) == Safe(b)
    ensures a == b
  {
    SharedPathIff(a, b);
    var x, y := Split(a), Split(b);
    forall i | 0 <= i < |x| ensures x[i] == y[i] {
      assert x[i] in x && y[i] in y;
      assert RecoveredParts(x)[i] == RecoveredParts(y)[i];
      ValidIffReencodes(x[i]);
      ValidIffReencodes(y[i]);
    }
    assert x == y;
    JoinSplit(a);
    JoinSplit(b);
  }
}
