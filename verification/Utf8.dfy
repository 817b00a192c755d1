/** Bytes, Unicode scalar values, and the UTF-8 a Go string holds. */
module Utf8 {
  import opened Wrappers

  type byte = b: int | 0 <= b < 0x100
  type Rune = r: int | 0 <= r < 0xD800 || 0xE000 <= r < 0x110000

  const Replacement: Rune := 0xFFFD

  predicate Continuation(b: byte) {
    0x80 <= b < 0xC0
  }

  function EncodeRune(r: Rune): (s: seq<byte>) {
    if r < 0x80 then [r]
    else if r < 0x800 then [0xC0 + r / 0x40, 0x80 + r % 0x40]
    else if r < 0x10000 then [0xE0 + r / 0x1000, 0x80 + r / 0x40 % 0x40, 0x80 + r % 0x40]
    else [0xF0 + r / 0x40000, 0x80 + r / 0x1000 % 0x40, 0x80 + r / 0x40 % 0x40, 0x80 + r % 0x40]
  }

  function Two(a: int, b: int): (r: int) { (a - 0xC0) * 0x40 + (b - 0x80) }
  function Three(a: int, b: int, c: int): (r: int) { Two(a - 0x20, b) * 0x40 + (c - 0x80) }
  function Four(a: int, b: int, c: int, d: int): (r: int) { Three(a - 0x10, b, c) * 0x40 + (d - 0x80) }

  datatype Head = Head(rune: Rune, width: nat)

  /** The well-formed rune a string starts with: no overlong form, no surrogate, nothing past the last plane. */
  function First(s: seq<byte>): (h: Option<Head>)
    requires s != []
    ensures h.Some? ==> 0 < h.value.width <= |s|
  {
    if s[0] < 0x80 then
      Some(Head(s[0], 1))
    else if 0xC2 <= s[0] < 0xE0 && |s| > 1 && Continuation(s[1]) then
      Some(Head(Two(s[0], s[1]), 2))
    else if 0xE0 <= s[0] < 0xF0 && |s| > 2 && Continuation(s[1]) && Continuation(s[2])
            && (s[0] == 0xE0 ==> s[1] >= 0xA0) && (s[0] == 0xED ==> s[1] < 0xA0) then
      Some(Head(Three(s[0], s[1], s[2]), 3))
    else if 0xF0 <= s[0] < 0xF5 && |s| > 3 && Continuation(s[1]) && Continuation(s[2]) && Continuation(s[3])
            && (s[0] == 0xF0 ==> s[1] >= 0x90) && (s[0] == 0xF4 ==> s[1] < 0x90) then
      Some(Head(Four(s[0], s[1], s[2], s[3]), 4))
    else
      None
  }

  /** What ranging over a string sees first: an ill-formed byte counts as one replacement rune. */
  function DecodeRune(s: seq<byte>): (h: Head)
    requires s != []
    ensures 0 < h.width <= |s|
  {
    var h := First(s);
    if h.Some? then h.value else Head(Replacement, 1)
  }

  function Runes(s: seq<byte>): (rs: seq<Rune>) {
    if s == [] then [] else
      var h := DecodeRune(s);
      [h.rune] + Runes(s[h.width..])
  }

  function Encode(rs: seq<Rune>): (s: seq<byte>) {
    if rs == [] then [] else EncodeRune(rs[0]) + Encode(rs[1..])
  }

  predicate Valid(s: seq<byte>) {
    s == [] || (First(s).Some? && Valid(s[First(s).value.width..]))
  }

  lemma FirstOfEncoded(r: Rune, rest: seq<byte>)
    ensures First(EncodeRune(r) + rest) == Some(Head(r, |EncodeRune(r)|))
  {
    var e := EncodeRune(r);
    var s := e + rest;
    assert s[0] == e[0] && (|e| > 1 ==> s[1] == e[1]) && (|e| > 2 ==> s[2] == e[2]) && (|e| > 3 ==> s[3] == e[3]);
    if r < 0x80 {
    } else if r < 0x800 {
      SplitTwo(r);
    } else if r < 0x10000 {
      SplitThree(r);
    } else {
      SplitFour(r);
    }
  }

  lemma SplitTwo(r: int)
    requires 0x80 <= r < 0x800
    ensures 0xC2 <= 0xC0 + r / 0x40 < 0xE0 && 0x80 <= 0x80 + r % 0x40 < 0xC0
    ensures Two(0xC0 + r / 0x40, 0x80 + r % 0x40) == r
  {
  }

  lemma SplitThree(r: int)
    requires 0x800 <= r < 0x10000 && !(0xD800 <= r < 0xE000)
    ensures 0xE0 <= 0xE0 + r / 0x1000 < 0xF0
    ensures r / 0x1000 == 0 ==> 0xA0 <= 0x80 + r / 0x40 % 0x40
    ensures r / 0x1000 == 0xD ==> 0x80 + r / 0x40 % 0x40 < 0xA0
    ensures Three(0xE0 + r / 0x1000, 0x80 + r / 0x40 % 0x40, 0x80 + r % 0x40) == r
  {
  }

  lemma SplitFour(r: int)
    requires 0x10000 <= r < 0x110000
    ensures 0xF0 <= 0xF0 + r / 0x40000 < 0xF5
    ensures r / 0x40000 == 0 ==> 0x90 <= 0x80 + r / 0x1000 % 0x40
    ensures r / 0x40000 == 4 ==> 0x80 + r / 0x1000 % 0x40 < 0x90
    ensures Four(0xF0 + r / 0x40000, 0x80 + r / 0x1000 % 0x40, 0x80 + r / 0x40 % 0x40, 0x80 + r % 0x40) == r
  {
    var q := r / 0x40;
    Nested(r);
    Nested(q);
    assert q / 0x1000 == r / 0x40000;
    assert r == 0x40 * q + r % 0x40 && q == 0x40 * (q / 0x40) + q % 0x40;
    assert q / 0x40 == 0x40 * (q / 0x1000) + q / 0x40 % 0x40;
  }

  lemma Nested(r: int)
    requires 0 <= r
    ensures r / 0x1000 == r / 0x40 / 0x40 && r / 0x40000 == r / 0x40 / 0x1000
  {
  }

  lemma JoinTwo(a: int, b: int)
    requires 0xC2 <= a < 0xE0 && 0x80 <= b < 0xC0
    ensures var r := Two(a, b); 0x80 <= r < 0x800 && a == 0xC0 + r / 0x40 && b == 0x80 + r % 0x40
  {
  }

  lemma JoinThree(a: int, b: int, c: int)
    requires 0xE0 <= a < 0xF0 && 0x80 <= b < 0xC0 && 0x80 <= c < 0xC0 && (a == 0xE0 ==> b >= 0xA0)
    ensures var r := Three(a, b, c);
      0x800 <= r < 0x10000 && a == 0xE0 + r / 0x1000 && b == 0x80 + r / 0x40 % 0x40 && c == 0x80 + r % 0x40
  {
  }

  lemma JoinFour(a: int, b: int, c: int, d: int)
    requires 0xF0 <= a < 0xF5 && 0x80 <= b < 0xC0 && 0x80 <= c < 0xC0 && 0x80 <= d < 0xC0
    requires (a == 0xF0 ==> b >= 0x90) && (a == 0xF4 ==> b < 0x90)
    ensures var r := Four(a, b, c, d);
      0x10000 <= r < 0x110000 && a == 0xF0 + r / 0x40000 && b == 0x80 + r / 0x1000 % 0x40 && c == 0x80 + r / 0x40 % 0x40 && d == 0x80 + r % 0x40
  {
    var r := Four(a, b, c, d);
    Nested(r);
    var q := (a - 0xF0) * 0x1000 + (b - 0x80) * 0x40 + (c - 0x80);
    assert r == q * 0x40 + (d - 0x80) && r / 0x40 == q;
    var p := (a - 0xF0) * 0x40 + (b - 0x80);
    assert q == p * 0x40 + (c - 0x80) && q / 0x40 == p;
    Nested(q);
    assert p / 0x40 == a - 0xF0;
  }

  lemma FirstIsEncoding(s: seq<byte>)
    requires s != [] && First(s).Some?
    ensures s[..First(s).value.width] == EncodeRune(First(s).value.rune)
  {
    var w := First(s).value.width;
    if w == 1 {
    } else if w == 2 {
      JoinTwo(s[0], s[1]);
    } else if w == 3 {
      JoinThree(s[0], s[1], s[2]);
    } else {
      JoinFour(s[0], s[1], s[2], s[3]);
    }
  }

  lemma {:induction false} RunesOfEncoding(rs: seq<Rune>)
    ensures Runes(Encode(rs)) == rs && Valid(Encode(rs))
  {
    if rs != [] {
      var rest := Encode(rs[1..]);
      FirstOfEncoded(rs[0], rest);
      assert Encode(rs)[|EncodeRune(rs[0])|..] == rest;
      RunesOfEncoding(rs[1..]);
    }
  }

  /** The valid strings are exactly those that survive being read as runes. */
  lemma {:induction false} ValidIffReencodes(s: seq<byte>)
    ensures Valid(s) <==> Encode(Runes(s)) == s
  {
    if Valid(s) {
      ValidReencodes(s);
    } else if Encode(Runes(s)) == s {
      RunesOfEncoding(Runes(s));
      assert false;
    }
  }

  lemma {:induction false} ValidReencodes(s: seq<byte>)
    requires Valid(s)
    ensures Encode(Runes(s)) == s
  {
    if s != [] {
      var h := First(s).value;
      FirstIsEncoding(s);
      ValidReencodes(s[h.width..]);
      EncodeStep(h.rune, Runes(s[h.width..]));
    }
  }

  lemma EncodeStep(r: Rune, rest: seq<Rune>)
    ensures Encode([r] + rest) == EncodeRune(r) + Encode(rest)
  {
  }

  lemma {:induction false} EncodeConcat(a: seq<Rune>, b: seq<Rune>)
    ensures Encode(a + b) == Encode(a) + Encode(b)
  {
    if a == [] {
      assert a + b == b && Encode(a) + Encode(b) == Encode(b);
    } else {
      hide Encode, EncodeRune;
      var r, rest := a[0], a[1..];
      assert a == [r] + rest;
      EncodeConcat(rest, b);
      Regroup([r], rest, b);
      EncodeStep(r, rest + b);
      EncodeStep(r, rest);
      Regroup(EncodeRune(r), Encode(rest), Encode(b));
    }
  }

}
