/** Base64 without padding (section 4 of RFC 4648), with the alphabet of mailbox names. */
module Base64 {
  import opened Wrappers
  import opened Utf8

  type Sextet = v: int | 0 <= v < 64

  /** The 64 letters; the last is a comma instead of the slash. */
  function Letter(v: Sextet): (c: byte) {
    if v < 26 then 'A' as int + v
    else if v < 52 then 'a' as int + (v - 26)
    else if v < 62 then '0' as int + (v - 52)
    else if v == 62 then '+' as int
    else ',' as int
  }

  /** Reading takes the comma and the slash for the same letter. */
  function Value(c: byte): (v: Option<Sextet>) {
    if 'A' as int <= c <= 'Z' as int then Some(c - 'A' as int)
    else if 'a' as int <= c <= 'z' as int then Some(c - 'a' as int + 26)
    else if '0' as int <= c <= '9' as int then Some(c - '0' as int + 52)
    else if c == '+' as int then Some(62)
    else if c == ',' as int || c == '/' as int then Some(63)
    else None
  }

  lemma LetterValue(v: Sextet)
    ensures Value(Letter(v)) == Some(v)
    ensures 0x20 <= Letter(v) <= 0x7E && Letter(v) != '-' as int && Letter(v) != '&' as int
  {
  }

  function Encode(b: seq<byte>): (s: seq<byte>) {
    if |b| == 0 then []
    else if |b| == 1 then [Letter(b[0] / 4), Letter(b[0] % 4 * 16)]
    else if |b| == 2 then [Letter(b[0] / 4), Letter(b[0] % 4 * 16 + b[1] / 16), Letter(b[1] % 16 * 4)]
    else [Letter(b[0] / 4), Letter(b[0] % 4 * 16 + b[1] / 16), Letter(b[1] % 16 * 4 + b[2] / 64), Letter(b[2] % 64)]
         + Encode(b[3..])
  }

  function Join2(x: Sextet, y: Sextet): (r: byte) { x * 4 + y / 16 }
  function Join3(y: Sextet, z: Sextet): (r: byte) { y % 16 * 16 + z / 4 }
  function Join4(z: Sextet, w: Sextet): (r: byte) { z % 4 * 64 + w }

  /** Groups of four; a group of two or three ends the text, one letter alone is an error.
      The bits left over in the last group are not looked at. */
  function DecodeValues(v: seq<Sextet>): (b: Option<seq<byte>>) {
    if |v| == 0 then Some([])
    else if |v| == 1 then None
    else if |v| == 2 then Some([Join2(v[0], v[1])])
    else if |v| == 3 then Some([Join2(v[0], v[1]), Join3(v[1], v[2])])
    else
      var rest := DecodeValues(v[4..]);
      if rest.None? then None
      else Some([Join2(v[0], v[1]), Join3(v[1], v[2]), Join4(v[2], v[3])] + rest.value)
  }

  /** Line ends inside the text are skipped. */
  function Values(s: seq<byte>): (v: Option<seq<Sextet>>) {
    if s == [] then Some([])
    else
      var rest := Values(s[1..]);
      if s[0] == 10 || s[0] == 13 then rest
      else if rest.None? || Value(s[0]).None? then None
      else Some([Value(s[0]).value] + rest.value)
  }

  function Decode(s: seq<byte>): (b: Option<seq<byte>>) {
    var v := Values(s);
    if v.None? then None else DecodeValues(v.value)
  }

  function Sextets(b: seq<byte>): (v: seq<Sextet>) {
    if |b| == 0 then []
    else if |b| == 1 then [b[0] / 4, b[0] % 4 * 16]
    else if |b| == 2 then [b[0] / 4, b[0] % 4 * 16 + b[1] / 16, b[1] % 16 * 4]
    else [b[0] / 4, b[0] % 4 * 16 + b[1] / 16, b[1] % 16 * 4 + b[2] / 64, b[2] % 64] + Sextets(b[3..])
  }

  lemma JoinsTail(x: byte, y: byte, z: byte)
    ensures Join2(x / 4, x % 4 * 16 + y / 16) == x && Join2(x / 4, x % 4 * 16) == x
    ensures Join3(x % 4 * 16 + y / 16, y % 16 * 4 + z / 64) == y && Join3(x % 4 * 16 + y / 16, y % 16 * 4) == y
    ensures Join4(y % 16 * 4 + z / 64, z % 64) == z
  {
  }

  lemma DecodeStep(x: Sextet, y: Sextet, z: Sextet, w: Sextet, rest: seq<Sextet>)
    requires DecodeValues(rest).Some?
    ensures DecodeValues([x, y, z, w] + rest) == Some([Join2(x, y), Join3(y, z), Join4(z, w)] + DecodeValues(rest).value)
  {
  }

  lemma {:induction false} SextetsDecode(b: seq<byte>)
    ensures DecodeValues(Sextets(b)) == Some(b)
  {
    hide Join2, Join3, Join4;
    if |b| == 1 {
      JoinsTail(b[0], 0, 0);
      assert b == [b[0]];
    } else if |b| == 2 {
      JoinsTail(b[0], b[1], 0);
      assert b == [b[0], b[1]];
    } else if |b| > 2 {
      JoinsTail(b[0], b[1], b[2]);
      SextetsDecode(b[3..]);
      DecodeStep(b[0] / 4, b[0] % 4 * 16 + b[1] / 16, b[1] % 16 * 4 + b[2] / 64, b[2] % 64, Sextets(b[3..]));
      assert b == [b[0], b[1], b[2]] + b[3..];
    }
  }

  function Letters(v: seq<Sextet>): (s: seq<byte>)
    ensures |s| == |v| && forall i :: 0 <= i < |v| ==> s[i] == Letter(v[i])
  {
    seq(|v|, i requires 0 <= i < |v| => Letter(v[i]))
  }

  lemma {:induction false} EncodeIsLetters(b: seq<byte>)
    ensures Encode(b) == Letters(Sextets(b))
  {
    if |b| > 2 {
      EncodeIsLetters(b[3..]);
      var four := Sextets(b)[..4];
      assert Sextets(b) == four + Sextets(b[3..]);
      LettersConcat(four, Sextets(b[3..]));
      hide Sextets;
    }
  }

  lemma LettersConcat(v: seq<Sextet>, w: seq<Sextet>)
    ensures Letters(v + w) == Letters(v) + Letters(w)
  {
  }

  lemma {:induction false} ValuesOfLetters(v: seq<Sextet>)
    ensures Values(Letters(v)) == Some(v)
  {
    if v != [] {
      LetterValue(v[0]);
      assert Letters(v)[1..] == Letters(v[1..]);
      ValuesOfLetters(v[1..]);
      assert v == [v[0]] + v[1..];
    }
  }

  /** Decoding undoes encoding, and the text holds letters of the alphabet only. */
  lemma {:induction false} RoundTrip(b: seq<byte>)
    ensures Decode(Encode(b)) == Some(b)
    ensures forall c :: c in Encode(b) ==> 0x20 <= c <= 0x7E && c != '-' as int && c != '&' as int
    ensures Encode(b) == [] <==> b == []
  {
    EncodeIsLetters(b);
    ValuesOfLetters(Sextets(b));
    SextetsDecode(b);
    forall v: Sextet ensures 0x20 <= Letter(v) <= 0x7E && Letter(v) != '-' as int && Letter(v) != '&' as int {
      LetterValue(v);
    }
  }
}
