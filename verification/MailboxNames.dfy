/** Mailbox names on the wire: modified UTF-7 (section 5.1.3 of RFC 3501). */
module MailboxNames {
  import opened Wrappers
  import opened Utf8
  import Base64

  type Unit = u: int | 0 <= u < 0x10000

  datatype NameError = Malformed | Unpaired | NotText

  const Amp: byte := '&' as int
  const Dash: byte := '-' as int

  // ------------------------------------------------------------------ UTF-16

  function RuneUnits(r: Rune): (us: seq<Unit>) {
    if r < 0x10000 then [r] else [0xD800 + (r - 0x10000) / 0x400, 0xDC00 + (r - 0x10000) % 0x400]
  }

  function Units(rs: seq<Rune>): (us: seq<Unit>) {
    if rs == [] then [] else RuneUnits(rs[0]) + Units(rs[1..])
  }

  predicate HighHalf(u: Unit) { 0xD800 <= u < 0xDC00 }
  predicate LowHalf(u: Unit) { 0xDC00 <= u < 0xE000 }

  /** Every surrogate stands in a pair. */
  predicate Paired(us: seq<Unit>) {
    us == [] ||
    if HighHalf(us[0]) then |us| > 1 && LowHalf(us[1]) && Paired(us[2..])
    else !LowHalf(us[0]) && Paired(us[1..])
  }

  /** A surrogate without its partner reads as the replacement rune. */
  function UnitsToRunes(us: seq<Unit>): (rs: seq<Rune>) {
    if us == [] then []
    else if HighHalf(us[0]) && |us| > 1 && LowHalf(us[1]) then
      [0x10000 + (us[0] - 0xD800) * 0x400 + (us[1] - 0xDC00)] + UnitsToRunes(us[2..])
    else if HighHalf(us[0]) || LowHalf(us[0]) then [Replacement] + UnitsToRunes(us[1..])
    else [us[0]] + UnitsToRunes(us[1..])
  }

  function BigEndian(us: seq<Unit>): (b: seq<byte>)
    ensures |b| == 2 * |us|
  {
    if us == [] then [] else [us[0] / 0x100, us[0] % 0x100] + BigEndian(us[1..])
  }

  function Pair(a: int, b: int): (u: int) { a * 0x100 + b }

  function FromBigEndian(b: seq<byte>): (us: seq<Unit>)
    ensures |us| == |b| / 2
  {
    if |b| < 2 then [] else [Pair(b[0], b[1])] + FromBigEndian(b[2..])
  }

  lemma {:induction false} UnitsRoundTrip(rs: seq<Rune>)
    ensures UnitsToRunes(Units(rs)) == rs && Paired(Units(rs))
  {
    if rs != [] {
      UnitsRoundTrip(rs[1..]);
      assert Units(rs)[|RuneUnits(rs[0])|..] == Units(rs[1..]);
    }
  }

  lemma {:induction false} BigEndianRoundTrip(us: seq<Unit>)
    ensures FromBigEndian(BigEndian(us)) == us
  {
    if us != [] {
      BigEndianRoundTrip(us[1..]);
      assert BigEndian(us)[2..] == BigEndian(us[1..]);
      assert us == [us[0]] + us[1..];
    }
  }

  // ------------------------------------------------------------------ what is encoded and decoded

  predicate Direct(r: Rune) {
    0x20 <= r <= 0x7E
  }

  /** A section: the runes that cannot stand for themselves. */
  function Section(run: seq<Rune>): (s: seq<byte>) {
    if run == [] then [] else [Amp] + Base64.Encode(BigEndian(Units(run))) + [Dash]
  }

  function Itself(r: Rune): (s: seq<byte>)
    requires Direct(r)
  {
    if r == Amp then [Amp, Dash] else [r]
  }

  function EncodeFrom(rs: seq<Rune>, run: seq<Rune>): (s: seq<byte>) {
    if rs == [] then Section(run)
    else if Direct(rs[0]) then
      Section(run) + Itself(rs[0]) + EncodeFrom(rs[1..], [])
    else EncodeFrom(rs[1..], run + [rs[0]])
  }

  /** The modified UTF-7 of a name. */
  function Utf7(s: seq<byte>): (e: seq<byte>) {
    EncodeFrom(Runes(s), [])
  }

  function Index(s: seq<byte>, c: byte): (i: nat)
    ensures i <= |s| && (i < |s| ==> s[i] == c) && (forall k :: 0 <= k < i ==> s[k] != c)
  {
    if s == [] || s[0] == c then 0 else 1 + Index(s[1..], c)
  }

  function DecodeSection(s: seq<byte>): (r: Result<seq<byte>, NameError>) {
    if s == [] then Ok([Amp])
    else
      var b := Base64.Decode(s);
      if b.None? || |b.value| % 2 != 0 then Err(Malformed)
      else if !Paired(FromBigEndian(b.value)) then Err(Unpaired)
      else Ok(Encode(UnitsToRunes(FromBigEndian(b.value))))
  }

  datatype Cut = NoSection | OpenSection | Cut(plain: seq<byte>, section: seq<byte>, rest: seq<byte>)

  /** The text up to the first ampersand, the section after it, and what follows the section's dash. */
  function FirstCut(s: seq<byte>): (c: Cut)
    ensures c.Cut? ==> |c.rest| < |s|
  {
    var i := Index(s, Amp);
    if i == |s| then NoSection
    else
      var t := s[i + 1..];
      var end := Index(t, Dash);
      if end == |t| then OpenSection else Cut(s[..i], t[..end], t[end + 1..])
  }

  function Prepend(a: seq<byte>, r: Result<seq<byte>, NameError>): (q: Result<seq<byte>, NameError>) {
    match r
    case Ok(p) => Ok(a + p)
    case Err(e) => Err(e)
  }

  function Pieces(s: seq<byte>): (r: Result<seq<byte>, NameError>)
    decreases |s|
  {
    match FirstCut(s)
    case NoSection => Ok(s)
    case OpenSection => Err(Malformed)
    case Cut(plain, x, rest) =>
      var section :- DecodeSection(x);
      Prepend(plain + section, Pieces(rest))
  }

  /** The name a modified UTF-7 string stands for, if any. */
  function FromUtf7(s: seq<byte>): (r: Result<seq<byte>, NameError>) {
    var p :- Pieces(s);
    if Valid(p) then Ok(p) else Err(NotText)
  }

  // ------------------------------------------------------------------ the algorithms

  lemma RunesStep(s: seq<byte>, i: nat)
    requires i < |s|
    ensures var h := DecodeRune(s[i..]);
      i + h.width <= |s| && Runes(s[i..]) == [h.rune] + Runes(s[i + h.width..])
  {
  }

  lemma EncodeFromDirect(r: Rune, rs: seq<Rune>, run: seq<Rune>)
    requires Direct(r)
    ensures EncodeFrom([r] + rs, run) == Section(run) + Itself(r) + EncodeFrom(rs, [])
  {
  }

  lemma EncodeFromOther(r: Rune, rs: seq<Rune>, run: seq<Rune>)
    requires !Direct(r)
    ensures EncodeFrom([r] + rs, run) == EncodeFrom(rs, run + [r])
  {
  }

  lemma EncodeBegins(s: seq<byte>)
    ensures Utf7(s) == [] + EncodeFrom(Runes(s[0..]), [])
  {
  }

  lemma EncodeEnds(s: seq<byte>, run: seq<Rune>)
    ensures EncodeFrom(Runes(s[|s|..]), run) == Section(run)
  {
  }

  /** Collects runs of runes outside printable ASCII and writes each as one section. */
  method EncodeUTF7(s: seq<byte>) returns (out: seq<byte>)
    ensures out == Utf7(s)
  {
    hide Utf7, Runes, EncodeFrom, DecodeRune, Section;
    out := [];
    var run: seq<Rune> := [];
    var i := 0;
    EncodeBegins(s);
    while i < |s|
      invariant i <= |s|
      invariant Utf7(s) == out + EncodeFrom(Runes(s[i..]), run)
    {
      RunesStep(s, i);
      var h := DecodeRune(s[i..]);
      ghost var later := Runes(s[i + h.width..]);
      if 0x20 <= h.rune <= 0x7E {
        EncodeFromDirect(h.rune, later, run);
        assert out + (Section(run) + Itself(h.rune) + EncodeFrom(later, []))
            == out + Section(run) + Itself(h.rune) + EncodeFrom(later, []);
        out := out + Section(run);
        run := [];
        if h.rune == '&' as int {
          out := out + [Amp, Dash];
        } else {
          out := out + [h.rune];
        }
      } else {
        EncodeFromOther(h.rune, later, run);
        run := run + [h.rune];
      }
      i := i + h.width;
    }
    EncodeEnds(s, run);
    out := out + Section(run);
  }

  lemma PrependNothing(r: Result<seq<byte>, NameError>)
    ensures Prepend([], r) == r
  {
    if r.Ok? {
      assert [] + r.value == r.value;
    }
  }

  lemma PiecesCut(s: seq<byte>)
    ensures FirstCut(s).OpenSection? ==> Pieces(s) == Err(Malformed)
    ensures FirstCut(s).Cut? ==>
      var section := DecodeSection(FirstCut(s).section);
      Pieces(s) == if section.Ok? then Prepend(FirstCut(s).plain + section.value, Pieces(FirstCut(s).rest))
                   else Err(section.error)
  {
  }

  lemma PiecesEnd(s: seq<byte>)
    requires FirstCut(s).NoSection?
    ensures Pieces(s) == Ok(s) == Prepend(s, Pieces([])) && Pieces([]) == Ok([])
  {
    assert s + [] == s;
  }

  method DecodeUTF7(s: seq<byte>) returns (r: Result<seq<byte>, NameError>)
    ensures r == FromUtf7(s)
  {
    hide Pieces, DecodeSection, Valid, Index;
    var out, rest := [], s;
    PrependNothing(Pieces(s));
    PiecesEnd([]);
    while |rest| > 0
      invariant Pieces(s) == Prepend(out, Pieces(rest))
      decreases |rest|
    {
      var i := Index(rest, '&' as int);
      if i == |rest| {
        PiecesEnd(rest);
        out, rest := out + rest, [];
        break;
      }
      var t := rest[i + 1..];
      var end := Index(t, '-' as int);
      PiecesCut(rest);
      if end == |t| {
        return Err(Malformed);
      }
      var section := DecodeBetween(t[..end]);
      if section.Err? {
        return section;
      }
      PrependTwice(out, rest[..i] + section.value, Pieces(t[end + 1..]));
      out := out + (rest[..i] + section.value);
      rest := t[end + 1..];
    }
    assert rest == [] && out + [] == out;
    if !Valid(out) {
      return Err(NotText);
    }
    return Ok(out);
  }

  method DecodeBetween(s: seq<byte>) returns (r: Result<seq<byte>, NameError>)
    ensures r == DecodeSection(s)
  {
    if |s| == 0 {
      return Ok([Amp]);
    }
    var b := Base64.Decode(s);
    if b.None? || |b.value| % 2 != 0 {
      return Err(Malformed);
    }
    var units := FromBigEndian(b.value);
    var i := 0;
    while i < |units|
      invariant i <= |units|
      invariant Paired(units) <==> Paired(units[i..])
    {
      if HighHalf(units[i]) {
        if i + 1 >= |units| || !LowHalf(units[i + 1]) {
          return Err(Unpaired);
        }
        assert units[i..][2..] == units[i + 2..];
        i := i + 1;
      } else if LowHalf(units[i]) {
        return Err(Unpaired);
      } else {
        assert units[i..][1..] == units[i + 1..];
      }
      i := i + 1;
    }
    return Ok(Encode(UnitsToRunes(units)));
  }

  // ------------------------------------------------------------------ round trip

  lemma {:induction false} IndexAt(a: seq<byte>, c: byte, b: seq<byte>)
    requires c !in a
    ensures Index(a + [c] + b, c) == |a|
  {
    var s := a + [c] + b;
    assert s[|a|] == c;
    forall k | 0 <= k < |a| ensures s[k] != c {
      assert s[k] == a[k];
    }
  }

  lemma PrependTwice(a: seq<byte>, b: seq<byte>, r: Result<seq<byte>, NameError>)
    ensures Prepend(a, Prepend(b, r)) == Prepend(a + b, r)
  {
    if r.Ok? {
      assert a + (b + r.value) == (a + b) + r.value;
    }
  }

  lemma CutPlain(c: byte, s: seq<byte>)
    requires c != Amp
    ensures FirstCut([c] + s) == match FirstCut(s)
      case Cut(plain, x, rest) => Cut([c] + plain, x, rest)
      case other => other
  {
    var cs := [c] + s;
    assert cs[1..] == s;
    var i := Index(s, Amp);
    assert Index(cs, Amp) == i + 1;
    if i < |s| {
      assert cs[i + 1 + 1..] == s[i + 1..];
      assert cs[..i + 1] == [c] + s[..i];
    }
  }

  lemma PiecesPlain(c: byte, s: seq<byte>)
    requires c != Amp
    ensures Pieces([c] + s) == Prepend([c], Pieces(s))
  {
    hide Pieces, DecodeSection, FirstCut;
    CutPlain(c, s);
    PiecesCut(s);
    PiecesCut([c] + s);
    match FirstCut(s)
    case NoSection =>
      PiecesEnd(s);
      PiecesEnd([c] + s);
    case OpenSection =>
    case Cut(plain, x, rest) =>
      if DecodeSection(x).Ok? {
        PrependTwice([c], plain + DecodeSection(x).value, Pieces(rest));
        assert [c] + (plain + DecodeSection(x).value) == [c] + plain + DecodeSection(x).value;
      }
  }

  lemma PiecesSection(x: seq<byte>, s: seq<byte>)
    requires Dash !in x && DecodeSection(x).Ok?
    ensures Pieces([Amp] + x + [Dash] + s) == Prepend(DecodeSection(x).value, Pieces(s))
  {
    var whole := [Amp] + x + [Dash] + s;
    var t := whole[1..];
    assert t == x + [Dash] + s;
    IndexAt(x, Dash, s);
    assert t[..|x|] == x && t[|x| + 1..] == s;
    assert FirstCut(whole) == Cut([], x, s);
    assert [] + DecodeSection(x).value == DecodeSection(x).value;
  }

  lemma SectionRoundTrip(run: seq<Rune>, s: seq<byte>)
    ensures Pieces(Section(run) + s) == Prepend(Encode(run), Pieces(s))
  {
    if run == [] {
      assert Section(run) + s == s;
      match Pieces(s)
      case Ok(p) => assert [] + p == p;
      case Err(_) =>
    } else {
      var b := BigEndian(Units(run));
      var x := Base64.Encode(b);
      Base64.RoundTrip(b);
      BigEndianRoundTrip(Units(run));
      UnitsRoundTrip(run);
      assert Units(run) != [];
      PiecesSection(x, s);
      assert Section(run) + s == [Amp] + x + [Dash] + s;
    }
  }

  lemma DirectRoundTrip(r: Rune, s: seq<byte>)
    requires Direct(r)
    ensures Pieces(Itself(r) + s) == Prepend(EncodeRune(r), Pieces(s))
  {
    if r == Amp {
      PiecesSection([], s);
      assert [Amp] + [] + [Dash] + s == [Amp, Dash] + s;
    } else {
      PiecesPlain(r, s);
    }
  }

  lemma {:induction false} EncodeFromRoundTrip(rs: seq<Rune>, run: seq<Rune>)
    ensures Pieces(EncodeFrom(rs, run)) == Ok(Encode(run) + Encode(rs))
    decreases |rs|
  {
    hide Pieces, EncodeFrom, Encode, Section, EncodeRune;
    if rs == [] {
      EncodeFromNothing(run);
      SectionRoundTrip(run, []);
      assert Section(run) + [] == Section(run);
      assert Encode(run) + [] == Encode(run);
    } else {
      var r, later := rs[0], rs[1..];
      assert rs == [r] + later;
      EncodeStep(r, later);
      if Direct(r) {
        EncodeFromRoundTrip(later, []);
        DirectStep(r, later, run);
      } else {
        EncodeFromRoundTrip(later, run + [r]);
        EncodeFromOther(r, later, run);
        EncodeOne(r);
        EncodeConcat(run, [r]);
        assert Encode(run) + EncodeRune(r) + Encode(later) == Encode(run) + (EncodeRune(r) + Encode(later));
      }
    }
  }

  lemma EncodeOne(r: Rune)
    ensures Encode([r]) == EncodeRune(r) && Encode([]) == []
  {
  }

  lemma EncodeFromNothing(run: seq<Rune>)
    ensures EncodeFrom([], run) == Section(run) && Pieces([]) == Ok([]) && Encode([]) == []
  {
  }

  lemma DirectStep(r: Rune, later: seq<Rune>, run: seq<Rune>)
    requires Direct(r) && Pieces(EncodeFrom(later, [])) == Ok(Encode([]) + Encode(later))
    ensures Pieces(EncodeFrom([r] + later, run)) == Ok(Encode(run) + (EncodeRune(r) + Encode(later)))
  {
    hide Pieces, EncodeFrom, Encode, Section, EncodeRune, Itself;
    var rest := EncodeFrom(later, []);
    EncodeOne(r);
    assert [] + Encode(later) == Encode(later);
    EncodeFromDirect(r, later, run);
    DirectRoundTrip(r, rest);
    SectionRoundTrip(run, Itself(r) + rest);
    assert Section(run) + Itself(r) + rest == Section(run) + (Itself(r) + rest);
  }

  /** Decoding an encoded name gives the name with every ill-formed byte replaced. */
  lemma {:induction false} DecodesToText(s: seq<byte>)
    ensures FromUtf7(Utf7(s)) == Ok(Encode(Runes(s)))
  {
    EncodeFromRoundTrip(Runes(s), []);
    assert Encode([]) + Encode(Runes(s)) == Encode(Runes(s));
    RunesOfEncoding(Runes(s));
  }

  /** The round trip gives the name back exactly when the name is valid UTF-8. */
  lemma {:induction false} RoundTripIffValid(s: seq<byte>)
    ensures FromUtf7(Utf7(s)) == Ok(s) <==> Valid(s)
  {
    DecodesToText(s);
    ValidIffReencodes(s);
  }

  /** A name read from a server is valid, and what is sent back for it is read as the same name. */
  lemma {:induction false} ReadNamesCanBeSent(wire: seq<byte>)
    requires FromUtf7(wire).Ok?
    ensures Valid(FromUtf7(wire).value) && FromUtf7(Utf7(FromUtf7(wire).value)) == FromUtf7(wire)
  {
    RoundTripIffValid(FromUtf7(wire).value);
  }

  predicate Printable(s: seq<byte>) {
    forall c :: c in s ==> 0x20 <= c <= 0x7E
  }

  lemma {:induction false} EncodeFromPrintable(rs: seq<Rune>, run: seq<Rune>)
    ensures Printable(EncodeFrom(rs, run))
    decreases |rs|
  {
    if run != [] {
      Base64.RoundTrip(BigEndian(Units(run)));
    }
    if rs != [] {
      EncodeFromPrintable(rs[1..], if Direct(rs[0]) then [] else run + [rs[0]]);
    }
  }

  /** The encoding of any name is printable ASCII. */
  lemma {:induction false} EncodingPrintable(s: seq<byte>)
    ensures Printable(Utf7(s))
  {
    EncodeFromPrintable(Runes(s), []);
  }

  /** Different valid names never share an encoding. */
  lemma {:induction false} EncodingInjective(a: seq<byte>, b: seq<byte>)
    requires Valid(a) && Valid(b) && Utf7(a) == Utf7(b)
    ensures a == b
  {
    RoundTripIffValid(a);
    RoundTripIffValid(b);
  }
}
