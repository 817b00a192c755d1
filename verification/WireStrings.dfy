/** Quoted strings, atoms and literals of an IMAP response line (section 4.3 of RFC 3501). */
module WireStrings {
  import opened Wrappers
  import opened Utf8
  import opened MailboxNames

  datatype WireError = Missing | Unterminated | BadLiteral | Disconnected

  const DoubleQuote: byte := '"' as int
  const Backslash: byte := '\\' as int
  const LineFeed: byte := 10
  const Return: byte := 13

  // ------------------------------------------------------------------ quote

  function ReplaceAll(s: seq<byte>, c: byte, to: seq<byte>): (r: seq<byte>) {
    if s == [] then []
    else (if s[0] == c then to else [s[0]]) + ReplaceAll(s[1..], c, to)
  }

  /** Backslashes first, then quotation marks. */
  function Quote(s: seq<byte>): (q: seq<byte>) {
    [DoubleQuote]
    + ReplaceAll(ReplaceAll(s, Backslash, [Backslash, Backslash]), DoubleQuote, [Backslash, DoubleQuote])
    + [DoubleQuote]
  }

  // ------------------------------------------------------------------ what a LIST string is

  predicate Space(c: byte) {
    c == 32 || 9 <= c <= 13
  }

  function TrimLeft(s: seq<byte>): (r: seq<byte>)
    ensures |r| <= |s|
  {
    if s == [] || !Space(s[0]) then s else TrimLeft(s[1..])
  }

  function TrimRight(s: seq<byte>): (r: seq<byte>)
    ensures |r| <= |s|
  {
    if s == [] || !Space(s[|s| - 1]) then s else TrimRight(s[..|s| - 1])
  }

  function TrimSpace(s: seq<byte>): (r: seq<byte>) {
    TrimRight(TrimLeft(s))
  }

  datatype Parsed = Parsed(value: seq<byte>, rest: seq<byte>)

  /** The rest of a quoted string after its opening mark: a backslash makes the next byte stand for itself. */
  function Unquote(s: seq<byte>): (r: Option<Parsed>) {
    if s == [] then None
    else if s[0] == DoubleQuote then Some(Parsed([], s[1..]))
    else if s[0] == Backslash then if |s| == 1 then None else Take(s[1], Unquote(s[2..]))
    else Take(s[0], Unquote(s[1..]))
  }

  function Take(c: byte, r: Option<Parsed>): (q: Option<Parsed>) {
    if r.None? then None else Some(Parsed([c] + r.value.value, r.value.rest))
  }

  function Digits(s: seq<byte>): (n: Option<nat>) {
    if s == [] then Some(0)
    else
      var front := Digits(s[..|s| - 1]);
      var c := s[|s| - 1];
      if front.None? || !('0' as int <= c <= '9' as int) then None else Some(front.value * 10 + (c - '0' as int))
  }

  /** A decimal number with an optional sign. */
  function Number(s: seq<byte>): (n: Option<int>) {
    var signed := s != [] && (s[0] == '+' as int || s[0] == '-' as int);
    var digits := if signed then s[1..] else s;
    if digits == [] || Digits(digits).None? then None
    else
      var n: int := Digits(digits).value;
      Some(if signed && s[0] == '-' as int then -n else n)
  }

  function TrimSuffix(s: seq<byte>, c: byte): (r: seq<byte>)
    ensures |r| <= |s|
  {
    if s != [] && s[|s| - 1] == c then s[..|s| - 1] else s
  }

  /** The size a literal announces, at most one mebibyte. */
  function LiteralSize(s: seq<byte>): (n: Option<nat>)
    requires s != []
  {
    var end := Index(s, '}' as int);
    if end == |s| || end == 0 then None
    else
      var n := Number(TrimSuffix(s[1..end], '+' as int));
      if n.None? || n.value < 0 || n.value > 1024 * 1024 then None else Some(n.value)
  }

  function Upper(c: byte): (u: byte) {
    if 'a' as int <= c <= 'z' as int then c - 32 else c
  }

  predicate IsNil(s: seq<byte>) {
    |s| == 3 && Upper(s[0]) == 'N' as int && Upper(s[1]) == 'I' as int && Upper(s[2]) == 'L' as int
  }

  function AtomEnd(s: seq<byte>): (i: nat)
    ensures i <= |s|
  {
    if s == [] || s[0] == 32 || s[0] == 9 then 0 else 1 + AtomEnd(s[1..])
  }

  /** What a line holds first, when that is not a literal. */
  function Inline(s: seq<byte>): (r: Result<Parsed, WireError>)
    requires s != [] && s[0] != '{' as int
  {
    if s[0] == DoubleQuote then
      var u := Unquote(s[1..]);
      if u.None? then Err(Unterminated) else Ok(u.value)
    else
      var end := AtomEnd(s);
      Ok(Parsed(if IsNil(s[..end]) then [] else s[..end], s[end..]))
  }

  // ------------------------------------------------------------------ the reader

  /** The bytes of the connection that have not been read. */
  class Connection {
    var input: seq<byte>

    /** A line without its line end; a connection that ends first is an error. */
    method ReadLine() returns (r: Result<seq<byte>, WireError>)
      modifies this
      ensures Index(old(input), LineFeed) == |old(input)| ==> r == Err(Disconnected)
      ensures Index(old(input), LineFeed) < |old(input)| ==>
        var n := Index(old(input), LineFeed);
        r == Ok(TrimSuffix(old(input)[..n], Return)) && input == old(input)[n + 1..]
    {
      var n := Index(input, LineFeed);
      if n == |input| {
        input := [];
        return Err(Disconnected);
      }
      r := Ok(TrimSuffix(input[..n], Return));
      input := input[n + 1..];
    }

    /** Consumes one string from the line and, for a literal, its bytes and the rest of
        its line from the connection. */
    method ListString(line: seq<byte>) returns (r: Result<Parsed, WireError>)
      modifies this
      ensures TrimSpace(line) == [] ==> r == Err(Missing) && input == old(input)
      ensures var s := TrimSpace(line); s != [] && s[0] != '{' as int ==> r == Inline(s) && input == old(input)
      ensures var s := TrimSpace(line);
        s != [] && s[0] == '{' as int ==>
          match LiteralSize(s)
          case None => r == Err(BadLiteral) && input == old(input)
          case Some(n) =>
            if n <= |old(input)| && Index(old(input)[n..], LineFeed) < |old(input)| - n then
              var m := Index(old(input)[n..], LineFeed);
              && r == Ok(Parsed(old(input)[..n], TrimSuffix(old(input)[n..][..m], Return)))
              && input == old(input)[n..][m + 1..]
            else r == Err(Disconnected)
    {
      var s := TrimSpace(line);
      if s == [] {
        return Err(Missing);
      }
      if s[0] == '"' as int {
        r := Quoted(s);
      } else if s[0] == '{' as int {
        r := Literal(s);
      } else {
        var end := AtomEnd(s);
        r := Ok(Parsed(if IsNil(s[..end]) then [] else s[..end], s[end..]));
      }
    }

    method Literal(s: seq<byte>) returns (r: Result<Parsed, WireError>)
      requires s != [] && s[0] == '{' as int
      modifies this
      ensures match LiteralSize(s)
        case None => r == Err(BadLiteral) && input == old(input)
        case Some(n) =>
          if n <= |old(input)| && Index(old(input)[n..], LineFeed) < |old(input)| - n then
            var m := Index(old(input)[n..], LineFeed);
            && r == Ok(Parsed(old(input)[..n], TrimSuffix(old(input)[n..][..m], Return)))
            && input == old(input)[n..][m + 1..]
          else r == Err(Disconnected)
    {
      var n := LiteralSize(s);
      if n.None? {
        return Err(BadLiteral);
      }
      if |input| < n.value {
        return Err(Disconnected);
      }
      var b := input[..n.value];
      input := input[n.value..];
      var tail := ReadLine();
      if tail.Err? {
        return Err(tail.error);
      }
      return Ok(Parsed(b, tail.value));
    }
  }

  /** The loop over a quoted string. */
  method Quoted(s: seq<byte>) returns (r: Result<Parsed, WireError>)
    requires s != [] && s[0] == DoubleQuote
    ensures r == Inline(s)
  {
    var b: seq<byte> := [];
    var i := 1;
    JoinNothing(Unquote(s[1..]));
    while i < |s|
      invariant 1 <= i <= |s|
      invariant Unquote(s[1..]) == Join(b, Unquote(s[i..]))
    {
      UnquoteStep(s, i);
      JoinTake(b, if s[i] == Backslash && i + 1 < |s| then s[i + 1] else s[i],
               if s[i] == Backslash && i + 1 < |s| then Unquote(s[i + 2..]) else Unquote(s[i + 1..]));
      if s[i] == '"' as int {
        assert b + [] == b;
        return Ok(Parsed(b, s[i + 1..]));
      }
      if s[i] == '\\' as int {
        i := i + 1;
        if i >= |s| {
          break;
        }
      }
      b := b + [s[i]];
      i := i + 1;
    }
    return Err(Unterminated);
  }

  function Join(b: seq<byte>, r: Option<Parsed>): (q: Option<Parsed>) {
    if r.None? then None else Some(Parsed(b + r.value.value, r.value.rest))
  }

  lemma JoinNothing(r: Option<Parsed>)
    ensures Join([], r) == r
  {
    if r.Some? {
      assert [] + r.value.value == r.value.value;
    }
  }

  lemma JoinTake(b: seq<byte>, c: byte, r: Option<Parsed>)
    ensures Join(b, Take(c, r)) == Join(b + [c], r)
  {
    if r.Some? {
      assert b + ([c] + r.value.value) == b + [c] + r.value.value;
    }
  }

  lemma UnquoteStep(s: seq<byte>, i: nat)
    requires i < |s|
    ensures s[i] == DoubleQuote ==> Unquote(s[i..]) == Some(Parsed([], s[i + 1..]))
    ensures s[i] == Backslash && i + 1 == |s| ==> Unquote(s[i..]) == None
    ensures s[i] == Backslash && i + 1 < |s| ==> Unquote(s[i..]) == Take(s[i + 1], Unquote(s[i + 2..]))
    ensures s[i] != Backslash && s[i] != DoubleQuote ==> Unquote(s[i..]) == Take(s[i], Unquote(s[i + 1..]))
  {
  }

  // ------------------------------------------------------------------ round trip

  function Escaped(s: seq<byte>): (e: seq<byte>) {
    ReplaceAll(ReplaceAll(s, Backslash, [Backslash, Backslash]), DoubleQuote, [Backslash, DoubleQuote])
  }

  lemma ReplaceFirst(x: byte, rest: seq<byte>, c: byte, to: seq<byte>)
    ensures ReplaceAll([x] + rest, c, to) == (if x == c then to else [x]) + ReplaceAll(rest, c, to)
  {
  }

  lemma {:induction false} ReplaceConcat(a: seq<byte>, b: seq<byte>, c: byte, to: seq<byte>)
    ensures ReplaceAll(a + b, c, to) == ReplaceAll(a, c, to) + ReplaceAll(b, c, to)
  {
    if a == [] {
      assert a + b == b && ReplaceAll(a, c, to) + ReplaceAll(b, c, to) == ReplaceAll(b, c, to);
    } else {
      hide ReplaceAll;
      var x, rest := a[0], a[1..];
      assert a == [x] + rest;
      ReplaceConcat(rest, b, c, to);
      Regroup([x], rest, b);
      ReplaceFirst(x, rest + b, c, to);
      ReplaceFirst(x, rest, c, to);
      Regroup(if x == c then to else [x], ReplaceAll(rest, c, to), ReplaceAll(b, c, to));
    }
  }

  /** Each byte is escaped on its own: the second pass never touches what the first wrote. */
  lemma EscapedStep(c: byte, s: seq<byte>)
    ensures Escaped([c] + s) == (if c == Backslash || c == DoubleQuote then [Backslash, c] else [c]) + Escaped(s)
  {
    var first := if c == Backslash then [Backslash, Backslash] else [c];
    var later := ReplaceAll(s, Backslash, [Backslash, Backslash]);
    assert ([c] + s)[1..] == s;
    ReplaceConcat(first, later, DoubleQuote, [Backslash, DoubleQuote]);
    ReplaceOne(first, c);
  }

  lemma ReplaceOne(first: seq<byte>, c: byte)
    requires first == if c == Backslash then [Backslash, Backslash] else [c]
    ensures ReplaceAll(first, DoubleQuote, [Backslash, DoubleQuote])
         == if c == Backslash || c == DoubleQuote then [Backslash, c] else [c]
  {
    var to := [Backslash, DoubleQuote];
    if c == Backslash {
      assert first == [Backslash] + [Backslash];
      ReplaceConcat([Backslash], [Backslash], DoubleQuote, to);
      assert ReplaceAll([Backslash], DoubleQuote, to) == [Backslash] + ReplaceAll([], DoubleQuote, to);
    } else {
      assert first[1..] == [];
      assert ReplaceAll(first, DoubleQuote, to) == (if c == DoubleQuote then to else [c]) + [];
    }
  }

  lemma {:induction false} UnquoteEscaped(s: seq<byte>, rest: seq<byte>)
    ensures Unquote(Escaped(s) + [DoubleQuote] + rest) == Some(Parsed(s, rest))
  {
    if s == [] {
      assert Escaped(s) + [DoubleQuote] + rest == [DoubleQuote] + rest;
    } else {
      hide Escaped, Unquote;
      var c := s[0];
      EscapedStep(c, s[1..]);
      assert s == [c] + s[1..];
      var later := Escaped(s[1..]) + [DoubleQuote] + rest;
      UnquoteEscaped(s[1..], rest);
      var written := if c == Backslash || c == DoubleQuote then [Backslash, c] else [c];
      Regroup(written, Escaped(s[1..]), [DoubleQuote]);
      Regroup(written, Escaped(s[1..]) + [DoubleQuote], rest);
      UnquoteOne(c, later);
    }
  }

  lemma UnquoteOne(c: byte, later: seq<byte>)
    ensures Unquote((if c == Backslash || c == DoubleQuote then [Backslash, c] else [c]) + later) == Take(c, Unquote(later))
  {
  }

  lemma {:induction false} TrimQuoted(blank: seq<byte>, q: seq<byte>, rest: seq<byte>)
    requires forall c :: c in blank ==> Space(c)
    requires q != [] && !Space(q[0]) && !Space(q[|q| - 1])
    ensures TrimSpace(blank + q + rest) == q + TrimRight(rest)
  {
    TrimBlank(blank, q + rest);
    assert blank + q + rest == blank + (q + rest);
    TrimEnd(q, rest);
  }

  lemma {:induction false} TrimBlank(blank: seq<byte>, s: seq<byte>)
    requires forall c :: c in blank ==> Space(c)
    requires s != [] && !Space(s[0])
    ensures TrimLeft(blank + s) == s
  {
    if blank == [] {
      assert blank + s == s;
    } else {
      TrimBlank(blank[1..], s);
      assert (blank + s)[1..] == blank[1..] + s;
    }
  }

  lemma {:induction false} TrimEnd(q: seq<byte>, rest: seq<byte>)
    requires q != [] && !Space(q[|q| - 1])
    ensures TrimRight(q + rest) == q + TrimRight(rest)
    decreases |rest|
  {
    var s := q + rest;
    if rest == [] {
      assert s == q;
    } else if Space(rest[|rest| - 1]) {
      TrimEnd(q, rest[..|rest| - 1]);
      assert s[..|s| - 1] == q + rest[..|rest| - 1];
    }
  }

  /** A quoted string is read back as it was, and exactly it is consumed. */
  lemma {:induction false} QuoteRoundTrip(blank: seq<byte>, s: seq<byte>, rest: seq<byte>)
    requires forall c :: c in blank ==> Space(c)
    ensures var t := TrimSpace(blank + Quote(s) + rest);
      t != [] && t[0] != '{' as int && Inline(t) == Ok(Parsed(s, TrimRight(rest)))
  {
    var q := Quote(s);
    TrimQuoted(blank, q, rest);
    UnquoteEscaped(s, TrimRight(rest));
    assert (q + TrimRight(rest))[1..] == Escaped(s) + [DoubleQuote] + TrimRight(rest);
  }

  // ------------------------------------------------------------------ mailbox names in commands and listings

  predicate ValidMailboxName(name: seq<byte>) {
    name != [] && Valid(name) && 0 !in name && Return !in name && LineFeed !in name
  }

  /** Names go as they are to a server of IMAP4rev2 and in modified UTF-7 to any other. */
  function EncodeMailbox(rev2: bool, name: seq<byte>): (s: seq<byte>) {
    if rev2 then name else Utf7(name)
  }

  function DecodeMailbox(rev2: bool, s: seq<byte>): (r: Result<seq<byte>, NameError>) {
    if rev2 then (if Valid(s) then Ok(s) else Err(NotText)) else FromUtf7(s)
  }

  lemma {:induction false} EscapedBytes(s: seq<byte>)
    ensures forall c :: c in Escaped(s) ==> c in s || c == Backslash
  {
    if s != [] {
      EscapedBytes(s[1..]);
      EscapedStep(s[0], s[1..]);
      assert s == [s[0]] + s[1..];
    }
  }

  /** A name a command may carry stays on its line and comes back from a listing as the same name. */
  lemma {:induction false} MailboxNameRoundTrip(rev2: bool, blank: seq<byte>, name: seq<byte>, rest: seq<byte>)
    requires ValidMailboxName(name) && forall c :: c in blank ==> Space(c)
    ensures var t := TrimSpace(blank + Quote(EncodeMailbox(rev2, name)) + rest);
      && t != [] && t[0] != '{' as int && Inline(t).Ok? && Inline(t).value.rest == TrimRight(rest)
      && DecodeMailbox(rev2, Inline(t).value.value) == Ok(name)
    ensures forall c :: c in Quote(EncodeMailbox(rev2, name)) ==> c != 0 && c != Return && c != LineFeed
  {
    var wire := EncodeMailbox(rev2, name);
    QuoteRoundTrip(blank, wire, rest);
    RoundTripIffValid(name);
    EncodingPrintable(name);
    EscapedBytes(wire);
    assert Quote(wire) == [DoubleQuote] + Escaped(wire) + [DoubleQuote];
  }

  /** The two strings of a listing, delimiter and name, are read one after the other. */
  lemma {:induction false} ListingRoundTrip(rev2: bool, delimiter: seq<byte>, name: seq<byte>)
    requires ValidMailboxName(name)
    ensures var line := [32] + Quote(delimiter) + [32] + Quote(EncodeMailbox(rev2, name));
      var t := TrimSpace(line);
      && t != [] && t[0] != '{' as int && Inline(t).Ok? && Inline(t).value.value == delimiter
      && var u := TrimSpace(Inline(t).value.rest);
         u != [] && u[0] != '{' as int && Inline(u).Ok? && Inline(u).value.rest == []
         && DecodeMailbox(rev2, Inline(u).value.value) == Ok(name)
  {
    var q := Quote(EncodeMailbox(rev2, name));
    var rest := [32] + q;
    assert [32] + Quote(delimiter) + [32] + q == [32] + Quote(delimiter) + rest;
    QuoteRoundTrip([32], delimiter, rest);
    assert rest[|rest| - 1] == q[|q| - 1] == DoubleQuote;
    assert TrimRight(rest) == rest;
    MailboxNameRoundTrip(rev2, [32], name, []);
    assert [32] + q + [] == rest;
  }
}
