/** Patches of JSON objects: keys as JSON pointers (sections 3 and 4 of RFC 6901), patch
    objects (section 5.3 of RFC 8620), and the patch that turns one object into another. */
module JsonPatch {
  import opened Wrappers

  datatype Json =
    | Null
    | Bool(b: bool)
    | Number(n: int)
    | Text(s: string)
    | List(items: seq<Json>)
    | Object(fields: map<string, Json>)

  type Fields = map<string, Json>

  /** A missing key reads as null. */
  function Get(o: Fields, k: string): (v: Json) {
    if k in o then o[k] else Null
  }

  // ------------------------------------------------------------------ pointers

  function ReplaceAll(s: string, c: char, to: string): (r: string) {
    if s == "" then "" else (if s[0] == c then to else [s[0]]) + ReplaceAll(s[1..], c, to)
  }

  /** One reference token: the tilde first, then the slash. */
  function Pointer(k: string): (p: string) {
    ReplaceAll(ReplaceAll(k, '~', "~0"), '/', "~1")
  }

  /** A reader replaces two-character escapes; a tilde before anything else stands for itself. */
  function Unescape(p: string): (k: string) {
    if p == "" then ""
    else if |p| > 1 && p[0] == '~' && p[1] == '1' then "/" + Unescape(p[2..])
    else if |p| > 1 && p[0] == '~' && p[1] == '0' then "~" + Unescape(p[2..])
    else [p[0]] + Unescape(p[1..])
  }

  function Raw(path: string): (tokens: seq<string>)
    ensures |tokens| > 0
  {
    if path == "" then [""]
    else
      var rest := Raw(path[1..]);
      if path[0] == '/' then [""] + rest else [[path[0]] + rest[0]] + rest[1..]
  }

  function Tokens(path: string): (tokens: seq<string>)
    ensures |tokens| > 0
  {
    var raw := Raw(path);
    seq(|raw|, i requires 0 <= i < |raw| => Unescape(raw[i]))
  }

  lemma ReplaceFirst(x: char, rest: string, c: char, to: string)
    ensures ReplaceAll([x] + rest, c, to) == (if x == c then to else [x]) + ReplaceAll(rest, c, to)
  {
  }

  lemma {:induction false} ReplaceConcat(a: string, b: string, c: char, to: string)
    ensures ReplaceAll(a + b, c, to) == ReplaceAll(a, c, to) + ReplaceAll(b, c, to)
  {
    if a == "" {
      assert a + b == b && ReplaceAll(a, c, to) + ReplaceAll(b, c, to) == ReplaceAll(b, c, to);
    } else {
      hide ReplaceAll;
      var x, rest := a[0], a[1..];
      assert a == [x] + rest;
      ReplaceConcat(rest, b, c, to);
      Regroup([x], rest, b);
      ReplaceFirst(x, rest + b, c, to);
      ReplaceFirst(x, rest, c, to);
      Regroup(if x == c then to else [x], ReplaceAll(rest, c, to), ReplaceAll(b, c, to));
    }
  }

  function Escape(c: char): (e: string) {
    if c == '~' then "~0" else if c == '/' then "~1" else [c]
  }

  lemma PointerStep(c: char, k: string)
    ensures Pointer([c] + k) == Escape(c) + Pointer(k)
  {
    var first := if c == '~' then "~0" else [c];
    ReplaceFirst(c, k, '~', "~0");
    ReplaceConcat(first, ReplaceAll(k, '~', "~0"), '/', "~1");
    if c == '~' {
      ReplaceTwo('~', '0');
    } else {
      ReplaceOne(c);
    }
    hide ReplaceAll;
  }

  lemma ReplaceOne(c: char)
    ensures ReplaceAll([c], '/', "~1") == if c == '/' then "~1" else [c]
  {
    assert [c] == [c] + "";
    ReplaceFirst(c, "", '/', "~1");
  }

  lemma ReplaceTwo(c: char, d: char)
    requires c != '/' && d != '/'
    ensures ReplaceAll([c, d], '/', "~1") == [c, d]
  {
    assert [c, d] == [c] + [d];
    ReplaceFirst(c, [d], '/', "~1");
    ReplaceOne(d);
  }

  lemma {:induction false} UnescapePointer(k: string)
    ensures Unescape(Pointer(k)) == k && '/' !in Pointer(k)
  {
    if k != "" {
      UnescapePointer(k[1..]);
      PointerStep(k[0], k[1..]);
      assert k == [k[0]] + k[1..];
      var e, rest := Escape(k[0]), Pointer(k[1..]);
      assert Pointer(k) == e + rest;
      assert (e + rest)[|e|..] == rest;
    }
  }

  lemma {:induction false} RawOne(p: string)
    requires '/' !in p
    ensures Raw(p) == [p]
  {
    if p != "" {
      RawOne(p[1..]);
      assert p == [p[0]] + p[1..];
    }
  }

  lemma {:induction false} RawTwo(p: string, q: string)
    requires '/' !in p && '/' !in q
    ensures Raw(p + "/" + q) == [p, q]
  {
    var s := p + "/" + q;
    if p == "" {
      RawOne(q);
      assert s[1..] == q;
    } else {
      RawTwo(p[1..], q);
      assert s[1..] == p[1..] + "/" + q;
      assert p == [p[0]] + p[1..];
    }
  }

  /** A pointer made from a key leads to that key and to nothing else. */
  lemma {:induction false} PointerLeadsToKey(k: string)
    ensures Tokens(Pointer(k)) == [k]
  {
    UnescapePointer(k);
    RawOne(Pointer(k));
  }

  lemma {:induction false} PointerPairLeads(k: string, q: string)
    ensures Tokens(Pointer(k) + "/" + Pointer(q)) == [k, q]
  {
    UnescapePointer(k);
    UnescapePointer(q);
    RawTwo(Pointer(k), Pointer(q));
  }

  /** Escaping never merges two keys. */
  lemma {:induction false} PointerInjective(k: string, q: string)
    requires Pointer(k) == Pointer(q)
    ensures k == q
  {
    UnescapePointer(k);
    UnescapePointer(q);
  }

  // ------------------------------------------------------------------ applying a patch

  /** Null removes; an inner path needs its parents. */
  function SetAt(o: Fields, tokens: seq<string>, v: Json): (r: Fields)
    requires |tokens| > 0
    decreases |tokens|
  {
    var t := tokens[0];
    if |tokens| == 1 then (if v == Null then o - {t} else o[t := v])
    else if t in o && o[t].Object? then o[t := Object(SetAt(o[t].fields, tokens[1..], v))]
    else o
  }

  /** The server works through the paths in some order. */
  function ApplyPatch(o: Fields, patch: Fields, paths: seq<string>): (r: Fields)
    requires forall p :: p in paths ==> p in patch
  {
    if paths == [] then o
    else SetAt(ApplyPatch(o, patch, paths[..|paths| - 1]), Tokens(paths[|paths| - 1]), patch[paths[|paths| - 1]])
  }

  ghost predicate Enumerates(paths: seq<string>, patch: Fields) {
    forall p :: p in paths <==> p in patch
  }

  // ------------------------------------------------------------------ the patch between two objects

  /** Set by the server only. */
  predicate Readonly(k: string) {
    k == "id" || k == "baseEventId" || k == "isOrigin" || k == "utcStart" || k == "utcEnd"
  }

  /** The key is written: its value differs, or it is gone. */
  predicate Touched(v: Fields, original: Fields, k: string) {
    !Readonly(k) && ((k in v && v[k] != Get(original, k)) || (k !in v && k in original))
  }

  /** The paths are exactly those of the touched keys, each with the new value. */
  ghost predicate IsPatch(v: Fields, original: Fields, patch: Fields) {
    && (forall k :: Pointer(k) in patch <==> Touched(v, original, k))
    && (forall p :: p in patch ==> exists k :: p == Pointer(k))
    && (forall k :: Pointer(k) in patch ==> patch[Pointer(k)] == Get(v, k))
  }

  lemma {:induction false} AppliedAt(v: Fields, original: Fields, patch: Fields, paths: seq<string>, k: string)
    requires IsPatch(v, original, patch) && forall p :: p in paths ==> p in patch
    ensures Get(ApplyPatch(original, patch, paths), k) == if Pointer(k) in paths then Get(v, k) else Get(original, k)
    ensures Pointer(k) !in paths ==> (k in ApplyPatch(original, patch, paths) <==> k in original)
  {
    if paths != [] {
      var front, last := paths[..|paths| - 1], paths[|paths| - 1];
      assert paths == front + [last] && last in paths;
      AppliedAt(v, original, patch, front, k);
      var q :| last == Pointer(q);
      SetPointer(ApplyPatch(original, patch, front), q, patch[last], k);
    }
  }

  lemma SetPointer(o: Fields, q: string, v: Json, k: string)
    ensures Pointer(q) == Pointer(k) <==> q == k
    ensures Get(SetAt(o, Tokens(Pointer(q)), v), k) == if q == k then v else Get(o, k)
    ensures q != k ==> (k in SetAt(o, Tokens(Pointer(q)), v) <==> k in o)
    ensures q == k ==> (k in SetAt(o, Tokens(Pointer(q)), v) <==> v != Null)
  {
    PointerLeadsToKey(q);
    if Pointer(q) == Pointer(k) {
      PointerInjective(k, q);
    }
  }

  /** Whatever the order, the patched object has the edited values under every key that may be
      written, null standing for absence, and all else as it was. */
  lemma {:induction false} PatchCorrect(v: Fields, original: Fields, patch: Fields, paths: seq<string>, k: string)
    requires IsPatch(v, original, patch) && Enumerates(paths, patch)
    ensures !Readonly(k) ==> Get(ApplyPatch(original, patch, paths), k) == Get(v, k)
    ensures Readonly(k) ==> Get(ApplyPatch(original, patch, paths), k) == Get(original, k)
    ensures !Touched(v, original, k) ==> (k in ApplyPatch(original, patch, paths) <==> k in original)
  {
    AppliedAt(v, original, patch, paths, k);
  }

  /** Order never matters. */
  lemma {:induction false} PatchOrderFree(v: Fields, original: Fields, patch: Fields, a: seq<string>, b: seq<string>)
    requires IsPatch(v, original, patch) && Enumerates(a, patch) && Enumerates(b, patch)
    ensures ApplyPatch(original, patch, a) == ApplyPatch(original, patch, b)
  {
    var x, y := ApplyPatch(original, patch, a), ApplyPatch(original, patch, b);
    forall k ensures (k in x <==> k in y) && (k in x ==> x[k] == y[k]) {
      PatchCorrect(v, original, patch, a, k);
      PatchCorrect(v, original, patch, b, k);
      AppliedPresence(v, original, patch, a, k);
      AppliedPresence(v, original, patch, b, k);
    }
  }

  lemma {:induction false} AppliedPresence(v: Fields, original: Fields, patch: Fields, paths: seq<string>, k: string)
    requires IsPatch(v, original, patch) && forall p :: p in paths ==> p in patch
    ensures Pointer(k) in paths ==> (k in ApplyPatch(original, patch, paths) <==> Get(v, k) != Null)
  {
    if paths != [] {
      var front, last := paths[..|paths| - 1], paths[|paths| - 1];
      assert paths == front + [last] && last in paths;
      AppliedPresence(v, original, patch, front, k);
      var q :| last == Pointer(q);
      SetPointer(ApplyPatch(original, patch, front), q, patch[last], k);
    }
  }

  // ------------------------------------------------------------------ building it

  datatype PatchError = ServerSet(key: string) | Tracked

  /** The loops over the edited and the original object. */
  method BuildPatch(v: Fields, original: Fields, membership: string) returns (r: Result<Fields, PatchError>)
    ensures r.Ok? ==> IsPatch(v, original, r.value)
    ensures r.Ok? <==>
      && (forall k :: k in v && Readonly(k) ==> v[k] == Get(original, k))
      && Get(v, "uid") == Get(original, "uid") && Get(v, membership) == Get(original, membership)
    ensures r.Err? && r.error.ServerSet? ==>
      r.error.key in v && Readonly(r.error.key) && v[r.error.key] != Get(original, r.error.key)
  {
    var changed := PatchChanged(v, original);
    if changed.Err? {
      return changed;
    }
    var patch := PatchRemoved(v, original, changed.value);
    if Get(v, "uid") != Get(original, "uid") || Get(v, membership) != Get(original, membership) {
      return Err(Tracked);
    }
    return Ok(patch);
  }

  /** Writes every value that differs; a value set by the server must not. */
  method PatchChanged(v: Fields, original: Fields) returns (r: Result<Fields, PatchError>)
    ensures r.Ok? ==> Building(v, original, r.value, v.Keys)
    ensures r.Ok? <==> forall k :: k in v && Readonly(k) ==> v[k] == Get(original, k)
    ensures r.Err? ==> r.error.ServerSet? && var k := r.error.key; k in v && Readonly(k) && v[k] != Get(original, k)
  {
    var patch: Fields := map[];
    ghost var done: set<string> := {};
    var todo := v.Keys;
    while todo != {}
      invariant done + todo == v.Keys && Building(v, original, patch, done)
      invariant forall k :: k in done && Readonly(k) ==> v[k] == Get(original, k)
      decreases |todo|
    {
      hide Building;
      var k :| k in todo;
      assert done + {k} + (todo - {k}) == done + todo;
      todo := todo - {k};
      if Readonly(k) {
        if v[k] != Get(original, k) {
          return Err(ServerSet(k));
        }
        SkipKey(v, original, patch, done, k);
      } else if v[k] != Get(original, k) {
        WriteKey(v, original, patch, done, k);
        patch := patch[Pointer(k) := v[k]];
      } else {
        SkipKey(v, original, patch, done, k);
      }
      done := done + {k};
    }
    assert done == v.Keys;
    return Ok(patch);
  }

  /** Writes null for every key that is gone. */
  method PatchRemoved(v: Fields, original: Fields, changed: Fields) returns (patch: Fields)
    requires Building(v, original, changed, v.Keys)
    ensures IsPatch(v, original, patch)
  {
    patch := changed;
    ghost var done := v.Keys;
    var todo := original.Keys;
    while todo != {}
      invariant todo <= original.Keys && v.Keys <= done && Building(v, original, patch, done)
      invariant forall k :: k in original ==> k in done || k in todo
      decreases |todo|
    {
      hide Building, Readonly;
      var k :| k in todo;
      todo := todo - {k};
      if k !in v && !Readonly(k) {
        WriteKey(v, original, patch, done, k);
        patch := patch[Pointer(k) := Null];
      } else {
        KeepKey(v, original, patch, done, k);
      }
      done := done + {k};
    }
    BuiltAll(v, original, patch, done);
  }

  /** The patch as far as the keys in done are concerned. */
  ghost predicate Building(v: Fields, original: Fields, patch: Fields, done: set<string>) {
    && (forall k :: Pointer(k) in patch <==> k in done && Touched(v, original, k))
    && (forall p :: p in patch ==> exists k :: p == Pointer(k))
    && (forall k :: Pointer(k) in patch ==> patch[Pointer(k)] == Get(v, k))
  }

  lemma WriteKey(v: Fields, original: Fields, patch: Fields, done: set<string>, k: string)
    requires Building(v, original, patch, done) && Touched(v, original, k)
    ensures Building(v, original, patch[Pointer(k) := Get(v, k)], done + {k})
  {
    forall q | Pointer(q) == Pointer(k) ensures q == k {
      PointerInjective(q, k);
    }
  }

  lemma SkipKey(v: Fields, original: Fields, patch: Fields, done: set<string>, k: string)
    requires Building(v, original, patch, done) && !Touched(v, original, k)
    ensures Building(v, original, patch, done + {k})
  {
  }

  lemma KeepKey(v: Fields, original: Fields, patch: Fields, done: set<string>, k: string)
    requires Building(v, original, patch, done) && v.Keys <= done && (k in v || Readonly(k))
    ensures Building(v, original, patch, done + {k})
  {
  }

  lemma BuiltAll(v: Fields, original: Fields, patch: Fields, done: set<string>)
    requires Building(v, original, patch, done) && v.Keys + original.Keys <= done
    ensures IsPatch(v, original, patch)
  {
  }
}
