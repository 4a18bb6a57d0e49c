/** Names inside a bundle and the relative paths between them
    (server/crates/dialf/src/bundle.rs:883-914). */
module ZipPaths {
  import opened Seqs

  const UP: string := ['.', '.']
  const HERE: string := ['.']

  // ---- text and segments ---------------------------------------------------------------------

  /** The pieces between slashes, empty ones included. */
  function Split(s: string): (r: seq<string>)
    ensures r != []
  {
    if s == [] then [[]]
    else if s[0] == '/' then [[]] + Split(s[1..])
    else
      var rest := Split(s[1..]);
      [[s[0]] + rest[0]] + rest[1..]
  }

  function NonEmpty(parts: seq<string>): seq<string> {
    if parts == [] then []
    else if parts[0] == [] then NonEmpty(parts[1..])
    else [parts[0]] + NonEmpty(parts[1..])
  }

  function Segments(s: string): seq<string> { NonEmpty(Split(s)) }

  function Join(parts: seq<string>): string {
    if parts == [] then []
    else if |parts| == 1 then parts[0]
    else parts[0] + ['/'] + Join(parts[1..])
  }

  predicate Plain(p: string) { p != [] && '/' !in p }

  lemma {:induction false} SplitPiece(p: string, rest: string)
    requires '/' !in p
    ensures Split(p) == [p] && Split(p + ['/'] + rest) == [p] + Split(rest)
  {
    if p == [] {
      assert [] + ['/'] + rest == ['/'] + rest;
      assert (['/'] + rest)[1..] == rest;
    } else {
      SplitPiece(p[1..], rest);
      assert (p + ['/'] + rest)[1..] == p[1..] + ['/'] + rest;
      assert [p[0]] + p[1..] == p;
    }
  }

  /** Joining plain segments and splitting again gives them back. */
  lemma {:induction false} SegmentsOfJoin(parts: seq<string>)
    requires forall i :: 0 <= i < |parts| ==> Plain(parts[i])
    ensures Segments(Join(parts)) == parts
  {
    if parts == [] {
    } else if |parts| == 1 {
      SplitPiece(parts[0], []);
      assert parts == [parts[0]] && [parts[0]][1..] == [];
      assert NonEmpty([parts[0]]) == [parts[0]] + NonEmpty([]);
    } else {
      SegmentsOfJoin(parts[1..]);
      SplitPiece(parts[0], Join(parts[1..]));
      assert parts == [parts[0]] + parts[1..];
    }
  }

  lemma {:induction false} SplitIsSlashFree(s: string, i: nat)
    requires i < |Split(s)|
    ensures '/' !in Split(s)[i]
  {
    if s != [] {
      if s[0] == '/' {
        if i > 0 { SplitIsSlashFree(s[1..], i - 1); }
      } else {
        SplitIsSlashFree(s[1..], i);
      }
    }
  }

  lemma {:induction false} NonEmptyIsPlain(parts: seq<string>)
    requires forall i :: 0 <= i < |parts| ==> '/' !in parts[i]
    ensures forall i :: 0 <= i < |NonEmpty(parts)| ==> Plain(NonEmpty(parts)[i])
  {
    if parts != [] {
      NonEmptyIsPlain(parts[1..]);
    }
  }

  lemma SegmentsArePlain(s: string)
    ensures forall i :: 0 <= i < |Segments(s)| ==> Plain(Segments(s)[i])
  {
    forall i | 0 <= i < |Split(s)|
      ensures '/' !in Split(s)[i]
    {
      SplitIsSlashFree(s, i);
    }
    NonEmptyIsPlain(Split(s));
  }

  lemma {:induction false} NonEmptyConcat(a: seq<string>, b: seq<string>)
    ensures NonEmpty(a + b) == NonEmpty(a) + NonEmpty(b)
  {
    if a == [] {
      assert a + b == b;
    } else {
      NonEmptyConcat(a[1..], b);
      assert (a + b)[0] == a[0] && (a + b)[1..] == a[1..] + b;
      if a[0] != [] {
        Associate([a[0]], NonEmpty(a[1..]), NonEmpty(b));
      }
    }
  }

  lemma SplitMore(s: string)
    requires s != [] && s[0] != '/'
    ensures Split(s) == [[s[0]] + Split(s[1..])[0]] + Split(s[1..])[1..]
  {
  }

  lemma {:induction false} SplitAcross(a: string, b: string)
    ensures Split(a + ['/'] + b) == Split(a) + Split(b)
  {
    var s := a + ['/'] + b;
    if a == [] {
      assert s[1..] == b;
    } else {
      SplitAcross(a[1..], b);
      assert s[0] == a[0] && s[1..] == a[1..] + ['/'] + b;
      if a[0] == '/' {
        Associate([[]], Split(a[1..]), Split(b));
      } else {
        SplitMore(s);
        SplitMore(a);
        HeadOf(Split(a[1..]), Split(b), a[0]);
      }
    }
  }

  lemma HeadOf(p: seq<string>, q: seq<string>, c: char)
    requires p != []
    ensures [[c] + (p + q)[0]] + (p + q)[1..] == [[c] + p[0]] + p[1..] + q
  {
  }

  /** A slash separates: the segments of both sides, in order. With the two facts about no slash below, this
      settles every text. */
  lemma SegmentsAcross(a: string, b: string)
    ensures Segments(a + ['/'] + b) == Segments(a) + Segments(b)
  {
    SplitAcross(a, b);
    NonEmptyConcat(Split(a), Split(b));
  }

  lemma SegmentsOfOne(p: string)
    requires '/' !in p
    ensures Segments(p) == if p == [] then [] else [p]
  {
    SplitPiece(p, []);
    assert [p][0] == p && [p][1..] == [];
    assert NonEmpty([p]) == if p == [] then NonEmpty([]) else [p] + NonEmpty([]);
  }

  // ---- relative paths --------------------------------------------------------------------------

  /** Leading segments two paths share. */
  function Common(a: seq<string>, b: seq<string>): (n: nat)
    ensures n <= |a| && n <= |b|
  {
    if a != [] && b != [] && a[0] == b[0] then 1 + Common(a[1..], b[1..]) else 0
  }

  function RelativeParts(base: seq<string>, target: seq<string>): seq<string> {
    Repeat(UP, |base| - Common(base, target)) + target[Common(base, target)..]
  }

  function RelativeZipPath(base: string, target: string): string {
    Join(RelativeParts(Segments(base), Segments(target)))
  }

  /** Follow a path from a directory: `..` leaves a directory, `.` stays, anything else enters. There
      is nothing above the bundle root. */
  function Walk(dir: seq<string>, parts: seq<string>): Option<seq<string>>
    decreases |parts|
  {
    if parts == [] then Some(dir)
    else if parts[0] == UP then if dir == [] then None else Walk(dir[..|dir| - 1], parts[1..])
    else if parts[0] == HERE then Walk(dir, parts[1..])
    else Walk(dir + [parts[0]], parts[1..])
  }

  function Resolve(base: string, path: string): Option<seq<string>> { Walk(Segments(base), Segments(path)) }

  predicate Ordinary(p: string) { p != UP && p != HERE }

  predicate AllOrdinary(parts: seq<string>) { forall i :: 0 <= i < |parts| ==> Ordinary(parts[i]) }

  lemma {:induction false} CommonIsShared(a: seq<string>, b: seq<string>)
    ensures a[..Common(a, b)] == b[..Common(a, b)]
    ensures Common(a, b) < |a| && Common(a, b) < |b| ==> a[Common(a, b)] != b[Common(a, b)]
  {
    if a != [] && b != [] && a[0] == b[0] {
      CommonIsShared(a[1..], b[1..]);
      var n := Common(a[1..], b[1..]);
      assert a[..n + 1] == [a[0]] + a[1..][..n] && b[..n + 1] == [b[0]] + b[1..][..n];
    }
  }

  lemma {:induction false} WalkUp(dir: seq<string>, n: nat, rest: seq<string>)
    requires n <= |dir|
    ensures Walk(dir, Repeat(UP, n) + rest) == Walk(dir[..|dir| - n], rest)
  {
    if n == 0 {
      assert Repeat(UP, 0) + rest == rest && dir[..|dir|] == dir;
    } else {
      var parts := Repeat(UP, n) + rest;
      assert parts[0] == UP && parts[1..] == Repeat(UP, n - 1) + rest;
      WalkUp(dir[..|dir| - 1], n - 1, rest);
      assert dir[..|dir| - 1][..|dir| - n] == dir[..|dir| - n];
    }
  }

  /** Going down only adds; it arrives at all of `parts` exactly when every one is ordinary. */
  lemma {:induction false} WalkDown(dir: seq<string>, parts: seq<string>)
    ensures var r := Walk(dir, parts);
      && (r.Some? ==> |r.value| <= |dir| + |parts|)
      && (r == Some(dir + parts) <==> AllOrdinary(parts))
      && (r.Some? && !AllOrdinary(parts) ==> |r.value| < |dir| + |parts|)
    decreases |parts|
  {
    if parts == [] {
      assert dir + [] == dir;
    } else if parts[0] == UP {
      if dir != [] { WalkDown(dir[..|dir| - 1], parts[1..]); }
    } else if parts[0] == HERE {
      WalkDown(dir, parts[1..]);
    } else {
      WalkDown(dir + [parts[0]], parts[1..]);
      assert dir + [parts[0]] + parts[1..] == dir + parts;
      assert parts == [parts[0]] + parts[1..];
    }
  }

  lemma PlainRelativeParts(base: string, target: string)
    ensures Segments(RelativeZipPath(base, target)) == RelativeParts(Segments(base), Segments(target))
  {
    SegmentsArePlain(target);
    SegmentsOfJoin(RelativeParts(Segments(base), Segments(target)));
  }

  lemma RelativePartsLand(b: seq<string>, t: seq<string>)
    ensures Walk(b, RelativeParts(b, t)) == Some(t) <==> AllOrdinary(t[Common(b, t)..])
  {
    var c := Common(b, t);
    CommonIsShared(b, t);
    WalkUp(b, |b| - c, t[c..]);
    WalkDown(b[..c], t[c..]);
    assert t == b[..c] + t[c..];
  }

  /** Resolving the relative path from `base` lands on `target`, for every base and every target none
      of whose segments past the shared ones is `.` or `..`, and for no other. */
  lemma RelativePathLands(base: string, target: string)
    ensures var b, t := Segments(base), Segments(target);
      Resolve(base, RelativeZipPath(base, target)) == Some(t) <==> AllOrdinary(t[Common(b, t)..])
  {
    PlainRelativeParts(base, target);
    RelativePartsLand(Segments(base), Segments(target));
  }

  // ---- it climbs as little as possible -----------------------------------------------------------

  function Ups(parts: seq<string>): nat {
    if parts == [] then 0 else (if parts[0] == UP then 1 else 0) + Ups(parts[1..])
  }

  lemma {:induction false} CommonOfPrefix(dir: seq<string>, t: seq<string>)
    requires dir != []
    ensures Common(dir, t) - 1 <= Common(dir[..|dir| - 1], t) <= Common(dir, t)
  {
    if t != [] && dir[0] == t[0] && |dir| > 1 {
      CommonOfPrefix(dir[1..], t[1..]);
      assert dir[..|dir| - 1][1..] == dir[1..][..|dir| - 2];
    }
  }

  /** However one gets from `dir` to `t`, every segment of `dir` that `t` does not share is climbed
      out of. */
  lemma {:induction false} MustClimb(dir: seq<string>, parts: seq<string>, t: seq<string>)
    requires Walk(dir, parts) == Some(t)
    ensures Ups(parts) >= |dir| - Common(dir, t)
    decreases |parts|
  {
    if parts == [] {
      CommonOfSelf(t);
    } else if parts[0] == UP {
      MustClimb(dir[..|dir| - 1], parts[1..], t);
      CommonOfPrefix(dir, t);
    } else if parts[0] == HERE {
      MustClimb(dir, parts[1..], t);
    } else {
      MustClimb(dir + [parts[0]], parts[1..], t);
      CommonOfPrefix(dir + [parts[0]], t);
      assert (dir + [parts[0]])[..|dir|] == dir;
    }
  }

  lemma {:induction false} CommonOfSelf(t: seq<string>)
    ensures Common(t, t) == |t|
  {
    if t != [] { CommonOfSelf(t[1..]); }
  }

  lemma {:induction false} UpsOf(n: nat, rest: seq<string>)
    requires AllOrdinary(rest)
    ensures Ups(Repeat(UP, n) + rest) == n
    decreases n + |rest|
  {
    if n > 0 {
      assert (Repeat(UP, n) + rest)[1..] == Repeat(UP, n - 1) + rest;
      UpsOf(n - 1, rest);
    } else if rest != [] {
      assert Repeat(UP, 0) + rest == rest && Repeat(UP, 0) + rest[1..] == rest[1..];
      UpsOf(0, rest[1..]);
    }
  }

  /** No path from `base` to `target` climbs less. */
  lemma FewestUps(base: string, target: string, other: string)
    requires AllOrdinary(Segments(target)[Common(Segments(base), Segments(target))..])
    requires Resolve(base, other) == Some(Segments(target))
    ensures Ups(Segments(RelativeZipPath(base, target))) <= Ups(Segments(other))
  {
    var b, t := Segments(base), Segments(target);
    PlainRelativeParts(base, target);
    UpsOf(|b| - Common(b, t), t[Common(b, t)..]);
    MustClimb(b, Segments(other), t);
  }
}
