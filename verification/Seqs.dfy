/** Small vocabulary shared by the other modules. */
module Seqs {

  datatype Option<+T> = None | Some(value: T)

  datatype Result<+T, +E> = Ok(value: T) | Err(error: E)

  /** A 16-bit PCM sample. */
  type Sample = x: int | -0x8000 <= x <= 0x7fff witness 0

  function Max(a: int, b: int): int { if a < b then b else a }

  function Min(a: int, b: int): int { if a < b then a else b }

  function Repeat<T>(x: T, n: nat): (r: seq<T>)
    ensures |r| == n && forall i :: 0 <= i < n ==> r[i] == x
  {
    seq(n, _ => x)
  }

  lemma TakeOneMore<T>(a: seq<T>, b: seq<T>, i: nat)
    requires i < |b|
    ensures a + b[..i + 1] == (a + b[..i]) + [b[i]]
  {
  }

  lemma TakeEnds<T>(a: seq<T>, b: seq<T>)
    ensures a + b[..0] == a && a + b[..|b|] == a + b
  {
  }

  /** The stream that a list of chunks spells out. */
  function Flatten<T>(chunks: seq<seq<T>>): seq<T> {
    if chunks == [] then [] else Flatten(chunks[..|chunks| - 1]) + chunks[|chunks| - 1]
  }

  lemma FlattenSnoc<T>(chunks: seq<seq<T>>, c: seq<T>)
    ensures Flatten(chunks + [c]) == Flatten(chunks) + c
  {
    assert (chunks + [c])[..|chunks|] == chunks;
  }

  lemma FlattenOne<T>(c: seq<T>)
    ensures Flatten([c]) == c
  {
    assert [c][..0] == [];
  }

  lemma Associate<T>(a: seq<T>, b: seq<T>, c: seq<T>)
    ensures (a + b) + c == a + (b + c)
  {
  }

  lemma FlattenCons<T>(c: seq<T>, rest: seq<seq<T>>)
    ensures Flatten([c] + rest) == c + Flatten(rest)
  {
    FlattenConcat([c], rest);
    FlattenOne(c);
  }

  lemma FlattenTake<T>(chunks: seq<seq<T>>, i: nat)
    requires i < |chunks|
    ensures Flatten(chunks[..i + 1]) == Flatten(chunks[..i]) + chunks[i]
  {
    assert chunks[..i + 1] == chunks[..i] + [chunks[i]];
    FlattenSnoc(chunks[..i], chunks[i]);
  }

  lemma {:induction false} FlattenConcat<T>(a: seq<seq<T>>, b: seq<seq<T>>)
    ensures Flatten(a + b) == Flatten(a) + Flatten(b)
  {
    if b == [] {
      assert a + b == a;
    } else {
      FlattenConcat(a, b[..|b| - 1]);
      assert (a + b)[..|a + b| - 1] == a + b[..|b| - 1];
    }
  }

  lemma {:induction false} FlattenPrefix<T>(chunks: seq<seq<T>>, i: nat)
    requires i <= |chunks|
    ensures Flatten(chunks[..i]) <= Flatten(chunks)
  {
    assert chunks == chunks[..i] + chunks[i..];
    FlattenConcat(chunks[..i], chunks[i..]);
  }

  // ---- a stream cut into blocks of n ---------------------------------------------------------

  /** The whole blocks of n that a stream holds, in order. */
  function Blocks<T>(s: seq<T>, n: nat): (r: seq<seq<T>>)
    requires n > 0
    ensures forall i :: 0 <= i < |r| ==> |r[i]| == n
  {
    if |s| < n then [] else [s[..n]] + Blocks(s[n..], n)
  }

  /** What is left after the last whole block. */
  function Leftover<T>(s: seq<T>, n: nat): (r: seq<T>)
    requires n > 0
    ensures |r| < n && |r| <= |s|
  {
    if |s| < n then s else Leftover(s[n..], n)
  }

  /** Feeding more input after the leftover continues the blocks where they stopped. */
  lemma {:induction false} BlocksAppend<T>(a: seq<T>, b: seq<T>, n: nat)
    requires n > 0
    ensures Blocks(a + b, n) == Blocks(a, n) + Blocks(Leftover(a, n) + b, n)
    ensures Leftover(a + b, n) == Leftover(Leftover(a, n) + b, n)
    decreases |a|
  {
    if |a| >= n {
      assert (a + b)[..n] == a[..n] && (a + b)[n..] == a[n..] + b;
      BlocksAppend(a[n..], b, n);
    }
  }

  lemma {:induction false} BlocksAndLeftover<T>(s: seq<T>, n: nat)
    requires n > 0
    ensures Flatten(Blocks(s, n)) + Leftover(s, n) == s
  {
    if |s| >= n {
      BlocksAndLeftover(s[n..], n);
      FlattenCons(s[..n], Blocks(s[n..], n));
      Associate(s[..n], Flatten(Blocks(s[n..], n)), Leftover(s[n..], n));
    }
  }

  lemma {:induction false} BlocksOfBlocks<T>(blocks: seq<seq<T>>, n: nat)
    requires n > 0 && forall i :: 0 <= i < |blocks| ==> |blocks[i]| == n
    ensures Blocks(Flatten(blocks), n) == blocks && Leftover(Flatten(blocks), n) == []
  {
    if blocks != [] {
      var init, last := blocks[..|blocks| - 1], blocks[|blocks| - 1];
      BlocksOfBlocks(init, n);
      BlocksAppend(Flatten(init), last, n);
      assert [] + last == last && last[n..] == [] && last[..n] == last;
      assert Blocks(last, n) == [last];
    }
  }

  lemma {:induction false} BlocksCount<T>(s: seq<T>, n: nat, k: nat)
    requires n > 0 && k * n <= |s| < k * n + n
    ensures |Blocks(s, n)| == k && |Leftover(s, n)| == |s| - k * n
  {
    if k > 0 {
      assert k * n == (k - 1) * n + n;
      BlocksCount(s[n..], n, k - 1);
    }
  }

  lemma BlocksByDivision<T>(s: seq<T>, n: nat)
    requires n > 0
    ensures |Blocks(s, n)| == |s| / n && (Leftover(s, n) == [] <==> |s| % n == 0)
  {
    assert |s| == |s| / n * n + |s| % n;
    BlocksCount(s, n, |s| / n);
  }

  lemma SplitUnique<T>(s: seq<T>, a: seq<T>, b: seq<T>, w: nat)
    requires s == a + b && w == |a|
    ensures s[..w] == a && s[w..] == b
  {
  }

  /** Cutting a stream at the last multiple of n separates its whole blocks from its leftover. */
  lemma CutAtWhole<T>(s: seq<T>, n: nat, w: nat)
    requires n > 0 && w == |s| / n * n
    ensures w <= |s| && s[..w] == Flatten(Blocks(s, n)) && s[w..] == Leftover(s, n)
  {
    assert |s| == w + |s| % n;
    BlocksCount(s, n, |s| / n);
    BlocksAndLeftover(s, n);
    SplitUnique(s, Flatten(Blocks(s, n)), Leftover(s, n), w);
  }

  lemma BlocksOfWhole<T>(s: seq<T>, n: nat)
    requires n > 0 && Leftover(s, n) == []
    ensures Flatten(Blocks(s, n)) == s
  {
    BlocksAndLeftover(s, n);
  }

  lemma WholeIsItself<T>(s: seq<T>, n: nat)
    requires n > 0 && |s| % n == 0
    ensures Flatten(Blocks(s, n)) == s && Leftover(s, n) == []
  {
    BlocksByDivision(s, n);
    BlocksOfWhole(s, n);
  }

  lemma AfterNothing<T>(a: seq<T>, b: seq<T>)
    requires a == []
    ensures a + b == b
  {
  }
}
