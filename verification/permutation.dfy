/** The 512-entry permutation table behind every gradient-noise field: the
    integers 0..255 shuffled by Durstenfeld's variant of the Fisher-Yates
    shuffle, followed by a verbatim copy of themselves so that a lattice hash
    `p[p[X] + Y] + ...` never has to wrap. */
module PermutationTable {

  /** 0, 1, ..., n-1 */
  function Identity(n: nat): (s: seq<int>)
    ensures |s| == n
    ensures forall i :: 0 <= i < n ==> s[i] == i
  {
    seq(n, i => i)
  }

  /** Each value occurs once in 0..n-1 and nothing else occurs. */
  lemma {:induction false} IdentityCount(n: nat, v: int)
    ensures multiset(Identity(n))[v] == if 0 <= v < n then 1 else 0
  {
    if n > 0 {
      assert Identity(n) == Identity(n - 1) + [n - 1];
      IdentityCount(n - 1, v);
    }
  }

  /** The destructuring swap `[p[i], p[j]] = [p[j], p[i]]`. */
  function Swap(s: seq<int>, i: int, j: int): (r: seq<int>)
    requires 0 <= i < |s| && 0 <= j < |s|
    ensures |r| == |s| && r[i] == s[j] && r[j] == s[i]
    ensures forall k :: 0 <= k < |s| && k != i && k != j ==> r[k] == s[k]
    ensures multiset(r) == multiset(s)
  {
    s[i := s[j]][j := s[i]]
  }

  /** A draw `u` in [0,1) scaled to a swap partner: `Math.floor(u * (i + 1))`. */
  function ScaledIndex(u: real, i: nat): (j: int)
    ensures 0.0 <= u < 1.0 ==> 0 <= j <= i
  {
    var n := (i + 1) as real;
    assert 0.0 <= u < 1.0 ==> 0.0 <= u * n < n by {
      if 0.0 <= u < 1.0 {
        assert u * n <= 1.0 * n;
        assert (1.0 - u) * n > 0.0;
      }
    }
    (u * n).Floor
  }

  /** The swap partners js are legal for a table of n entries: step k of the
      shuffle works on position n-1-k and swaps it with js[k] in [0, n-1-k]. */
  predicate ValidSwaps(n: nat, js: seq<int>)
  {
    |js| < n && forall k :: 0 <= k < |js| ==> 0 <= js[k] <= n - 1 - k
  }

  /** The table after the first k steps of the shuffle. Whatever the partners,
      the result is a rearrangement of the input. */
  function Shuffled(s: seq<int>, js: seq<int>, k: nat): (r: seq<int>)
    requires ValidSwaps(|s|, js) && k <= |js|
    ensures |r| == |s|
    ensures multiset(r) == multiset(s)
  {
    if k == 0 then s else Swap(Shuffled(s, js, k - 1), |s| - k, js[k - 1])
  }

  /** Step k + 1 of the shuffle swaps position |s| - k - 1 with its partner. */
  lemma ShuffledStep(s: seq<int>, js: seq<int>, k: nat)
    requires ValidSwaps(|s|, js) && k < |js|
    ensures Shuffled(s, js, k + 1) == Swap(Shuffled(s, js, k), |s| - k - 1, js[k])
  {
  }

  /** The fill loop `for (i = 0; i < n; i++) p[i] = i`. */
  method FillIdentity(a: array<int>, n: nat)
    requires n <= a.Length
    modifies a
    ensures a[..n] == Identity(n)
    ensures a[n..] == old(a[n..])
  {
    for i := 0 to n
      invariant forall k :: 0 <= k < i ==> a[k] == k
      invariant a[n..] == old(a[n..])
    {
      a[i] := i;
    }
  }

  /** One shuffle step, `[p[i], p[j]] = [p[j], p[i]]`, on the first n
      entries of an array. */
  method SwapEntries(a: array<int>, n: nat, i: int, j: int)
    requires n <= a.Length && 0 <= i < n && 0 <= j < n
    modifies a
    ensures a[..n] == Swap(old(a[..n]), i, j)
    ensures a[n..] == old(a[n..])
  {
    ghost var before := a[..n];
    ghost var rest := a[n..];
    a[i], a[j] := a[j], a[i];
    forall k | 0 <= k < n
      ensures a[..n][k] == Swap(before, i, j)[k]
    {
    }
    forall k | 0 <= k < a.Length - n
      ensures a[n..][k] == rest[k]
    {
    }
  }

  /** s holds each of 0..n-1 exactly once. */
  predicate IsPermutation(s: seq<int>, n: nat)
  {
    multiset(s) == multiset(Identity(n))
  }

  /** The invariant of every table the noise fields use. */
  predicate IsPermutationTable(t: seq<int>)
  {
    && |t| == 512
    && IsPermutation(t[..256], 256)
    && forall i :: 0 <= i < 256 ==> t[i + 256] == t[i]
  }

  /** Every entry of the table is a byte; this is all a lattice hash needs. */
  predicate ByteTable(p: seq<int>)
  {
    |p| == 512 && forall i :: 0 <= i < 512 ==> 0 <= p[i] < 256
  }

  /** A shuffle of 0..255, duplicated, is a permutation table. */
  lemma DoubledShuffleIsTable(js: seq<int>)
    requires ValidSwaps(256, js)
    ensures var s := Shuffled(Identity(256), js, |js|);
            IsPermutationTable(s + s)
  {
    var s := Shuffled(Identity(256), js, |js|);
    var t := s + s;
    assert |t| == 512;
    assert t[..256] == s;
    assert IsPermutation(t[..256], 256);
    forall i | 0 <= i < 256
      ensures t[i + 256] == t[i]
    {
    }
  }

  /** In a permutation table every entry lies in 0..255, and every value
      0..255 occurs exactly twice: once at some i < 256 and once at i + 256. */
  lemma {:induction false} TableCounts(t: seq<int>)
    requires IsPermutationTable(t)
    ensures ByteTable(t)
    ensures forall v :: 0 <= v < 256 ==> multiset(t)[v] == 2
  {
    var half := t[..256];
    assert t == half + half by {
      forall i | 0 <= i < 512 ensures t[i] == (half + half)[i] {
        if i >= 256 { assert t[(i - 256) + 256] == t[i - 256]; }
      }
    }
    forall i | 0 <= i < 512 ensures 0 <= t[i] < 256 {
      var k := if i < 256 then i else i - 256;
      assert t[i] == half[k];
      assert half[k] in multiset(half);
      IdentityCount(256, half[k]);
    }
    forall v | 0 <= v < 256 ensures multiset(t)[v] == 2 {
      IdentityCount(256, v);
    }
  }
}
