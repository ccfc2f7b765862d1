/**
 What the checksum at the end of a transferred block says about the block. Context byte p counts in
 column p mod 128; the last 128 bytes hold the XOR of the columns.
 */
module Checksum {
  import opened Basics

  const CHECKSUM_SIZE: nat := 128

  /** XOR of the first n bytes that lie in column c. */
  function Fold(data: seq<Byte>, c: nat, n: nat): Byte
    requires n <= |data|
  {
    if n == 0 then 0
    else if (n - 1) % CHECKSUM_SIZE == c then Fold(data, c, n - 1) ^ data[n - 1]
    else Fold(data, c, n - 1)
  }

  /** The bytes of a block that are not checksum. */
  function ContextSize(size: nat): nat
    requires size > CHECKSUM_SIZE
  {
    size - CHECKSUM_SIZE
  }

  /** Checksum byte j is column j of the context. */
  predicate ColumnOk(data: seq<Byte>, size: nat, j: nat)
    requires size > CHECKSUM_SIZE && |data| == size && j < CHECKSUM_SIZE
  {
    data[ContextSize(size) + j] == Fold(data, j, ContextSize(size))
  }

  /** The block is one of `size` bytes, and its last 128 are the columns of the rest. */
  predicate Verifies(data: seq<Byte>, size: nat)
    requires size > CHECKSUM_SIZE
  {
    && |data| == size
    && forall j :: 0 <= j < CHECKSUM_SIZE ==> ColumnOk(data, size, j)
  }

  /** Only the first n bytes matter. */
  lemma {:induction false} FoldAgrees(a: seq<Byte>, b: seq<Byte>, c: nat, n: nat)
    requires n <= |a| && n <= |b| && a[..n] == b[..n]
    ensures Fold(a, c, n) == Fold(b, c, n)
  {
    if n > 0 {
      assert a[n - 1] == a[..n][n - 1] == b[..n][n - 1];
      assert a[..n - 1] == a[..n][..n - 1] == b[..n][..n - 1] == b[..n - 1];
      FoldAgrees(a, b, c, n - 1);
    }
  }

  // ---------------------------------------------------------------- which changes are noticed

  /** The bits in which two blocks of the same size differ. */
  function Difference(a: seq<Byte>, b: seq<Byte>): (e: seq<Byte>)
    requires |a| == |b|
    ensures |e| == |a|
  {
    seq(|a|, i requires 0 <= i < |a| => a[i] ^ b[i])
  }

  /** All error bytes of column j, context and checksum together. */
  function ErrorIn(e: seq<Byte>, size: nat, j: nat): Byte
    requires size > CHECKSUM_SIZE && |e| == size && j < CHECKSUM_SIZE
  {
    Fold(e, j, ContextSize(size)) ^ e[ContextSize(size) + j]
  }

  lemma XorExchanges(x: Byte, y: Byte, a: Byte, b: Byte)
    ensures (x ^ y) ^ (a ^ b) == (x ^ a) ^ (y ^ b)
  {
  }

  lemma {:induction false} FoldOfDifference(a: seq<Byte>, b: seq<Byte>, c: nat, n: nat)
    requires |a| == |b| && n <= |a|
    ensures Fold(Difference(a, b), c, n) == Fold(a, c, n) ^ Fold(b, c, n)
  {
    if n == 0 {
      NoDifference();
    } else {
      FoldOfDifference(a, b, c, n - 1);
      if (n - 1) % CHECKSUM_SIZE == c {
        FoldStep(Difference(a, b), a, b, c, n - 1);
      }
    }
  }

  lemma FoldStep(e: seq<Byte>, a: seq<Byte>, b: seq<Byte>, c: nat, n: nat)
    requires n < |a| == |b| == |e| && n % CHECKSUM_SIZE == c
    requires e[n] == a[n] ^ b[n]
    requires Fold(e, c, n) == Fold(a, c, n) ^ Fold(b, c, n)
    ensures Fold(e, c, n + 1) == Fold(a, c, n + 1) ^ Fold(b, c, n + 1)
  {
    XorExchanges(Fold(a, c, n), Fold(b, c, n), a[n], b[n]);
    FoldHit(e, c, n);
    FoldHit(a, c, n);
    FoldHit(b, c, n);
  }

  lemma FoldHit(data: seq<Byte>, c: nat, n: nat)
    requires n < |data| && n % CHECKSUM_SIZE == c
    ensures Fold(data, c, n + 1) == Fold(data, c, n) ^ data[n]
  {
  }

  lemma NoDifference()
    ensures (0 as Byte) ^ 0 == 0
  {
  }

  /** If one side checks, the other does exactly when the errors cancel. */
  lemma XorCancels(context: Byte, context': Byte, check: Byte, check': Byte)
    requires check == context
    ensures check' == context' <==> (context ^ context') ^ (check ^ check') == 0
  {
  }

  lemma ColumnVerifies(data: seq<Byte>, copy: seq<Byte>, size: nat, j: nat)
    requires size > CHECKSUM_SIZE && Verifies(data, size) && |copy| == size && j < CHECKSUM_SIZE
    ensures ColumnOk(copy, size, j)
      <==> ErrorIn(Difference(data, copy), size, j) == 0
  {
    var n := ContextSize(size);
    assert ColumnOk(data, size, j);
    FoldOfDifference(data, copy, j, n);
    XorCancels(Fold(data, j, n), Fold(copy, j, n), data[n + j], copy[n + j]);
  }

  /** A changed copy of a block that verifies is accepted if and only if the errors XOR to zero in
      every column. */
  lemma AcceptedIff(data: seq<Byte>, copy: seq<Byte>, size: nat)
    requires size > CHECKSUM_SIZE && Verifies(data, size) && |copy| == size
    ensures Verifies(copy, size)
      <==> forall j :: 0 <= j < CHECKSUM_SIZE ==> ErrorIn(Difference(data, copy), size, j) == 0
  {
    forall j | 0 <= j < CHECKSUM_SIZE
      ensures ColumnOk(copy, size, j)
        <==> ErrorIn(Difference(data, copy), size, j) == 0
    {
      ColumnVerifies(data, copy, size, j);
    }
  }

  /** A column whose only non-zero byte among the first n is at p folds to that byte. */
  lemma {:induction false} FoldOfOne(e: seq<Byte>, p: nat, n: nat)
    requires n <= |e| && p < |e|
    requires forall i :: 0 <= i < n && i != p && i % CHECKSUM_SIZE == p % CHECKSUM_SIZE ==> e[i] == 0
    ensures Fold(e, p % CHECKSUM_SIZE, n) == if p < n then e[p] else 0
  {
    if n > 0 {
      FoldOfOne(e, p, n - 1);
    }
  }

  lemma DifferentBytes(a: Byte, b: Byte)
    ensures a ^ b == 0 <==> a == b
  {
  }

  /** Any change confined to 128 consecutive context bytes is rejected. */
  lemma BurstRejected(data: seq<Byte>, copy: seq<Byte>, size: nat, from: nat, p: nat)
    requires size > CHECKSUM_SIZE && Verifies(data, size) && |copy| == size
    requires p < size - 128 && data[p] != copy[p]
    requires forall i :: 0 <= i < size && !(from <= i < from + 128 && i < size - 128) ==> data[i] == copy[i]
    ensures !Verifies(copy, size)
  {
    var e := Difference(data, copy);
    var n := ContextSize(size);
    forall i | 0 <= i < size
      ensures e[i] == 0 <==> data[i] == copy[i]
    {
      DifferentBytes(data[i], copy[i]);
    }
    forall i | 0 <= i < n && i != p && i % CHECKSUM_SIZE == p % CHECKSUM_SIZE
      ensures e[i] == 0
    {
      SameColumnFarApart(i, p);
    }
    FoldOfOne(e, p, n);
    assert ErrorIn(e, size, p % CHECKSUM_SIZE) == e[p] ^ 0;
    AcceptedIff(data, copy, size);
  }

  lemma SameColumnFarApart(i: nat, p: nat)
    requires i != p && i % CHECKSUM_SIZE == p % CHECKSUM_SIZE
    ensures i >= p + CHECKSUM_SIZE || p >= i + CHECKSUM_SIZE
  {
  }

  /** So is any change confined to the checksum itself. */
  lemma ChecksumChangeRejected(data: seq<Byte>, copy: seq<Byte>, size: nat, j: nat)
    requires size > CHECKSUM_SIZE && Verifies(data, size) && |copy| == size
    requires j < CHECKSUM_SIZE && data[ContextSize(size) + j] != copy[ContextSize(size) + j]
    requires data[..ContextSize(size)] == copy[..ContextSize(size)]
    ensures !Verifies(copy, size)
  {
    FoldAgrees(data, copy, j, ContextSize(size));
    assert ColumnOk(data, size, j);
    assert !ColumnOk(copy, size, j);
  }

  // ---------------------------------------------------------------- which changes are not

  /** The bytes of column c among the first n, in order. */
  function Column(data: seq<Byte>, c: nat, n: nat): seq<Byte>
    requires n <= |data|
  {
    if n == 0 then []
    else if (n - 1) % CHECKSUM_SIZE == c then Column(data, c, n - 1) + [data[n - 1]]
    else Column(data, c, n - 1)
  }

  /** Column c holds the bytes at c, c + 128, c + 256, ... and no others. */
  lemma {:induction false} ColumnIs(data: seq<Byte>, c: nat, n: nat)
    requires n <= |data| && c < 128
    ensures n <= c + 128 * |Column(data, c, n)| < n + 128
    ensures forall q :: 0 <= q < |Column(data, c, n)| ==> c + 128 * q < n && Column(data, c, n)[q] == data[c + 128 * q]
  {
    if n > 0 {
      ColumnIs(data, c, n - 1);
    }
  }

  function XorAll(s: seq<Byte>): Byte {
    if s == [] then 0 else XorAll(s[..|s| - 1]) ^ s[|s| - 1]
  }

  lemma {:induction false} FoldIsXorOfColumn(data: seq<Byte>, c: nat, n: nat)
    requires n <= |data|
    ensures Fold(data, c, n) == XorAll(Column(data, c, n))
  {
    if n > 0 {
      FoldIsXorOfColumn(data, c, n - 1);
    }
  }

  /** The last 128 bytes are, one by one, the XOR of every 128th byte before them. */
  predicate EndsInColumns(data: seq<Byte>, n: nat) {
    |data| == n + 128 && forall j :: 0 <= j < 128 ==> data[n + j] == XorAll(Column(data, j, n))
  }

  /** That is what it takes to verify. */
  lemma VerifiesIff(data: seq<Byte>, size: nat)
    requires size > CHECKSUM_SIZE
    ensures Verifies(data, size) <==> size > 128 && EndsInColumns(data, size - 128)
  {
    if |data| == size {
      var n := ContextSize(size);
      forall j | 0 <= j < CHECKSUM_SIZE
        ensures Fold(data, j, n) == XorAll(Column(data, j, n))
      {
        FoldIsXorOfColumn(data, j, n);
      }
      if Verifies(data, size) {
        forall j | 0 <= j < 128
          ensures data[n + j] == XorAll(Column(data, j, n))
        {
          assert ColumnOk(data, size, j);
        }
      } else {
        var j :| 0 <= j < CHECKSUM_SIZE && !ColumnOk(data, size, j);
        assert data[n + j] != XorAll(Column(data, j, n));
      }
    }
  }

  lemma XorOneMore(s: seq<Byte>, x: Byte)
    ensures XorAll([]) == 0 && XorAll(s + [x]) == XorAll(s) ^ x
  {
    assert (s + [x])[..|s|] == s;
  }

  /** Taking one element out of the middle. */
  lemma {:induction false} XorWithout(s: seq<Byte>, i: nat)
    requires i < |s|
    ensures XorAll(s) == XorAll(s[..i] + s[i + 1..]) ^ s[i]
  {
    if i == |s| - 1 {
      assert s[..i] + s[i + 1..] == s[..|s| - 1];
    } else {
      var front := s[..|s| - 1];
      var last := s[|s| - 1];
      var rest := s[..i] + s[i + 1..];
      XorWithout(front, i);
      assert rest[..|rest| - 1] == front[..i] + front[i + 1..];
      assert rest[|rest| - 1] == last && front[i] == s[i];
      var x := XorAll(front[..i] + front[i + 1..]);
      assert (x ^ s[i]) ^ last == (x ^ last) ^ s[i];
    }
  }

  /** XOR does not see the order. */
  lemma {:induction false} XorOfPermutation(s: seq<Byte>, t: seq<Byte>)
    requires multiset(s) == multiset(t)
    ensures XorAll(s) == XorAll(t)
    decreases |s|
  {
    if s == [] {
      assert |multiset(t)| == |t| == 0;
    } else {
      var last := s[|s| - 1];
      var front := s[..|s| - 1];
      assert s == front + [last];
      assert multiset(s) == multiset(front) + multiset{last};
      assert last in multiset(t);
      var i :| 0 <= i < |t| && t[i] == last;
      WithoutOne(t, i);
      SameRest(multiset(front), multiset(t[..i] + t[i + 1..]), last);
      XorOfPermutation(front, t[..i] + t[i + 1..]);
      XorWithout(t, i);
    }
  }

  lemma SameRest(a: multiset<Byte>, b: multiset<Byte>, x: Byte)
    requires a + multiset{x} == b + multiset{x}
    ensures a == b
  {
    assert a == (a + multiset{x}) - multiset{x};
    assert b == (b + multiset{x}) - multiset{x};
  }

  lemma WithoutOne(t: seq<Byte>, i: nat)
    requires i < |t|
    ensures multiset(t) == multiset(t[..i] + t[i + 1..]) + multiset{t[i]}
  {
    assert t == t[..i] + [t[i]] + t[i + 1..];
  }

  /** Column c holds the same bytes, in whatever order. */
  predicate SameBytes(a: seq<Byte>, b: seq<Byte>, c: nat, n: nat)
    requires n <= |a| && n <= |b|
  {
    multiset(Column(a, c, n)) == multiset(Column(b, c, n))
  }

  /** A copy whose context bytes only changed places within their columns is accepted. */
  lemma ColumnPermutationAccepted(data: seq<Byte>, copy: seq<Byte>, size: nat)
    requires size > CHECKSUM_SIZE && Verifies(data, size) && |copy| == size
    requires copy[ContextSize(size)..] == data[ContextSize(size)..]
    requires forall c :: 0 <= c < CHECKSUM_SIZE ==> SameBytes(data, copy, c, ContextSize(size))
    ensures Verifies(copy, size)
  {
    var n := ContextSize(size);
    forall j | 0 <= j < CHECKSUM_SIZE
      ensures ColumnOk(copy, size, j)
    {
      assert ColumnOk(data, size, j) && SameBytes(data, copy, j, ContextSize(size));
      FoldIsXorOfColumn(data, j, n);
      FoldIsXorOfColumn(copy, j, n);
      XorOfPermutation(Column(data, j, n), Column(copy, j, n));
      assert copy[n + j] == copy[n..][j] == data[n..][j] == data[n + j];
    }
  }
}
