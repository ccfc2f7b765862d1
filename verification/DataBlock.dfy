/**
 Making and checking the transferred block: the loops of CalcChecksum, GenerateDataToSend and
 VerifyDataReceived. A failed AKCHECK stops the program.
 */
module DataBlock {
  import opened Basics
  import opened Checksum

  method CalcChecksum(data: array<Byte>, dataSize: nat) returns (r: Result<seq<Byte>>)
    requires dataSize <= data.Length + 128 // the context lies inside the vector
    ensures r.Stopped? <==> dataSize <= 128
    ensures r.Ok? ==>
      && |r.value| == 128
      && forall j :: 0 <= j < 128 ==> r.value[j] == Fold(data[..], j, dataSize - 128)
  {
    if dataSize <= CHECKSUM_SIZE {
      return Stopped;
    }
    var contextSize := dataSize - CHECKSUM_SIZE;
    var checksum := new Byte[CHECKSUM_SIZE](_ => 0);
    for i := 0 to contextSize
      invariant forall j :: 0 <= j < CHECKSUM_SIZE ==> checksum[j] == Fold(data[..], j, i)
    {
      checksum[i % CHECKSUM_SIZE] := checksum[i % CHECKSUM_SIZE] ^ data[i];
    }
    return Ok(checksum[..]);
  }

  /** The answer of VerifyDataReceived is whether the block verifies. */
  method VerifyDataReceived(data: array<Byte>, dataSize: nat) returns (r: Result<bool>)
    ensures r.Stopped? <==> dataSize <= 128
    ensures r.Ok? ==> (r.value <==> Verifies(data[..], dataSize))
  {
    if dataSize <= CHECKSUM_SIZE {
      return Stopped;
    }
    var contextSize := dataSize - CHECKSUM_SIZE;
    if data.Length != dataSize {
      return Ok(false);
    }
    var checksum := CalcChecksum(data, dataSize);
    for i := 0 to CHECKSUM_SIZE
      invariant forall j :: 0 <= j < i ==> ColumnOk(data[..], dataSize, j)
    {
      if data[contextSize + i] != checksum.value[i] {
        assert !ColumnOk(data[..], dataSize, i);
        return Ok(false);
      }
      assert ColumnOk(data[..], dataSize, i);
    }
    return Ok(true);
  }

  // ---------------------------------------------------------------- a vector that remembers its stores

  datatype Write = Write(at: nat, value: Byte)

  /** What a vector holds after the stores of a log. */
  function Replay(cells: seq<Byte>, log: seq<Write>): (r: seq<Byte>)
    ensures |r| == |cells|
    decreases |log|
  {
    if log == [] then cells
    else
      var before := Replay(cells, log[..|log| - 1]);
      var last := log[|log| - 1];
      if last.at < |cells| then before[last.at := last.value] else before
  }

  /** How often byte p is stored to. */
  function Times(log: seq<Write>, p: nat): nat {
    if log == [] then 0
    else Times(log[..|log| - 1], p) + if log[|log| - 1].at == p then 1 else 0
  }

  lemma TimesOneMore(log: seq<Write>, w: Write)
    ensures forall p: nat :: Times(log + [w], p) == Times(log, p) + (if w.at == p then 1 else 0)
  {
    assert (log + [w])[..|log|] == log;
  }

  lemma ReplayOneMore(cells: seq<Byte>, log: seq<Write>, w: Write)
    requires w.at < |cells|
    ensures Replay(cells, log + [w]) == Replay(cells, log)[w.at := w.value]
  {
    assert (log + [w])[..|log|] == log;
  }

  /** std::vector<uint8_t>: zeroed when made, and holding exactly what has been stored since. */
  class Vector {
    const cells: array<Byte>
    ghost var log: seq<Write>

    ghost predicate Valid()
      reads this, cells
    {
      cells[..] == Replay(seq(cells.Length, _ => 0), log)
    }

    constructor (size: nat)
      ensures Valid() && fresh(cells) && cells.Length == size && log == []
    {
      cells := new Byte[size](_ => 0);
      log := [];
    }

    method Store(at: nat, value: Byte)
      requires Valid() && at < cells.Length
      modifies this, cells
      ensures Valid() && log == old(log) + [Write(at, value)]
      ensures cells[..] == old(cells[..])[at := value]
    {
      cells[at] := value;
      ReplayOneMore(seq(cells.Length, _ => 0), log, Write(at, value));
      log := log + [Write(at, value)];
    }
  }

  /** Between the two logs each byte in [from, to) has been stored to once, and no other. */
  ghost predicate OnceEach(before: seq<Write>, after: seq<Write>, from: nat, to: nat) {
    forall p: nat :: Times(after, p) == Times(before, p) + (if from <= p < to then 1 else 0)
  }

  lemma OnceMore(before: seq<Write>, after: seq<Write>, from: nat, to: nat, value: Byte)
    requires OnceEach(before, after, from, to) && from <= to
    ensures OnceEach(before, after + [Write(to, value)], from, to + 1)
  {
    TimesOneMore(after, Write(to, value));
  }

  lemma OnceThen(a: seq<Write>, b: seq<Write>, c: seq<Write>, from: nat, mid: nat, to: nat)
    requires OnceEach(a, b, from, mid) && OnceEach(b, c, mid, to) && from <= mid <= to
    ensures OnceEach(a, c, from, to)
  {
  }

  // ---------------------------------------------------------------- generation

  /** A 64-bit word by its bytes, the lowest first: the order in which an 8-byte store lays them down on
      the little-endian machines the benchmarks run on. The cast of `x & 0xFF` is byte 0. */
  type Word = w: seq<Byte> | |w| == 8 witness [0, 0, 0, 0, 0, 0, 0, 0]

  /** How many words the first loop stores into a context of n bytes. It stops one word early when
      n is a multiple of 8. */
  function Words(n: nat): nat {
    if n == 0 then 0 else (n - 1) / 8
  }

  /** The first loop leaves between one and eight bytes to the second, unless there are none at all. */
  lemma WordsIs(n: nat)
    ensures n == 0 ==> Words(n) == 0
    ensures n > 0 ==> 8 * Words(n) < n <= 8 * Words(n) + 8
  {
  }

  /** Context byte p when the generator returns draws(0), draws(1), ... */
  function ContextByte(draws: nat -> Word, n: nat, p: nat): Byte {
    if p < 8 * Words(n) then draws(p / 8)[p % 8]
    else draws(Words(n) + (p - 8 * Words(n)))[0]
  }

  /** The n context bytes that come out of the generator. */
  function Context(draws: nat -> Word, n: nat): (bytes: seq<Byte>)
    ensures |bytes| == n
  {
    seq(n, p requires 0 <= p < n => ContextByte(draws, n, p))
  }

  /** The same without Words: a byte of a whole word as long as more than eight are left, so before
      8 * q with q = (n - 1) / 8, and after that the low byte of a draw of its own. */
  lemma ContextFromDraws(draws: nat -> Word, n: nat)
    ensures forall p :: 0 <= p < n ==>
      Context(draws, n)[p] ==
      if p / 8 < (n - 1) / 8 then draws(p / 8)[p % 8] else draws((n - 1) / 8 + (p - 8 * ((n - 1) / 8)))[0]
  {
  }

  /** The last byte is the low byte of the last draw. */
  lemma LastByte(draws: nat -> Word, n: nat)
    requires n > 0
    ensures Context(draws, n)[n - 1] == draws((n - 1) / 8 + (n - 1) % 8)[0]
  {
  }

  /** A block of `size` bytes whose context is the stream and whose checksum fits: there is one. */
  ghost predicate Generated(data: seq<Byte>, draws: nat -> Word, size: nat)
    requires size > CHECKSUM_SIZE
  {
    Verifies(data, size) && data[..ContextSize(size)] == Context(draws, ContextSize(size))
  }

  lemma GeneratedOnce(a: seq<Byte>, b: seq<Byte>, draws: nat -> Word, size: nat)
    requires size > CHECKSUM_SIZE && Generated(a, draws, size) && Generated(b, draws, size)
    ensures a == b
  {
    var n := ContextSize(size);
    forall p | n <= p < size
      ensures a[p] == b[p]
    {
      FoldAgrees(a, b, p - n, n);
      assert ColumnOk(a, size, p - n) && ColumnOk(b, size, p - n);
    }
    assert a == a[..n] + a[n..] && b == b[..n] + b[n..];
  }

  /** The bytes of a block that is sent: the draws, then the XOR of each column. */
  lemma GeneratedBytes(data: seq<Byte>, draws: nat -> Word, size: nat, n: nat, q: nat)
    requires size > CHECKSUM_SIZE && Generated(data, draws, size)
    requires n + 128 == size && q == (n - 1) / 8
    ensures |data| == size
    ensures forall p :: 0 <= p < n ==>
      data[p] == if p / 8 < q then draws(p / 8)[p % 8] else draws(q + (p - 8 * q))[0]
    ensures forall j :: 0 <= j < 128 ==> data[n + j] == XorAll(Column(data, j, n))
  {
    ContextFromDraws(draws, n);
    assert forall p :: 0 <= p < n ==> data[p] == data[..n][p] == Context(draws, n)[p];
    forall j | 0 <= j < 128
      ensures data[n + j] == XorAll(Column(data, j, n))
    {
      assert ColumnOk(data, size, j);
      FoldIsXorOfColumn(data, j, n);
    }
  }

  /** Stores bytes one after the other: those of a word, or those of the checksum. */
  method StoreBytes(v: Vector, at: nat, bytes: seq<Byte>)
    requires v.Valid() && at + |bytes| <= v.cells.Length
    modifies v, v.cells
    ensures v.Valid() && OnceEach(old(v.log), v.log, at, at + |bytes|)
    ensures v.cells[..at] == old(v.cells[..at])
    ensures v.cells[at..at + |bytes|] == bytes
    ensures v.cells[at + |bytes|..] == old(v.cells[at + |bytes|..])
  {
    for k := 0 to |bytes|
      invariant v.Valid() && OnceEach(old(v.log), v.log, at, at + k)
      invariant v.cells[..at] == old(v.cells[..at])
      invariant v.cells[at..at + k] == bytes[..k]
      invariant v.cells[at + k..] == old(v.cells[at + k..])
    {
      OnceMore(old(v.log), v.log, at, at + k, bytes[k]);
      v.Store(at + k, bytes[k]);
    }
  }

  /** A word of the stream lands where it belongs. */
  lemma ContextWord(draws: nat -> Word, n: nat, i: nat)
    requires i % 8 == 0 && i + 8 < n
    ensures Context(draws, n)[i..i + 8] == draws(i / 8)
  {
    assert i / 8 + 1 <= Words(n);
    forall k | 0 <= k < 8
      ensures ContextByte(draws, n, i + k) == draws(i / 8)[k]
    {
      SameWord(i / 8, k);
    }
  }

  /** And so does the low byte of a word drawn for the tail. */
  lemma ContextTail(draws: nat -> Word, n: nat, i: nat)
    requires 8 * Words(n) <= i < n
    ensures Context(draws, n)[i] == draws(Words(n) + (i - 8 * Words(n)))[0]
  {
  }

  lemma SameWord(w: nat, k: nat)
    requires k < 8
    ensures (8 * w + k) / 8 == w && (8 * w + k) % 8 == k
  {
  }

  /** The first i cells hold the first i bytes of the context, the others what they held before. */
  ghost predicate FilledTo(start: seq<Byte>, cells: seq<Byte>, context: seq<Byte>, i: nat) {
    && |cells| == |start| && i <= |context| <= |start|
    && cells[..i] == context[..i]
    && cells[i..] == start[i..]
  }

  lemma FillsOn(start: seq<Byte>, before: seq<Byte>, after: seq<Byte>, context: seq<Byte>, i: nat, j: nat)
    requires FilledTo(start, before, context, i) && |after| == |start| && i <= j <= |context|
    requires after[..i] == before[..i] && after[i..j] == context[i..j] && after[j..] == before[j..]
    ensures FilledTo(start, after, context, j)
  {
    assert after[..j] == after[..i] + after[i..j];
    assert context[..j] == context[..i] + context[i..j];
    assert before[j..] == before[i..][j - i..] == start[i..][j - i..] == start[j..];
  }

  /** The stores of one word, or of one byte in the tail. */
  method FillBytes(v: Vector, ghost start: seq<Byte>, ghost log: seq<Write>, ghost context: seq<Byte>, i: nat, bytes: seq<Byte>)
    requires v.Valid() && i + |bytes| <= |context| && bytes == context[i..i + |bytes|]
    requires FilledTo(start, v.cells[..], context, i) && OnceEach(log, v.log, 0, i)
    modifies v, v.cells
    ensures v.Valid() && FilledTo(start, v.cells[..], context, i + |bytes|) && OnceEach(log, v.log, 0, i + |bytes|)
  {
    ghost var before, soFar := v.cells[..], v.log;
    StoreBytes(v, i, bytes);
    OnceThen(log, soFar, v.log, 0, i, i + |bytes|);
    FillsOn(start, before, v.cells[..], context, i, i + |bytes|);
  }

  /** The 8-byte loop. */
  method FillWords(v: Vector, ghost start: seq<Byte>, ghost log: seq<Write>, contextSize: nat, draws: nat -> Word)
    returns (i: nat, drawn: nat)
    requires v.Valid() && log == v.log && start == v.cells[..] && contextSize <= |start|
    modifies v, v.cells
    ensures i == 8 * Words(contextSize) <= contextSize && drawn == Words(contextSize)
    ensures v.Valid() && FilledTo(start, v.cells[..], Context(draws, contextSize), i) && OnceEach(log, v.log, 0, i)
  {
    ghost var context := Context(draws, contextSize);
    i, drawn := 0, 0;
    while i + 8 < contextSize
      invariant i == 8 * drawn && drawn <= Words(contextSize) && i <= contextSize
      invariant v.Valid() && FilledTo(start, v.cells[..], context, i) && OnceEach(log, v.log, 0, i)
    {
      ContextWord(draws, contextSize, i);
      FillBytes(v, start, log, context, i, draws(drawn));
      i, drawn := i + 8, drawn + 1;
    }
  }

  /** The tail loop. */
  method FillTail(v: Vector, ghost start: seq<Byte>, ghost log: seq<Write>, contextSize: nat, draws: nat -> Word,
                  from: nat, drawnBefore: nat)
    requires from == 8 * Words(contextSize) <= contextSize && drawnBefore == Words(contextSize)
    requires v.Valid() && FilledTo(start, v.cells[..], Context(draws, contextSize), from) && OnceEach(log, v.log, 0, from)
    modifies v, v.cells
    ensures v.Valid() && FilledTo(start, v.cells[..], Context(draws, contextSize), contextSize)
    ensures OnceEach(log, v.log, 0, contextSize)
  {
    ghost var context := Context(draws, contextSize);
    var i, drawn := from, drawnBefore;
    while i < contextSize
      invariant from <= i <= contextSize && drawn == drawnBefore + (i - from)
      invariant v.Valid() && FilledTo(start, v.cells[..], context, i) && OnceEach(log, v.log, 0, i)
    {
      ContextTail(draws, contextSize, i);
      assert [draws(drawn)[0]] == context[i..i + 1];
      FillBytes(v, start, log, context, i, [draws(drawn)[0]]);
      i, drawn := i + 1, drawn + 1;
    }
  }

  /** The two loops together: each context byte is stored to exactly once, and nothing beyond the
      context is. */
  method FillContext(v: Vector, contextSize: nat, draws: nat -> Word)
    requires v.Valid() && contextSize <= v.cells.Length
    modifies v, v.cells
    ensures v.Valid() && OnceEach(old(v.log), v.log, 0, contextSize)
    ensures v.cells[..contextSize] == Context(draws, contextSize)
    ensures forall p :: 0 <= p < contextSize ==>
      v.cells[p] ==
      if p / 8 < (contextSize - 1) / 8 then draws(p / 8)[p % 8]
      else draws((contextSize - 1) / 8 + (p - 8 * ((contextSize - 1) / 8)))[0]
    ensures v.cells[contextSize..] == old(v.cells[contextSize..])
  {
    ContextFromDraws(draws, contextSize);
    ghost var start, log := v.cells[..], v.log;
    var i, drawn := FillWords(v, start, log, contextSize, draws);
    FillTail(v, start, log, contextSize, draws, i, drawn);
    assert forall p :: 0 <= p < contextSize ==> v.cells[p] == v.cells[..contextSize][p];
  }

  /** Whatever the generator returns, the block that is sent verifies, its context is the stream, and
      each of its bytes is stored to exactly once. */
  method GenerateDataToSend(dataSize: nat, draws: nat -> Word) returns (r: Result<Vector>)
    ensures r.Stopped? <==> dataSize <= 128
    ensures r.Ok? ==> fresh(r.value) && fresh(r.value.cells) && r.value.Valid()
    ensures r.Ok? ==> Generated(r.value.cells[..], draws, dataSize)
    ensures r.Ok? ==> OnceEach([], r.value.log, 0, dataSize)
  {
    if dataSize <= CHECKSUM_SIZE {
      return Stopped;
    }
    var contextSize := dataSize - CHECKSUM_SIZE;
    var v := new Vector(dataSize);
    FillContext(v, contextSize, draws);
    var checksum := CalcChecksum(v.cells, dataSize);
    ghost var filled, log := v.cells[..], v.log;
    StoreBytes(v, contextSize, checksum.value);
    OnceThen([], log, v.log, 0, contextSize, dataSize);
    Assembled(v.cells[..], filled, checksum.value, draws, dataSize);
    return Ok(v);
  }

  lemma Assembled(data: seq<Byte>, filled: seq<Byte>, checksum: seq<Byte>, draws: nat -> Word, size: nat)
    requires size > CHECKSUM_SIZE && |data| == |filled| == size && |checksum| == CHECKSUM_SIZE
    requires data[..ContextSize(size)] == filled[..ContextSize(size)] && data[ContextSize(size)..] == checksum
    requires forall j :: 0 <= j < CHECKSUM_SIZE ==> checksum[j] == Fold(filled, j, ContextSize(size))
    requires filled[..ContextSize(size)] == Context(draws, ContextSize(size))
    ensures Generated(data, draws, size)
  {
    var n := ContextSize(size);
    forall j | 0 <= j < CHECKSUM_SIZE
      ensures ColumnOk(data, size, j)
    {
      assert data[n + j] == data[n..][j];
      FoldAgrees(data, filled, j, n);
    }
  }
}
