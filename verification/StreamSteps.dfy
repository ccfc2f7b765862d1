/** Every step of the sender and of the receiver keeps the stream's invariant. */
module StreamSteps {
  import opened Basics
  import opened StreamClient
  import opened StreamInvariant

  // ---------------------------------------------------------------- message lengths

  lemma {:induction false} SumAppend(marks: seq<nat>, n: nat)
    ensures Sum(marks + [n]) == Sum(marks) + n
  {
    if marks != [] {
      assert (marks + [n])[1..] == marks[1..] + [n];
      SumAppend(marks[1..], n);
    }
  }

  lemma {:induction false} SumPositive(marks: seq<nat>)
    requires forall i :: 0 <= i < |marks| ==> marks[i] >= 1
    ensures Sum(marks) >= |marks|
  {
    if marks != [] {
      SumPositive(marks[1..]);
    }
  }

  /** Bytes are in transit exactly when the channel is not empty. */
  lemma EmptyIs(k: Config, c: Client)
    requires Messages(k, c)
    ensures Empty(k, c) <==> c.bytes == []
  {
    if k.channel.QueueChannel? {
      SumPositive(c.marks);
    }
  }

  // ---------------------------------------------------------------- the calls

  lemma SenderCounts(k: Config, c: Client, amount: nat)
    requires SenderOk(k, c.s)
    ensures var (c', call) := SenderStep(k, c, amount);
      && c'.r == c.r
      && SenderCalls(c'.s) == SenderCalls(c.s) + (if call.DoWait? then 1 else 0)
      && (call.DoWait? ==> c'.s.pc.SBegin? && SenderCalls(c.s) < k.iterations)
      && (call.DoLeave? <==> c'.s.pc.SDone? && !c.s.pc.SDone?)
  {
  }

  lemma ReceiverCounts(k: Config, c: Client, amount: nat)
    requires ReceiverOk(k, c.r)
    ensures var (c', call) := ReceiverStep(k, c, amount);
      && c'.s == c.s
      && ReceiverCalls(c'.r) == ReceiverCalls(c.r) + (if call.DoWait? then 1 else 0)
      && (call.DoWait? ==> c'.r.pc.RBegin? && ReceiverCalls(c.r) < k.iterations)
      && (call.DoLeave? <==> c'.r.pc.RDone? && !c.r.pc.RDone?)
  {
  }

  // ---------------------------------------------------------------- writing

  /** What a write does when it is not blocked. */
  lemma WriteEffect(k: Config, c: Client, amount: nat)
    requires Valid(k) && c.s.total < |k.data| && !Full(k, c) && (k.channel.QueueChannel? || c.readers > 0)
    ensures var n := Written(k, c, Min(k.bufferSize, |k.data| - c.s.total), amount);
      && 1 <= n <= k.bufferSize && c.s.total + n <= |k.data|
      && Write(k, c, amount) ==
         c.(s := c.s.(total := c.s.total + n),
            bytes := c.bytes + k.data[c.s.total..c.s.total + n],
            marks := if k.channel.QueueChannel? then c.marks + [n] else c.marks)
  {
  }

  lemma WriteStep(k: Config, c: Client, amount: nat)
    requires Valid(k) && ClientOk(k, c) && Close(c) && SenderCalls(c.s) <= ReceiverCalls(c.r)
    requires c.s.pc.SLoop? && c.s.total < |k.data|
    ensures ClientOk(k, Write(k, c, amount))
  {
    WriteTogether(k, c);
    if !Full(k, c) {
      WriteEffect(k, c, amount);
      var n := Written(k, c, Min(k.bufferSize, |k.data| - c.s.total), amount);
      WriteTransit(k, c, n, Write(k, c, amount).marks);
      WriteMessages(k, c, n, Write(k, c, amount));
      WriteEnds(k, c, n, Write(k, c, amount));
    }
  }

  lemma WriteMessages(k: Config, c: Client, n: nat, c': Client)
    requires Messages(k, c) && !Full(k, c) && 1 <= n <= k.bufferSize
    requires |c'.bytes| == |c.bytes| + n && c'.marks == if k.channel.QueueChannel? then c.marks + [n] else c.marks
    ensures Messages(k, c')
  {
    SumAppend(c.marks, n);
  }

  lemma WriteEnds(k: Config, c: Client, n: nat, c': Client)
    requires SenderOk(k, c.s) && Ends(k, c) && c.s.pc.SLoop? && c.s.total + n <= |k.data|
    requires c'.s == c.s.(total := c.s.total + n) && c'.r == c.r && c'.writers == c.writers && c'.readers == c.readers
    ensures SenderOk(k, c'.s) && Ends(k, c')
  {
  }

  lemma WriteTransit(k: Config, c: Client, n: nat, marks: seq<nat>)
    requires Transit(k, c) && c.s.iter == c.r.iter && c.s.pc.SLoop? && c.s.total + n <= |k.data|
    ensures Transit(k, c.(s := c.s.(total := c.s.total + n), bytes := c.bytes + k.data[c.s.total..c.s.total + n], marks := marks))
  {
    var got, sent := GotUpTo(k, c), SentUpTo(k, c);
    assert k.data[got..sent] + k.data[sent..sent + n] == k.data[got..sent + n];
  }

  // ---------------------------------------------------------------- reading

  lemma ReadEffect(k: Config, c: Client, amount: nat)
    requires Valid(k) && Messages(k, c) && !Empty(k, c)
    ensures var n := Taken(k, c, amount);
      && 1 <= n <= k.bufferSize && n <= |c.bytes|
      && Read(k, c, amount) ==
         c.(r := c.r.(got := c.r.got + c.bytes[..n]),
            bytes := c.bytes[n..],
            marks := if c.marks == [] then [] else c.marks[1..])
  {
    EmptyIs(k, c);
  }

  lemma ReadStep(k: Config, c: Client, amount: nat)
    requires Valid(k) && ClientOk(k, c) && Close(c) && ReceiverCalls(c.r) <= SenderCalls(c.s)
    requires c.r.pc.RLoop? && |c.r.got| < |k.data|
    ensures ClientOk(k, Read(k, c, amount))
  {
    ReadTogether(k, c);
    EmptyIs(k, c);
    if !Empty(k, c) {
      ReadEffect(k, c, amount);
      var n := Taken(k, c, amount);
      var got, sent := GotUpTo(k, c), SentUpTo(k, c);
      assert k.data[got..sent][..n] == k.data[got..got + n];
      assert k.data[got..sent][n..] == k.data[got + n..sent];
      assert k.data[..got] + k.data[got..got + n] == k.data[..got + n];
    }
  }

  // ---------------------------------------------------------------- the other steps

  lemma SenderMovesOn(k: Config, c: Client, amount: nat)
    requires Valid(k) && ClientOk(k, c) && Close(c) && SenderCalls(c.s) <= ReceiverCalls(c.r)
    requires !c.s.pc.SClose? && (c.s.pc.SHead? ==> c.s.iter < k.iterations)
    requires c.s.pc.SLoop? ==> c.s.total == |k.data|
    ensures ClientOk(k, SenderStep(k, c, amount).0)
  {
    if c.s.pc.SHead? || c.s.pc.SOpening? {
      SenderOpens(k, c, amount);
    } else {
      SenderInside(k, c, amount);
    }
  }

  lemma SenderOpens(k: Config, c: Client, amount: nat)
    requires ClientOk(k, c) && (c.s.pc.SOpening? || (c.s.pc.SHead? && c.s.iter < k.iterations))
    ensures ClientOk(k, SenderStep(k, c, amount).0)
  {
  }

  lemma SenderInside(k: Config, c: Client, amount: nat)
    requires ClientOk(k, c) && (c.s.pc.SBegin? || c.s.pc.SDone? || (c.s.pc.SLoop? && c.s.total == |k.data|))
    ensures ClientOk(k, SenderStep(k, c, amount).0)
  {
  }

  /** Closing the last end loses nothing. */
  lemma CloseKeeps(k: Config, c: Client)
    requires k.channel.QueueChannel? || c.writers > 1 || c.readers > 0 || c.bytes == []
    ensures CloseWriter(k, c) == c.(writers := if c.writers > 0 then c.writers - 1 else 0)
  {
  }

  lemma CloseReaderKeeps(k: Config, c: Client)
    requires k.channel.QueueChannel? || c.readers > 1 || c.writers > 0 || c.bytes == []
    ensures CloseReader(k, c) == c.(readers := if c.readers > 0 then c.readers - 1 else 0)
  {
  }

  /** A sender that has sent everything has a receiver that reads it, or has read it. */
  lemma SenderMayClose(k: Config, c: Client)
    requires ClientOk(k, c) && Close(c) && SenderCalls(c.s) <= ReceiverCalls(c.r)
    requires c.s.pc.SClose? || (c.s.pc.SHead? && c.s.iter == k.iterations)
    ensures k.channel.QueueChannel? || c.readers > 0 || c.bytes == []
  {
  }

  lemma SenderCloses(k: Config, c: Client, amount: nat)
    requires Valid(k) && ClientOk(k, c) && Close(c) && SenderCalls(c.s) <= ReceiverCalls(c.r)
    requires c.s.pc.SClose? || (c.s.pc.SHead? && c.s.iter == k.iterations)
    ensures ClientOk(k, SenderStep(k, c, amount).0)
  {
    SenderMayClose(k, c);
    if c.s.pc.SClose? {
      SenderNextIteration(k, c, amount);
    } else {
      SenderEnds(k, c, amount);
    }
  }

  lemma SenderNextIteration(k: Config, c: Client, amount: nat)
    requires ClientOk(k, c) && Close(c) && SenderCalls(c.s) <= ReceiverCalls(c.r)
    requires c.s.pc.SClose? && (k.channel.QueueChannel? || c.readers > 0 || c.bytes == [])
    ensures ClientOk(k, SenderStep(k, c, amount).0)
  {
    CloseKeeps(k, c.(s := c.s.(pc := SHead, iter := c.s.iter + 1)));
  }

  lemma SenderEnds(k: Config, c: Client, amount: nat)
    requires ClientOk(k, c) && c.s.pc.SHead? && c.s.iter == k.iterations
    requires k.channel.QueueChannel? || c.readers > 0 || c.bytes == []
    ensures ClientOk(k, SenderStep(k, c, amount).0)
  {
    CloseKeeps(k, c.(s := c.s.(pc := SDone)));
  }

  lemma ReceiverMovesOn(k: Config, c: Client, amount: nat)
    requires Valid(k) && ClientOk(k, c) && Close(c) && ReceiverCalls(c.r) <= SenderCalls(c.s)
    requires !c.r.pc.RFinish? && (c.r.pc.RHead? ==> c.r.iter < k.iterations)
    requires c.r.pc.RLoop? ==> |c.r.got| == |k.data|
    ensures ClientOk(k, ReceiverStep(k, c, amount).0)
  {
    if c.r.pc.RHead? || c.r.pc.ROpening? {
      ReceiverOpens(k, c, amount);
    } else {
      ReceiverInside(k, c, amount);
    }
  }

  lemma ReceiverOpens(k: Config, c: Client, amount: nat)
    requires ClientOk(k, c) && (c.r.pc.ROpening? || (c.r.pc.RHead? && c.r.iter < k.iterations))
    ensures ClientOk(k, ReceiverStep(k, c, amount).0)
  {
  }

  lemma ReceiverInside(k: Config, c: Client, amount: nat)
    requires ClientOk(k, c) && Close(c) && ReceiverCalls(c.r) <= SenderCalls(c.s)
    requires c.r.pc.RBegin? || c.r.pc.RDone? || (c.r.pc.RLoop? && |c.r.got| == |k.data|)
    ensures ClientOk(k, ReceiverStep(k, c, amount).0)
  {
    assert c.r.pc.RLoop? ==> c.r.got == k.data[..|k.data|] == k.data;
    assert k.data[..0] == [];
  }

  /** A receiver that has everything leaves nothing behind. */
  lemma ReceiverMayClose(k: Config, c: Client)
    requires ClientOk(k, c) && Close(c) && ReceiverCalls(c.r) <= SenderCalls(c.s)
    requires c.r.pc.RFinish? || (c.r.pc.RHead? && c.r.iter == k.iterations)
    ensures c.bytes == []
  {
  }

  lemma ReceiverCloses(k: Config, c: Client, amount: nat)
    requires Valid(k) && ClientOk(k, c) && Close(c) && ReceiverCalls(c.r) <= SenderCalls(c.s)
    requires c.r.pc.RFinish? || (c.r.pc.RHead? && c.r.iter == k.iterations)
    ensures ClientOk(k, ReceiverStep(k, c, amount).0)
  {
    ReceiverMayClose(k, c);
    if c.r.pc.RFinish? {
      ReceiverDelivers(k, c, amount);
    } else {
      ReceiverEnds(k, c, amount);
    }
  }

  lemma ReceiverDelivers(k: Config, c: Client, amount: nat)
    requires ClientOk(k, c) && c.r.pc.RFinish? && c.bytes == []
    requires Close(c) && ReceiverCalls(c.r) <= SenderCalls(c.s)
    ensures ClientOk(k, ReceiverStep(k, c, amount).0)
  {
    CloseReaderKeeps(k, c.(r := c.r.(pc := RHead, iter := c.r.iter + 1, delivered := c.r.delivered + [c.r.got])));
  }

  /** A receiver that is done closes its end of the pipe, and nothing else changes. */
  lemma ReceiverEnds(k: Config, c: Client, amount: nat)
    requires ClientOk(k, c) && c.r.pc.RHead? && c.r.iter == k.iterations && c.bytes == []
    ensures ClientOk(k, ReceiverStep(k, c, amount).0)
  {
    EndEffect(k, c, amount);
    EndTransit(k, c, Ended(k, c));
    EndOthers(k, c, Ended(k, c));
    EndEnds(k, c);
  }

  function Ended(k: Config, c: Client): Client {
    c.(r := c.r.(pc := RDone), readers := if k.channel.PipeChannel? then (if c.readers > 0 then c.readers - 1 else 0) else c.readers)
  }

  lemma EndEffect(k: Config, c: Client, amount: nat)
    requires c.r.pc.RHead? && c.r.iter >= k.iterations && c.bytes == []
    ensures ReceiverStep(k, c, amount).0 == Ended(k, c)
  {
    if k.channel.PipeChannel? {
      CloseReaderKeeps(k, c.(r := c.r.(pc := RDone)));
    }
  }

  lemma EndTransit(k: Config, c: Client, c': Client)
    requires Transit(k, c) && c'.bytes == c.bytes && c'.s == c.s && c.r.pc.RHead? && c'.r == c.r.(pc := RDone)
    ensures Transit(k, c')
  {
    assert GotUpTo(k, c') == GotUpTo(k, c);
  }

  lemma EndOthers(k: Config, c: Client, c': Client)
    requires SenderOk(k, c.s) && ReceiverOk(k, c.r) && Messages(k, c) && c.r.pc.RHead? && c.r.iter == k.iterations
    requires c'.s == c.s && c'.bytes == c.bytes && c'.marks == c.marks && c'.r == c.r.(pc := RDone)
    ensures SenderOk(k, c'.s) && ReceiverOk(k, c'.r) && Messages(k, c')
  {
  }

  lemma EndEnds(k: Config, c: Client)
    requires Ends(k, c) && c.r.pc.RHead?
    ensures Ends(k, Ended(k, c))
  {
  }

  lemma SenderOkStep(k: Config, c: Client, amount: nat)
    requires Valid(k) && ClientOk(k, c) && Close(c) && SenderCalls(c.s) <= ReceiverCalls(c.r)
    ensures ClientOk(k, SenderStep(k, c, amount).0)
  {
    if c.s.pc.SLoop? && c.s.total < |k.data| {
      WriteStep(k, c, amount);
    } else if c.s.pc.SClose? || (c.s.pc.SHead? && c.s.iter == k.iterations) {
      SenderCloses(k, c, amount);
    } else {
      SenderMovesOn(k, c, amount);
    }
  }

  lemma ReceiverOkStep(k: Config, c: Client, amount: nat)
    requires Valid(k) && ClientOk(k, c) && Close(c) && ReceiverCalls(c.r) <= SenderCalls(c.s)
    ensures ClientOk(k, ReceiverStep(k, c, amount).0)
  {
    if c.r.pc.RLoop? && |c.r.got| < |k.data| {
      ReadStep(k, c, amount);
    } else if c.r.pc.RFinish? || (c.r.pc.RHead? && c.r.iter == k.iterations) {
      ReceiverCloses(k, c, amount);
    } else {
      ReceiverMovesOn(k, c, amount);
    }
  }
}
