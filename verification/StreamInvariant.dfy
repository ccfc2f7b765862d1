/** What is in transit is exactly what was sent and not yet received, in every reachable state. */
module StreamInvariant {
  import opened StreamClient

  // ---------------------------------------------------------------- positions in the data

  /** How far the sender is in the data of the iteration the two sides share, or of the one that the
      receiver is still in. */
  function SentUpTo(k: Config, c: Client): nat {
    if c.s.iter > c.r.iter then |k.data|
    else if c.s.pc.SLoop? || c.s.pc.SClose? then c.s.total
    else 0
  }

  function GotUpTo(k: Config, c: Client): nat {
    if c.r.iter > c.s.iter then |k.data|
    else if c.r.pc.RLoop? || c.r.pc.RFinish? then |c.r.got|
    else 0
  }

  predicate Transit(k: Config, c: Client) {
    var got, sent := GotUpTo(k, c), SentUpTo(k, c);
    && c.s.iter <= c.r.iter + 1 && c.r.iter <= c.s.iter + 1
    && got <= sent <= |k.data|
    && c.bytes == k.data[got..sent]
  }

  function Sum(marks: seq<nat>): nat {
    if marks == [] then 0 else marks[0] + Sum(marks[1..])
  }

  /** The queued messages: never more than fit, none empty, none too long for the receiver. */
  predicate Messages(k: Config, c: Client) {
    if k.channel.QueueChannel? then
      && |c.marks| <= k.capacity && Sum(c.marks) == |c.bytes|
      && (forall i :: 0 <= i < |c.marks| ==> 1 <= c.marks[i] <= k.bufferSize)
    else c.marks == []
  }

  predicate Ends(k: Config, c: Client) {
    match k.channel
    case PipeChannel =>
      c.writers == (if c.s.pc.SDone? then 0 else 1) && c.readers == (if c.r.pc.RDone? then 0 else 1)
    case FifoChannel =>
      && c.writers == (if c.s.pc.SHead? || c.s.pc.SDone? then 0 else 1)
      && c.readers == (if c.r.pc.RHead? || c.r.pc.RDone? then 0 else 1)
    case QueueChannel => true
  }

  predicate SenderOk(k: Config, s: Sender) {
    && s.iter <= k.iterations
    && (s.pc.SDone? ==> s.iter == k.iterations)
    && (!(s.pc.SHead? || s.pc.SDone?) ==> s.iter < k.iterations)
    && (s.pc.SOpening? ==> k.channel.FifoChannel?)
    && (s.pc.SLoop? ==> s.total <= |k.data|)
    && (s.pc.SClose? ==> s.total == |k.data|)
  }

  predicate ReceiverOk(k: Config, r: Receiver) {
    && r.iter <= k.iterations
    && (r.pc.RDone? ==> r.iter == k.iterations)
    && (!(r.pc.RHead? || r.pc.RDone?) ==> r.iter < k.iterations)
    && (r.pc.ROpening? ==> k.channel.FifoChannel?)
    && (r.pc.RLoop? ==> |r.got| <= |k.data| && r.got == k.data[..|r.got|])
    && (r.pc.RFinish? ==> r.got == k.data)
    && |r.delivered| == r.iter
    && (forall t :: 0 <= t < |r.delivered| ==> r.delivered[t] == k.data)
  }

  predicate ClientOk(k: Config, c: Client) {
    SenderOk(k, c.s) && ReceiverOk(k, c.r) && Transit(k, c) && Messages(k, c) && Ends(k, c) && !c.fault
  }

  // ---------------------------------------------------------------- what the barrier implies

  /** A sender with bytes left to write has the receiver in the same iteration, with its end open. */
  lemma WriteTogether(k: Config, c: Client)
    requires ClientOk(k, c) && Close(c)
    requires c.s.pc.SLoop? && c.s.total < |k.data|
    ensures c.s.iter == c.r.iter && (k.channel.QueueChannel? || c.readers > 0)
  {
  }

  /** A receiver with bytes left to read has them in transit or a sender with its end open. */
  lemma ReadTogether(k: Config, c: Client)
    requires ClientOk(k, c) && Close(c)
    requires c.r.pc.RLoop? && |c.r.got| < |k.data|
    ensures c.s.iter == c.r.iter || c.s.iter == c.r.iter + 1
    ensures c.bytes == [] ==> c.s.iter == c.r.iter && (c.s.pc.SBegin? || c.s.pc.SLoop?)
    ensures c.bytes == [] && !k.channel.QueueChannel? ==> c.writers > 0
  {
    assert c.bytes == [] ==> GotUpTo(k, c) == SentUpTo(k, c);
  }
}
