/**
 The multi-threaded memcpy as it runs: dst is copied into in place, each thread's copy one byte at
 a time. Every method is proved against the step functions of module MemcpyMtRun.
 */
module MemcpyMtMachine {
  import opened Basics
  import opened MemcpyMt
  import opened MemcpyMtRun

  class Machine {
    const k: Config
    const src: array<Byte>
    const dst: array<Byte>
    const copied: array<nat>
    var main: MainPC
    var iter: nat
    var checked: seq<seq<Byte>>

    ghost predicate Shaped()
      reads this, src
    {
      && Valid(k) && src[..] == k.src && dst.Length == src.Length && copied.Length == k.threads
      && src != dst && copied as object !in {src as object, dst as object}
    }

    ghost function View(): World
      reads this, dst, copied
    {
      World(main, iter, copied[..], dst[..], checked)
    }

    constructor (threads: nat, warmups: nat, iterations: nat, src: array<Byte>)
      requires threads >= 1
      ensures k == Config(threads, warmups, iterations, src[..]) && this.src == src
      ensures Shaped() && View() == Start(k)
      ensures fresh(dst) && fresh(copied)
    {
      this.k := Config(threads, warmups, iterations, src[..]);
      this.src := src;
      dst := new Byte[src.Length](_ => 0);
      copied := new nat[threads](_ => 0);
      main, iter, checked := Fill, 0, [];
    }

    method Refill()
      requires Shaped()
      modifies dst, copied
      ensures dst[..] == seq(|k.src|, _ => 0) && copied[..] == seq(k.threads, _ => 0)
    {
      for p := 0 to dst.Length
        invariant forall q :: 0 <= q < p ==> dst[q] == 0
      {
        dst[p] := 0;
      }
      forall t | 0 <= t < copied.Length {
        copied[t] := 0;
      }
    }

    method MainMoves()
      requires Shaped()
      modifies this, dst, copied
      ensures Shaped() && View() == MainStep(k, old(View()))
    {
      match main
      case Fill =>
        if iter < k.warmups + k.iterations {
          Refill();
          main := Create(0);
        } else {
          main := Done;
        }
      case Create(t) => main := if t < k.threads then Create(t + 1) else JoinThread(0);
      case JoinThread(t) =>
        if t >= k.threads {
          main := Check;
        } else if copied[t] >= Length(k, t) {
          main := JoinThread(t + 1);
        }
      case Check =>
        if k.warmups <= iter {
          checked := checked + [dst[..]];
        }
        main, iter := Fill, iter + 1;
      case Done =>
    }

    /** One byte of thread t's chunk. */
    method CopyByte(t: nat)
      requires Shaped()
      modifies dst, copied
      ensures Shaped() && View() == CopyStep(k, old(View()), t)
    {
      if t < copied.Length && Created(main, t) && copied[t] < Length(k, t) {
        var start := t * (src.Length / k.threads);
        var p := start + copied[t];
        if p < dst.Length {
          ghost var was := src[..];
          dst[p] := src[p];
          copied[t] := copied[t] + 1;
          assert src[..] == was;
        }
      }
    }
  }

  lemma {:induction false} RunOn(k: Config, w: World, schedule: seq<Choice>, e: Choice)
    requires Valid(k)
    ensures Run(k, w, schedule + [e]) == Step(k, Run(k, w, schedule), e)
    decreases |schedule|
  {
    if schedule == [] {
      assert Run(k, w, [e]) == Run(k, Step(k, w, e), []);
    } else {
      RunOn(k, Step(k, w, schedule[0]), schedule[1..], e);
      assert (schedule + [e])[1..] == schedule[1..] + [e];
    }
  }

  /** Any schedule: once all iterations are over, every measured one has checked a copy of src. */
  method Execute(threads: nat, warmups: nat, iterations: nat, src: array<Byte>, schedule: seq<Choice>)
    returns (m: Machine)
    requires threads >= 1
    ensures fresh(m) && m.k == Config(threads, warmups, iterations, src[..])
    ensures m.View() == Run(m.k, Start(m.k), schedule)
    ensures m.main.Check? ==> m.dst[..] == src[..]
    ensures m.main.Done? ==> |m.checked| == iterations && forall x :: 0 <= x < iterations ==> m.checked[x] == src[..]
  {
    m := new Machine(threads, warmups, iterations, src);
    for x := 0 to |schedule|
      invariant fresh(m) && fresh(m.dst) && fresh(m.copied) && m.src == src && m.Shaped()
      invariant m.k == Config(threads, warmups, iterations, src[..])
      invariant m.View() == Run(m.k, Start(m.k), schedule[..x])
    {
      var e := schedule[x];
      RunOn(m.k, Start(m.k), schedule[..x], e);
      assert schedule[..x + 1] == schedule[..x] + [e];
      match e
      case Main => m.MainMoves();
      case Copy(t) => m.CopyByte(t);
    }
    assert schedule[..|schedule|] == schedule;
    CopyIsExact(m.k, schedule);
  }
}
