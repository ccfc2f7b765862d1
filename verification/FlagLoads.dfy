/**
 Which values a relaxed load may return: any in the flag's modification order from the one the thread
 read last up to the newest, and nothing else.
 */
module FlagLoads {
  import opened FlagHandshake

  /** The parent is at one of its two spinning loads, the child at one of its own. */
  predicate ParentSpins(w: Weak) {
    w.t.p.PAwaitTrue? || w.t.p.PAwaitFalse?
  }

  predicate ChildSpins(k: Config, w: Weak) {
    (w.t.c.CAwaitTrue? && w.t.j < k.loopSize) || w.t.c.CAwaitFalse?
  }

  /** The parent has loaded the value at place `at` of the child's flag: that is now its view, and it
      leaves its loop exactly if the value is the one it waits for. */
  predicate ParentRead(w: Weak, w': Weak, at: nat)
    requires at < |w.child|
  {
    && w' == w.(t := w'.t, seenChild := at)
    && (w.t.p.PAwaitTrue? ==> w'.t == if w.child[at] then w.t.(p := PStoreFalse) else w.t)
    && (w.t.p.PAwaitFalse? ==> w'.t == if w.child[at] then w.t else w.t.(p := PStoreTrue, i := w.t.i + 1))
  }

  predicate ChildRead(w: Weak, w': Weak, at: nat)
    requires at < |w.parent|
  {
    && w' == w.(t := w'.t, seenParent := at)
    && (w.t.c.CAwaitTrue? ==> w'.t == if w.parent[at] then w.t.(c := CStoreTrue) else w.t)
    && (w.t.c.CAwaitFalse? ==> w'.t == if w.parent[at] then w.t else w.t.(c := CStoreFalse))
  }

  /** Looking `at - seen` ahead loads the value at place `at`, however stale. */
  lemma ParentMayRead(k: Config, w: Weak, at: nat)
    requires ParentSpins(w) && w.seenChild <= at < |w.child|
    ensures ParentRead(w, WeakStep(k, w, Choice(true, at - w.seenChild)), at)
  {
  }

  lemma ChildMayRead(k: Config, w: Weak, at: nat)
    requires ChildSpins(k, w) && w.seenParent <= at < |w.parent|
    ensures ChildRead(w, WeakStep(k, w, Choice(false, at - w.seenParent)), at)
  {
  }

  /** Every choice loads some value that is not older than the thread's view. */
  lemma ParentOnlyReads(k: Config, w: Weak, ahead: nat) returns (at: nat)
    requires ParentSpins(w) && w.seenChild < |w.child|
    ensures w.seenChild <= at < |w.child| && at <= w.seenChild + ahead
    ensures ParentRead(w, WeakStep(k, w, Choice(true, ahead)), at)
  {
    at := WeakStep(k, w, Choice(true, ahead)).seenChild;
  }

  lemma ChildOnlyReads(k: Config, w: Weak, ahead: nat) returns (at: nat)
    requires ChildSpins(k, w) && w.seenParent < |w.parent|
    ensures w.seenParent <= at < |w.parent| && at <= w.seenParent + ahead
    ensures ChildRead(w, WeakStep(k, w, Choice(false, ahead)), at)
  {
    at := WeakStep(k, w, Choice(false, ahead)).seenParent;
  }

  /** Looking no further loads the old value again: the thread spins although its flag has changed. */
  lemma StaleLoadSpins(k: Config, w: Weak)
    requires WeakOk(k, w)
    ensures ParentSpins(w) ==> WeakStep(k, w, Choice(true, 0)) == w
    ensures ChildSpins(k, w) ==> WeakStep(k, w, Choice(false, 0)) == w
  {
    StoresEven(k, w.t.iter);
    if ParentSpins(w) {
      ParentMayRead(k, w, w.seenChild);
    }
    if ChildSpins(k, w) {
      ChildMayRead(k, w, w.seenParent);
    }
  }

  /** One iteration of one round: the parent has stored true, and the child reads the old false. */
  lemma StaleLoadHappens()
    ensures var k := Config(1, 1); var w := WeakRun(k, WEAK_START, [Choice(true, 0), Choice(true, 0)]);
      && w.parent == [false, true] && w.t.c.CAwaitTrue?
      && WeakStep(k, w, Choice(false, 0)) == w
      && WeakStep(k, w, Choice(false, 1)).t.c.CStoreTrue?
  {
    var k, e := Config(1, 1), Choice(true, 0);
    var w1 := WeakStep(k, WEAK_START, e);
    var w2 := WeakStep(k, w1, e);
    assert [e, e][1..] == [e];
    assert WeakRun(k, WEAK_START, [e, e]) == WeakRun(k, w1, [e]);
    assert WeakRun(k, w1, [e]) == WeakRun(k, w2, []);
  }

  /** Starting the child shows it the parent's newest store, and joining shows the parent the child's. */
  lemma StartAndJoinShow(k: Config, w: Weak, ahead: nat)
    requires |w.parent| > 0 && |w.child| > 0
    ensures w.t.p.PSpawn? && w.t.iter < k.iterations ==>
      WeakStep(k, w, Choice(true, ahead)) ==
      w.(t := Threads(w.t.iter, PStoreTrue, 0, CAwaitTrue, 0), seenParent := |w.parent| - 1)
    ensures w.t.p.PJoin? ==>
      WeakStep(k, w, Choice(true, ahead)) ==
      if w.t.c.CExit? then w.(t := w.t.(iter := w.t.iter + 1, p := PSpawn, c := CNone), seenChild := |w.child| - 1)
      else w
  {
  }

  /** A store is appended to the flag's modification order and shows nobody anything. */
  lemma StoresAppend(k: Config, w: Weak, ahead: nat)
    ensures w.t.p.PStoreTrue? && w.t.i < k.loopSize ==>
      WeakStep(k, w, Choice(true, ahead)) == w.(t := w.t.(p := PAwaitTrue), parent := w.parent + [true])
    ensures w.t.p.PStoreFalse? ==>
      WeakStep(k, w, Choice(true, ahead)) == w.(t := w.t.(p := PAwaitFalse), parent := w.parent + [false])
    ensures w.t.c.CStoreTrue? ==>
      WeakStep(k, w, Choice(false, ahead)) == w.(t := w.t.(c := CAwaitFalse), child := w.child + [true])
    ensures w.t.c.CStoreFalse? ==>
      WeakStep(k, w, Choice(false, ahead)) == w.(t := w.t.(c := CAwaitTrue, j := w.t.j + 1), child := w.child + [false])
  {
  }
}
