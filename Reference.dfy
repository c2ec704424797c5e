/**
  The intrusive strong/weak reference counter `RefCount` that every shared-ownership
  object of the engine embeds.

  `RefCount` holds three counters of the same counter type: the strong count, the
  init-pending flag and the weak count. That counter type is used only through four
  operations, modelled abstractly here: `init` sets it to 1, `ref` increments it only
  when it is non-zero and says whether it did, `unref` decrements it and says whether
  it reached zero, and `get` reads it. Every operation is one sequential step.
*/
module Reference {
  import opened Wrappers

  // ---------------------------------------------------------------------------
  // The counter type
  // ---------------------------------------------------------------------------

  /** What a counter operation reports, with the counter's new value. */
  datatype Counted = Counted(ok: bool, count: nat)

  /** The value `init` gives a counter. */
  const InitialCount: nat := 1

  /** `ref`: increment if non-zero; a counter at zero stays dead. */
  function CounterRef(n: nat): (r: Counted)
    ensures r.ok <==> n > 0
    ensures r.ok ==> r.count == n + 1
    ensures !r.ok ==> r.count == n == 0
  {
    if n == 0 then Counted(false, 0) else Counted(true, n + 1)
  }

  /** `unref`: decrement; reports whether the counter reached zero. */
  function CounterUnref(n: nat): (r: Counted)
    requires n > 0
    ensures r.count + 1 == n
    ensures r.ok <==> r.count == 0
  {
    Counted(n == 1, n - 1)
  }

  // ---------------------------------------------------------------------------
  // The three counters of a RefCount and its operations, as values
  // ---------------------------------------------------------------------------

  /** The state of one `RefCount`: strong count, init-pending flag, weak count. */
  datatype Counters = Counters(strong: nat, initPending: nat, weak: nat)

  /** What an operation returns, with the counters afterwards. */
  datatype Outcome = Outcome(result: bool, after: Counters)

  /** The state the constructor leaves: every counter freshly `init`-ed. */
  const Constructed: Counters := Counters(InitialCount, InitialCount, InitialCount)

  /** `reference()`: take a strong reference unless the object is dead. */
  function ReferenceStep(c: Counters): (o: Outcome)
    ensures o.result <==> c.strong > 0
    ensures o.result ==> o.after.strong == c.strong + 1
    ensures !o.result ==> o.after == c && c.strong == 0
    ensures o.after.initPending == c.initPending && o.after.weak == c.weak
  {
    var r := CounterRef(c.strong);
    Outcome(r.ok, c.(strong := r.count))
  }

  /** `unreference()`: drop a strong reference; true is the die signal. */
  function UnreferenceStep(c: Counters): (o: Outcome)
    requires c.strong > 0
    ensures o.after.strong == c.strong - 1
    ensures o.result <==> c.strong == 1
    ensures o.after.initPending == c.initPending && o.after.weak == c.weak
  {
    var r := CounterUnref(c.strong);
    Outcome(r.ok, c.(strong := r.count))
  }

  /**
    `InitRef()`: take a reference; if that succeeded and the first reference is still
    pending, clear the flag and give the reference back, since construction already
    counted it.
  */
  function InitRefStep(c: Counters): (o: Outcome)
    ensures o.result <==> c.strong > 0
    ensures !o.result ==> o.after == c
    ensures o.result && c.initPending > 0 ==>
              o.after == c.(initPending := c.initPending - 1)
    ensures o.result && c.initPending == 0 ==>
              o.after == c.(strong := c.strong + 1)
  {
    var r := ReferenceStep(c);
    if !r.result then
      Outcome(false, r.after)
    else if r.after.initPending > 0 then
      var pending := CounterUnref(r.after.initPending);
      var u := UnreferenceStep(r.after.(initPending := pending.count));
      Outcome(true, u.after)
    else
      Outcome(true, r.after)
  }

  /** `weakReference()`: take a weak reference unless the weak counter is at zero. */
  function WeakReferenceStep(c: Counters): (o: Outcome)
    ensures o.result <==> c.weak > 0
    ensures o.result ==> o.after.weak == c.weak + 1
    ensures !o.result ==> o.after == c
    ensures o.after.strong == c.strong && o.after.initPending == c.initPending
  {
    var r := CounterRef(c.weak);
    Outcome(r.ok, c.(weak := r.count))
  }

  /**
    `weakUnreference()`: drop a weak reference; true when the weak counter reached
    zero and the strong count is zero too.
  */
  function WeakUnreferenceStep(c: Counters): (o: Outcome)
    requires c.weak > 0
    ensures o.after.weak == c.weak - 1
    ensures o.result <==> c.weak == 1 && c.strong == 0
    ensures o.after.strong == c.strong && o.after.initPending == c.initPending
  {
    var r := CounterUnref(c.weak);
    Outcome(r.ok && c.strong == 0, c.(weak := r.count))
  }

  // ---------------------------------------------------------------------------
  // Sequences of operations
  // ---------------------------------------------------------------------------

  datatype Op = InitRefOp | ReferenceOp | UnreferenceOp | WeakReferenceOp | WeakUnreferenceOp

  predicate IsWeakOp(op: Op) {
    op.WeakReferenceOp? || op.WeakUnreferenceOp?
  }

  /** Whether the caller may issue `op` now: a counter is never decremented below zero. */
  predicate Permitted(op: Op, c: Counters) {
    && (op.UnreferenceOp? ==> c.strong > 0)
    && (op.WeakUnreferenceOp? ==> c.weak > 0)
  }

  function Apply(op: Op, c: Counters): Outcome
    requires Permitted(op, c)
  {
    match op
    case InitRefOp => InitRefStep(c)
    case ReferenceOp => ReferenceStep(c)
    case UnreferenceOp => UnreferenceStep(c)
    case WeakReferenceOp => WeakReferenceStep(c)
    case WeakUnreferenceOp => WeakUnreferenceStep(c)
  }

  /** The results of a run of operations, in order, and the counters at its end. */
  datatype Trace = Trace(results: seq<bool>, final: Counters)

  /** Runs `ops` from `c`; None when some operation is not permitted when it is reached. */
  function Run(c: Counters, ops: seq<Op>): (t: Option<Trace>)
    ensures t.Some? ==> |t.value.results| == |ops|
    ensures ops == [] ==> t == Some(Trace([], c))
    decreases |ops|
  {
    if ops == [] then Some(Trace([], c))
    else if !Permitted(ops[0], c) then None
    else
      var o := Apply(ops[0], c);
      match Run(o.after, ops[1..])
      case None => None
      case Some(rest) => Some(Trace([o.result] + rest.results, rest.final))
  }

  /** How many `unreference()` calls of a run gave the die signal. */
  function DieCount(ops: seq<Op>, results: seq<bool>): nat
    requires |ops| == |results|
  {
    if ops == [] then 0
    else (if ops[0].UnreferenceOp? && results[0] then 1 else 0) + DieCount(ops[1..], results[1..])
  }

  function Repeat<T>(x: T, k: nat): (s: seq<T>)
    ensures |s| == k && forall i :: 0 <= i < k ==> s[i] == x
  {
    if k == 0 then [] else [x] + Repeat(x, k - 1)
  }

  // ---------------------------------------------------------------------------
  // Properties
  // ---------------------------------------------------------------------------

  /** A run that is not empty: its first operation, then the rest from where that one left. */
  lemma RunFirst(c: Counters, ops: seq<Op>)
    requires ops != [] && Permitted(ops[0], c)
    requires Run(Apply(ops[0], c).after, ops[1..]).Some?
    ensures Run(c, ops) == Some(Trace([Apply(ops[0], c).result] + Run(Apply(ops[0], c).after, ops[1..]).value.results,
                                      Run(Apply(ops[0], c).after, ops[1..]).value.final))
  {
  }

  /** Running `a ++ b` is running `a`, then `b` from where `a` ended. */
  lemma {:induction false} RunAppend(c: Counters, a: seq<Op>, b: seq<Op>)
    requires Run(c, a).Some? && Run(Run(c, a).value.final, b).Some?
    ensures Run(c, a + b) == Some(Trace(Run(c, a).value.results + Run(Run(c, a).value.final, b).value.results,
                                        Run(Run(c, a).value.final, b).value.final))
    decreases |a|
  {
    var ta := Run(c, a).value;
    var tb := Run(ta.final, b).value;
    if a == [] {
      assert a + b == b;
      assert ta.results + tb.results == tb.results;
    } else {
      var o := Apply(a[0], c);
      var ra := Run(o.after, a[1..]).value;
      RunFirst(c, a);
      assert ta == Trace([o.result] + ra.results, ra.final);
      RunAppend(o.after, a[1..], b);
      assert (a + b)[0] == a[0];
      assert (a + b)[1..] == a[1..] + b;
      RunFirst(c, a + b);
      assert [o.result] + (ra.results + tb.results) == ([o.result] + ra.results) + tb.results;
    }
  }

  /**
    The die signal fires exactly once over the whole life of an object: a run gives it
    once if it takes a live object to strong count 0 and never otherwise; a dead object
    is never revived (no resurrection).
  */
  lemma {:induction false} DieSignalExactlyOnce(c: Counters, ops: seq<Op>)
    requires Run(c, ops).Some?
    ensures c.strong == 0 ==> Run(c, ops).value.final.strong == 0
    ensures DieCount(ops, Run(c, ops).value.results)
            == if c.strong > 0 && Run(c, ops).value.final.strong == 0 then 1 else 0
    decreases |ops|
  {
    if ops != [] {
      var o := Apply(ops[0], c);
      var rest := Run(o.after, ops[1..]);
      DieSignalExactlyOnce(o.after, ops[1..]);
      var t := Run(c, ops).value;
      assert t.results == [o.result] + rest.value.results;
      assert t.results[1..] == rest.value.results;
      assert t.final == rest.value.final;
      assert o.after.strong == 0 <==> c.strong == 0 || (ops[0].UnreferenceOp? && o.result);
    }
  }

  /** The init-pending flag never rises, and only `InitRef()` can lower it. */
  lemma {:induction false} InitPendingOnlyFalls(c: Counters, ops: seq<Op>)
    requires Run(c, ops).Some?
    ensures Run(c, ops).value.final.initPending <= c.initPending
    ensures InitRefOp !in ops ==> Run(c, ops).value.final.initPending == c.initPending
    decreases |ops|
  {
    if ops != [] {
      var o := Apply(ops[0], c);
      InitPendingOnlyFalls(o.after, ops[1..]);
      assert ops == [ops[0]] + ops[1..];
    }
  }

  /** Weak operations never touch the strong count; strong operations never touch the weak count. */
  lemma {:induction false} WeakAndStrongIndependent(c: Counters, ops: seq<Op>)
    requires Run(c, ops).Some?
    ensures (forall i :: 0 <= i < |ops| ==> IsWeakOp(ops[i])) ==>
              Run(c, ops).value.final.strong == c.strong
              && Run(c, ops).value.final.initPending == c.initPending
    ensures (forall i :: 0 <= i < |ops| ==> !IsWeakOp(ops[i])) ==>
              Run(c, ops).value.final.weak == c.weak
    decreases |ops|
  {
    if ops != [] {
      var o := Apply(ops[0], c);
      WeakAndStrongIndependent(o.after, ops[1..]);
      assert forall i :: 1 <= i < |ops| ==> ops[1..][i - 1] == ops[i];
    }
  }

  /** `k` references on a live object all succeed and raise the strong count by `k`. */
  lemma {:induction false} References(c: Counters, k: nat)
    requires c.strong > 0
    ensures Run(c, Repeat(ReferenceOp, k)) == Some(Trace(Repeat(true, k), c.(strong := c.strong + k)))
    decreases k
  {
    if k > 0 {
      var ops := Repeat(ReferenceOp, k);
      var o := ReferenceStep(c);
      References(o.after, k - 1);
      assert ops[1..] == Repeat(ReferenceOp, k - 1);
      RunFirst(c, ops);
    }
  }

  /** `k` unreferences from strong count `k`: only the last one gives the die signal. */
  lemma {:induction false} Unreferences(c: Counters, k: nat)
    requires k > 0 && c.strong == k
    ensures Run(c, Repeat(UnreferenceOp, k)) == Some(Trace(Repeat(false, k - 1) + [true], c.(strong := 0)))
    decreases k
  {
    var ops := Repeat(UnreferenceOp, k);
    var o := UnreferenceStep(c);
    assert ops[0] == UnreferenceOp && ops[1..] == Repeat(UnreferenceOp, k - 1);
    if k == 1 {
      assert o == Outcome(true, c.(strong := 0));
      assert Run(o.after, ops[1..]) == Some(Trace([], o.after));
      RunFirst(c, ops);
      assert [true] + [] == Repeat(false, 0) + [true];
    } else {
      Unreferences(o.after, k - 1);
      RunFirst(c, ops);
      assert Repeat(false, k - 1) + [true] == [false] + (Repeat(false, k - 2) + [true]);
    }
  }

  /**
    After `k` successful references from strong count 1, the first `k` unreferences
    report false and the `(k+1)`-th reports true, leaving the object dead.
  */
  lemma BalancedReferencesDieOnce(c: Counters, k: nat)
    requires c.strong == 1
    ensures Run(c, Repeat(ReferenceOp, k) + Repeat(UnreferenceOp, k + 1))
            == Some(Trace(Repeat(true, k) + (Repeat(false, k) + [true]), c.(strong := 0)))
  {
    References(c, k);
    Unreferences(c.(strong := 1 + k), k + 1);
    RunAppend(c, Repeat(ReferenceOp, k), Repeat(UnreferenceOp, k + 1));
  }

  /**
    The lifecycle of a new object: `InitRef` keeps the construction reference, one more
    `reference`, then two `unreference` calls of which only the second is the die signal.
  */
  lemma ConstructedLifecycle()
    ensures Constructed.strong == 1 && Constructed.initPending == 1
    ensures Run(Constructed, [InitRefOp, ReferenceOp, UnreferenceOp, UnreferenceOp])
            == Some(Trace([true, true, false, true], Counters(0, 0, InitialCount)))
  {
    var ops := [InitRefOp, ReferenceOp, UnreferenceOp, UnreferenceOp];
    var c1, c2, c3, c4 := Counters(1, 0, 1), Counters(2, 0, 1), Counters(1, 0, 1), Counters(0, 0, 1);
    assert Apply(ops[0], Constructed) == Outcome(true, c1);
    assert Apply(ops[1..][0], c1) == Outcome(true, c2);
    assert Apply(ops[2..][0], c2) == Outcome(false, c3);
    assert Apply(ops[3..][0], c3) == Outcome(true, c4);
    assert ops[4..] == [] && ops[3..][1..] == ops[4..];
    assert ops[2..][1..] == ops[3..] && ops[1..][1..] == ops[2..];
    assert Run(c4, ops[4..]) == Some(Trace([], c4));
    assert [true] + [] == [true] && [false] + [true] == [false, true];
    assert [true] + [false, true] == [true, false, true];
    assert [true] + [true, false, true] == [true, true, false, true];
    RunFirst(c3, ops[3..]);
    assert Run(c3, ops[3..]) == Some(Trace([true], c4));
    RunFirst(c2, ops[2..]);
    assert Run(c2, ops[2..]) == Some(Trace([false, true], c4));
    RunFirst(c1, ops[1..]);
    assert Run(c1, ops[1..]) == Some(Trace([true, false, true], c4));
    RunFirst(Constructed, ops);
  }

  // ---------------------------------------------------------------------------
  // The object itself
  // ---------------------------------------------------------------------------

  class RefCount {
    var refcount: nat
    var refcountInit: nat
    var weakRefcount: nat

    /** The three counters as a value. */
    function Counts(): Counters
      reads this
    {
      Counters(refcount, refcountInit, weakRefcount)
    }

    constructor ()
      ensures Counts() == Constructed
    {
      refcount := InitialCount;
      refcountInit := InitialCount;
      weakRefcount := InitialCount;
    }

    method InitRef() returns (ok: bool)
      modifies this
      ensures ok == InitRefStep(old(Counts())).result
      ensures Counts() == InitRefStep(old(Counts())).after
    {
      var referenced := Reference();
      if referenced {
        if refcountInit > 0 {
          refcountInit := CounterUnref(refcountInit).count;
          var _ := Unreference();
        }
        return true;
      } else {
        return false;
      }
    }

    method GetReferenceCount() returns (n: int)
      ensures n == Counts().strong
    {
      n := refcount;
    }

    method GetWeakReferenceCount() returns (n: int)
      ensures n == Counts().weak
    {
      n := weakRefcount;
    }

    method Reference() returns (success: bool)
      modifies this`refcount
      ensures success == ReferenceStep(old(Counts())).result
      ensures Counts() == ReferenceStep(old(Counts())).after
    {
      var r := CounterRef(refcount);
      refcount := r.count;
      success := r.ok;
    }

    method Unreference() returns (die: bool)
      requires refcount > 0
      modifies this`refcount
      ensures die == UnreferenceStep(old(Counts())).result
      ensures Counts() == UnreferenceStep(old(Counts())).after
    {
      var r := CounterUnref(refcount);
      refcount := r.count;
      die := r.ok;
    }

    method WeakReference() returns (success: bool)
      modifies this`weakRefcount
      ensures success == WeakReferenceStep(old(Counts())).result
      ensures Counts() == WeakReferenceStep(old(Counts())).after
    {
      var r := CounterRef(weakRefcount);
      weakRefcount := r.count;
      success := r.ok;
    }

    method WeakUnreference() returns (die: bool)
      requires weakRefcount > 0
      modifies this`weakRefcount
      ensures die == WeakUnreferenceStep(old(Counts())).result
      ensures Counts() == WeakUnreferenceStep(old(Counts())).after
    {
      var r := CounterUnref(weakRefcount);
      weakRefcount := r.count;
      die := r.ok && refcount == 0;
    }
  }
}
