/** The example programs' use of the engine, as concrete and repeated blocks. */
module Scenarios {
  import opened Types
  import opened Codes
  import opened Exceptions
  import opened Transactions
  import opened Traces
  import opened Interpreter
  import opened Lifecycle
  import opened Properties

  /** The body of test1's transaction: action1 allocates once; action2
      allocates and calls subAction, which allocates and calls subSubAction,
      which allocates and raises a USER recipient exception. `p1`..`p4` are the
      addresses the four allocations return. */
  function Test1Body(p1: Ptr, p2: Ptr, p3: Ptr, p4: Ptr): seq<Op>
  {
    var subSubAction := [Alloc(Some(p4), true), Recipient(AudienceCode(User), "description", "detail", "solution")];
    var subAction := [Alloc(Some(p3), true), Call(subSubAction)];
    var action1 := [Alloc(Some(p1), true)];
    var action2 := [Alloc(Some(p2), true), Call(subAction)];
    [Call(action1), Call(action2)]
  }

  /** The four allocations test1 performs before raising, in call order. */
  function Test1Allocs(p1: Ptr, p2: Ptr, p3: Ptr, p4: Ptr): seq<Op>
  {
    [Alloc(Some(p1), true), Alloc(Some(p2), true), Alloc(Some(p3), true), Alloc(Some(p4), true)]
  }

  const Test1Raise: Op := Recipient(AudienceCode(User), "description", "detail", "solution")

  /** Inlining test1's calls gives its four allocations followed by the raise. */
  lemma Test1Flatten(p1: Ptr, p2: Ptr, p3: Ptr, p4: Ptr)
    ensures Flatten(Test1Body(p1, p2, p3, p4)) == Test1Allocs(p1, p2, p3, p4) + [Test1Raise] + []
  {
    var raise := Test1Raise;
    var a1, a2, a3, a4 := Alloc(Some(p1), true), Alloc(Some(p2), true), Alloc(Some(p3), true), Alloc(Some(p4), true);
    var subSubAction := [a4, raise];
    var subAction := [a3, Call(subSubAction)];
    var action2 := [a2, Call(subAction)];
    assert Flatten(subSubAction) == [a4, raise] by {
      FlattenCons(raise, []);
      FlattenCons(a4, [raise]);
    }
    assert Flatten(subAction) == [a3, a4, raise] by {
      FlattenCons(Call(subSubAction), []);
      FlattenCons(a3, [Call(subSubAction)]);
    }
    assert Flatten(action2) == [a2, a3, a4, raise] by {
      FlattenCons(Call(subAction), []);
      FlattenCons(a2, [Call(subAction)]);
    }
    FlattenCons(a1, []);
    FlattenCons(Call(action2), []);
    FlattenCons(Call([a1]), [Call(action2)]);
  }

  /** test1's four allocations all succeed and obtain the four addresses, in call order. */
  lemma Test1Obtained(p1: Ptr, p2: Ptr, p3: Ptr, p4: Ptr)
    ensures NeverJumps(Test1Allocs(p1, p2, p3, p4))
    ensures Obtained(Test1Allocs(p1, p2, p3, p4)) == [p1, p2, p3, p4]
  {
    var a1, a2, a3, a4 := Alloc(Some(p1), true), Alloc(Some(p2), true), Alloc(Some(p3), true), Alloc(Some(p4), true);
    assert Obtained([a4]) == [p4] && NeverJumps([a4]) by { assert [a4][1..] == []; }
    assert Obtained([a3, a4]) == [p3, p4] && NeverJumps([a3, a4]) by { assert [a3, a4][1..] == [a4]; }
    assert Obtained([a2, a3, a4]) == [p2, p3, p4] && NeverJumps([a2, a3, a4]) by { assert [a2, a3, a4][1..] == [a3, a4]; }
    assert Test1Allocs(p1, p2, p3, p4)[1..] == [a2, a3, a4];
  }

  /** test1: the raise three calls deep lands in the exception handler, which
      reads the USER record with the description in its detail field, and the
      four allocations are freed in the order they were made. */
  lemma Test1Scenario(slot: Handle, p1: Ptr, p2: Ptr, p3: Ptr, p4: Ptr)
    ensures RunTransaction(Some(slot), Some("Trans1"), Test1Body(p1, p2, p3, p4)).Completed?
    ensures RunTransaction(Some(slot), Some("Trans1"), Test1Body(p1, p2, p3, p4)).code == ExceptionCaptured
    ensures HandlersOf(RunTransaction(Some(slot), Some("Trans1"), Test1Body(p1, p2, p3, p4)).trace)
         == [OnStart, OnException]
    ensures RunTransaction(Some(slot), Some("Trans1"), Test1Body(p1, p2, p3, p4)).final.raised
         == Some(RecipientException(ExceptionBase(1100000, 0, 0, 0, None, "description", "description"), "solution"))
    ensures FreedPtrs(RunTransaction(Some(slot), Some("Trans1"), Test1Body(p1, p2, p3, p4)).trace) == [p1, p2, p3, p4]
  {
    Test1Flatten(p1, p2, p3, p4);
    Test1Obtained(p1, p2, p3, p4);
    RaiseAtAnyDepth(slot, Some("Trans1"), Test1Body(p1, p2, p3, p4), Test1Allocs(p1, p2, p3, p4), Test1Raise, []);
  }

  /** The traces of the iterations of a main loop that runs one
      NEWTRANSACTION block per iteration (test2), the i-th on the context
      object `slots[i]` with body `bodies[i]`. */
  function LoopTraces(slots: seq<Handle>, bodies: seq<seq<Op>>): (trs: seq<seq<Event>>)
    requires |slots| == |bodies|
    ensures |trs| == |slots|
    ensures forall i :: 0 <= i < |slots| ==> trs[i] == RunTransaction(Some(slots[i]), Some("Trans1"), bodies[i]).trace
  {
    seq(|slots|, i requires 0 <= i < |slots| => RunTransaction(Some(slots[i]), Some("Trans1"), bodies[i]).trace)
  }

  /** The traces of consecutive iterations, one after the other. */
  function Flat(trs: seq<seq<Event>>): seq<Event>
  {
    if trs == [] then [] else trs[0] + Flat(trs[1..])
  }

  /** What every block guarantees of its own trace: each tracked pointer is
      freed once, the context is released once, and the start handler is
      followed by exactly one ending handler. */
  predicate WellEnded(tr: seq<Event>, slot: Handle)
  {
    && FreedPtrs(tr) == AllocatedPtrs(tr)
    && DeallocatedOf(tr) == [slot]
    && |HandlersOf(tr)| == 2 && HandlersOf(tr)[0] == OnStart && HandlersOf(tr)[1] != OnStart
  }

  /** Well-ended blocks in sequence free everything they allocated and
      release their contexts in order. */
  lemma {:induction false} FlatFrees(trs: seq<seq<Event>>, slots: seq<Handle>)
    requires |trs| == |slots|
    requires forall i :: 0 <= i < |trs| ==> WellEnded(trs[i], slots[i])
    ensures FreedPtrs(Flat(trs)) == AllocatedPtrs(Flat(trs))
    ensures DeallocatedOf(Flat(trs)) == slots
  {
    if trs != [] {
      assert WellEnded(trs[0], slots[0]);
      assert forall i :: 0 <= i < |trs[1..]| ==> trs[1..][i] == trs[i + 1] && slots[1..][i] == slots[i + 1];
      FlatFrees(trs[1..], slots[1..]);
      FreedConcat(trs[0], Flat(trs[1..]));
      AllocatedConcat(trs[0], Flat(trs[1..]));
      DeallocatedConcat(trs[0], Flat(trs[1..]));
      assert slots == [slots[0]] + slots[1..];
    }
  }

  /** Well-ended blocks in sequence run two handlers each, one of them the start handler. */
  lemma {:induction false} FlatHandlers(trs: seq<seq<Event>>, slots: seq<Handle>)
    requires |trs| == |slots|
    requires forall i :: 0 <= i < |trs| ==> WellEnded(trs[i], slots[i])
    ensures |HandlersOf(Flat(trs))| == 2 * |trs|
    ensures multiset(HandlersOf(Flat(trs)))[OnStart] == |trs|
  {
    if trs != [] {
      var hs := HandlersOf(trs[0]);
      assert WellEnded(trs[0], slots[0]);
      assert multiset(hs)[OnStart] == 1 by {
        assert hs == [OnStart, hs[1]];
      }
      assert forall i :: 0 <= i < |trs[1..]| ==> trs[1..][i] == trs[i + 1] && slots[1..][i] == slots[i + 1];
      FlatHandlers(trs[1..], slots[1..]);
      HandlersConcat(trs[0], Flat(trs[1..]));
      assert multiset(hs + HandlersOf(Flat(trs[1..]))) == multiset(hs) + multiset(HandlersOf(Flat(trs[1..])));
    }
  }

  /** Over any number of iterations, however each one ends, every tracked
      pointer is freed once, every context object is released once in order,
      and each iteration runs the start handler and one ending handler. */
  lemma IterationsBalance(slots: seq<Handle>, bodies: seq<seq<Op>>)
    requires |slots| == |bodies|
    ensures FreedPtrs(Flat(LoopTraces(slots, bodies))) == AllocatedPtrs(Flat(LoopTraces(slots, bodies)))
    ensures DeallocatedOf(Flat(LoopTraces(slots, bodies))) == slots
    ensures |HandlersOf(Flat(LoopTraces(slots, bodies)))| == 2 * |slots|
    ensures multiset(HandlersOf(Flat(LoopTraces(slots, bodies))))[OnStart] == |slots|
  {
    var trs := LoopTraces(slots, bodies);
    forall i | 0 <= i < |trs|
      ensures WellEnded(trs[i], slots[i])
    {
      RunTransactionTrace(slots[i], Some("Trans1"), bodies[i]);
      var o := RunTransaction(Some(slots[i]), Some("Trans1"), bodies[i]);
      assert o.code == TransStop || o.code == ExceptionCaptured;
    }
    FlatFrees(trs, slots);
    FlatHandlers(trs, slots);
  }

  /** Blocks that all ended in the stop handler: the stop handler ran once per
      block and the exception handler never. */
  lemma {:induction false} FlatAllStop(trs: seq<seq<Event>>)
    requires forall i :: 0 <= i < |trs| ==> HandlersOf(trs[i]) == [OnStart, OnStop]
    ensures multiset(HandlersOf(Flat(trs)))[OnStop] == |trs|
    ensures multiset(HandlersOf(Flat(trs)))[OnException] == 0
  {
    if trs != [] {
      assert HandlersOf(trs[0]) == [OnStart, OnStop];
      assert forall i :: 0 <= i < |trs[1..]| ==> trs[1..][i] == trs[i + 1];
      FlatAllStop(trs[1..]);
      HandlersConcat(trs[0], Flat(trs[1..]));
      assert multiset([OnStart, OnStop] + HandlersOf(Flat(trs[1..])))
          == multiset([OnStart, OnStop]) + multiset(HandlersOf(Flat(trs[1..])));
    }
  }

  /** When no iteration raises (as in test2 before its counter reaches ten),
      every iteration ends in the stop handler and the exception handler never runs. */
  lemma IterationsAllStop(slots: seq<Handle>, bodies: seq<seq<Op>>)
    requires |slots| == |bodies|
    requires forall i :: 0 <= i < |bodies| ==> NeverJumps(Flatten(bodies[i]))
    ensures multiset(HandlersOf(Flat(LoopTraces(slots, bodies))))[OnStop] == |slots|
    ensures multiset(HandlersOf(Flat(LoopTraces(slots, bodies))))[OnException] == 0
  {
    var trs := LoopTraces(slots, bodies);
    forall i | 0 <= i < |trs|
      ensures HandlersOf(trs[i]) == [OnStart, OnStop]
    {
      EndWithoutRaise(slots[i], Some("Trans1"), bodies[i]);
    }
    FlatAllStop(trs);
  }
}
