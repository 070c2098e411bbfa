/** Projections of an event trace, and how they distribute over concatenation. */
module Traces {
  import opened Types
  import opened Codes
  import opened Transactions

  /** The pointers a trace records as tracked allocations, in order. */
  function AllocatedPtrs(tr: seq<Event>): seq<Ptr>
  {
    if tr == [] then []
    else (if tr[0].Allocated? then [tr[0].ptr] else []) + AllocatedPtrs(tr[1..])
  }

  /** The pointers a trace frees, in order. */
  function FreedPtrs(tr: seq<Event>): seq<Ptr>
  {
    if tr == [] then []
    else (if tr[0].Freed? then [tr[0].ptr] else []) + FreedPtrs(tr[1..])
  }

  /** The handlers a trace runs, in order. */
  function HandlersOf(tr: seq<Event>): seq<Handler>
  {
    if tr == [] then []
    else (if tr[0].Handled? then [tr[0].handler] else []) + HandlersOf(tr[1..])
  }

  /** The contexts deallocated in a trace, in order. */
  function DeallocatedOf(tr: seq<Event>): seq<Handle>
  {
    if tr == [] then []
    else (if tr[0].Deallocated? then [tr[0].handle] else []) + DeallocatedOf(tr[1..])
  }

  /** The allocations of a concatenation are those of each part, in order. */
  lemma {:induction false} AllocatedConcat(a: seq<Event>, b: seq<Event>)
    ensures AllocatedPtrs(a + b) == AllocatedPtrs(a) + AllocatedPtrs(b)
  {
    if a != [] {
      AllocatedConcat(a[1..], b);
      assert (a + b)[0] == a[0];
      assert (a + b)[1..] == a[1..] + b;
    } else {
      assert a + b == b;
    }
  }

  /** The frees of a concatenation are those of each part, in order. */
  lemma {:induction false} FreedConcat(a: seq<Event>, b: seq<Event>)
    ensures FreedPtrs(a + b) == FreedPtrs(a) + FreedPtrs(b)
  {
    if a != [] {
      FreedConcat(a[1..], b);
      assert (a + b)[0] == a[0];
      assert (a + b)[1..] == a[1..] + b;
    } else {
      assert a + b == b;
    }
  }

  /** The handlers of a concatenation are those of each part, in order. */
  lemma {:induction false} HandlersConcat(a: seq<Event>, b: seq<Event>)
    ensures HandlersOf(a + b) == HandlersOf(a) + HandlersOf(b)
  {
    if a != [] {
      HandlersConcat(a[1..], b);
      assert (a + b)[0] == a[0];
      assert (a + b)[1..] == a[1..] + b;
    } else {
      assert a + b == b;
    }
  }

  /** The deallocations of a concatenation are those of each part, in order. */
  lemma {:induction false} DeallocatedConcat(a: seq<Event>, b: seq<Event>)
    ensures DeallocatedOf(a + b) == DeallocatedOf(a) + DeallocatedOf(b)
  {
    if a != [] {
      DeallocatedConcat(a[1..], b);
      assert (a + b)[0] == a[0];
      assert (a + b)[1..] == a[1..] + b;
    } else {
      assert a + b == b;
    }
  }

  /** Every projection of a concatenation is the concatenation of the projections. */
  lemma ProjectionsConcat(a: seq<Event>, b: seq<Event>)
    ensures AllocatedPtrs(a + b) == AllocatedPtrs(a) + AllocatedPtrs(b)
    ensures FreedPtrs(a + b) == FreedPtrs(a) + FreedPtrs(b)
    ensures HandlersOf(a + b) == HandlersOf(a) + HandlersOf(b)
    ensures DeallocatedOf(a + b) == DeallocatedOf(a) + DeallocatedOf(b)
  {
    AllocatedConcat(a, b);
    FreedConcat(a, b);
    HandlersConcat(a, b);
    DeallocatedConcat(a, b);
  }

  /** The projections of a single event. */
  lemma ProjectionsSingle(e: Event)
    ensures AllocatedPtrs([e]) == (if e.Allocated? then [e.ptr] else [])
    ensures FreedPtrs([e]) == (if e.Freed? then [e.ptr] else [])
    ensures HandlersOf([e]) == (if e.Handled? then [e.handler] else [])
    ensures DeallocatedOf([e]) == (if e.Deallocated? then [e.handle] else [])
  {
    assert [e][1..] == [];
  }

  /** A free of a list of pointers frees exactly that list and does nothing else. */
  lemma {:induction false} FreesProjections(ptrs: seq<Ptr>)
    ensures FreedPtrs(Frees(ptrs)) == ptrs
    ensures AllocatedPtrs(Frees(ptrs)) == []
    ensures HandlersOf(Frees(ptrs)) == []
    ensures DeallocatedOf(Frees(ptrs)) == []
  {
    if ptrs != [] {
      FreesProjections(ptrs[1..]);
      assert ptrs == [ptrs[0]] + ptrs[1..];
      assert Frees(ptrs) == [Freed(ptrs[0])] + Frees(ptrs[1..]);
      ProjectionsConcat([Freed(ptrs[0])], Frees(ptrs[1..]));
      ProjectionsSingle(Freed(ptrs[0]));
    }
  }

  /** A trace made of tracked allocations only. */
  predicate OnlyAllocations(tr: seq<Event>)
  {
    forall i :: 0 <= i < |tr| ==> tr[i].Allocated?
  }

  /** A trace of allocations frees nothing, runs no handler and deallocates nothing. */
  lemma {:induction false} OnlyAllocationsProjections(tr: seq<Event>)
    requires OnlyAllocations(tr)
    ensures FreedPtrs(tr) == [] && HandlersOf(tr) == [] && DeallocatedOf(tr) == []
    ensures |AllocatedPtrs(tr)| == |tr|
  {
    if tr != [] {
      OnlyAllocationsProjections(tr[1..]);
    }
  }
}
