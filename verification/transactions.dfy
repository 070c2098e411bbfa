/** The transaction context and the engine calls of libctrans.c that act on it. */
module Transactions {
  import opened Types
  import opened Codes
  import opened Exceptions

  /** A transaction context (`struct _Transaction`). Children are kept as the
      handles of the child contexts, most recently created first; `resources`
      is the list of tracked allocations in insertion order; `raised` is the
      record stored by the last raise, `None` before any. */
  datatype Transaction = Transaction(
    handle: Handle,
    debugLabel: string,
    children: seq<Handle>,
    resources: seq<Ptr>,
    raised: Option<ExceptionRecord>)

  /** What the engine records: tracked allocations and frees, handler calls
      (with the context as the handler sees it) and the final release of the
      context object together with its stack backup and debug label. */
  datatype Event =
    | Allocated(ptr: Ptr)
    | Freed(ptr: Ptr)
    | Handled(handler: Handler, ctx: Transaction)
    | Deallocated(handle: Handle)

  /** The result of creating a context: the new context and the updated parent,
      or termination of the process when the context cannot be allocated. */
  datatype Creation =
    | Created(ctx: Transaction, parent: Option<Transaction>)
    | Exited(status: int)

  /** Every field of `b` but `children` equals that of `a`. */
  predicate SameButChildren(a: Transaction, b: Transaction)
  {
    a.handle == b.handle && a.debugLabel == b.debugLabel && a.resources == b.resources && a.raised == b.raised
  }

  /** Every field of `b` but `resources` equals that of `a`. */
  predicate SameButResources(a: Transaction, b: Transaction)
  {
    a.handle == b.handle && a.debugLabel == b.debugLabel && a.children == b.children && a.raised == b.raised
  }

  /** Every field of `b` but `raised` equals that of `a`. */
  predicate SameButRaised(a: Transaction, b: Transaction)
  {
    a.handle == b.handle && a.debugLabel == b.debugLabel && a.children == b.children && a.resources == b.resources
  }

  /** `ctrans_new_transaction` up to its first return. `slot` is the address the
      allocator returns for the context object (`None` when it fails). */
  function NewTransaction(slot: Option<Handle>, parent: Option<Transaction>, debug: Option<string>): (r: Creation)
    ensures slot.None? <==> r.Exited?
    ensures r.Exited? ==> r.status == 1
    ensures r.Created? ==> r.ctx.handle == slot.value
    ensures r.Created? ==> r.ctx.resources == [] && r.ctx.children == [] && r.ctx.raised == None
    ensures r.Created? && debug.None? ==> r.ctx.debugLabel == ""
    ensures r.Created? && debug.Some? ==> r.ctx.debugLabel == debug.value
    ensures r.Created? ==> (r.parent.Some? <==> parent.Some?)
    ensures r.Created? && parent.Some? ==>
              && SameButChildren(parent.value, r.parent.value)
              && |r.parent.value.children| == |parent.value.children| + 1
              && r.parent.value.children[0] == r.ctx.handle
              && r.parent.value.children[1..] == parent.value.children
  {
    match slot
    case None => Exited(1)
    case Some(h) =>
      var debugLabel := match debug case None => "" case Some(s) => s;
      var ctx := Transaction(h, debugLabel, [], [], None);
      var parent' := match parent
        case None => None
        case Some(p) => Some(p.(children := [h] + p.children));
      Created(ctx, parent')
  }

  /** Where control goes after an engine call that does not return: back to
      the creation point of `ctx`, carrying `code`. */
  datatype Transfer = Transfer(code: int, ctx: Transaction)

  /** `ctrans_finish_transaction`: jump to the creation point with the stop code. */
  function FinishTransaction(t: Transaction): (j: Transfer)
    ensures j.code == TransStop && j.ctx == t
  {
    Transfer(TransStop, t)
  }

  /** `ctrans_raise_exception`: store the record on the context and jump to the
      creation point with the exception code. */
  function RaiseException(t: Transaction, e: ExceptionRecord): (j: Transfer)
    ensures j.code == ExceptionCaptured
    ensures j.ctx.raised == Some(e)
    ensures SameButRaised(t, j.ctx)
  {
    Transfer(ExceptionCaptured, t.(raised := Some(e)))
  }

  /** `ctrans_raise_sender_exception`. */
  function RaiseSender(t: Transaction, category: uint32, description: string, detail: string): (j: Transfer)
    ensures j.code == ExceptionCaptured
    ensures SameButRaised(t, j.ctx)
    ensures j.ctx.raised.Some? && j.ctx.raised.value.SenderException?
    ensures j.ctx.raised.value.base.category == category
    ensures j.ctx.raised.value.base.description == description
    ensures j.ctx.raised.value.base.detail == description
  {
    RaiseException(t, NewSender(category, description, detail))
  }

  /** `ctrans_raise_recipient_exception`. */
  function RaiseRecipient(t: Transaction, category: uint32, description: string, detail: string,
                          solution: string): (j: Transfer)
    ensures j.code == ExceptionCaptured
    ensures SameButRaised(t, j.ctx)
    ensures j.ctx.raised.Some? && j.ctx.raised.value.RecipientException?
    ensures j.ctx.raised.value.base.category == category
    ensures j.ctx.raised.value.base.description == description
    ensures j.ctx.raised.value.base.detail == description
    ensures j.ctx.raised.value.solution == solution
  {
    RaiseException(t, NewRecipient(category, description, detail, solution))
  }

  /** The type and description of the sender exception a failed, raising allocation produces. */
  const AllocFailureCategory: uint32 := 1
  const AllocFailureDescription: string := "g_try_malloc failed @ ctrans_try_malloc"

  /** The outcome of `ctrans_try_malloc`: a return to the caller, or a jump. */
  datatype MallocResult =
    | Returned(ctx: Transaction, ptr: Option<Ptr>)
    | Raised(jump: Transfer)

  /** `ctrans_try_malloc`. `got` is what the allocator returned (`None` for NULL). */
  function TryMalloc(t: Transaction, got: Option<Ptr>, raiseOnFailure: bool): (r: MallocResult)
    ensures got.Some? ==> r.Returned? && r.ptr == got
                          && SameButResources(t, r.ctx) && r.ctx.resources == t.resources + [got.value]
    ensures got.None? && !raiseOnFailure ==> r == Returned(t, None)
    ensures got.None? && raiseOnFailure ==>
              && r.Raised? && r.jump.code == ExceptionCaptured
              && SameButRaised(t, r.jump.ctx)
              && r.jump.ctx.raised == Some(NewSender(AllocFailureCategory, AllocFailureDescription, ""))
  {
    match got
    case None =>
      if !raiseOnFailure then Returned(t, None)
      else Raised(RaiseSender(t, AllocFailureCategory, AllocFailureDescription, ""))
    case Some(p) =>
      Returned(t.(resources := t.resources + [p]), got)
  }

  /** The frees of the pointers `ptrs`, one per pointer, in list order. */
  function Frees(ptrs: seq<Ptr>): (ev: seq<Event>)
    ensures |ev| == |ptrs|
    ensures forall i :: 0 <= i < |ptrs| ==> ev[i] == Freed(ptrs[i])
  {
    if ptrs == [] then [] else [Freed(ptrs[0])] + Frees(ptrs[1..])
  }

  /** `ctrans_free_resources`: walks the tracked list by index from the first
      to the last element and frees each pointer. Child contexts are left alone
      and the list is not reset, so the context itself is unchanged. */
  method FreeResources(t: Transaction) returns (ev: seq<Event>)
    ensures |ev| == |t.resources|
    ensures forall i :: 0 <= i < |ev| ==> ev[i] == Freed(t.resources[i])
  {
    ev := [];
    if t.resources != [] {
      var listSize := |t.resources|;
      var idx := 0;
      while idx < listSize
        invariant 0 <= idx <= listSize
        invariant |ev| == idx
        invariant forall i :: 0 <= i < idx ==> ev[i] == Freed(t.resources[i])
      {
        var p := t.resources[idx];
        ev := ev + [Freed(p)];
        idx := idx + 1;
      }
    }
  }

  /** The reference definition and the index loop agree. */
  lemma FreeResourcesIsFrees(t: Transaction, ev: seq<Event>)
    requires |ev| == |t.resources|
    requires forall i :: 0 <= i < |ev| ==> ev[i] == Freed(t.resources[i])
    ensures ev == Frees(t.resources)
  {
  }

  /** Each pointer is freed exactly as many times as it is tracked. */
  lemma {:induction false} FreesCount(ptrs: seq<Ptr>, p: Ptr)
    ensures multiset(Frees(ptrs))[Freed(p)] == multiset(ptrs)[p]
  {
    if ptrs != [] {
      FreesCount(ptrs[1..], p);
      assert ptrs == [ptrs[0]] + ptrs[1..];
      assert Frees(ptrs) == [Freed(ptrs[0])] + Frees(ptrs[1..]);
    }
  }

  /** Only `Freed` events are produced by a free. */
  lemma FreesOnlyFree(ptrs: seq<Ptr>, e: Event)
    ensures e in Frees(ptrs) <==> e.Freed? && e.ptr in ptrs
  {
    if e in Frees(ptrs) {
      var i :| 0 <= i < |Frees(ptrs)| && Frees(ptrs)[i] == e;
    }
    if e.Freed? && e.ptr in ptrs {
      var i :| 0 <= i < |ptrs| && ptrs[i] == e.ptr;
      assert Frees(ptrs)[i] == e;
    }
  }

  /** Freeing twice is not a no-op: since the list is not reset, a second call
      frees every tracked pointer again. */
  lemma FreeTwiceDoubleFrees(t: Transaction, p: Ptr)
    ensures multiset(Frees(t.resources) + Frees(t.resources))[Freed(p)] == 2 * multiset(t.resources)[p]
  {
    FreesCount(t.resources, p);
  }
}
