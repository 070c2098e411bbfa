/** What happens each time control reaches a transaction's creation point:
    the tail of `ctrans_new_transaction` after `setjmp`, then the handler
    dispatch of the NEWTRANSACTION macro. */
module Dispatch {
  import opened Types
  import opened Codes
  import opened Transactions
  import opened Traces

  /** Where execution continues after the handler: into the transaction body
      (start path) or after the ENDTRANSACTION label. */
  datatype Resume = IntoBody | PastEnd

  datatype Landing = Landing(trace: seq<Event>, resume: Resume)

  /** True for the two codes on which the creation point frees the resources. */
  predicate EndsTransaction(code: int)
  {
    code == TransStop || code == ExceptionCaptured
  }

  /** The tail of `ctrans_new_transaction` after `setjmp` returns `code`:
      the tracked resources are freed on the two ending codes only. */
  function CreationReturn(ctx: Transaction, code: int): (ev: seq<Event>)
    ensures FreedPtrs(ev) == (if EndsTransaction(code) then ctx.resources else [])
    ensures AllocatedPtrs(ev) == [] && HandlersOf(ev) == [] && DeallocatedOf(ev) == []
  {
    FreesProjections(ctx.resources);
    if EndsTransaction(code) then Frees(ctx.resources) else []
  }

  /** The handler dispatch of NEWTRANSACTION on `code`: the exception and stop
      paths run their handler, release the context and go past ENDTRANSACTION;
      any other code runs the start handler and enters the body. */
  function DispatchOn(ctx: Transaction, code: int): (l: Landing)
    ensures l.resume == PastEnd <==> EndsTransaction(code)
    ensures HandlersOf(l.trace) == [HandlerFor(code)]
    ensures FreedPtrs(l.trace) == [] && AllocatedPtrs(l.trace) == []
    ensures DeallocatedOf(l.trace) == (if EndsTransaction(code) then [ctx.handle] else [])
    ensures |l.trace| >= 1 && l.trace[0] == Handled(HandlerFor(code), ctx)
  {
    var handled := Handled(HandlerFor(code), ctx);
    ProjectionsSingle(handled);
    ProjectionsSingle(Deallocated(ctx.handle));
    ProjectionsConcat([handled], [Deallocated(ctx.handle)]);
    match HandlerFor(code)
    case OnException => Landing([handled, Deallocated(ctx.handle)], PastEnd)
    case OnStop => Landing([handled, Deallocated(ctx.handle)], PastEnd)
    case OnStart => Landing([handled], IntoBody)
  }

  /** Arrival at the creation point of `ctx` with return code `code`. */
  function Land(ctx: Transaction, code: int): (l: Landing)
    ensures l.resume == PastEnd <==> EndsTransaction(code)
    ensures HandlersOf(l.trace) == [HandlerFor(code)]
    ensures AllocatedPtrs(l.trace) == []
    ensures FreedPtrs(l.trace) == (if EndsTransaction(code) then ctx.resources else [])
    ensures DeallocatedOf(l.trace) == (if EndsTransaction(code) then [ctx.handle] else [])
  {
    var d := DispatchOn(ctx, code);
    ProjectionsConcat(CreationReturn(ctx, code), d.trace);
    Landing(CreationReturn(ctx, code) + d.trace, d.resume)
  }

  /** On the stop and exception paths the frees come first, then the one
      handler, then the release of the context; the start path is the start
      handler alone. */
  lemma LandingOrder(ctx: Transaction, code: int)
    ensures EndsTransaction(code) ==>
              Land(ctx, code).trace == Frees(ctx.resources) + [Handled(HandlerFor(code), ctx), Deallocated(ctx.handle)]
    ensures !EndsTransaction(code) ==> Land(ctx, code).trace == [Handled(OnStart, ctx)]
  {
  }

  /** Child contexts are not torn down: landing at a parent's creation point
      frees none of a child's own pointers and does not release the child.
      Landing never reads the child list, so the fact holds for any context
      whose pointers and handle are not the parent's; the first requires only
      names the situation the statement is about. */
  lemma LandingLeavesChildren(parent: Transaction, child: Transaction, code: int)
    requires child.handle in parent.children && child.handle != parent.handle
    requires forall p :: p in child.resources ==> p !in parent.resources
    ensures forall p :: p in child.resources ==> Freed(p) !in Land(parent, code).trace
    ensures Deallocated(child.handle) !in Land(parent, code).trace
  {
    LandingOrder(parent, code);
    forall p | p in child.resources
      ensures Freed(p) !in Land(parent, code).trace
    {
      FreesOnlyFree(parent.resources, Freed(p));
    }
    if EndsTransaction(code) {
      FreesOnlyFree(parent.resources, Deallocated(child.handle));
    }
  }
}
