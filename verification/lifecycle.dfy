/** A whole NEWTRANSACTION … ENDTRANSACTION block: creation, start handler,
    body, end of transaction and the final landing at the creation point. */
module Lifecycle {
  import opened Types
  import opened Codes
  import opened Exceptions
  import opened Transactions
  import opened Traces
  import opened Dispatch
  import opened Interpreter

  /** The result of a block: its trace, the context as the ending handler saw
      it, and the code control came back with; or the process exit that
      follows a failed allocation of the context. */
  datatype Outcome =
    | Completed(trace: seq<Event>, final: Transaction, code: int)
    | ProcessExit(status: int)

  /** NEWTRANSACTION(ptr, start, stop, exc, debug) body ENDTRANSACTION(ptr).
      The macro always creates a top-level context (no parent). `slot` is what
      the allocator returns for the context object. */
  function RunTransaction(slot: Option<Handle>, debug: Option<string>, body: seq<Op>): (o: Outcome)
    ensures slot.None? <==> o == ProcessExit(1)
  {
    match NewTransaction(slot, None, debug)
    case Exited(status) => ProcessExit(status)
    case Created(t0, _) => Block(t0, body)
  }

  /** Everything after the creation of `t0`: the first landing (start handler),
      the body, ENDTRANSACTION when the body falls through, and the second
      landing at the creation point. */
  function Block(t0: Transaction, body: seq<Op>): (o: Outcome)
    ensures o.Completed?
    ensures EndsTransaction(o.code)
  {
    var start := Land(t0, TransStart);
    var b := Exec(t0, body);
    var j := if b.flow.Jumped? then Transfer(b.flow.code, b.ctx) else FinishTransaction(b.ctx);
    var end := Land(j.ctx, j.code);
    Completed(start.trace + b.trace + end.trace, j.ctx, j.code)
  }

  /** The pieces a block's trace is made of: the start landing, the body
      run, and the landing the body's jump (or ENDTRANSACTION) leads to. */
  lemma BlockPieces(t0: Transaction, body: seq<Op>) returns (b: Run, j: Transfer)
    ensures b == Exec(t0, body) && BodyRun(t0, b)
    ensures j == (if b.flow.Jumped? then Transfer(b.flow.code, b.ctx) else FinishTransaction(b.ctx))
    ensures Block(t0, body) == Completed(Land(t0, TransStart).trace + b.trace + Land(j.ctx, j.code).trace, j.ctx, j.code)
    ensures EndsTransaction(j.code) && j.ctx.handle == t0.handle
    ensures j.ctx.resources == t0.resources + AllocatedPtrs(b.trace)
    ensures t0.raised == None ==> (j.code == ExceptionCaptured <==> j.ctx.raised.Some?)
    ensures FreedPtrs(b.trace) == [] && HandlersOf(b.trace) == [] && DeallocatedOf(b.trace) == []
  {
    b := Exec(t0, body);
    ExecIsBodyRun(t0, body);
    j := if b.flow.Jumped? then Transfer(b.flow.code, b.ctx) else FinishTransaction(b.ctx);
    OnlyAllocationsProjections(b.trace);
  }

  /** A block runs the start handler, then exactly one ending handler, which
      is the exception handler exactly when a record was raised. */
  lemma BlockHandlers(t0: Transaction, body: seq<Op>)
    requires t0.raised == None
    ensures EndsTransaction(Block(t0, body).code)
    ensures HandlersOf(Block(t0, body).trace) == [OnStart, HandlerFor(Block(t0, body).code)]
    ensures Block(t0, body).code == ExceptionCaptured <==> Block(t0, body).final.raised.Some?
  {
    var b, j := BlockPieces(t0, body);
    var start := Land(t0, TransStart);
    HandlersConcat(start.trace, b.trace);
    HandlersConcat(start.trace + b.trace, Land(j.ctx, j.code).trace);
  }

  /** A block started on an empty context frees each pointer it tracked
      exactly once, in allocation order, and releases its context once. */
  lemma BlockFrees(t0: Transaction, body: seq<Op>)
    requires t0.resources == []
    ensures FreedPtrs(Block(t0, body).trace) == AllocatedPtrs(Block(t0, body).trace) == Block(t0, body).final.resources
    ensures DeallocatedOf(Block(t0, body).trace) == [t0.handle]
    ensures Block(t0, body).final.handle == t0.handle
  {
    var b, j := BlockPieces(t0, body);
    var start := Land(t0, TransStart);
    FreedConcat(start.trace, b.trace);
    FreedConcat(start.trace + b.trace, Land(j.ctx, j.code).trace);
    AllocatedConcat(start.trace, b.trace);
    AllocatedConcat(start.trace + b.trace, Land(j.ctx, j.code).trace);
    DeallocatedConcat(start.trace, b.trace);
    DeallocatedConcat(start.trace + b.trace, Land(j.ctx, j.code).trace);
  }

  /** The shape of a block's trace: it opens with the start handler seeing the
      fresh context, and closes with the ending handler seeing the final
      context, followed by the release of the context. */
  lemma BlockEnds(t0: Transaction, body: seq<Op>)
    ensures |Block(t0, body).trace| >= 3
    ensures Block(t0, body).trace[0] == Handled(OnStart, t0)
    ensures Block(t0, body).trace[|Block(t0, body).trace| - 2] == Handled(HandlerFor(Block(t0, body).code), Block(t0, body).final)
    ensures Block(t0, body).trace[|Block(t0, body).trace| - 1] == Deallocated(t0.handle)
  {
    var b, j := BlockPieces(t0, body);
    var startTrace := Land(t0, TransStart).trace;
    var endTrace := Land(j.ctx, j.code).trace;
    assert startTrace == [Handled(OnStart, t0)] by {
      LandingOrder(t0, TransStart);
    }
    var frees := Frees(j.ctx.resources);
    var x, y := Handled(HandlerFor(j.code), j.ctx), Deallocated(t0.handle);
    assert endTrace == frees + [x, y] by {
      LandingOrder(j.ctx, j.code);
    }
    var pre := startTrace + b.trace;
    assert Block(t0, body).trace == pre + (frees + [x, y]);
    FirstAndLastTwo(pre, frees, x, y);
  }

  /** Positions in a concatenation ending with two known elements. */
  lemma FirstAndLastTwo<T>(a: seq<T>, b: seq<T>, x: T, y: T)
    ensures |a + (b + [x, y])| == |a| + |b| + 2
    ensures (a + (b + [x, y]))[|a| + |b|] == x && (a + (b + [x, y]))[|a| + |b| + 1] == y
    ensures |a| > 0 ==> (a + (b + [x, y]))[0] == a[0]
  {
  }

  /** The projections of the trace of a block run on a freshly created
      top-level context. */
  lemma RunTransactionTrace(slot: Handle, debug: Option<string>, body: seq<Op>)
    ensures RunTransaction(Some(slot), debug, body).Completed?
    ensures var o := RunTransaction(Some(slot), debug, body);
            && EndsTransaction(o.code)
            && HandlersOf(o.trace) == [OnStart, HandlerFor(o.code)]
            && FreedPtrs(o.trace) == AllocatedPtrs(o.trace) == o.final.resources
            && DeallocatedOf(o.trace) == [slot]
            && (o.code == ExceptionCaptured <==> o.final.raised.Some?)
  {
    var t0 := NewTransaction(Some(slot), None, debug).ctx;
    assert RunTransaction(Some(slot), debug, body) == Block(t0, body);
    BlockHandlers(t0, body);
    BlockFrees(t0, body);
  }

  /** A block run on a freshly created top-level context opens with the start
      handler seeing the empty context and closes with the ending handler
      seeing the final context, followed by the release of the context. */
  lemma RunTransactionEnds(slot: Handle, debug: Option<string>, body: seq<Op>)
    ensures RunTransaction(Some(slot), debug, body).Completed?
    ensures var o := RunTransaction(Some(slot), debug, body);
            && |o.trace| >= 3
            && o.trace[0] == Handled(OnStart, Transaction(slot, if debug.Some? then debug.value else "", [], [], None))
            && o.trace[|o.trace| - 2] == Handled(HandlerFor(o.code), o.final)
            && o.trace[|o.trace| - 1] == Deallocated(slot)
  {
    var t0 := NewTransaction(Some(slot), None, debug).ctx;
    assert RunTransaction(Some(slot), debug, body) == Block(t0, body);
    BlockEnds(t0, body);
  }
}
