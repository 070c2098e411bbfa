/** Properties of whole transaction blocks, stated over the event trace. */
module Properties {
  import opened Types
  import opened Codes
  import opened Exceptions
  import opened Transactions
  import opened Traces
  import opened Dispatch
  import opened Interpreter
  import opened Lifecycle

  /** A straight-line body that never leaves through a jump: only allocations
      that either succeed or are allowed to return NULL. */
  predicate NeverJumps(ops: seq<Op>)
  {
    ops == [] || (Safe(ops[0]) && NeverJumps(ops[1..]))
  }

  /** An allocation that succeeds, or that may return NULL. */
  predicate Safe(op: Op)
  {
    op.Alloc? && (op.got.Some? || !op.raiseOnFailure)
  }

  /** The pointers the successful allocations of `ops` return, in order. */
  function Obtained(ops: seq<Op>): seq<Ptr>
  {
    if ops == [] then []
    else (if ops[0].Alloc? && ops[0].got.Some? then [ops[0].got.value] else []) + Obtained(ops[1..])
  }

  /** The record a raising operation stores. */
  function RecordOf(op: Op): ExceptionRecord
    requires op.Sender? || op.Recipient?
  {
    match op
    case Sender(category, description, detail) => NewSender(category, description, detail)
    case Recipient(category, description, detail, solution) => NewRecipient(category, description, detail, solution)
  }

  /** What a body obtains is what its first operation obtains, then what the rest obtains. */
  lemma ObtainedCons(ops: seq<Op>)
    requires ops != []
    ensures Obtained(ops) == Obtained([ops[0]]) + Obtained(ops[1..])
  {
    assert [ops[0]][1..] == [];
  }

  /** A body whose first operation is a safe allocation ends as the rest
      ends when run on the context that tracks what that allocation obtained. */
  lemma ExecSafeHead(t: Transaction, ops: seq<Op>)
    requires ops != [] && Safe(ops[0])
    ensures Exec(t, ops).flow == Exec(t.(resources := t.resources + Obtained([ops[0]])), ops[1..]).flow
    ensures Exec(t, ops).ctx == Exec(t.(resources := t.resources + Obtained([ops[0]])), ops[1..]).ctx
  {
    var r1 := Step(t, ops[0]);
    assert r1.flow == Normal && r1.ctx == t.(resources := t.resources + Obtained([ops[0]])) by {
      StepNeverJumps(t, ops[0]);
    }
    ExecUnfold(t, ops);
  }

  /** A straight-line body falls through, tracking exactly the pointers its
      successful allocations return, appended in order. */
  lemma {:induction false} ExecNeverJumps(t: Transaction, ops: seq<Op>)
    requires NeverJumps(ops)
    ensures Exec(t, ops).flow == Normal
    ensures Exec(t, ops).ctx == t.(resources := t.resources + Obtained(ops))
    decreases ops
  {
    if ops != [] {
      var t1 := t.(resources := t.resources + Obtained([ops[0]]));
      ExecSafeHead(t, ops);
      ExecNeverJumps(t1, ops[1..]);
      var a, b := Obtained([ops[0]]), Obtained(ops[1..]);
      assert t.resources + a + b == t.resources + Obtained(ops) by {
        ObtainedCons(ops);
        ConcatAssoc(t.resources, a, b);
      }
    }
  }

  /** One allocation that succeeds or may return NULL falls through and tracks what it obtained. */
  lemma StepNeverJumps(t: Transaction, op: Op)
    requires Safe(op)
    ensures Step(t, op).flow == Normal
    ensures Step(t, op).ctx == t.(resources := t.resources + Obtained([op]))
  {
    assert [op][1..] == [];
  }

  /** The context a block creates. */
  function Initial(slot: Handle, debug: Option<string>): Transaction
  {
    NewTransaction(Some(slot), None, debug).ctx
  }

  /** A raising operation jumps with the exception code, storing its record. */
  lemma StepRaises(t: Transaction, op: Op)
    requires op.Sender? || op.Recipient?
    ensures Step(t, op) == Run(Jumped(ExceptionCaptured), t.(raised := Some(RecordOf(op))), [])
  {
  }

  /** A part that falls through, followed by an operation that jumps: the
      operations after the jump never run. */
  lemma ExecJumpAfter(t: Transaction, a: seq<Op>, b: seq<Op>)
    requires Exec(t, a).flow == Normal
    requires b != [] && !b[0].Call? && Step(Exec(t, a).ctx, b[0]).flow.Jumped?
    ensures Exec(t, a + b) == AndThen(Exec(t, a), Step(Exec(t, a).ctx, b[0]))
  {
    ExecConcat(t, a, b);
    ExecUnfold(Exec(t, a).ctx, b);
  }

  /** A body whose inlined form does straight-line work and then raises
      stops at the raise: the context holds what was obtained before it and the
      raised record, and nothing after the raise runs. */
  lemma ExecRaiseAfter(t: Transaction, body: seq<Op>, pre: seq<Op>, op: Op, post: seq<Op>)
    requires Flatten(body) == pre + [op] + post
    requires NeverJumps(pre)
    requires op.Sender? || op.Recipient?
    ensures Exec(t, body).flow == Jumped(ExceptionCaptured)
    ensures Exec(t, body).ctx == t.(resources := t.resources + Obtained(pre), raised := Some(RecordOf(op)))
  {
    var t1 := t.(resources := t.resources + Obtained(pre));
    assert Exec(t, body) == Exec(t, pre + ([op] + post)) by {
      ExecFlatten(t, body);
      ConcatAssoc(pre, [op], post);
    }
    ExecNeverJumps(t, pre);
    StepRaises(t1, op);
    assert ([op] + post)[0] == op;
    ExecJumpAfter(t, pre, [op] + post);
  }

  /** The same for an ENDTRANSACTION reached after straight-line work. */
  lemma ExecFinishAfter(t: Transaction, body: seq<Op>, pre: seq<Op>, post: seq<Op>)
    requires Flatten(body) == pre + [Finish] + post
    requires NeverJumps(pre)
    ensures Exec(t, body).flow == Jumped(TransStop)
    ensures Exec(t, body).ctx == t.(resources := t.resources + Obtained(pre))
  {
    var t1 := t.(resources := t.resources + Obtained(pre));
    assert Exec(t, body) == Exec(t, pre + ([Finish] + post)) by {
      ExecFlatten(t, body);
      ConcatAssoc(pre, [Finish], post);
    }
    ExecNeverJumps(t, pre);
    assert Step(t1, Finish) == Run(Jumped(TransStop), t1, []);
    assert ([Finish] + post)[0] == Finish;
    ExecJumpAfter(t, pre, [Finish] + post);
  }

  /** A raise at any call depth, after straight-line work, makes the block
      end in the exception handler, which sees the raised record unchanged;
      the creation point frees exactly what was allocated before the raise,
      and nothing after the raise runs. */
  lemma RaiseAtAnyDepth(slot: Handle, debug: Option<string>, body: seq<Op>, pre: seq<Op>, op: Op, post: seq<Op>)
    requires Flatten(body) == pre + [op] + post
    requires NeverJumps(pre)
    requires op.Sender? || op.Recipient?
    ensures RunTransaction(Some(slot), debug, body).Completed?
    ensures RunTransaction(Some(slot), debug, body).code == ExceptionCaptured
    ensures HandlersOf(RunTransaction(Some(slot), debug, body).trace) == [OnStart, OnException]
    ensures RunTransaction(Some(slot), debug, body).final.raised == Some(RecordOf(op))
    ensures FreedPtrs(RunTransaction(Some(slot), debug, body).trace) == Obtained(pre)
  {
    var t0 := Initial(slot, debug);
    assert RunTransaction(Some(slot), debug, body) == Block(t0, body);
    BlockHandlers(t0, body);
    BlockFrees(t0, body);
    ExecRaiseAfter(t0, body, pre, op, post);
  }

  /** A block whose body never raises and never finishes early ends through
      ENDTRANSACTION in the stop handler, which sees no exception, and the
      creation point frees every pointer obtained, in allocation order. */
  lemma EndWithoutRaise(slot: Handle, debug: Option<string>, body: seq<Op>)
    requires NeverJumps(Flatten(body))
    ensures RunTransaction(Some(slot), debug, body).Completed?
    ensures RunTransaction(Some(slot), debug, body).code == TransStop
    ensures HandlersOf(RunTransaction(Some(slot), debug, body).trace) == [OnStart, OnStop]
    ensures RunTransaction(Some(slot), debug, body).final.raised == None
    ensures FreedPtrs(RunTransaction(Some(slot), debug, body).trace) == Obtained(Flatten(body))
  {
    var t0 := Initial(slot, debug);
    assert RunTransaction(Some(slot), debug, body) == Block(t0, body);
    BlockHandlers(t0, body);
    BlockFrees(t0, body);
    ExecFlatten(t0, body);
    ExecNeverJumps(t0, Flatten(body));
  }

  /** ENDTRANSACTION reached from any call depth ends the block in the stop
      handler; the operations after it never run. */
  lemma FinishAtAnyDepth(slot: Handle, debug: Option<string>, body: seq<Op>, pre: seq<Op>, post: seq<Op>)
    requires Flatten(body) == pre + [Finish] + post
    requires NeverJumps(pre)
    ensures RunTransaction(Some(slot), debug, body).Completed?
    ensures RunTransaction(Some(slot), debug, body).code == TransStop
    ensures HandlersOf(RunTransaction(Some(slot), debug, body).trace) == [OnStart, OnStop]
    ensures FreedPtrs(RunTransaction(Some(slot), debug, body).trace) == Obtained(pre)
  {
    var t0 := Initial(slot, debug);
    assert RunTransaction(Some(slot), debug, body) == Block(t0, body);
    BlockHandlers(t0, body);
    BlockFrees(t0, body);
    ExecFinishAfter(t0, body, pre, post);
  }
}
