/** A transaction body as a tree of operations, and its execution. A jump out
    of a nested call discards every frame between the jumping operation and
    the creation point: the remaining operations of all enclosing calls are
    never run. */
module Interpreter {
  import opened Types
  import opened Codes
  import opened Exceptions
  import opened Transactions
  import opened Traces
  import opened Dispatch

  /** One statement of a transaction body. `Alloc` carries what the allocator
      returns; `Call` is a call into a function whose own body is given. */
  datatype Op =
    | Alloc(got: Option<Ptr>, raiseOnFailure: bool)
    | Sender(category: uint32, description: string, detail: string)
    | Recipient(category: uint32, description: string, detail: string, solution: string)
    | Finish
    | Call(body: seq<Op>)

  /** How a piece of body finished: by falling through, or by a jump to the creation point. */
  datatype Flow = Normal | Jumped(code: int)

  datatype Run = Run(flow: Flow, ctx: Transaction, trace: seq<Event>)

  /** A jump as seen by the interpreter. */
  function FromTransfer(j: Transfer): Run
  {
    Run(Jumped(j.code), j.ctx, [])
  }

  /** The facts every run of body operations keeps: the trace only records
      tracked allocations, which are exactly what was appended to the resource
      list; handle, label and children are untouched; a jump carries one of the
      two ending codes; the raised record changes only on an exception jump,
      and is then present. */
  predicate BodyRun(t: Transaction, r: Run)
  {
    && OnlyAllocations(r.trace)
    && r.ctx.resources == t.resources + AllocatedPtrs(r.trace)
    && r.ctx.handle == t.handle && r.ctx.debugLabel == t.debugLabel && r.ctx.children == t.children
    && (r.flow.Jumped? ==> EndsTransaction(r.flow.code))
    && (r.flow == Jumped(ExceptionCaptured) ==> r.ctx.raised.Some?)
    && (r.flow != Jumped(ExceptionCaptured) ==> r.ctx.raised == t.raised)
  }

  /** One operation that is not a call. */
  function Step(t: Transaction, op: Op): (r: Run)
    requires !op.Call?
    ensures BodyRun(t, r)
    ensures op.Finish? ==> r.flow == Jumped(TransStop)
    ensures op.Sender? || op.Recipient? ==> r.flow == Jumped(ExceptionCaptured)
    ensures op.Alloc? ==> (r.flow.Jumped? <==> op.got.None? && op.raiseOnFailure)
  {
    match op
    case Alloc(got, raiseOnFailure) =>
      (match TryMalloc(t, got, raiseOnFailure)
       case Returned(ctx, None) => Run(Normal, ctx, [])
       case Returned(ctx, Some(p)) =>
         ProjectionsSingle(Allocated(p));
         Run(Normal, ctx, [Allocated(p)])
       case Raised(j) => FromTransfer(j))
    case Sender(category, description, detail) =>
      FromTransfer(RaiseSender(t, category, description, detail))
    case Recipient(category, description, detail, solution) =>
      FromTransfer(RaiseRecipient(t, category, description, detail, solution))
    case Finish =>
      FromTransfer(FinishTransaction(t))
  }

  /** Continues with `rest` after the first part ran to `r1`, unless it jumped. */
  function AndThen(r1: Run, r2: Run): Run
  {
    Run(r2.flow, r2.ctx, r1.trace + r2.trace)
  }

  /** A run that falls through, followed by another run, is again a body run. */
  lemma BodyRunCompose(t: Transaction, r1: Run, r2: Run)
    requires BodyRun(t, r1) && r1.flow == Normal && BodyRun(r1.ctx, r2)
    ensures BodyRun(t, AndThen(r1, r2))
  {
    ProjectionsConcat(r1.trace, r2.trace);
    var tr := r1.trace + r2.trace;
    assert OnlyAllocations(tr) by {
      forall i | 0 <= i < |tr| ensures tr[i].Allocated? {
        if i < |r1.trace| { assert tr[i] == r1.trace[i]; } else { assert tr[i] == r2.trace[i - |r1.trace|]; }
      }
    }
  }

  /** Executes body operations in order against the context `t`. A jump out
      of any depth carries one of the two ending codes; the full invariant is
      `ExecIsBodyRun`. */
  function Exec(t: Transaction, ops: seq<Op>): (r: Run)
    ensures r.flow.Jumped? ==> EndsTransaction(r.flow.code)
    decreases ops
  {
    if ops == [] then Run(Normal, t, [])
    else
      var r1 := if ops[0].Call? then Exec(t, ops[0].body) else Step(t, ops[0]);
      if r1.flow.Jumped? then r1
      else
        var r2 := Exec(r1.ctx, ops[1..]);
        AndThen(r1, r2)
  }

  /** Every execution of body operations is a body run. */
  lemma {:induction false} ExecIsBodyRun(t: Transaction, ops: seq<Op>)
    ensures BodyRun(t, Exec(t, ops))
    decreases ops
  {
    if ops != [] {
      var r1 := if ops[0].Call? then Exec(t, ops[0].body) else Step(t, ops[0]);
      if ops[0].Call? {
        ExecIsBodyRun(t, ops[0].body);
      }
      if !r1.flow.Jumped? {
        ExecIsBodyRun(r1.ctx, ops[1..]);
        BodyRunCompose(t, r1, Exec(r1.ctx, ops[1..]));
      }
    }
  }

  /** The first operation of a non-empty body, run on its own. */
  function Head(t: Transaction, ops: seq<Op>): Run
    requires ops != []
    decreases ops, 0
  {
    if ops[0].Call? then Exec(t, ops[0].body) else Step(t, ops[0])
  }

  /** One unfolding of `Exec`. */
  lemma ExecUnfold(t: Transaction, ops: seq<Op>)
    requires ops != []
    ensures Exec(t, ops) ==
              (if Head(t, ops).flow.Jumped? then Head(t, ops) else AndThen(Head(t, ops), Exec(Head(t, ops).ctx, ops[1..])))
  {
  }

  /** Executing `a + b` is executing `a`, then `b` unless `a` jumped. */
  lemma {:induction false} ExecConcat(t: Transaction, a: seq<Op>, b: seq<Op>)
    ensures Exec(t, a + b) ==
              (if Exec(t, a).flow.Jumped? then Exec(t, a) else AndThen(Exec(t, a), Exec(Exec(t, a).ctx, b)))
    decreases a
  {
    if a == [] {
      assert a + b == b;
    } else {
      var r1 := Head(t, a);
      assert Head(t, a + b) == r1 by {
        assert (a + b)[0] == a[0];
      }
      assert (a + b)[1..] == a[1..] + b;
      ExecUnfold(t, a + b);
      ExecUnfold(t, a);
      if !r1.flow.Jumped? {
        ExecConcat(r1.ctx, a[1..], b);
        var r2 := Exec(r1.ctx, a[1..]);
        if !r2.flow.Jumped? {
          var r3 := Exec(r2.ctx, b);
          assert r1.trace + (r2.trace + r3.trace) == (r1.trace + r2.trace) + r3.trace;
        }
      }
    }
  }

  /** The operations a body performs, with every call inlined. */
  function Flatten(ops: seq<Op>): (flat: seq<Op>)
    ensures forall i :: 0 <= i < |flat| ==> !flat[i].Call?
    decreases ops
  {
    if ops == [] then []
    else (if ops[0].Call? then Flatten(ops[0].body) else [ops[0]]) + Flatten(ops[1..])
  }

  /** Concatenation is associative. */
  lemma ConcatAssoc<T>(a: seq<T>, b: seq<T>, c: seq<T>)
    ensures a + b + c == a + (b + c)
  {
  }

  /** One unfolding of `Flatten` at the front. */
  lemma FlattenCons(op: Op, rest: seq<Op>)
    ensures Flatten([op] + rest) == (if op.Call? then Flatten(op.body) else [op]) + Flatten(rest)
  {
    assert ([op] + rest)[0] == op;
    assert ([op] + rest)[1..] == rest;
  }

  /** Call depth does not matter: a body runs exactly as its inlined form, so a
      jump from any depth lands at the creation point with the same state and trace. */
  lemma {:induction false} ExecFlatten(t: Transaction, ops: seq<Op>)
    ensures Exec(t, Flatten(ops)) == Exec(t, ops)
    decreases ops
  {
    if ops != [] {
      var head := if ops[0].Call? then Flatten(ops[0].body) else [ops[0]];
      ExecConcat(t, head, Flatten(ops[1..]));
      if ops[0].Call? {
        ExecFlatten(t, ops[0].body);
      } else {
        assert head[1..] == [];
      }
      var r1 := Exec(t, head);
      if !r1.flow.Jumped? {
        ExecFlatten(r1.ctx, ops[1..]);
      }
    }
  }
}
