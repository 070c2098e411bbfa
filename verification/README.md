# libctrans transaction engine in Dafny

libctrans brings a small transaction discipline to C programs. A block is
written as `NEWTRANSACTION(ptr, start, stop, exc, label) … ENDTRANSACTION(ptr)`.
The block creates a transaction context, and the body hands that context down
through any number of calls. Memory allocated with `ctrans_try_malloc` is
tracked on the context. The block ends in one of two ways:

- the body reaches `ENDTRANSACTION`, or calls `ctrans_finish_transaction`;
- some callee at any depth raises a sender or a recipient exception.

Either way, `longjmp` takes control straight back to the `setjmp` inside
`ctrans_new_transaction`. The tracked memory is freed there. The macro then
runs the stop or the exception handler and releases the context.

The model is functional:

- `types.dfy`: fixed-width integers, addresses (`Ptr`, `Handle`) and `Option`.
- `codes.dfy`: the return codes `TRANS_START`/`TRANS_STOP`/`EXCEPTION_CAPTURED`,
  the `recipEx_type` audiences, and the handler each code selects.
- `exceptions.dfy`: `exception_base` and the two record shapes, as the two
  raise functions fill them in.
- `transactions.dfy`: the context, and the engine calls of `libctrans.c`.
  - Calls that never return (`ctrans_finish_transaction`, the raises, a
    failing raising allocation) produce a `Transfer`. A `Transfer` is the
    `longjmp` target together with its code.
  - `ctrans_free_resources` is an index loop, with a recursive reference
    definition `Frees`.
- `traces.dfy`: the event trace (tracked allocations, frees, handler calls,
  context releases) and its projections.
- `dispatch.dfy`: what happens each time control reaches the creation point.
  That is the tail of `ctrans_new_transaction` after `setjmp`, then the
  handler dispatch of `NEWTRANSACTION`.
- `interpreter.dfy`: a transaction body as a tree of operations, and a
  recursive interpreter.
  - A body is made of allocations, raises, `ENDTRANSACTION` and calls into
    functions with their own bodies.
  - A jump from any depth discards every frame between the jump and the
    creation point.
  - `Flatten` inlines all calls, and `ExecFlatten` proves that call depth
    does not change what a block does.
- `lifecycle.dfy`: a whole block, from creation to the second landing at the
  creation point.
- `properties.dfy`: whole-block properties: a raise at any depth, a body that
  never raises, and `ENDTRANSACTION` reached early.
- `scenarios.dfy`: the example programs' uses of the engine. `test1`
  raises three calls deep. `test2` runs one block per loop iteration.

The results of the tracked allocations and of the context allocation are
parameters. Each `Alloc` operation carries what `g_try_malloc` returned, and
`RunTransaction` takes what `g_malloc` returned for the context object.
Handlers are recorded in the trace together with the context they see; their
own effects are not modelled.

### Behaviour worth noting

- Release order. `ctrans_free_resources` walks the list from index 0
  upwards, so memory is freed in allocation order: first allocated, first
  freed.
- Children. Child contexts are never torn down: the loop over them is an
  empty stub. `Dispatch.LandingLeavesChildren` states this.
- Repeated free. `ctrans_free_resources` is not idempotent: the list is not
  reset after it is freed. `Transactions.FreeTwiceDoubleFrees` states this.
- Child registration. A new child is prepended to the parent's child list,
  so the most recently created child comes first.
- Handler timing. On the stop and exception paths, the tracked memory is
  freed inside `ctrans_new_transaction`, before the macro runs the handler.
  `Dispatch.LandingOrder` states this order.
- The `detail` field. Both raise functions store the description there; the
  detail argument is ignored. `Exceptions.DetailArgumentIgnored` states this.
- Recipient categories. `ctrans_raise_recipient_exception` stores whatever
  integer it is given as the type; the `recipEx_type` values are a
  convention the code does not enforce.
- The `test1` example. It allocates four times (`action1`, `action2`,
  `subAction`, `subSubAction`) before it raises.

## Model

| member | source | states |
|---|---|---|
| Codes.OutcomeCodesDistinct | libctrans.h:260-262 | the three return codes are 0, 1 and 2 and pairwise distinct |
| Codes.AudienceCode | libctrans.h:315 | USER, ADMIN and IMPLEMENTATION are exactly 1100000, 1200000 and 1300000, each in both directions |
| Codes.AudienceOf | libctrans.h:315 | an exception type reads back as an audience exactly when it is one of the three enumerator values |
| Codes.AudienceRoundTrip | libctrans.h:315 | encoding an audience and reading it back is the identity, and so is the converse on the three enumerator values |
| Codes.HandlerFor | libctrans.h:354-368 | every return code selects exactly one handler: exception for 2, stop for 1, start for any other code |
| Exceptions.NewSender | trunk/src/libctrans.c:166-174 | a sender record keeps the given type and description; serial numbers, timestamp and thread are zero or null; detail holds the description |
| Exceptions.NewRecipient | trunk/src/libctrans.c:206-215 | a recipient record keeps the given type (any integer, not only a `recipEx_type` value) and description, sets detail to the description, clears the informational fields, and carries the solution exactly as passed |
| Exceptions.DetailArgumentIgnored | trunk/src/libctrans.c:172-173 | two raises that differ only in the detail argument build identical records |
| Exceptions.RecipientExtendsSender | libctrans.h:227-246 | a recipient record is the sender record of the same type plus the solution |
| Exceptions.RecipientAudienceRecoverable | trunk/src/libctrans.c:202-208 | when a recipient exception is raised with a `recipEx_type` value, that audience can be read back from the stored type |
| Transactions.NewTransaction | trunk/src/libctrans.c:54-80 | the process exits with status 1 exactly when the context cannot be allocated; otherwise the new context has empty resource and child lists and no record, its label is "" for NULL and a copy of the argument otherwise, and the parent (if any) gains the new context at the front of its children, with everything else kept |
| Transactions.FinishTransaction | trunk/src/libctrans.c:129-142 | ending jumps to the creation point with TRANS_STOP and leaves the context as it is |
| Transactions.RaiseException | trunk/src/libctrans.c:144-159 | raising stores the record on the context, changes nothing else, and jumps with EXCEPTION_CAPTURED |
| Transactions.RaiseSender | trunk/src/libctrans.c:161-176 | a sender raise jumps with EXCEPTION_CAPTURED, storing a sender record with the given type and description and the description as detail |
| Transactions.RaiseRecipient | trunk/src/libctrans.c:201-217 | a recipient raise jumps with EXCEPTION_CAPTURED, storing a recipient record with the given type, the description as description and detail, and the solution |
| Transactions.TryMalloc | trunk/src/libctrans.c:90-106 | a successful allocation returns the pointer and appends it at the end of the list; a NULL that is allowed returns NULL and leaves the context unchanged; a NULL that is not allowed raises the sender exception of type 1 with the fixed description and appends nothing |
| Transactions.Frees | trunk/src/libctrans.c:117-123 | the reference release: one free per tracked pointer, the i-th free releasing the i-th pointer |
| Transactions.FreeResources | trunk/src/libctrans.c:108-127 | the index loop frees exactly the tracked pointers, one each, in list order |
| Transactions.FreeResourcesIsFrees | trunk/src/libctrans.c:117-123 | the loop's result is the reference release |
| Transactions.FreesCount | trunk/src/libctrans.c:117-123 | every pointer is freed exactly as many times as it occurs in the list |
| Transactions.FreesOnlyFree | trunk/src/libctrans.c:111-126 | a release produces only frees, and frees a pointer exactly when it is tracked |
| Transactions.FreeTwiceDoubleFrees | trunk/src/libctrans.c:115-126 | the list is not reset, so two releases free every tracked pointer exactly twice as often as it is tracked |
| Traces.FreesProjections | trunk/src/libctrans.c:117-123 | a release frees exactly the list and allocates nothing, runs no handler and releases no context |
| Dispatch.CreationReturn | trunk/src/libctrans.c:81-87 | after `setjmp`, the tracked pointers are freed exactly when the code is TRANS_STOP or EXCEPTION_CAPTURED; the first return frees nothing |
| Dispatch.DispatchOn | libctrans.h:353-368 | exactly the handler the code selects runs, first; on codes 1 and 2 the context is released and control goes past ENDTRANSACTION; any other code enters the body and releases nothing |
| Dispatch.Land | libctrans.h:353-368 | on every return to the creation point exactly one handler runs; the tracked pointers are freed and the context released exactly on the two ending codes |
| Dispatch.LandingOrder | trunk/src/libctrans.c:81-87 | on the ending codes the trace is the frees in list order, then the handler with the context, then the release; on the first return it is the start handler alone |
| Dispatch.LandingLeavesChildren | trunk/src/libctrans.c:111-114 | landing at a parent's creation point frees none of a child's pointers and does not release the child |
| Interpreter.Step | trunk/src/libctrans.c:90-159 | ENDTRANSACTION jumps with TRANS_STOP, each raise jumps with EXCEPTION_CAPTURED, and an allocation jumps exactly when it fails and may not return NULL; the resource list only ever grows by what the trace records |
| Interpreter.ExecIsBodyRun | trunk/src/libctrans.c:103-105 | any body appends exactly its recorded allocations to the resource list, keeps handle, label and children, jumps only with an ending code, and holds a record exactly after an exception jump |
| Interpreter.Exec | trunk/src/libctrans.c:129-159 | the interpreter of a body, in which ENDTRANSACTION and the raises transfer control straight to the creation point from any call depth; its own contract says a jump carries only TRANS_STOP or EXCEPTION_CAPTURED, and `ExecIsBodyRun`, `ExecConcat` and `ExecFlatten` carry the rest |
| Interpreter.ExecConcat | trunk/src/libctrans.c:156-158 | running two pieces of body in sequence runs the second only if the first fell through; a jump discards everything after it |
| Interpreter.ExecFlatten | trunk/src/libctrans.c:156-158 | a body behaves exactly like its form with every call inlined, so call depth never changes where a jump lands or what it carries |
| Lifecycle.RunTransaction | trunk/src/libctrans.c:59-64 | a block ends in process exit with status 1 exactly when the context object cannot be allocated |
| Lifecycle.Block | libctrans.h:345-374 | the NEWTRANSACTION … ENDTRANSACTION pair after creation always completes, with TRANS_STOP or EXCEPTION_CAPTURED as its code; `BlockHandlers`, `BlockFrees` and `BlockEnds` carry the handler order, the frees and the shape of the trace |
| Lifecycle.BlockHandlers | libctrans.h:345-374 | a block runs the start handler and then exactly one ending handler, which is the exception handler exactly when a record was raised |
| Lifecycle.BlockFrees | trunk/src/libctrans.c:81-87 | a block frees exactly the pointers it tracked, in allocation order, and releases its context once |
| Lifecycle.BlockEnds | libctrans.h:354-367 | a block's trace opens with the start handler seeing the fresh context and closes with the ending handler seeing the final context, then the release |
| Lifecycle.RunTransactionTrace | libctrans.h:345-374 | a NEWTRANSACTION block on a new top-level context ends with code 1 or 2, runs start then the matching handler, frees exactly what it tracked, releases its context once, and holds a record exactly when it ended by exception |
| Lifecycle.RunTransactionEnds | libctrans.h:345-374 | the first event of a block is the start handler seeing an empty context with the normalised label; the last two are the ending handler and the release of the context |
| Properties.ExecNeverJumps | trunk/src/libctrans.c:93-105 | a body of allocations that succeed or may return NULL falls through, appending exactly the obtained pointers in order |
| Properties.ExecRaiseAfter | trunk/src/libctrans.c:144-159 | a raise after straight-line work, at any depth, jumps with EXCEPTION_CAPTURED; the context holds what was obtained before it and the raised record |
| Properties.ExecFinishAfter | trunk/src/libctrans.c:129-142 | ENDTRANSACTION reached after straight-line work, at any depth, jumps with TRANS_STOP on the context as it was |
| Properties.RaiseAtAnyDepth | trunk/src/libctrans.c:144-159 | a block whose body raises at any depth ends in the exception handler, which sees the raised record; it frees exactly what was allocated before the raise |
| Properties.EndWithoutRaise | libctrans.h:371-374 | a body that never jumps reaches ENDTRANSACTION and ends in the stop handler with no record, freeing every obtained pointer in order |
| Properties.FinishAtAnyDepth | trunk/src/libctrans.c:129-142 | ending the transaction from any depth ends in the stop handler, freeing only what was obtained before that point |
| Scenarios.Test1Flatten | trunk/test1.c:52-85 | inlined, test1's body is its four allocations followed by the USER recipient raise |
| Scenarios.Test1Obtained | trunk/test1.c:52-76 | test1's four allocations all succeed and obtain the four addresses in call order |
| Scenarios.Test1Scenario | trunk/test1.c:52-86 | in test1 the raise three calls deep reaches the exception handler, which sees the USER record with the description as detail and the solution; the four allocations are freed in the order they were made |
| Scenarios.LoopTraces | trunk/tests/test2.c:94-105 | the i-th iteration of the main loop is a NEWTRANSACTION block on the i-th context object |
| Scenarios.IterationsBalance | trunk/tests/test2.c:94-105 | over any number of loop iterations, however each ends, every tracked pointer is freed once, every context is released once in order, and each iteration runs the start handler and one ending handler |
| Scenarios.IterationsAllStop | trunk/tests/test2.c:94-105 | when every iteration's body falls through to ENDTRANSACTION, the stop handler runs once per iteration and the exception handler never runs |

## Left out

- Stack backup and restore (`ctrans_backup_Stack`, `ctrans_restore_Stack`) and the depth guard that makes `ctrans_finish_transaction` and `ctrans_raise_exception` call themselves. These copy raw stack memory and depend on the architecture. Their intended effect, that the frames between a jump and the creation point are discarded, is what `Exec` models.
- `setjmp`/`longjmp` as machine operations. They are modelled as a `Transfer` value and a `Jumped` flow.
- GLib internals (`g_list_*`, `g_try_malloc`, `g_malloc`, `g_strdup`, `g_free`). Lists are sequences. Allocator results are parameters. A free or a release is an event in the trace.
- Allocation sizes (`n_bytes`) are not modelled; only whether the allocator returned a pointer matters.
- The handlers' own effects, such as the `printf` and `exit` calls in the example handlers. A handler call is an event, and control then continues past `ENDTRANSACTION`.
- Nested NEWTRANSACTION blocks inside a body. `Transactions.NewTransaction` models the parent link, but the macro always passes a null parent, so no block in the model has one.
- Transactions.NewTransaction: the `id` field is never assigned in the code and is not modelled. The handle stands for the context's address.
- Exception records are never freed (the code's own TODO). This leak is not tracked in the trace.
- Transactions.RaiseSender: the code allocates a `recipient_exception` whose `solution_i18n` is left uninitialised. The model stores a sender record without a solution.
- Transactions.NewTransaction: `raisedException` is not initialised by the code. The model starts it as "no record".
- The header spells the field `reisedException`, while `libctrans.c` writes `raisedException`. The model has one field.
- Transactions.FreeTwiceDoubleFrees: after `g_list_free` the list pointer still refers to freed list cells, so a second call reads freed memory. The model treats it as walking the same list again; what the code actually does then is undefined.
- `trunk/tests/test3.c` is a GTK user interface with no engine logic of its own and is not part of this model.
- The informational fields (serial numbers, timestamp, thread) are modelled only as the zero and null values the code stores.
- Allocation of the exception records is not modelled. `ctrans_raise_sender_exception` uses `g_malloc` and `ctrans_raise_recipient_exception` uses plain `malloc`, whose result is never checked, so a NULL from it would be dereferenced. In the model a raise always builds its record.
- Lifecycle.RunTransaction: the `exit(1)` branch after a NULL context is modelled as the C text writes it. GLib's `g_malloc` ends the process itself when it fails, so with GLib that branch is never reached and the exit status is GLib's, not 1.
- Properties.RaiseAtAnyDepth, Scenarios.Test1Scenario: the description, detail and solution strings are stored as the caller's pointers, not copies (only the debug label is copied with `g_strdup`). The model stores string values, so "the handler sees the record as raised" holds in the model even when a caller's buffer has been freed or changed before the handler runs.
