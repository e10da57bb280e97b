# A model of koil's bridge

koil lets synchronous code call coroutines on a background event loop (`unkoil`,
`unkoil_gen`) and lets coroutines call synchronous code on pool threads (`run_threaded`,
`iterate_threaded`). This project models what crosses that bridge (cancellation, results,
context variables, generators, tracebacks) and proves what koil promises about it.

`dafny verify dfyconfig.toml` checks everything.

| file | what it holds |
|---|---|
| `Race.dfy` | the race of work, own cancel, ambient cancel and deadline, and its tidy-up loop |
| `Protocol.dfy` | one transition system: a growing tree of futures and workers over a FIFO of loop callbacks, with its inductive invariant |
| `Propagation.dfy`, `Confinement.dfy`, `Teardown.dfy` | how far a cancellation reaches in that system, how far it does not, and that what it reaches comes to an end |
| `AsyncGenClose.dfy`, `ThreadedIteration.dfy` | `unkoil_gen` and `_iterate_threaded` layered on the same system |
| `FutureResult.dfy` | `KoilFuture.cancel` and the polled deadline of `KoilFuture.result` |
| `Contexts.dfy`, `GeneratorSteps.dfy`, `ThreadPool.dfy` | context variables across calls, across generator steps and on reused threads |
| `Tracebacks.dfy` | pruning one traceback, and the walk over chained exceptions |
| `Lifecycle.dfy` | `Koil` scopes in any number of contexts, `koiled_cm`, `koilable`, and the loop thread's shutdown |
| `QtHandover.dfy` | `QtGenerator` and `QtFuture` |

asyncio, `concurrent.futures`, `contextvars` and Qt enter as primitives: callbacks delivered
in order, awaits that end or raise CancelledError, map-valued contexts, waits that return at
most a given lateness too late. Everything a scheduler, a user or a clock decides is a label
of a transition system or a universally quantified parameter.

## What the proofs turned up

These hold of the code as it is, and differ from what its comments or documentation suggest.

- A function run by `run_threaded` that lets a CancelledError out (say, from the `result()` of
  a future it cancelled) makes `_run_threaded` set the worker's cancel event although nobody
  asked for that; other futures started by the function are then cancelled too
  (`EscapeReachesSibling`). `ConfinementIff` says exactly when requests alone explain everything.
- A future started with `unkoil_task` by a function that has returned is out of reach of a later
  cancellation (`OrphanIsMissed`), and so is a function that a cancelled coroutine starts in a finally
  block (`CleanupIsMissed`); `PropagationIff` says exactly what is reached.
- A `_run_threaded` cancelled a second time, during its bounded wait, reports CancelledError while its
  function runs on (`SecondCancelLeavesThread`).
- `acknowledged` is false not only for work that ignored its deadline but also for cancelled
  work that ended with a TimeoutError, and a cancelled `_run_threaded` reports KoilError in that case.
- `result()` writes back every variable of the coroutine's context, so a value the caller set after
  submitting is overwritten by the older one; `LateResultSafeIff` and `LateResultMergesIff` say when
  that is harmless.
- A bridge call that raises undoes what it had set, which a plain call does not (`CallPlainIff`).
- `unkoil_gen` raises StopAsyncIteration at the consumer of an empty generator, and a sent value
  becomes an argument of `__anext__`, which accepts none (`UnkoilGenAgreesIff`).
- An error other than GeneratorExit thrown into `iterate_threaded` at a yield neither reaches the sync
  generator nor closes it (`IterateShowsIff`).
- A second Ctrl+C while `unkoil_gen` waits for its cancelled step leaves the generator open
  (`SecondInterruptLeavesOpen`).
- A task that ends with SystemExit during the shutdown closes the loop over the tasks still pending.
- The last step of a bridged iteration, the one that exhausts the generator, does not bridge what it
  set (`LastWritesAreLost`); `IterateFinalIff` states when that shows.
- A `koilable` object whose `__aexit__` raises leaves its Koil running and ambient; `koiled_cm` does not.
  One entered again inside its own block stops that block's Koil.
- A Koil is tied to the context it was entered in: entered or left in another it loses its loop or takes
  away another Koil's (`SecondLoopIsLost`, `ForeignExit`), and a context copied inside a scope is stuck
  with that scope's loop after it was stopped (`StaleCopy`). `ApplyKeepsInvIff` has the exact condition.
- An async generator that yields again on GeneratorExit stays open, and `unkoil_gen` does not say so.

## Model

| member | source | states |
|---|---|---|
| Race.TidyUp | koil/utils.py:498-509 | for every iteration order over the losers: the loop runs through iff nothing escapes the cancelled work and no unbounded wait is endless; then all losers are done but work that ignored a deadline, and `acknowledged` is false iff the work ignored it or ended with TimeoutError |
| Race.RunAsyncRace | koil/utils.py:473-566 | the coroutine race for every finished set and every order of the losers, outcome by outcome: finished work decides whatever else finished; an error is the coroutine's own, as it finished or escaping its cancellation; then the deadline beats any cancellation; a cancellation is what remains, of asyncio's class; exactly the matching signal is emitted, and none without signals; which tasks are over afterwards |
| Race.IterateRace | koil/utils.py:639-717 | the generator-draining race likewise, with koil's own cancellation class and the done signal |
| Protocol.ReachableInv | koil/utils.py:438-570 | the node-by-node invariant holds in every reachable state: who asked, what is queued, who awaits, how each race was judged |
| Protocol.CancelledWorkerOutcome | koil/bridge.py:633-654 | over every interleaving a cancelled `_run_threaded` never returns a value nor bridges context out; unless it is cancelled again in its bounded wait, CancelledError iff, within the grace, the function ended with a value, a cancellation or ThreadCancelledError, KoilError iff the grace elapsed or the function ended with TimeoutError, and any other error iff it is the function's |
| Protocol.UndisturbedWorkerOutcome | koil/bridge.py:633-654 | over every interleaving one that was not cancelled gives v iff the function returned v and throws e iff it raised e, and bridges context out iff asked to and a value was returned |
| Protocol.SecondCancelLeavesThread | koil/bridge.py:638-647 | cancelled again in that wait, it reports CancelledError with the function still running |
| Protocol.ResolvedMeansSettled | koil/utils.py:485-566 | over every run: a future whose coroutine finished the race has the coroutine's ending; another one raises e iff the coroutine ended with e, not a TimeoutError, else timed out iff the deadline fired, acknowledged iff it ended without an error, else is cancelled; its coroutine is over unless it was given up on after a deadline |
| Protocol.RunRecords | koil/utils.py:473-509 | over every run: what a node shows of its coroutine's, function's or race's end, of requests and of waits given up is exactly what the run's steps were |
| Protocol.WorkerOrder | koil/bridge.py:625-647 | in every run a function ends once, its await is seen through only after that and given up on only before |
| Protocol.FutureOrder | koil/utils.py:483-509 | in every run a coroutine ends once, the race sees that iff it has and a cancellation only if one was requested, and is tidied up after the coroutine ended or, after a deadline, without it |
| Protocol.StartsAsAsked | koil/bridge.py:625-634 | a new future or worker keeps, over every later run, the place, bound and bridging it was started with, and is late iff its coroutine had been cancelled |
| Propagation.FullPropagation | koil/bridge.py:625-647 | once koil has no step of its own left, every live future or worker at any depth below a cancelled node has been signalled, along links: through workers that still run or were themselves asked to stop, and not into workers a coroutine started after it was cancelled |
| Propagation.PropagationIff | koil/utils.py:473-487 | exactly what one cancellation reaches: of the live nodes below it with no request or escape of their own on the way, those signalled at quiescence are those linked to it |
| Propagation.QuiescentExact | koil/utils.py:473-487 | at quiescence exactly which live nodes are signalled: a coroutine iff its own event, its deadline or its worker's event fired, a thread iff its await was cancelled, by request or because the coroutine around it was cancelled after starting it |
| Propagation.NoLostCancellation | koil/utils.py:454-487 | for every interleaving of a nested submission with the delivery of its worker's event, the submission is refused or its race can be won by the ambient event, and at quiescence its coroutine is cancelled |
| Propagation.OrphanIsMissed | koil/bridge.py:462-495 | a reachable quiescent state in which a future outlives the function that submitted it, is below a cancelled node without being linked to it, and is missed |
| Propagation.CleanupIsMissed | koil/bridge.py:625-636 | another, in which a cancelled coroutine starts a function, as in a finally block, and that function is missed |
| Confinement.Confined | koil/utils.py:438-458 | in every state of the invariant a node is hit only at or below a request, or a function whose escaped CancelledError was taken for a cancellation |
| Confinement.ConfinementIff | koil/bridge.py:633-636 | in every reachable state, requests alone account for every cancellation iff each worker whose escaped CancelledError was taken for a cancellation lies at or below a request |
| Confinement.ConfinedRun | koil/utils.py:217-240 | the same over the steps of a run: some earlier step asked for it at that node or an enclosing one, or let a CancelledError out there |
| Confinement.RunMarks | koil/bridge.py:633-636 | along every run the recorded causes are exactly the steps that are causes |
| Confinement.RefusalHasCause | koil/utils.py:457-458 | a call is refused only because its own worker was asked to stop or something above that worker is the cause; if every such escape was requested anyway, only because of a request there |
| Confinement.NothingOutside | koil/utils.py:438-453 | in every reachable state nothing outside a subtree is cancelled or set iff every cancelled node where a cancellation can begin (a request, an escape) lies inside it |
| Confinement.EscapeReachesSibling | koil/bridge.py:635-636 | a reachable state in which a sibling is cancelled though neither it nor anything above it was asked to stop |
| Teardown.WindingRunBounded | koil/context.py:53-55 | the length of every run of koil's propagation steps, with or without cooperating code and with any cleanup started on the way, is bounded by a measure of its first state and the number of cleanup calls started, and nothing already asked for or cancelled is undone along it |
| Teardown.ReachesRest | koil/context.py:53-55 | from every state of the invariant such steps lead to one where none is enabled |
| Teardown.CancellationArrives | koil/utils.py:473-509 | over whole runs: left to its own steps, koil signals everything alive that is linked to a node hit beforehand, within the measure |
| Teardown.TeardownCompletes | koil/bridge.py:633-647 | over whole runs with cooperating code (cancelled coroutines let CancelledError through, signalled threads stop once the results they wait for are in, cleanup runs to its end): everything linked to a cancelled node when the winding down starts, and all cleanup under way then or started later, at any depth, has ended when no step is left; every future resolved, every function and its await over, so no thread and coroutine wait for each other; with the bound on the length |
| AsyncGenClose.SafeClose | koil/bridge.py:276-286 | over all interleavings of steps, cancellations, interrupts (also inside the finally block) and the close, in terms of the moves made: aclose meets a running frame only after an expired settle wait or an unacknowledged deadline; otherwise a close that was seen through leaves the generator closed iff it did not yield again on GeneratorExit; at any time it is closed iff aclose ran, met no running frame and was not so defied, or the last step finished it; the finally block is reached iff the consumer left, a submission was refused, a wait interrupted or a step ended without a value; it ends without issuing aclose iff interrupted before that; an unfinished step has been asked to stop; the finaliser ran through once iff the generator was entered, by a started step, and is closed |
| AsyncGenClose.FinallyCompletes | koil/bridge.py:276-286 | from anywhere in the finally block at most three moves, none of them the generator's, lead out of it with the aclose issued |
| AsyncGenClose.CloseStillRuns | koil/utils.py:156-170 | an aclose the thread stopped waiting for can still be run, and closes an obedient generator unless the settle wait expired or a deadline went unacknowledged |
| AsyncGenClose.SecondInterruptLeavesOpen | koil/bridge.py:283-286 | a reachable drive in which a second Ctrl+C in the settle wait leaves the generator open for good although no wait expired |
| AsyncGenClose.StepsDoNotOverlap | koil/bridge.py:259-275 | a new step is submitted only when no earlier step's coroutine is running the frame |
| ThreadedIteration.NoReentry | koil/bridge.py:755-797 | over all interleavings, cancellation mid-step and early close included: only the latest worker can be inside the generator, closed it, or ended without a yield; the workers are one step per value asked for and one close per GeneratorExit at a yield, in order; a value given leads to a yield, and iteration is over only after a close, a step that gave none or a throw |
| FutureResult.Poll | koil/utils.py:332-340 | the wait loop: at most ceil(timeout/interval) slices, late by at most one lateness, expiry only when not done at a check past the deadline, immediate return when already done, interrupted iff a Ctrl+C came with the last slice |
| FutureResult.KoilFuture.Result | koil/utils.py:281-362 | value, error or cancellation iff the future was seen done with exactly that ending; ends within timeout + grace + three latenesses, and grants the whole grace to a signalled coroutine that does not acknowledge; a future seen done is never reported as timed out, even for timeout 0; completion by the deadline never times out, completion after deadline and lateness always does; interrupted iff a Ctrl+C came; flags, reason and signal agree with the outcome |
| FutureResult.KoilFuture.Cancel | koil/utils.py:234-240 | the request is recorded and passed on iff the future is not done |
| FutureResult.KoilFuture.TimeoutExpired | koil/utils.py:257-279 | cancels and grants the grace, and reports whether it was acknowledged; a future that completes before cancel looks is not signalled, not waited for, and still reported as timed out |
| Contexts.BridgePreserves | koil/bridge.py:576-654 | for every nesting of unkoil, run_threaded and run_threaded_bridged calls, failing, caught and cut-short ones included, from plain asyncio code too: the outcome of the copy-free reference that undoes a failing call's effects (StopIteration wrapped on leaving a thread), its effect on the caller's user variables, koil's own variables unchanged |
| Contexts.InvisibleWhenClean | koil/bridge.py:576-654 | the same against plain calls, which undo nothing, for every program whose bridge calls succeed or fail before setting anything |
| Contexts.CallPlainIff | koil/bridge.py:649-652 | for one unkoil or bridged call over such a body, the caller's variables are those of the plain call iff the body succeeds or fails before setting anything |
| Contexts.FailureUndoesWrites | koil/utils.py:341-360 | a program on which they differ: a coroutine sets a variable and raises, and the caller then reads it |
| Contexts.ThreadedExactIff | koil/bridge.py:611-615 | a threaded call has exactly the direct outcome iff that is not StopIteration |
| Contexts.LateResultMergesIff | koil/utils.py:359-360 | for every coroutine and every context the result is collected in: collecting amounts to applying the coroutine's own writes iff it failed or that context still has every variable it left alone, with its value at submission |
| Contexts.LateResultSafeIff | koil/utils.py:359-360 | collecting is harmless for every coroutine iff the collecting context still agrees with the snapshot on all of the snapshot's variables |
| Contexts.LateResultLosesUpdate | koil/utils.py:359-360 | a lost update on a concrete context |
| Contexts.Context.SetAll | koil/utils.py:465-466 | the variable-by-variable loop sets exactly the other context over this one |
| Contexts.Context.PropagateOut | koil/bridge.py:570-573 | the same loop over the user variables only |
| Contexts.Context.UnkoilCall | koil/bridge.py:392-404 | the coroutine runs in the caller's variables whatever its task started with; the call gives its value or error (StopIteration as RuntimeError) and sets its variables in the caller on success alone; without a loop KoilError and nothing changed; the unkoil case of the semantics |
| Contexts.Context.ThreadedCall | koil/bridge.py:593-654 | the function runs in a copy of the caller's variables with the call's own loop and event and the caller's koil; the call gives its value or error likewise; its user variables come back only when bridging, on success; the threaded case of the semantics |
| GeneratorSteps.IterateThreaded | koil/bridge.py:755-797 | for every sync generator and every sequence of sends, throws and exits by the consumer, with or without bridging: the loop over worker hops shows and leaves behind what the recursive drive says; koil's variables unchanged |
| GeneratorSteps.IterateEnds | koil/bridge.py:771-797 | over whole drives: it ends as the last resumption did, returning or raising, with the close's error or none on an exit, and with the consumer's own error on a throw; the last value and context shown, how many, and the final context |
| GeneratorSteps.IterateShowsIff | koil/bridge.py:781-797 | that drive shows the consumer the values, the context at every yield and the ending of driving the generator directly iff the first error it throws in, if any, is one the generator would let through; the generator is left suspended iff an error is thrown in |
| GeneratorSteps.IterateFinalIff | koil/bridge.py:649-652 | the consumer's final context is then the direct one too iff, when bridging, whatever the last resumption set, if it returned, raised or was a failing close, already was so in the consumer's context before it |
| GeneratorSteps.LastWritesAreLost | koil/bridge.py:773-776 | a generator that sets a variable in its exhausting step, which neither `iterate_threaded_bridged` nor `unkoil_gen` shows its consumer |
| GeneratorSteps.IterateAgreesIff | koil/bridge.py:755-797 | complete agreement, the generator's own fate included, iff no error is thrown in and nothing is lost at the end |
| GeneratorSteps.ThrowIsNotForwarded | koil/bridge.py:781-797 | a generator that would catch the error and yield again is abandoned instead |
| GeneratorSteps.StepThreaded | koil/bridge.py:757-774 | one hop resumes the generator in a copy of the caller's context and bridges out only a yield |
| GeneratorSteps.CloseThreaded | koil/bridge.py:784-797 | the close hop, likewise |
| GeneratorSteps.UnkoilGen | koil/bridge.py:246-286 | `unkoil_gen` for every async generator and every sequence of sends, throws and exits: one unkoil call per step, context written back at every yield, a close on the way out whose writes are dropped and whose errors, but for the swallowed kinds, take over |
| GeneratorSteps.UnkoilEnds | koil/utils.py:162-179 | over whole drives: `unkoil_gen` ends as its last step did, or as the consumer's last act says unless the close it leads to fails: then with the close's error, but for a RuntimeError or a cancellation |
| GeneratorSteps.UnkoilGenAgreesIff | koil/bridge.py:252-286 | it agrees with driving the async generator directly iff the first step does not exhaust it, the first thing the consumer does other than asking for the next value has the effect of closing it, and whatever the last resumption or the close set was so before it |
| GeneratorSteps.UnkoilGenDisagrees | koil/bridge.py:260-265 | an empty generator, an echo generator and one that catches errors, on which it does not |
| ThreadPool.NonInterference | koil/bridge.py:595-632 | for every schedule of jobs on reused threads, a finished job has read what all its submitted operations would read alone from its submitter's copy and koil's variables, a running one likewise for those executed, and every thread's own context is unchanged |
| ThreadPool.JobReads | koil/bridge.py:604-618 | what each read of a finished job gave: what the job itself set last, else its own call's loop and event and its submitter's koil and user variables |
| ThreadPool.JobsAreCalls | koil/bridge.py:627-632 | for every schedule the calls running or finished are exactly those submitted |
| Tracebacks.PruneOne | koil/tracebacks.py:119-142 | if a frame beyond the kept boundary is worth showing: no hidden frame is left, every other one is, as often and in order, with the boundary in front; otherwise the traceback as it was |
| Tracebacks.PruneIff | koil/tracebacks.py:119-142 | these demands are met by the pruning function and by nothing else |
| Tracebacks.PruneAbsorbs | koil/tracebacks.py:119-142 | pruning a prefix in front of an already pruned traceback equals pruning it in front of the full one, in every mode |
| Tracebacks.NestedBoundaries | koil/utils.py:515-520 | any number of nested boundaries, each keeping its frame or not, shows what one final prune in the outermost mode shows |
| Tracebacks.PruneLaws | koil/tracebacks.py:97-100 | pruning is idempotent, only drops frames, keeps their order, keeps the boundary in front, never empties a traceback |
| Tracebacks.PruneTraceback | koil/tracebacks.py:104-116 | on every finite cause/context graph, cycles included, the walk terminates and prunes, by the same demands, exactly the exceptions reachable from the root, once, with the boundary kept for the root only |
| Lifecycle.ApplyKeepsInvIff | koil/loop.py:258-344 | with each context seeing its own ambient koil: an enter or exit keeps the invariant iff a Koil owning a loop is not entered where it would start another and is left in the context it was entered in |
| Lifecycle.ApplyAllKeepsInv | koil/loop.py:258-344 | after every interleaving of such enters and exits, and of context copies, in any number of contexts: an ambient koil entered in a context owns the loop seen there, a copied context sees an owner's loop or one told to stop, the serving loops are exactly the owned ones, each by one Koil, and no loop is told to stop twice |
| Lifecycle.Isolation | koil/context.py:62-72 | over every such interleaving, what a context sees is what its own enters and exits alone give |
| Lifecycle.NestedScopes | koil/loop.py:258-344 | over every such interleaving, a context with well-nested scopes, repeated exits allowed, sees its outermost open Koil with that one's serving loop, and nothing once all are left; a Koil used there alone is running exactly while open |
| Lifecycle.TwoOwners | koil/loop.py:271-284 | two contexts with an owner and a serving loop each |
| Lifecycle.SecondLoopIsLost | koil/loop.py:271-281 | a Koil that owns a loop, entered in a context without ambient koil, leaves its first loop serving and owned by nobody |
| Lifecycle.ForeignExit | koil/loop.py:339-342 | a Koil left in another owner's context clears that context though its loop serves, and its own context goes on seeing a loop told to stop |
| Lifecycle.StaleCopy | koil/loop.py:269-284 | a context copied inside a scope sees that scope's stopped loop afterwards, and a Koil entered there starts none |
| Lifecycle.BodyLeavesOwner | koil/loop.py:271-285 | whatever a block's body does with other Koils, in any context, leaves the block's ambient koil and loop alone |
| Lifecycle.Process.EnterKoil | koil/loop.py:258-285 | the enter in a given context, refused inside a running loop without `sync_in_async`; a loop is started, owned and made ambient iff none was |
| Lifecycle.Process.ExitKoil | koil/loop.py:287-344 | the exit in a given context: the loop is told to stop, the wait lasts until the thread ends or both bounds have passed, and the thread is abandoned iff it outlives both |
| Lifecycle.KoiledContextManager.With | koil/decorators.py:301-329 | whatever other contexts do meanwhile: the ambient koil is restored and the loop of an owned Koil told to stop, whichever of enter, body and exit fails; a Koil that refuses to be entered changes nothing but stays noted as owned, and exactly such a wrapper, used inside that Koil, stops it |
| Lifecycle.Koilable.WithObject | koil/decorators.py:113-143 | exactly when the ambient koil changes: with none ambient, iff the Koil is entered, `__aenter__` succeeds and `__aexit__` raises; with one ambient, iff it is the object's own and both succeed |
| Lifecycle.ShutDown | koil/loop.py:93-121 | for every order in which the cancelled tasks end or exit: the loop closes after all of them iff they end before any SystemExit or KeyboardInterrupt (and the generator shutdown returns), reporting exactly those that failed, or the last one pending is the first to exit; an earlier exit closes it over exactly the tasks pending then, reporting none; otherwise it never closes |
| QtHandover.Conservation | koil/qt.py:173-196 | at every point of every interleaving, taken, queued and in-flight items are what Qt produced, in order; what was yielded are the first of its values, item by item; acall has returned only at a stop that followed them, and raised only what Qt threw after them |
| QtHandover.Acall | koil/qt.py:304-330 | the consuming loop yields exactly the values before the first end, each in the context before it with Qt's variables at that value set over it; it returns iff that end is a stop and raises e iff it is a throw of e |
| QtHandover.SettlesOnce | koil/qt.py:36-56 | over every interleaving a settled QtFuture never changes, and holds the first resolve or reject |
| QtHandover.FirstSettleWins | koil/qt.py:123-135 | once all callbacks have run and nobody cancelled, it holds the first resolve or reject among the calls made |
| QtHandover.QtFuture.OnLoop | koil/qt.py:45-56 | the guarded setters, as the loop runs them, are the settle step |

## Left out

- asyncio, uvloop, thread pools, contextvars and Qt themselves: taken as primitives, see above.
- Cancelling the race body itself from outside (loop shutdown while it waits): `Race.dfy` covers runs without it.
- A coroutine ends only after each of its awaits of workers did, and a cancellation reaches all of those under way: workers awaited from tasks of their own are roots of `Protocol.dfy`.
- Signal handlers that raise out of `emit`.
- Poll: takes a positive poll interval, and for a call without timeout a future that completes, since otherwise the wait is endless by design.
- UnkoilGen: takes each step and the close as going through; cancelled and interrupted ones are the subject of `AsyncGenClose.dfy`.
- IterateThreaded: takes each hop as going through; cancelled ones are the subject of `ThreadedIteration.dfy`.
- SafeClose: says nothing about a loop that is already closed, where the close is skipped, nor about an interrupt inside the submission of a step, between the hand-over and the assignment; what a finaliser raises is in `UnkoilGen`, not here.
- ShutDown: leaves out tasks created after the stop, which the loop does not wait for.
- With: where the block enters or leaves a Koil of its own, that Koil owns no loop in another context and the body does not use it; `SecondLoopIsLost` and `ForeignExit` show what happens otherwise.
- WithObject: the same.
- Resetting a context variable by token: contexts only gain or change variables.
- `KoilThreadSafeEvent.clear`, which koil never calls; `check_cancelled` and `sleep`, which only read the event.
- `get_koiled_loop_or_raise` beyond the presence of a loop, `koiled`, `koil/composition`, deprecation shims, Qt widgets, logging, messages, environment variables and event-loop selection: each is a single lookup, forwarding call or piece of text, with nothing that spans operations.
- Mixing `async with Koil()` and `with Koil()` on one object.
