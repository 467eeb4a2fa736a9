# Verification of nogil_rpc

A Dafny model of the nogil_rpc runtime, with proofs. nogil_rpc lets a Python process call
functions and persistent actors in another process over one TCP connection per client. Its
promises rest on a handful of locks, single-thread executors and the order of bytes on a
socket; this project states them and proves them for every interleaving.

`dafny verify dfyconfig.toml` checks the whole project.

## How the program is modelled

* **Server** (`Server.dfy`, then `ServerInvariant`, `ServerFrames`, `ServerSteps`, `ServerRuns`).
  The runtime is a transition system. Every lock-protected section, event set, submission,
  task start and end, executor shutdown, join and response write is one atomic step; a run is
  any sequence of enabled steps. One inductive invariant of some two dozen predicates is
  proved for every step. `ServerHistory` proves what only grows, `ServerTheorems` that actor
  calls are serial, `ServerAccounting` where every request ends, `ServerLoss` exactly which
  calls can be lost, `ServerOutcomes` what answers mean, `ServerCauses` which step of the past
  every result comes from, `ServerLifecycle` the rules of ownership, executors, clean-up,
  stopping and draining. `ServerWitness` has concrete runs in which requests are lost.
  `Runtime.dfy` has the runtime, its connections and its actor entries as objects, with the
  loops of clean-up and stop.
* **Client** (`Client.dfy`, `ClientInvariant`, `ClientRuns`, `ClientTheorems`, `ClientWitness`).
  Senders, the response reader, closers and actor handles are again a transition system, with
  the clean-up of a failed send modelled step by step outside the lifecycle lock, and the
  pending map drained in its order of insertion, as in the source. `ObjectRefs.dfy` and
  `Connections.dfy` have the reference, the connection and the handle as objects.
* **Both together** (`Link.dfy`, `LinkInvariant`, `LinkRuns`, `LinkTheorems`). One client and the
  server, with any number of other connections doing as they like, joined by a channel that
  delivers whole messages in order. Main results are here:
  `LinkTheorems.ResponsesFindTheirCalls`, `LinkTheorems.CloseDrains` and
  `LinkTheorems.OnlyOversizedRequestsLoseCalls`; and `ServerLoss.CallsAreLostExactlyWhen` for
  the server alone.
* **Framing** (`Framing.dfy`, `Sockets.dfy`, `Writers.dfy`) justifies that channel: frames
  written by many threads under a lock, cut up and interleaved in any way and read back under
  any chunking, refine an ordered message channel (`Writers.BytesRefineTheChannel`).
* **Registry** (`Registry.dfy`): names, the catalog message and what a client makes of it.
* **Benchmark frontier** (`Heap.dfy`, `Frontier.dfy`, `FrontierObject.dfy`, `Branching.dfy`,
  `Coordinators.dfy`): the heap list refines a sorted queue, and the concurrent coordinators
  never underflow exactly when the start is large enough, and always end in the snapshot the
  benchmark expects.

Main theorems are about runs: their hypothesis is only that the states and steps form a run.
Lemmas about single steps hide the predicates they do not need.

## Assumptions

* Call ids are fresh for the client, as random UUIDs are. That an actor id names one creation
  only is a hypothesis of `LinkTheorems.CloseDrains`.
* User code may return any value, raise any exception, and may end in a way that
  `except Exception` does not turn into an answer: by a `BaseException` such as `SystemExit`,
  or by an exception whose `str` raises. Such a task ends in silence, and so does one whose
  serializer does the same; an answer is "audible" when neither happens. Looking a method up
  is user code too (properties, `__getattr__`). Actor methods and the serializer are
  functions. An injective serializer is assumed only by `Framing.ValuesArrive`.
* The client's `str` of an error field of a response does not raise.
* A failed socket write is permanent: a broken frame is the last thing on its connection, and
  no later write of a client succeeds. A frame that is too long, in contrast, is refused
  before anything is sent, and the socket stays as it is.
* Whole actions of the source that hold one lock are one step. Two more actions are one step:
  a response that cannot be sent closes its connection and shuts the socket at once, and
  a lookup that finds no actor submits the answer to the pool at once.
* A step of the model may be enabled more often than the source allows (a connection may
  handle several requests after the stop was flagged, a reply may fail at any time); the
  proofs cover those runs too. The order in which one clean-up, or the stop, goes through
  several connections or executors is left open; the source goes through a clean-up's actors
  in their order of creation. Only the existence half of `ServerLoss.CallsAreLostExactlyWhen`
  makes use of that freedom, when the owner that leaves has several actors.

## Where the code and its documents differ

* `nogil_rpc_LLD.md` (line 528) says the dispatcher accepts four request types; the code has a
  fifth, `attach_actor`, and the model follows the code.
* `nogil_rpc_LLD.md` (lines 1045-1046) says that under a healthy connection a submitted request
  is executed once. A call made through an attached handle and still queued when the actor's
  owner disconnects is never executed nor answered, and its client, whose connection stays
  open, waits until it closes: `ServerLoss.CallsAreLostExactlyWhen` says that this can happen
  exactly to calls whose connection does not own the actor, `ServerWitness` has the run.
* After a close, a client's caller can wait for ever in exactly two cases: the peer sent a
  response whose `ok` is not a boolean, or one of the client's own requests was longer than
  its frame limit and the clean-up of that send raced with the close, which then fails to
  complete the calls behind it. `ClientWitness.CallsAreLostExactlyWhen` proves both
  directions, and `LinkTheorems.OnlyOversizedRequestsLoseCalls` that with a server of this
  repository only the second case remains.
* An actor method that raises `SystemExit` is run and never answered, and the destruction of
  its actor succeeds all the same: the silent class of
  `ServerAccounting.EveryRequestIsAccountedFor`.

## Model

| member | source | states |
|---|---|---|
| `Messages.ParseIsExact` | nogil_rpc/runtime.py:226-366 | the server accepts a message exactly when it says a request: every field the client builds is there with its value, or is an arguments field left out; it reads back that request |
| `Messages.SaysOneRequest` | nogil_rpc/runtime.py:226-366 | no message says two requests |
| `Messages.ResponseRoundTrip` | nogil_rpc/rpc_client.py:192-215 | the reader understands the server's result messages as what the server meant: never malformed, `ok` always boolean |
| `ServerRuns.RunInv` | nogil_rpc/runtime.py:88-575 | the whole invariant (executors, holders of entries, queues, histories, outputs, windows in the table) holds in every state of every run of the runtime |
| `ServerHistory.RunFollows` | nogil_rpc/runtime.py:169-575 | the past only grows: accepted jobs, results, entries' owners, closed flags, output and the stop never go back |
| `ServerHistory.RunMakers` | nogil_rpc/runtime.py:384-405 | every entry comes from exactly one creation request of its name, and a creation publishes only the entry it made |
| `ServerTheorems.WireOrder` | nogil_rpc/runtime.py:189-197 | the jobs of a connection are exactly the requests its thread read, in wire order |
| `ServerTheorems.CallsDoNotOverlap` | nogil_rpc/runtime.py:39-48 | from the start of a method to its response no other call of that actor is under way |
| `ServerTheorems.ActorIsSerial` | nogil_rpc/runtime.py:414-433 | the calls an actor ran are in one order that extends every connection's wire order; one state follows the other from the initial to the present instance, each by what looking the method up and invoking it makes of the one before, and those invocations' outcomes are the recorded results |
| `ServerTheorems.NothingIsSkipped` | nogil_rpc/runtime.py:300-312 | unless its executor is cancelled, an actor has run or will run exactly the calls submitted to it, in submission order |
| `ServerTheorems.PrivateCallsAreInvisible` | nogil_rpc/runtime.py:423-425 | calls of names that begin with an underscore always get an attribute error, and the other calls alone, one after the other and with the same outcomes, lead the instance to the same state: the private ones can be struck from the history |
| `ServerTheorems.HistoryGrows` | nogil_rpc/runtime.py:414-433 | what an actor has run, in which order and with which results is never rewritten |
| `ServerAccounting.OneResponse` | nogil_rpc/runtime.py:545-575 | a request has a response on the wire exactly when it is answered, then one, on its own connection |
| `ServerAccounting.AnswersAreFinal` | nogil_rpc/runtime.py:545-575 | answered, dropped, silent and cancelled are final; output is only appended to |
| `ServerAccounting.ResponsesAreHonest` | nogil_rpc/runtime.py:517-575 | a response carries its request's id and its outcome, or the serializer's error when the outcome does not serialize |
| `ServerAccounting.RefusedResultsAreReported` | nogil_rpc/runtime.py:545-571 | a result that the serializer refuses with an ordinary exception does not end its connection: if the fallback for this job fits a frame, the job can answer with the serializer's error and no connection changes |
| `ServerAccounting.RepliesSayWhatTheyCan` | nogil_rpc/runtime.py:517-575 | a finished call whose connection is writable can send exactly what serializes and fits the limit, its own response or the serializer's error when that one does not serialize, and sending appends exactly that; a failed send closes the connection, drops the job and appends nothing; silence exactly when serializing escapes |
| `ServerAccounting.RunCancellers` | nogil_rpc/runtime.py:484-493 | an actor's executor is cancelled only by its owner's cleanup or by the stop |
| `ServerAccounting.EveryRequestIsAccountedFor` | nogil_rpc/runtime.py:252-493 | every accepted request is in exactly one class: in the one queue of its lane, under way, answered once, dropped because its connection was closed, silent because there was nothing to say about it, cancelled by owner's leaving or stop |
| `ServerAccounting.OwnRequestsAreAnswered` | nogil_rpc/runtime.py:252-482 | while its connection is open and the pool up, a finished request to no actor or to an actor of its own connection is answered, unless its task ended without an outcome or its serializer in silence |
| `ServerLoss.OwnerLeaves` | nogil_rpc/runtime.py:200-212 | from every reachable state in which a call waits at an actor in the table that another connection owns, the run can go on so that the owner leaves and the call is over without an answer, its own connection untouched |
| `ServerLoss.OwnCallsAreSafe` | nogil_rpc/runtime.py:484-493 | no continuation of any run loses a request to no actor or to an actor of its own connection |
| `ServerLoss.CallsAreLostExactlyWhen` | nogil_rpc/runtime.py:300-312 | a call that waits at an actor in the table can be lost, its connection open and the pool up, if and only if its connection does not own the actor |
| `ServerOutcomes.OutcomesAreTruthful` | nogil_rpc/runtime.py:384-482 | a creation succeeds if and only if it published its actor, a destruction if and only if it took its own connection's actor out of the table; everything else about actors is reported as not found or not owned (`ServerCauses` has the functions) |
| `ServerCauses.AttachmentsLookOnce` | nogil_rpc/runtime.py:441-450 | an attachment looked at the table in one step of the past, and its answer is success exactly when the actor was there in that step, else ActorNotFoundError |
| `ServerCauses.DestructionsLookOnce` | nogil_rpc/runtime.py:459-482 | a destruction looked at the table in one step of the past, and by the table of that step its answer is ActorNotFoundError, ActorOwnershipError or success |
| `ServerCauses.FunctionsReturnTheirResult` | nogil_rpc/runtime.py:368-382 | a function call that has a result or is over, not dropped or cancelled, returned in exactly one step of the past, and the outcome of that step is the result on record, or there is none |
| `ServerCauses.ReturnRecords` | nogil_rpc/runtime.py:368-382 | a function under way may come to any outcome, and exactly that is recorded; without one its task ends in silence |
| `ServerCauses.CreationsTellWhatHappened` | nogil_rpc/runtime.py:384-412 | a creation succeeded in a step that published its actor under a free id while its connection was open; a failure was reported on an open connection and is what its own constructor raised, or that its id was taken |
| `ServerCauses.InstancesAreBuilt` | nogil_rpc/runtime.py:384-410 | every actor starts as what its own creation's constructor built |
| `ServerWitness.OwnerLeavingLosesACall` | nogil_rpc/runtime.py:484-493 | a run in which a client attaches to another one's actor, is answered, and makes a call that can be lost |
| `ServerWitness.StopLosesACall` | nogil_rpc/runtime.py:154 | a run in which the stop cancels a request that waits in the shared pool |
| `ServerLifecycle.ExecutorDiscipline` | nogil_rpc/runtime.py:406-408 | an actor in the table has a live executor never shut down; no executor is shut down twice; a released one exactly once |
| `ServerLifecycle.SubmissionIsNeverRefused` | nogil_rpc/runtime.py:300-312 | a call to an actor in the table always becomes the last job of that actor's queue |
| `ServerLifecycle.NoLeakedActors` | nogil_rpc/runtime.py:398-405 | after a connection's cleanup has begun no later state has an actor of that connection in the table |
| `ServerLifecycle.ActorsComeAndGoByRight` | nogil_rpc/runtime.py:435-493 | an actor enters the table only by a creation of its name for that connection and leaves only by its owner's destroy, its owner's cleanup or the stop; no other step changes its place |
| `ServerLifecycle.OwnershipIsForever` | nogil_rpc/runtime.py:39-48 | owner, name and maker of an entry never change |
| `ServerLifecycle.StopIsTerminal` | nogil_rpc/runtime.py:120-160 | once the stop has emptied the table it stays empty, the pool is idle for good and start cannot succeed |
| `ServerLifecycle.StopLeavesNothingRunning` | nogil_rpc/runtime.py:156-160 | when stop has returned every executor not in a connection's cleanup has been shut down once and is idle |
| `ServerLifecycle.StopClosesConnections` | nogil_rpc/runtime.py:143-152 | when the stop has gone on to the pool, every connection there was when it took the list is closed, and each one then still being served has its socket shut |
| `ServerLifecycle.DestructionDrains` | nogil_rpc/runtime.py:452-482 | calls accepted from the owner between publication and destroy request have all run, and each one's answer precedes the destruction's answer on the wire, unless there was nothing to say about it |
| `Runtime.RuntimeConnection.Abort` | nogil_rpc/runtime.py:577-587 | the connection is closed and its socket shut |
| `Runtime.ActorEntry.constructor` | nogil_rpc/runtime.py:39-48 | a new entry has an idle live executor |
| `Runtime.ActorEntry.Submit` | nogil_rpc/runtime.py:303-311 | accepted and queued last exactly when the executor is live |
| `Runtime.ActorEntry.Shutdown` | nogil_rpc/runtime.py:481 | nothing waits any more: with cancelling all of it was cancelled, else all of it has run, in order |
| `Runtime.RpcRuntime.constructor` | nogil_rpc/runtime.py:72-81 | a new runtime has no connections and no actors |
| `Runtime.RpcRuntime.Start` | nogil_rpc/runtime.py:88-114 | succeeds exactly when neither stopped nor started and the address can be bound; a refused start changes nothing |
| `Runtime.RpcRuntime.SubmitCall` | nogil_rpc/runtime.py:300-312 | the call is queued last at the named actor's executor and no other entry changes, or there is no such actor |
| `Runtime.RpcRuntime.CreateActor` | nogil_rpc/runtime.py:398-410 | published exactly when its connection is open and the id free; else refused, the table as before and the new executor shut down once |
| `Runtime.RpcRuntime.DestroyActor` | nogil_rpc/runtime.py:459-482 | succeeds exactly for the connection's own actor, which leaves the table and has then run all that waited; else not found or not owned, and nothing changes |
| `Runtime.RpcRuntime.PopAll` | nogil_rpc/runtime.py:491 | exactly the given ids leave the table and their entries are returned |
| `Runtime.RpcRuntime.CancelAll` | nogil_rpc/runtime.py:492-493 | each of the entries is shut down once and what waited is cancelled |
| `Runtime.RpcRuntime.RemoveConnectionActors` | nogil_rpc/runtime.py:484-493 | exactly the connection's own actors leave the table and are cancelled, each shut down once; no other entry changes |
| `Runtime.RpcRuntime.CloseAll` | nogil_rpc/runtime.py:143-152 | each listed connection is closed and its socket shut |
| `Runtime.RpcRuntime.Stop` | nogil_rpc/runtime.py:120-160 | the first stop closes the listed connections and the pool and cancels every actor once; later ones change nothing |
| `ClientRuns.RunInv` | nogil_rpc/rpc_client.py:150-238 | the client's invariant on map and its order, locks, reader, closer, wire, failed writes and handles holds in every state of every run |
| `ClientTheorems.NothingIsUndone` | nogil_rpc/rpc_client.py:219-238 | a completed reference never changes and nothing enters the map once the connection is closed |
| `ClientTheorems.OneOwner` | nogil_rpc/rpc_client.py:150-238 | every reference that has entered the map and whose own send has not failed has exactly one owner: map, reader, closer, caller (complete) or nobody (lost) |
| `ClientTheorems.OnlyFailedSendsClash` | nogil_rpc/rpc_client.py:168-173 | a completion attempt fails only on a reference whose own send failed after insertion |
| `ClientTheorems.OutcomesHaveCauses` | nogil_rpc/rpc_client.py:150-238 | a complete reference holds what a received response for its own call said, or the error the connection was closed with, or the error of its own failed send |
| `ClientTheorems.BrokenByAWrite` | nogil_rpc/rpc_client.py:156-173 | a send fails after insertion only in its write: the request was too long for a frame, or else the socket failed |
| `ClientTheorems.OrphansAreBroken` | nogil_rpc/rpc_client.py:233-238 | if all requests fit a frame and every `ok` is boolean, whatever reader and closer leave behind has a failed send of its own, however many sockets fail and race with closers |
| `ClientTheorems.CloseCompletesEverything` | nogil_rpc/rpc_client.py:219-238 | under the same condition, when a close is over, even by an exception, the map is empty and every reference that ever entered it is complete, or its own sender is just completing it |
| `ClientTheorems.LostForEver` | nogil_rpc/rpc_client.py:219-238 | a caller that waits after the close and the reader have ended waits in every later state |
| `ClientWitness.BadFlagLosesACall` | nogil_rpc/rpc_client.py:202-217 | a run in which a response with a non-boolean `ok` loses its call for ever |
| `ClientWitness.OversizedRequestLosesAnotherCall` | nogil_rpc/rpc_client.py:168-173 | a run in which a request longer than a frame makes the closer raise, which loses a later call that was sent for ever |
| `ClientWitness.CallsAreLostExactlyWhen` | nogil_rpc/rpc_client.py:150-238 | for every frame limit: some run with requests up to a given length loses a call that was sent if and only if the length exceeds the limit or responses may have a non-boolean `ok` |
| `ObjectRefs.ObjectRef.constructor` | nogil_rpc/object_ref.py:21-26 | a new reference is waiting |
| `ObjectRefs.ObjectRef.Ready` | nogil_rpc/object_ref.py:51-54 | true exactly when complete |
| `ObjectRefs.ObjectRef.SetResult` | nogil_rpc/object_ref.py:56-62 | sets the result if waiting, else refuses and changes nothing |
| `ObjectRefs.ObjectRef.SetError` | nogil_rpc/object_ref.py:64-70 | sets the error if waiting, else refuses and changes nothing |
| `ObjectRefs.ObjectRef.Get` | nogil_rpc/object_ref.py:32-49 | the result, the error, or a time-out when no thread completed the reference meanwhile |
| `ObjectRefs.FirstCompletionWins` | nogil_rpc/object_ref.py:56-74 | after any completion attempts the reference holds the first outcome, and only the first attempt found it waiting |
| `Connections.RpcClientConnection.constructor` | nogil_rpc/rpc_client.py:62-72 | a new connection is open with an empty map |
| `Connections.RpcClientConnection.HandleResponse` | nogil_rpc/rpc_client.py:192-217 | a well-formed result for a pending call completes exactly its reference with the message's result or error; errors leave the map, except that a non-boolean `ok` has by then removed the reference |
| `Connections.RpcClientConnection.CloseWithError` | nogil_rpc/rpc_client.py:219-238 | the first close closes the socket, empties the map and fails every reference in it; later closes do nothing |
| `Connections.RpcClientConnection.SendRequest` | nogil_rpc/rpc_client.py:150-175 | on success the reference waits in the map and its frame is on the wire; on any failure the map is as before and the reference has failed, unless the request did not serialize |
| `Connections.ActorHandle.constructor` | nogil_rpc/rpc_client.py:300-311 | a new handle is open |
| `Connections.ActorHandle.Call` | nogil_rpc/rpc_client.py:348-362 | a closed handle sends nothing and refuses; an open one sends the call for its actor, or fails with the map as before: because the call does not serialize, the connection is closed, or the write fails |
| `Connections.ActorHandle.Close` | nogil_rpc/rpc_client.py:327-340 | only the first close of an owning handle sends a destruction; no answer is a time-out, success and ActorNotFoundError are no errors, every other error is raised as it is, and a closed connection is no error |
| `LinkRuns.RunInv` | nogil_rpc/rpc_client.py:150-362 | client and server, joined by an ordered message channel, stay in step: accepted jobs are the requests written, popped references are those of the responses read |
| `LinkTheorems.ResponsesFindTheirCalls` | nogil_rpc/rpc_client.py:198-215 | while the connection is open every response read names a call waiting in the map and carries the outcome of the request with that id |
| `LinkTheorems.FunctionResultsArrive` | nogil_rpc/runtime.py:368-382 | while the connection is open, the response that answers a function call carries the outcome of the one step in which the function returned, or the serializer's error in its place |
| `LinkTheorems.CompletionSucceeds` | nogil_rpc/rpc_client.py:207-215 | completing what was popped succeeds with the outcome read |
| `LinkTheorems.CallsRunInIssueOrder` | nogil_rpc/rpc_client.py:348-362 | of two calls made through one handle, owning or attached, that the same executor has run, the one made first ran first |
| `LinkTheorems.CloseDrains` | nogil_rpc/rpc_client.py:327-362 | once the close of an owning handle has the successful response to its destruction, every call ever written through the handle was run exactly once, in the order in which the calls were made, and its reference holds its answer, unless there was nothing to answer |
| `LinkTheorems.NoCallIsLost` | nogil_rpc/rpc_client.py:219-238 | if the client's requests fit a frame, then after a close the map is empty and every reference that ever entered it is complete, or its own sender is just completing it |
| `LinkTheorems.OnlyOversizedRequestsLoseCalls` | nogil_rpc/rpc_client.py:150-238 | together with the server, a client can lose a call it has sent for ever if and only if one of its requests may exceed its frame limit |
| `Framing.HeaderIsExact` | nogil_rpc/protocol.py:29 | the header of a length is the four bytes whose big-endian value it is, is read back as that length, and no other header is |
| `Framing.ReadIsExact` | nogil_rpc/protocol.py:36-66 | reading succeeds exactly on streams that begin with a frame within the limit, gives its payload and takes exactly its bytes; connection closed exactly when header or accepted frame is cut short |
| `Framing.ReadBack` | nogil_rpc/protocol.py:36-66 | a stream of frames is read back as their payloads in order, whatever unfinished frame follows |
| `Framing.PrefixOfFrames` | nogil_rpc/protocol.py:36-66 | a reader that has any prefix of such a stream has the first payloads |
| `Framing.ReadingGrows` | nogil_rpc/protocol.py:36-66 | more bytes never change what was read |
| `Framing.ValuesArrive` | nogil_rpc/protocol.py:16-50 | with an injective serializer the values written are the values read |
| `Sockets.Inbound.Recv` | nogil_rpc/protocol.py:58-64 | any chunk from one byte to the limit, none only at the end of the stream |
| `Sockets.Inbound.ReadExact` | nogil_rpc/protocol.py:53-66 | for every chunking exactly the next bytes, or connection closed when the stream ends first |
| `Sockets.Inbound.ReadFrame` | nogil_rpc/protocol.py:36-50 | for every chunking what the specification reads, and not a byte more |
| `Sockets.Inbound.ReadFrames` | nogil_rpc/rpc_client.py:181-190 | the reading loop gets all payloads the specification finds |
| `Sockets.Outbound.SendAll` | nogil_rpc/protocol.py:31-33 | all bytes, or a prefix and a permanent failure |
| `Sockets.Outbound.WriteFrame` | nogil_rpc/protocol.py:16-33 | a whole frame, nothing when it is too long, or a part of it and a permanent failure |
| `Writers.WireIsAChannel` | nogil_rpc/protocol.py:29-33 | under any interleaving and splitting of locked writes the bytes sent decode to the payloads in lock order plus at most one unfinished frame |
| `Writers.ReceivedSoFar` | nogil_rpc/protocol.py:29-33 | a reader of any prefix has the first payloads in lock order |
| `Writers.BytesRefineTheChannel` | nogil_rpc/protocol.py:29-66 | every step of locked writers and a reader is a step of an ordered channel of whole messages, which delivers exactly what the reader newly understands |
| `Writers.UnlockedWritersCorrupt` | nogil_rpc/protocol.py:30-33 | a run of two unlocked writers after which a reader gets a message nobody wrote |
| `Registry.Sort` | nogil_rpc/registry.py:105-108 | strictly ascending with exactly the given names |
| `Registry.RemoteRegistry.constructor` | nogil_rpc/registry.py:63-66 | a new registry is empty |
| `Registry.RemoteRegistry.Register` | nogil_rpc/registry.py:68-85 | refuses exactly the unmarked and the marked with a taken name, changing nothing; else a class is added to the classes and a function to the functions, and the other kind stays as it was |
| `Registry.RemoteRegistry.GetFunction` | nogil_rpc/registry.py:87-94 | the registered function or function not found |
| `Registry.RemoteRegistry.GetClass` | nogil_rpc/registry.py:96-103 | the registered class or class not found |
| `Registry.RemoteRegistry.Catalog` | nogil_rpc/registry.py:105-108 | ascending snapshots of exactly the function and class names |
| `Registry.CatalogIsUnderstood` | nogil_rpc/rpc_client.py:376-391 | the client accepts a catalog exactly when no name is in both lists, and learns exactly the classes |
| `Registry.RegistrationsOnlyAdd` | nogil_rpc/registry.py:68-85 | later registrations keep every name's kind and target |
| `Registry.FirstTargetsAreFound` | nogil_rpc/registry.py:68-103 | whatever targets are registered, a free name becomes that of the first marked target that has it, found as a class or as a function as it is one, and no other name appears |
| `Registry.ParseCatalogIsExact` | nogil_rpc/rpc_client.py:376-391 | a message is accepted exactly when it is a catalog of two lists of names with no name in common, and the classes learnt are those of the message |
| `Registry.BuildCatalogLists` | nogil_rpc/runtime.py:214-218 | the message a registry sends lists its functions and its classes under their own fields |
| `Registry.SnapshotStaysRight` | nogil_rpc/rpc_client.py:253-258 | names resolved from a catalog keep being asked for and found as the right kind; a class registered later is asked for as a function and not found; private names give nothing |
| `Heap.RootIsLeast` | benchmarks/control_plane_compare.py:75 | the root of a heap is least |
| `Heap.SiftDown` | benchmarks/control_plane_compare.py:104-107 | restores heap order from below, keeping the entries |
| `Heap.SiftUp` | benchmarks/control_plane_compare.py:75 | restores heap order from the root, keeping the entries |
| `Heap.Push` | benchmarks/control_plane_compare.py:104-107 | one entry more, still a heap |
| `Heap.Pop` | benchmarks/control_plane_compare.py:75 | takes a least entry, the rest still a heap |
| `Frontier.Conservation` | benchmarks/control_plane_compare.py:48-108 | over any operations: initial and submitted domains are those claimed and those waiting, no entry is claimed twice, size = initial + added - claimed |
| `Frontier.ClaimTakesTheLeast` | benchmarks/control_plane_compare.py:66-78 | a claim returns k domains or all that wait, one by one those of the first entries, each before all that stay, by priority and then insertion; depth and token never decide |
| `Frontier.InitialRecords` | benchmarks/control_plane_compare.py:59-64 | a new frontier holds each token below n once, at depth 0 with priority token * 104729 mod 2^63, and counts nothing |
| `FrontierObject.PopBatch` | benchmarks/control_plane_compare.py:72-76 | popping a heap k times gives the first k entries of the sorted queue in order |
| `FrontierObject.FrontierCore.Empty` | benchmarks/control_plane_compare.py:52-58 | an empty frontier |
| `FrontierObject.FrontierCore.Create` | benchmarks/control_plane_compare.py:48-64 | refuses fewer than one domain, else the queue of the initial domains |
| `FrontierObject.FrontierCore.PushDomains` | benchmarks/control_plane_compare.py:102-108 | pushes all records in order |
| `FrontierObject.FrontierCore.TakeBatch` | benchmarks/control_plane_compare.py:71-78 | the heap and counters change as the sorted queue's claim |
| `FrontierObject.FrontierCore.ClaimBatch` | benchmarks/control_plane_compare.py:66-78 | refuses batch sizes below one unchanged, else claims as the sorted queue |
| `FrontierObject.FrontierCore.SubmitChildren` | benchmarks/control_plane_compare.py:80-85 | submits as the sorted queue and returns the new size |
| `FrontierObject.FrontierCore.Size` | benchmarks/control_plane_compare.py:87-89 | counts the call and returns the size |
| `FrontierObject.FrontierCore.TakeSnapshot` | benchmarks/control_plane_compare.py:91-100 | reports the queue's sizes and counts without counting itself |
| `Branching.BranchDomains` | benchmarks/control_plane_compare.py:166-193 | the two loops make the specified children, and each bit of the checksum is the parity of the children's tokens that have it |
| `Branching.XorBits` | benchmarks/control_plane_compare.py:192 | a bit of the exclusive or is set exactly where the bits differ |
| `Branching.ChecksumIsParity` | benchmarks/control_plane_compare.py:168-192 | a bit of the checksum is set exactly when an odd number of tokens have it |
| `Branching.ChildDeterminesParent` | benchmarks/control_plane_compare.py:178-184 | for fixed coordinator, round and branch the child's token determines the parent's in [0, 2^63) |
| `Branching.SiblingsDiffer` | benchmarks/control_plane_compare.py:177-184 | siblings have different tokens for branch factors up to 2^63 |
| `Branching.ChildrenAreRecords` | benchmarks/control_plane_compare.py:176-192 | the i-th of |batch| * factor children is child i mod factor of record i / factor: token, priority and depth by the source's formulas, token and priority below 2^63 |
| `Branching.ChecksumFits` | benchmarks/control_plane_compare.py:192 | the checksum of 63-bit tokens has 63 bits |
| `Coordinators.NeverUnderflows` | benchmarks/control_plane_compare.py:208-227 | with at least coordinators * batch size domains no claim of any schedule falls short, and the counters are the sums of what was asked |
| `Coordinators.SomeScheduleUnderflows` | benchmarks/control_plane_compare.py:208-216 | with fewer there is a schedule with a short claim |
| `Coordinators.UnderflowIsDecidedByTheStart` | benchmarks/control_plane_compare.py:208-227 | some schedule underflows if and only if initial < coordinators * batch size |
| `Coordinators.DefaultSizeSuffices` | benchmarks/control_plane_compare.py:303-307 | the default size, twice coordinators * batch size, never underflows |
| `Coordinators.EveryScheduleReconciles` | benchmarks/control_plane_compare.py:248-273 | every complete run ends in exactly the expected snapshot, with rounds // query_every queries per coordinator |
| `Coordinators.SubmissionsAreChildren` | benchmarks/control_plane_compare.py:208-227 | in every schedule what a coordinator submits in a round are the children, for that coordinator and that round, of the full batch it claimed before, one by one and in order |
| `Coordinators.RoundsSubmitChildren` | benchmarks/control_plane_compare.py:208-227 | round k of a coordinator alone submits the children for that coordinator and round of the entries that wait first, one by one and in order |
| `Coordinators.RoundsSumChildren` | benchmarks/control_plane_compare.py:208-227 | in round k a bit of its checksum changes exactly when an odd number of the children's tokens, and of the queried size in a query round, have it |
| `Coordinators.Coordinate` | benchmarks/control_plane_compare.py:208-227 | the loop of one coordinator alone at the frontier object: it succeeds exactly when there is a full batch to begin with, then every count and the size advance by what the plan says, and queue and checksum are those of the rounds one after the other |
| `Coordinators.ValidateSnapshot` | benchmarks/control_plane_compare.py:248-278 | accepts exactly the expected snapshot |

## Left out

- Sockets, binding, listening, accepting, timeouts, thread creation and daemon threads: only byte streams, end of stream and permanent write failure remain.
- The catalog frame is not part of a connection's output in `Server`; the registry's part of the handshake is in `Registry`.
- Reflection on coroutines and generators (`nogil_rpc/runtime.py:496-515`): a target is a function to a value or an error; async targets are among the errors.
- Liveness: waits are guards (a join step is enabled when the executor is idle); that every wait ends is not claimed.
- A worker thread that stops the runtime, and interpreter exit.
- Error texts: errors carry the exception's class and the identifying part of its text.
- `FunctionRegistry`, `_parse_address`, the proxy classes and the exception classes: easy, on no hard path.
- The Ray backend, subprocesses, timing, plotting and command lines of the benchmark.
- The retry table that `nogil_rpc_LLD.md` plans in section 16: not implemented.
- Heap.Push: `heapq` is Python's library; the model spells out its two sift loops so that the list the frontier keeps is really a heap.
- ServerLifecycle.StopLeavesNothingRunning: says nothing of executors that a connection's own cleanup still holds, because `stop` does not wait for those.
- LinkTheorems.CloseDrains: says nothing when the destruction fails; `close` then returns normally for "actor not found" although nothing was drained.
- Pickle: the serializer is a function to bytes, an error or an escape.
- The benchmark's overall checksum: it depends on the schedule, so only the checksum of one coordinator alone is modelled.
- ServerLoss.CallsAreLostExactlyWhen: speaks of calls that wait at an actor in the table; what waits at an actor that is already being destroyed runs, and what waits at one that is being cleaned up is cancelled.
- ServerAccounting.OwnRequestsAreAnswered: says nothing once the pool has been stopped; `ServerWitness.StopLosesACall` shows why.
- Runtime.RpcRuntime.Stop: sequential; connections and actors that appear while it runs, and the tasks it waits for, are in `Server`.
- Runtime.RpcRuntime.CreateActor: the constructor of the actor's class has run; that it may fail is in `Server`.
- Connections.RpcClientConnection.CloseWithError: sequential, so no reference is complete when it is failed, and the order of the map does not matter; interference is in `Client`.
- Connections.RpcClientConnection.SendRequest: sequential; interference by other threads is in `Client`. Writing a frame that is too long and a failing socket raise errors of one kind here.
- Connections.ActorHandle.Close: what the waiting for the answer gives is a parameter.
