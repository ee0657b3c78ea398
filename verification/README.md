# Verified models of the Ravencloud front-end scripts and form language

Ravencloud's demo bundles Font Awesome, jQuery blockUI and Popper; its core reads form layouts in a small
language of its own. This project models the parts of that code whose correctness is hardest to see from
one function, and proves what they promise.

- **MD5 and HMAC-MD5** (`Numbers`, `Md5Core`, `Md5`, `HmacMd5`, `Hex`). JavaScript's 32-bit operators are
  functions on integers; `Rfc1321` and `Rfc2104` state the standards independently of the code: blocks of
  words, a table-driven step, addition modulo 2^32. The unrolled, in-place, signed code is proved to compute
  them. A string is a sequence of 16-bit code units, of which the code uses the low bytes.
- **The promise engine `P`** (`Promises`, `PromiseMachine`, `PromiseSafety`, `PromiseOutcomes`,
  `PromiseAdoption`, `PromiseReturns`, `PromiseCalls`, `PromiseOrder`, `PromiseRejections`,
  `PromiseLateRejection`, `PromiseValues`, `PromiseProgress`, `PromiseEngine`). A heap of promises, a queue that
  grows while it is flushed, thenable adoption and `P.all`. User code is the environment: between two of its
  calls, and inside every callback and every foreign `then`, it may make any calls in any order; a getter of
  `then` may only throw or return. The invariants hold in every state of every such run, and while user code
  makes no call the engine comes to rest. Promises are numbered; `PromiseValues` and `PromiseProgress` are about
  runs in which a value names only promises that exist by then, as a reference does. The `Engine` class performs
  the same steps on variables updated in place.
- **The icon registry** (`Registry`, `LoadedRegistry`) with packs, shims, derived indexes, hooks and script load
  order, and the **pseudo-element protocol** (`PseudoElements`) that replaces a pseudo-element in two
  asynchronous halves.
- **Printers and readers**: `Html` (`toHtml` against a reader), `IconClasses` (the class list of an icon),
  `FormStruct` (the struct language of forms). `Strings` and `Sequences` hold what they share.
- **The blockUI lifecycle** (`BlockUi`): block and unblock calls, timers and fades of one target, interleaved.
- **Popper's listeners** (`ScrollListeners`): the walk to the scroll parents, set-up, tear-down, and runs of
  both while the page changes.

Where the source updates objects in place there is a class whose methods equate the new state with a
function of the old one; the lemmas are about those functions and about runs of them.

## What the code does, where one might expect otherwise

- `new P` gives its resolvers no lock of their own: after `resolve(p, q)` with another promise `q`, or with a
  foreign object whose `then` was called, a later `resolve(p, 5)` still fulfils `p` with 5, and after any
  other first value it does not (`SecondResolution`).
- A promise whose own callback returns it is rejected with a TypeError; `resolve(p, p)` and an adopt closure
  called with `p` fulfil `p` with itself (`SelfResolution`).
- `P.all` rejects with the first rejection published, of all its entries, if and only if no entry was rejected
  at the call, or no entry's rejection waited in the queue then and the first of the list that was rejected was
  also published first (`WhenFirstPublishedCounts`): a rejection that still waits in the queue goes before one
  that was published earlier (`FirstPublishedCanLose`).
- After a callback throws, invokeCallback goes on with the owner's value; the child is already rejected by
  then (`ThrowRejectsChild`).
- `defineIcons('fas', ...)` defines the alias `fa` without the `skipHooks` of the outer call (`SkippedHooks`).
- A width class beyond `fa-w-20` is taken for an icon class when the element is parsed again (`RenderedReads`).
- An unblock call with `bindEvents` off leaves the handler bound, and the next block call adds one to it
  (`HandlersGone`, `LeakedHandlersStack`). A page that is blocked while it fades out keeps the fading layers
  beside the new ones until it is unblocked (`BlockShows`).
- A form struct loses an empty first and an empty last row; any other row without an element, and a form
  without rows, throws, because the list of its builder is null (`EmptyRows`, `WhenListIsNull`).

## Model

| member | source | states |
|---|---|---|
| Md5Core.SafeAddIsSum | rv-demo/web/rv/fontawesome/js/conflict-detection.js:183-187 | adding by 16-bit halves is addition modulo 2^32 of the unsigned readings, for all integers |
| Md5Core.BitRotateLeftIsRotation | rv-demo/web/rv/fontawesome/js/conflict-detection.js:197-199 | the two shifts joined by a bitwise or are the circular left shift of the unsigned reading, for every count the code uses |
| Md5Core.Md5CmnIsOp | rv-demo/web/rv/fontawesome/js/conflict-detection.js:213-215 | md5cmn is the operation `a = b + ((a + f + X + T) <<< s)` of section 3.4 of RFC 1321 on the unsigned readings |
| Md5Core.Md5FfIsOp | rv-demo/web/rv/fontawesome/js/conflict-detection.js:230-232 | md5ff is that operation with the auxiliary function F, for all words and shifts |
| Md5Core.Md5GgIsOp | rv-demo/web/rv/fontawesome/js/conflict-detection.js:247-249 | md5gg is that operation with G |
| Md5Core.Md5HhIsOp | rv-demo/web/rv/fontawesome/js/conflict-detection.js:264-266 | md5hh is that operation with H |
| Md5Core.Md5IiIsOp | rv-demo/web/rv/fontawesome/js/conflict-detection.js:281-283 | md5ii is that operation with I |
| Md5Core.Round1 | rv-demo/web/rv/fontawesome/js/conflict-detection.js:312-327 | the sixteen unrolled assignments of round 1, with rotating a, d, c, b and signed constants, are steps 0 to 15 of the RFC's table-driven step function on the 16-word block at i |
| Md5Core.Round2 | rv-demo/web/rv/fontawesome/js/conflict-detection.js:328-343 | round 2 is steps 16 to 31 |
| Md5Core.Round3 | rv-demo/web/rv/fontawesome/js/conflict-detection.js:344-359 | round 3 is steps 32 to 47 |
| Md5Core.Round4 | rv-demo/web/rv/fontawesome/js/conflict-detection.js:360-375 | round 4 is steps 48 to 63 |
| Md5.JsArray.Put | rv-demo/web/rv/fontawesome/js/conflict-detection.js:295-296 | a write past the end of a JavaScript array leaves holes that read as 0 |
| Md5.AppendByte | rv-demo/web/rv/fontawesome/js/conflict-detection.js:421-423 | one or-assignment of the packing loop appends exactly one byte to the bytes that the words hold |
| Md5.Rstr2Binl | rv-demo/web/rv/fontawesome/js/conflict-detection.js:411-427 | the packed words hold exactly the low bytes of the string, for every string below 2^28 characters, where the bit index stays in the int range of `i >> 5` |
| Md5.Binl2Rstr | rv-demo/web/rv/fontawesome/js/conflict-detection.js:392-402 | unpacking gives the bytes of the words, lowest first, for every array below 2^26 words |
| Md5.UnpackInvertsPack | rv-demo/web/rv/fontawesome/js/conflict-detection.js:392-427 | binl2rstr after rstr2binl gives the bytes back, zero-padded to a multiple of 4 |
| Md5.PackInvertsUnpack | rv-demo/web/rv/fontawesome/js/conflict-detection.js:392-427 | rstr2binl after binl2rstr is the identity on 32-bit words |
| Md5.PaddedSize | rv-demo/web/rv/fontawesome/js/conflict-detection.js:296-307 | the length word makes the array one word short of floor((len+64)/512)+1 blocks, and the loop by sixteen passes over exactly that many, as many as the padded message of the RFC has |
| Md5.PaddingIsRfc | rv-demo/web/rv/fontawesome/js/conflict-detection.js:293-307 | for every whole-byte length below 2^31 bits the two in-place writes give, missing words read as 0, exactly the padded message of sections 3.1 and 3.2 of RFC 1321 |
| Md5.BinlMd5 | rv-demo/web/rv/fontawesome/js/conflict-detection.js:293-383 | the loop over the padded array, updated in place, computes the chaining value of RFC 1321 over all blocks, as 32-bit words, for whatever bytes the array held |
| Md5.HashOfBytes | rv-demo/web/rv/fontawesome/js/conflict-detection.js:293-383 | whatever bytes the array held, the four words returned hold their RFC 1321 digest |
| Md5.DigestWords | rv-demo/web/rv/fontawesome/js/conflict-detection.js:382-402 | the four words unpack to the sixteen digest bytes of section 3.5 of RFC 1321 |
| Md5.RstrMd5 | rv-demo/web/rv/fontawesome/js/conflict-detection.js:437-439 | for every string shorter than 2^28 characters the result is the RFC 1321 digest of its low bytes |
| HmacMd5.XorWord | rv-demo/web/rv/fontawesome/js/conflict-detection.js:460-463 | xoring a packed word with the repeated pad xors each of its four bytes |
| HmacMd5.HoldsConcat | rv-demo/web/rv/fontawesome/js/conflict-detection.js:465-466 | concatenating word arrays concatenates the bytes they hold when the first ends on a whole word |
| HmacMd5.RstrHmacMd5 | rv-demo/web/rv/fontawesome/js/conflict-detection.js:449-468 | the result is HMAC of section 2 of RFC 2104 with MD5 and block size 64, for every key and text within the length bound; the key is hashed exactly when it is longer than 64 bytes |
| Hex.Rstr2Hex | rv-demo/web/rv/fontawesome/js/conflict-detection.js:477-489 | two lower-case digits for the low byte of every character |
| Hex.HexRoundTrip | rv-demo/web/rv/fontawesome/js/conflict-detection.js:477-489 | reading the digits in pairs gives every byte string back |
| Promises.SettleKeeps | rv-demo/web/rv/fontawesome/js/fontawesome.js:433-447 | settling keeps the queue invariant: it pushes the one publishing task of a promise that was pending |
| Promises.ThenKeeps | rv-demo/web/rv/fontawesome/js/fontawesome.js:494-519 | then keeps it: the new subscriber goes to the list or the queue, never both |
| Promises.StartFlushKeeps | rv-demo/web/rv/fontawesome/js/fontawesome.js:320-324 | the timer firing keeps it |
| Promises.EndFlushKeeps | rv-demo/web/rv/fontawesome/js/fontawesome.js:326-329 | emptying the queue at the end of a flush keeps it: nothing pushed meanwhile is dropped |
| Promises.BeginPublishKeeps | rv-demo/web/rv/fontawesome/js/fontawesome.js:449-460 | starting a publication keeps it |
| Promises.VisitNextKeeps | rv-demo/web/rv/fontawesome/js/fontawesome.js:449-451 | visiting the next subscriber keeps it |
| Promises.EndPublishKeeps | rv-demo/web/rv/fontawesome/js/fontawesome.js:449-451 | dropping the list after a publication keeps it: no subscriber was left in it |
| Promises.BeginInvokeKeeps | rv-demo/web/rv/fontawesome/js/fontawesome.js:322-324 | taking a queued callback keeps it |
| PromiseSafety.StepGood | rv-demo/web/rv/fontawesome/js/fontawesome.js:320-519 | every step of every kind, user calls and re-entrant callbacks included, keeps the invariant and only extends what happened before |
| PromiseSafety.RunGood | rv-demo/web/rv/fontawesome/js/fontawesome.js:320-519 | so does every run from every sound state |
| PromiseSafety.SettlesOnce | rv-demo/web/rv/fontawesome/js/fontawesome.js:433-461 | over any continuation of any run a promise leaves PENDING at most once, keeps its data and its published outcome, and its list, once published, is only dropped |
| PromiseSafety.PublishedByOneTask | rv-demo/web/rv/fontawesome/js/fontawesome.js:433-461 | of all tasks ever pushed exactly one publishes a promise that is no longer pending, and none a pending one |
| PromiseSafety.EverySubscriberInOnePlace | rv-demo/web/rv/fontawesome/js/fontawesome.js:356-519 | started callbacks, those still in the list and those queued are together, in this order, exactly the registered ones in the order of their then calls |
| PromiseSafety.NoCallbackTwice | rv-demo/web/rv/fontawesome/js/fontawesome.js:356-519 | in no run is a callback started twice |
| PromiseSafety.NoCallbackLost | rv-demo/web/rv/fontawesome/js/fontawesome.js:320-519 | once the queue drains, a registered callback has started if and only if its promise is no longer pending; otherwise it is still in the list |
| PromiseSafety.CallbacksStartInOrder | rv-demo/web/rv/fontawesome/js/fontawesome.js:449-519 | the callbacks of one promise start in the order of their then calls (section 2.2.6 of Promises/A+) |
| PromiseSafety.WaitingTaskHasFlush | rv-demo/web/rv/fontawesome/js/fontawesome.js:320-338 | a non-empty queue always has a flush scheduled or running |
| PromiseSafety.ListIsStableWhileVisited | rv-demo/web/rv/fontawesome/js/fontawesome.js:449-461 | no step appends to the list that a publication iterates over |
| PromiseSafety.CallbacksStartInFlush | rv-demo/web/rv/fontawesome/js/fontawesome.js:320-382 | a callback starts only in a turn of the flush with no user code on the stack, never inside then (section 2.2.4 of Promises/A+) |
| PromiseOutcomes.StepWhole | rv-demo/web/rv/fontawesome/js/fontawesome.js:340-559 | every step keeps the bookkeeping of all P.all calls: results, counter and outcome agree with the callbacks that have started |
| PromiseOutcomes.RunWhole | rv-demo/web/rv/fontawesome/js/fontawesome.js:340-559 | so does every run |
| PromiseOutcomes.AllIsSound | rv-demo/web/rv/fontawesome/js/fontawesome.js:525-559 | at every moment of every run: a fulfilled result has every entry fulfilled and entry i's value at index i; a rejected one has the reason of the rejected entry whose callback started first, which RejectsWithFirstTask and RejectionReason tell in the order of the tasks |
| PromiseOutcomes.AllOutcome | rv-demo/web/rv/fontawesome/js/fontawesome.js:525-559 | once the queue drains the result is fulfilled if and only if every entry is, rejected if and only if some entry is, whatever the settle order |
| PromiseRejections.AllStarts | rv-demo/web/rv/fontawesome/js/fontawesome.js:525-559 | P.all at once stores its plain entries, subscribes to its promises with the closures of their index, leaves the other results empty, and is fulfilled if and only if there was no promise |
| PromiseRejections.ResultsAreValues | rv-demo/web/rv/fontawesome/js/fontawesome.js:534-542 | in every run an entry that has a result is fulfilled and the result is its value; plain entries always have theirs |
| PromiseOutcomes.ChildFollowsOwner | rv-demo/web/rv/fontawesome/js/fontawesome.js:356-382 | once the queue drains, the promise of a then call without a callback for the outcome has the same outcome and data, for data that are no thenables (sections 2.2.7.3 and 2.2.7.4 of Promises/A+) |
| PromiseOutcomes.ReturnFulfilsChild | rv-demo/web/rv/fontawesome/js/fontawesome.js:363-381 | a callback that returns a value which is no thenable fulfils its pending child with it and touches no other promise (section 2.2.7.1 of Promises/A+) |
| PromiseOutcomes.ThrowRejectsChild | rv-demo/web/rv/fontawesome/js/fontawesome.js:363-370 | a callback that throws rejects its child with the exception, whatever the call to handleThenable after it does |
| PromiseAdoption.StepSteady | rv-demo/web/rv/fontawesome/js/fontawesome.js:384-425 | every step keeps: the closures of a guard are subscribed together, to that guard's promise alone, and the guard stays open until one of them starts |
| PromiseAdoption.AdoptionNeverStalls | rv-demo/web/rv/fontawesome/js/fontawesome.js:384-425 | in every run, once the queue drains, a promise that adopted another one is settled as soon as that one is, unless its value is a thenable to be adopted in turn |
| PromiseAdoption.AdoptionTakesOutcome | rv-demo/web/rv/fontawesome/js/fontawesome.js:396-410 | the turn that calls an adopter's closure gives the adopting promise, if still pending, the outcome and data of the adopted one |
| PromiseAdoption.SelfResolution | rv-demo/web/rv/fontawesome/js/fontawesome.js:356-431 | a pending promise resolved with itself is rejected with a TypeError, as section 2.3.1 of Promises/A+ asks, if and only if the value comes from invokeCallback, as what its own callback returned or its owner handed on; through a resolver or an adopt closure it is fulfilled with itself, and no third thing happens |
| PromiseAdoption.SecondResolution | rv-demo/web/rv/fontawesome/js/fontawesome.js:340-354 | the resolvers have no lock: a second call, with a plain value, fulfils the promise if and only if the first value left it open, that is was another promise of the engine or a foreign object whose then was called; otherwise the first value, or what its getter threw, stays |
| PromiseReturns.StepNext | rv-demo/web/rv/fontawesome/js/fontawesome.js:340-425 | every step keeps: no child has two open guards, the child of the running callback is pending and has none, and a guard that waits goes on waiting until its closure is called |
| PromiseReturns.RunningChildIsPending | rv-demo/web/rv/fontawesome/js/fontawesome.js:356-382 | in every run the promise of a running callback is still pending |
| PromiseReturns.ReturnedPromise | rv-demo/web/rv/fontawesome/js/fontawesome.js:373-414 | a callback that returns another promise q: there is a new open guard for its child and a new subscriber of q with the two closures of that guard, and the child stays pending |
| PromiseReturns.ChildFollowsReturned | rv-demo/web/rv/fontawesome/js/fontawesome.js:356-425 | over any run after that, once the queue drains, the child is pending if q is, and has the outcome and the data of q if q is rejected, or fulfilled with a value that is no thenable (section 2.3.2 of Promises/A+) |
| PromiseReturns.ResolvedPromise | rv-demo/web/rv/fontawesome/js/fontawesome.js:427-431 | a resolver called with another promise does the same for its promise |
| PromiseReturns.PromiseFollowsResolved | rv-demo/web/rv/fontawesome/js/fontawesome.js:340-431 | and that promise, if it waited for nothing yet and its resolvers are not called again, follows the other one in the same way |
| PromiseReturns.ClosureTakesPromise | rv-demo/web/rv/fontawesome/js/fontawesome.js:396-404 | the resolving closure of a foreign then, called with a promise, does the same for the promise of its guard, and closes the guard |
| PromiseReturns.ReturnedForeign | rv-demo/web/rv/fontawesome/js/fontawesome.js:373-425 | a callback that returns a foreign object: its then is called with the closures of a new open guard, or the child is rejected with what the getter threw, or fulfilled with the object |
| PromiseReturns.FirstClosureCounts | rv-demo/web/rv/fontawesome/js/fontawesome.js:394-411 | after the first call of either closure of a foreign then, over any run, a call of either changes nothing |
| PromiseReturns.ForeignSettles | rv-demo/web/rv/fontawesome/js/fontawesome.js:394-422 | the first call settles a pending promise, with a value that is no thenable or with the reason; a then that throws before it rejects the promise |
| PromiseReturns.LateThrowIsIgnored | rv-demo/web/rv/fontawesome/js/fontawesome.js:394-422 | a then that throws after that does nothing |
| PromiseCalls.WhoHasControl | rv-demo/web/rv/fontawesome/js/fontawesome.js:320-382 | user code has control at top level while no flush runs, inside its callbacks and inside a foreign then, and nowhere else |
| PromiseCalls.CreateMakesPromise | rv-demo/web/rv/fontawesome/js/fontawesome.js:475-492 | new P makes one pending promise and changes nothing else |
| PromiseCalls.RejectRejects | rv-demo/web/rv/fontawesome/js/fontawesome.js:340-354 | the rejecting function rejects a pending promise with its argument |
| PromiseCalls.SubscribeRegisters | rv-demo/web/rv/fontawesome/js/fontawesome.js:494-519 | then registers the two callbacks, in this order, under a new pending promise: at the end of the list, or of the queue once the promise is published |
| PromiseCalls.ResolvedForeign | rv-demo/web/rv/fontawesome/js/fontawesome.js:415-431 | a pending promise resolved with a foreign object: its then is called, or the promise is rejected with what the getter threw, or fulfilled with the object |
| PromiseCalls.ClosureTakesForeign | rv-demo/web/rv/fontawesome/js/fontawesome.js:396-425 | the same for the resolving closure of a foreign then, unless it is called with its own object, which is then the value |
| PromiseCalls.TurnCallsBack | rv-demo/web/rv/fontawesome/js/fontawesome.js:356-372 | a turn that starts a subscriber calls its callback for the outcome of its owner, which is published; user code gets control exactly if that one is user code (sections 2.2.2 and 2.2.3 of Promises/A+) |
| PromiseCalls.ClosureIsOver | rv-demo/web/rv/fontawesome/js/fontawesome.js:363-381 | the turn after a closure of the engine fulfils the closure's child with undefined |
| PromiseCalls.HandedOnPromise | rv-demo/web/rv/fontawesome/js/fontawesome.js:373-381 | without a callback for the outcome, a promise among the owner's data, value or reason, is adopted by the child |
| PromiseOrder.StepOrdered | rv-demo/web/rv/fontawesome/js/fontawesome.js:320-519 | every step keeps: what is left of the queue are the last tasks pushed, no task was pushed twice, and callbacks of all promises have started in the order of the tasks that start them |
| PromiseOrder.RunOrdered | rv-demo/web/rv/fontawesome/js/fontawesome.js:320-519 | so does every run |
| PromiseOrder.CallbacksFollowTasks | rv-demo/web/rv/fontawesome/js/fontawesome.js:320-338 | in every run tasks are taken first in, first out, and the callbacks of all promises start in the order in which their tasks were pushed |
| PromiseRejections.RejectsWithFirstTask | rv-demo/web/rv/fontawesome/js/fontawesome.js:525-559 | in every run a rejected P.all has the reason of the rejected entry whose task was pushed first: the entry's own callback if it was published at the call, the publication of its rejection otherwise |
| PromiseRejections.RejectionReason | rv-demo/web/rv/fontawesome/js/fontawesome.js:525-559 | in every run the entry whose reason counts is told by the state at the call: the first whose rejection was then in the queue; else the first of the list that was rejected; else the first rejection published afterwards |
| PromiseRejections.WhenFirstPublishedCounts | rv-demo/web/rv/fontawesome/js/fontawesome.js:525-559 | the reason is that of the first rejection published, of all entries, if and only if at the call no entry is rejected, or none has its rejection in the queue and the first of the list that is rejected was published first |
| PromiseRejections.PublishedBefore | rv-demo/web/rv/fontawesome/js/fontawesome.js:320-461 | a rejection that is published was pushed before every one that is not |
| PromiseLateRejection.FirstPublishedCanLose | rv-demo/web/rv/fontawesome/js/fontawesome.js:494-559 | a run in which the first rejection published is not the reason: promise 0 is rejected and published, the rejection of promise 1 waits in the queue, and P.all of both rejects with the reason of promise 1 |
| PromiseValues.StepTidy | rv-demo/web/rv/fontawesome/js/fontawesome.js:340-559 | every step in which user code names only promises that exist keeps: a promise fulfilled with a promise holds one that was settled with itself |
| PromiseValues.FulfilledWithAPromise | rv-demo/web/rv/fontawesome/js/fontawesome.js:384-431 | so in every run of such steps a promise is never fulfilled with another promise, which is adopted instead, except one that was settled with itself (section 2.3.2 of Promises/A+) |
| PromiseProgress.InvokeAdds | rv-demo/web/rv/fontawesome/js/fontawesome.js:356-425 | calling any callback, and all that handleThenable and P.all do then, costs less than the effort set aside for its subscriber |
| PromiseProgress.StepIsLess | rv-demo/web/rv/fontawesome/js/fontawesome.js:320-425 | every turn of the engine, and every return or throw of user code that calls nothing, makes the measure strictly smaller |
| PromiseProgress.EngineComesToRest | rv-demo/web/rv/fontawesome/js/fontawesome.js:320-425 | while user code calls nothing, whatever it returns or throws, at most Measure(s) steps can be taken, and when none can the queue has drained and exactly the callbacks of settled promises have started |
| PromiseProgress.RestIsReached | rv-demo/web/rv/fontawesome/js/fontawesome.js:320-425 | and from every such state a run leads there |
| PromiseEngine.Engine.constructor | rv-demo/web/rv/fontawesome/js/fontawesome.js:317-318 | no promise, an empty queue, no timer |
| PromiseEngine.Engine.AsyncCall | rv-demo/web/rv/fontawesome/js/fontawesome.js:331-338 | pushes the task and arms the timer if none is armed |
| PromiseEngine.Engine.Fulfill | rv-demo/web/rv/fontawesome/js/fontawesome.js:433-439 | settles a pending promise in place and queues its publication |
| PromiseEngine.Engine.Reject | rv-demo/web/rv/fontawesome/js/fontawesome.js:441-447 | rejects a pending promise in place and queues its publication |
| PromiseEngine.Engine.Then | rv-demo/web/rv/fontawesome/js/fontawesome.js:494-519 | allocates the child, then queues the subscriber if the outcome is published and appends it to the list otherwise |
| PromiseEngine.Engine.HandleThenable | rv-demo/web/rv/fontawesome/js/fontawesome.js:384-425 | self-reference, promise, thenable, throwing getter and plain value, each with its effect on guards, lists and state |
| PromiseEngine.Engine.Resolve | rv-demo/web/rv/fontawesome/js/fontawesome.js:427-431 | adopts a thenable, fulfils with anything else |
| PromiseEngine.Engine.CallAdopt | rv-demo/web/rv/fontawesome/js/fontawesome.js:396-405 | the first call of either closure counts, later ones do nothing |
| PromiseEngine.Engine.CallRefuse | rv-demo/web/rv/fontawesome/js/fontawesome.js:405-410 | the first call of either closure counts, later ones do nothing |
| PromiseEngine.Engine.CallItem | rv-demo/web/rv/fontawesome/js/fontawesome.js:534-542 | stores the value at its index and resolves when the counter reaches zero |
| PromiseEngine.Engine.Complete | rv-demo/web/rv/fontawesome/js/fontawesome.js:373-381 | what invokeCallback does with the value, which ReturnFulfilsChild, ReturnedPromise, ReturnedForeign and SelfResolution tell case by case |
| PromiseEngine.Engine.InvokeCallback | rv-demo/web/rv/fontawesome/js/fontawesome.js:356-382 | picks the callback by the owner's state, calls it, and completes the child when there is none |
| PromiseEngine.Engine.All | rv-demo/web/rv/fontawesome/js/fontawesome.js:525-559 | for entries that are promises of the engine or no thenables, the loop with its counter equals the recursive specification whose outcomes are proved above |
| PromiseEngine.Engine.PublishNext | rv-demo/web/rv/fontawesome/js/fontawesome.js:449-451 | one visit of the list, or its drop at the end |
| PromiseEngine.Engine.FlushNext | rv-demo/web/rv/fontawesome/js/fontawesome.js:320-329 | one task of the queue, or the reset at the end; the queue may have grown meanwhile |
| PromiseEngine.Engine.Turn | rv-demo/web/rv/fontawesome/js/fontawesome.js:320-382 | a turn of the engine does the specified step and keeps every invariant above |
| Registry.IndexesOf | rv-demo/web/rv/fontawesome/js/fontawesome.js:1221-1247 | every index has one table for each style, built from that style alone |
| Registry.UnicodeIndexMeans | rv-demo/web/rv/fontawesome/js/fontawesome.js:1229-1235 | the unicode index has exactly the characters of a style's icons and names the last icon that has the character |
| Registry.LigatureIndexMeans | rv-demo/web/rv/fontawesome/js/fontawesome.js:1236-1243 | the ligature index has exactly the names and ligatures of a style's icons and names the last icon that answers to the word |
| Registry.OldNameIndexMeans | rv-demo/web/rv/fontawesome/js/fontawesome.js:1244-1259 | the last shim of an old name counts, and far becomes fas exactly when there is no regular pack |
| Registry.OldNamesOnly | rv-demo/web/rv/fontawesome/js/fontawesome.js:1244-1259 | the old-name index has exactly the names of the shims |
| Registry.SkippedHooks | rv-demo/web/rv/fontawesome/js/fontawesome.js:1202-1213 | skipHooks leaves the indexes stale, except for the solid pack, whose alias rebuilds them |
| Registry.LoadedUpToDate | rv-demo/web/rv/fontawesome/js/fontawesome.js:2459-2473 | after every sequence of script loads the indexes are fresh as soon as the core script is among them, and the shims are those of the lists in load order |
| Registry.LoadedStyles | rv-demo/web/rv/fontawesome/js/regular.js:86-119 | after any scripts in any order style p is the packs of p, those of fas counting for fa too, each spread over the earlier ones |
| Registry.LoadOrderIsIrrelevant | rv-demo/web/rv/fontawesome/js/fontawesome.js:1181-1260 | for packs with distinct prefixes, fas counting as fa too, and one shim list, any two load orders of the same scripts give the same styles, shims and indexes, equal to a fresh build, the far-to-fas fallback included |
| LoadedRegistry.LoadedIcon | rv-demo/web/rv/fontawesome/js/fontawesome.js:1181-1214 | after any scripts in any order findIcon gives the last icon that a pack of the prefix defined under the name, fas counting for fa too, and nothing otherwise |
| LoadedRegistry.LoadedUnicodes | rv-demo/web/rv/fontawesome/js/fontawesome.js:1221-1235 | after any scripts with the core script among them byUnicode has the prefixes of the packs, for each exactly the characters of the icons loaded, and names one that has it |
| LoadedRegistry.LoadedByUnicode | rv-demo/web/rv/fontawesome/js/fontawesome.js:1262-1264 | byUnicode answers with such an icon, and with nothing exactly if there is none |
| LoadedRegistry.LoadedLigatures | rv-demo/web/rv/fontawesome/js/fontawesome.js:1236-1243 | byLigature in the same way has exactly the names and ligatures of the icons loaded |
| LoadedRegistry.LoadedOldName | rv-demo/web/rv/fontawesome/js/fontawesome.js:1244-1259 | of the shims loaded the last one of an old name counts, with its icon name and its prefix, and far is replaced by fas exactly if no pack far was loaded |
| LoadedRegistry.LoadedOldNamesOnly | rv-demo/web/rv/fontawesome/js/fontawesome.js:1244-1259 | the old names are exactly those of the shims loaded |
| Registry.AliasOrderMatters | rv-demo/web/rv/fontawesome/js/fontawesome.js:1207-1213 | with a pack fa beside the pack fas, an icon of both is the one of the pack that loads last |
| Registry.PackKeepsFound | rv-demo/web/rv/fontawesome/js/fontawesome.js:1202-1206 | defining a pack never loses an icon |
| Registry.DefineNamesFound | rv-demo/web/rv/fontawesome/js/fontawesome.js:1181-1214 | defining keeps every name in the unicode index findable, even when skipHooks leaves the index stale |
| Registry.LoadNamesFound | rv-demo/web/rv/fontawesome/js/v4-shims.js:48-64 | loading any script keeps every name in the unicode index findable |
| Registry.AddedAllNamesFound | rv-demo/web/rv/fontawesome/js/fontawesome.js:2121-2135 | library.add, for any list of definitions, keeps every name in the unicode index findable |
| Registry.AddedIconsFound | rv-demo/web/rv/fontawesome/js/fontawesome.js:2121-2156 | after library.add findIcon gives for every icon its last definition in the list, and what it gave before for an icon that is not in it; for fa if fas is not added too |
| LoadedRegistry.AddedIsFresh | rv-demo/web/rv/fontawesome/js/fontawesome.js:2130-2134 | after library.add of anything the indexes are up to date, hooked or not |
| LoadedRegistry.DefinitionsKept | rv-demo/web/rv/fontawesome/js/fontawesome.js:2130-2132 | library.add keeps for every prefix and name the last definition ever added |
| Registry.UnicodeIsFound | rv-demo/web/rv/fontawesome/js/fontawesome.js:1807-1820 | whatever byUnicode answers, from a fresh or a stale index, findIcon finds |
| Registry.Library.Build | rv-demo/web/rv/fontawesome/js/fontawesome.js:1221-1260 | the loops over styles, icons, ligatures and shims build exactly the indexes whose contents are told above |
| Registry.Library.DefineIcons | rv-demo/web/rv/fontawesome/js/fontawesome.js:1181-1214 | normalises, spreads over the old pack or calls the hook, and defines the alias |
| Registry.Library.PullDefinitions | rv-demo/web/rv/fontawesome/js/fontawesome.js:2142-2156 | collects the definitions by prefix and name |
| Registry.Library.Add | rv-demo/web/rv/fontawesome/js/fontawesome.js:2121-2135 | records the definitions, then for each prefix defines and builds once more |
| Registry.Library.LoadShims | rv-demo/web/rv/fontawesome/js/v4-shims.js:56-64 | calls the hook if it is there, pushes otherwise |
| Registry.Library.LoadCore | rv-demo/web/rv/fontawesome/js/fontawesome.js:2459-2473 | builds and installs the hooks |
| PseudoElements.StartKeeps | rv-demo/web/rv/fontawesome/js/fontawesome.js:1991-2030 | a start keeps: tagged children plus a pending attribute never exceed one, and the attribute is set exactly while one completion is outstanding |
| PseudoElements.FinishKeeps | rv-demo/web/rv/fontawesome/js/fontawesome.js:2031-2055 | so does a completion |
| PseudoElements.NeverTwice | rv-demo/web/rv/fontawesome/js/fontawesome.js:1991-2063 | so does every interleaving of starts, completions, pack definitions, script loads and page changes |
| PseudoElements.ReplacementShowsIcon | rv-demo/web/rv/fontawesome/js/fontawesome.js:1991-2063 | a start that is not turned away ends with the icon the style asks for, in its place and alone for the position, the other children unchanged in order |
| PseudoElements.RunShowsIcon | rv-demo/web/rv/fontawesome/js/fontawesome.js:1991-2063 | in every run a start whose style asks for an icon, and its completion, leave that icon alone for the position and in its place, and a start with the icon already there changes nothing |
| PseudoElements.StartIsTurnedAway | rv-demo/web/rv/fontawesome/js/fontawesome.js:1991-2030 | a start changes nothing while a replacement is pending, without content or prefix, for an unknown character, and when the icon is there |
| PseudoElements.LostFontRemovesIcon | rv-demo/web/rv/fontawesome/js/fontawesome.js:2008-2013 | without an icon font the icon put there goes and nothing else does |
| PseudoElements.Node.ReplaceForPosition | rv-demo/web/rv/fontawesome/js/fontawesome.js:1991-2030 | the attribute and the children, updated in place, follow the start step |
| PseudoElements.Node.FinishReplacement | rv-demo/web/rv/fontawesome/js/fontawesome.js:2041-2053 | the insertion and the removal of the attribute follow the completion step |
| Html.EscapeIsCharwise | rv-demo/web/rv/fontawesome/js/fontawesome.js:683-685 | the five replaces in sequence are one character-wise map |
| Html.UnescapeInvertsEscape | rv-demo/web/rv/fontawesome/js/fontawesome.js:683-685 | the map can be decoded, for every string |
| Html.JoinAttributesIsJoined | rv-demo/web/rv/fontawesome/js/fontawesome.js:686-690 | for safe names the trimmed pairs are the quoted attributes joined by single spaces |
| Html.AttributesRoundTrip | rv-demo/web/rv/fontawesome/js/fontawesome.js:686-690 | reading the attributes of an opening tag gives names and values back in order, for any values |
| Html.NormalizeKeepsHtml | rv-demo/web/rv/fontawesome/js/fontawesome.js:1312-1324 | merging adjacent and dropping empty texts does not change the output |
| Html.NormalRoundTrip | rv-demo/web/rv/fontawesome/js/fontawesome.js:1312-1324 | reading the output of any normal well-formed nodes, whatever may follow, gives them back and stops there |
| Html.HtmlRoundTrip | rv-demo/web/rv/fontawesome/js/fontawesome.js:1312-1324 | reading what toHtml prints gives every well-formed tree back, up to that normal form |
| Html.HtmlIsUnambiguous | rv-demo/web/rv/fontawesome/js/fontawesome.js:1312-1324 | two well-formed trees print the same if and only if their normal forms are equal |
| IconClasses.GetIconNameInverts | rv-demo/web/rv/fontawesome/js/fontawesome.js:672-682 | a class is read as a name if and only if it is a hyphen-free prefix, a hyphen and that name, non-empty and not reserved |
| IconClasses.WidthIsReserved | rv-demo/web/rv/fontawesome/js/fontawesome.js:207-220 | the reserved width names are w-1 to w-20 |
| IconClasses.ReservedNames | rv-demo/web/rv/fontawesome/js/fontawesome.js:207-220 | the reserved names, spelled out one by one |
| IconClasses.CanonicalizeByRole | rv-demo/web/rv/fontawesome/js/fontawesome.js:1283-1301 | what a class does to the icon depends on its role only: style prefix, icon name, dropped or rest; an icon class after fa gives the name and the prefix of its shim, each if it has one that is not empty, and its own name and the prefix found otherwise |
| IconClasses.RestInOrder | rv-demo/web/rv/fontawesome/js/fontawesome.js:1283-1301 | the rest is the in-order subsequence of the classes with no other role |
| IconClasses.RolesConserve | rv-demo/web/rv/fontawesome/js/fontawesome.js:1283-1301 | style prefixes, icon names, dropped classes and rest are together all classes, none lost or doubled |
| IconClasses.LastIconClassNames | rv-demo/web/rv/fontawesome/js/fontawesome.js:1283-1301 | the last icon class names the icon: by the name in its shim, if the prefix was fa and the shim has one that is not empty, and by its own otherwise |
| IconClasses.OldNameIsReplaced | rv-demo/web/rv/fontawesome/js/fontawesome.js:1290-1296 | the class of a name, last of the icon classes and of the style classes, gives name and prefix: after fa those of the shim for that name, each where present and not empty, in all other cases the name itself and the prefix found |
| IconClasses.PrefixIsRead | rv-demo/web/rv/fontawesome/js/fontawesome.js:1286-1290 | a class sets the prefix if it is that of a pack or, with autoFetchSvg, one of fas, far, fal, fad, fab and fa; any other leaves a prefix that is not fa |
| IconClasses.DistinctGrows | rv-demo/web/rv/fontawesome/js/fontawesome.js:663-671 | a classList keeps the first occurrence of each class |
| IconClasses.LastStyleClassIsPrefix | rv-demo/web/rv/fontawesome/js/fontawesome.js:1283-1301 | the last style class is the prefix, unless it is fa and an icon class follows |
| IconClasses.WithoutStyle | rv-demo/web/rv/fontawesome/js/fontawesome.js:1283-1301 | without a style class no prefix is found and no old name is looked up |
| IconClasses.RestIsExtra | rv-demo/web/rv/fontawesome/js/fontawesome.js:663-671 | classes left over by a reading are non-empty, have no space and no role, and are distinct when a classList was read |
| IconClasses.HeadWritten | rv-demo/web/rv/fontawesome/js/fontawesome.js:951-955 | the class attribute of a rendered icon is read back as its own classes followed by the extra ones |
| IconClasses.EmptyNameWritten | rv-demo/web/rv/fontawesome/js/fontawesome.js:951-955 | an empty icon name writes what a missing one does |
| IconClasses.RenderedReads | rv-demo/web/rv/fontawesome/js/fontawesome.js:951-965 | reading the classes of a rendered icon gives the same name, no prefix and the same rest in order if and only if the name is not reserved and the width is 1 to 20 or the name is that of the width class itself |
| IconClasses.WideIconIsMisread | rv-demo/web/rv/fontawesome/js/fontawesome.js:951-965 | an icon of width class fa-w-24 is read back under the name w-24 |
| FormStruct.TypeOf | rv-core/src/com/ravencloud/core/iu/TypeElementView.java:26-61 | a token has a type exactly when some type is registered under it |
| FormStruct.FindIsLeftmost | rv-core/src/com/ravencloud/core/iu/ViewUtils.java:234-246 | the match is the leftmost place where a token is followed by a word character, and there is none if no place is |
| FormStruct.TokensIsTrimmedSplit | rv-core/src/com/ravencloud/core/iu/ViewUtils.java:211-226 | the scanner returns every part between delimiters but an empty first and an empty last one |
| FormStruct.EntryRoundTrip | rv-core/src/com/ravencloud/core/iu/ViewUtils.java:242-262 | a printed element is parsed as its type, name and size, the default size when it has none, and fails if its attribute is not declared |
| FormStruct.ElementIsRead | rv-core/src/com/ravencloud/core/iu/ViewUtils.java:234-260 | for names spelled with the letters a to z and A to Z, digits and the underscore: $name(digits is the attribute, @name(digits the action of that name and size, whatever follows, 12 being the size without digits, and a size above 2147483647 fails |
| Strings.ValueByPlace | rv-core/src/com/ravencloud/core/iu/ViewUtils.java:255 | a size is read by place in the digits 0 to 9 |
| FormStruct.WhatFails | rv-core/src/com/ravencloud/core/iu/ViewUtils.java:246-257 | a printed element fails exactly on the token #, on an attribute the view class does not declare, or on a size above the int range, in this order |
| FormStruct.RoundTrip | rv-core/src/com/ravencloud/core/iu/ViewUtils.java:204-262 | parsing any printed layout gives its rows, elements, names and sizes in order, without an empty first and an empty last row, unless an attribute is not declared or a list is null |
| FormStruct.RoundTripIsExact | rv-core/src/com/ravencloud/core/iu/ViewUtils.java:204-262 | the layout comes back whole if and only if it has a row, every row has an element, and its attributes are declared |
| FormStruct.EmptyRows | rv-core/src/com/ravencloud/core/iu/ViewUtils.java:211-231 | of the empty rows the scanner drops a single first and a single last one; any other, or a layout of empty rows only, throws |
| FormStruct.WhenListIsNull | rv-core/src/com/ravencloud/core/iu/builder/AbstractGroupElementViewBuilder.java:25-47 | for every struct, the null list of a builder is what stops it if and only if all its lines parse and it has no line, or one without an element |
| FormStruct.GetView | rv-core/src/com/ravencloud/core/iu/model/FormView.java:46 | the loops of getView throw on the null list of the form or of a row, and show every row otherwise |
| FormStruct.TypeElementViews.GetMapToken | rv-core/src/com/ravencloud/core/iu/TypeElementView.java:43-56 | the map is filled on the first call and kept, and holds every type under its token |
| FormStruct.TypeElementViews.GetType | rv-core/src/com/ravencloud/core/iu/TypeElementView.java:58-61 | looks the token up in the map |
| FormStruct.AddElement | rv-core/src/com/ravencloud/core/iu/ViewUtils.java:242-262 | adds the parsed element to the builder, nothing without a match, and stops with the error |
| FormStruct.AddLine | rv-core/src/com/ravencloud/core/iu/ViewUtils.java:217-226 | the inner loop adds the elements of a line in order, up to the first error |
| FormStruct.CreateForm | rv-core/src/com/ravencloud/core/iu/ViewUtils.java:204-232 | the nested loops over scanners and builders, and getView after them, compute the parse that the round trips are about |
| BlockUi.RunKeeps | rv-demo/web/rv/js/jquery.blockUI.js:248-560 | over every run: while the target is not blocked every layer belongs to the latest removal, whose open fades are all running; flag and pageBlock agree on the page |
| BlockUi.NoLayerRemains | rv-demo/web/rv/js/jquery.blockUI.js:455-511 | not blocked and the latest fades over: no layer is left, however many earlier calls overlapped fades |
| BlockUi.LastUnblockClears | rv-demo/web/rv/js/jquery.blockUI.js:455-511 | the same once the last call is an unblock, whatever timers and fades still run after it |
| BlockUi.LateFadesAreHarmless | rv-demo/web/rv/js/jquery.blockUI.js:492-505 | fades that end while the target is blocked again change nothing but themselves |
| BlockUi.RunExclusive | rv-demo/web/rv/js/jquery.blockUI.js:430-560 | over every run with events bound: the flag is set if and only if pageBlock is, at most one handler is bound and at most one timer armed, only while blocked |
| BlockUi.BlockShows | rv-demo/web/rv/js/jquery.blockUI.js:76-98 | a block call that is not ignored shows three new layers, binds a handler on a page with an overlay and arms a timer if asked to; re-blocking never stacks layers |
| BlockUi.UnblockReleases | rv-demo/web/rv/js/jquery.blockUI.js:455-500 | in every run an unblock call leaves the target unblocked, with no handler, no timer, no pageBlock and no layer, or all its layers in the running fade |
| BlockUi.TimerUnblocks | rv-demo/web/rv/js/jquery.blockUI.js:442-452 | in every run an armed timer that fires leaves what an unblock call does, and one that is not armed changes nothing |
| BlockUi.BlockIsIgnored | rv-demo/web/rv/js/jquery.blockUI.js:248-253 | a block call with ignoreIfBlocked changes nothing while the target is blocked |
| BlockUi.FadesClear | rv-demo/web/rv/js/jquery.blockUI.js:490-511 | in every run, once the target is not blocked and the fades of its latest removal have ended in any order, no layer is left |
| BlockUi.HandlersGone | rv-demo/web/rv/js/jquery.blockUI.js:455-554 | in every run an unblock call leaves no handler if and only if there was none, or the page was blocked and bindEvents is on |
| BlockUi.HandlerCanLeak | rv-demo/web/rv/js/jquery.blockUI.js:536-554 | with bindEvents off an unblock call leaves the handler of the block call bound, and blocking again makes two |
| BlockUi.LeakedHandlersStack | rv-demo/web/rv/js/jquery.blockUI.js:536-554 | in every run of the page that is not blocked, block, unblock with bindEvents off, and block add two handlers, so one at most does not hold |
| BlockUi.Plugin.constructor | rv-demo/web/rv/js/jquery.blockUI.js:245-246 | nothing blocked, no layer, no handler, no timer |
| BlockUi.Plugin.BindEvents | rv-demo/web/rv/js/jquery.blockUI.js:536-554 | the flag and the handlers follow the early returns of bind |
| BlockUi.Plugin.ResetLayers | rv-demo/web/rv/js/jquery.blockUI.js:502-511 | removes the layers unless the target is blocked |
| BlockUi.Plugin.Unblock | rv-demo/web/rv/js/jquery.blockUI.js:455-500 | clears the timer, unbinds, clears pageBlock, then resets or starts the fades |
| BlockUi.Plugin.ShowLayers | rv-demo/web/rv/js/jquery.blockUI.js:279-453 | adds the layers, binds, records pageBlock and the timer |
| BlockUi.Plugin.InstallLayers | rv-demo/web/rv/js/jquery.blockUI.js:248-453 | ignores, or removes the page's current block and shows the new one |
| BlockUi.Plugin.BlockTarget | rv-demo/web/rv/js/jquery.blockUI.js:76-98 | an element is first unblocked without a fade, unless the call is ignored |
| BlockUi.Plugin.LayerFaded | rv-demo/web/rv/js/jquery.blockUI.js:490-498 | counts the fade and resets on the last one |
| BlockUi.Plugin.TimerFired | rv-demo/web/rv/js/jquery.blockUI.js:442-452 | unblocks with the options of the block call |
| ScrollListeners.GetScrollParent | rv-demo/web/rv/js/popper/popper-utils.js:62-75 | on every finite tree the walk ends, at the body or at a scrolling ancestor below the root nodes |
| ScrollListeners.ScrollsIs | rv-demo/web/rv/js/popper/popper-utils.js:68-72 | an element scrolls if and only if its overflow text has auto or scroll in it at any place |
| ScrollListeners.ScrollParentIsNearest | rv-demo/web/rv/js/popper/popper-utils.js:46-75 | the scroll parent is the first node with such a text on the way up over parents and hosts, below HTML, BODY and #document, and the body if the way ends without one |
| ScrollListeners.TargetsAreScrollingAncestors | rv-demo/web/rv/js/popper/popper-utils.js:932-941 | the scroll listener goes to the window and to exactly the scrolling ancestors |
| ScrollListeners.TargetsOnTheWay | rv-demo/web/rv/js/popper/popper-utils.js:932-941 | told without the functions of the code: the window, then outermost first exactly the nodes with such a text on the way up |
| ScrollListeners.EnableListens | rv-demo/web/rv/js/popper/popper.js:919-923 | at any point of any run enabling listens for resize on the window and for scroll on exactly these targets, and records callback, targets and scroll parent |
| ScrollListeners.EnableAndDisable | rv-demo/web/rv/js/popper/popper.js:919-960 | enabling or disabling again changes nothing, and disabling clears the state |
| ScrollListeners.TearDownUndoesSetUp | rv-demo/web/rv/js/popper/popper-utils.js:845-961 | tear-down after set-up restores every target's listeners, in order, if and only if the callback listened on none of the targets before |
| ScrollListeners.StepKeeps | rv-demo/web/rv/js/popper/popper.js:919-960 | enabling, disabling and changes by others keep: the callback listens exactly while enabled, on the recorded targets |
| ScrollListeners.RunKeeps | rv-demo/web/rv/js/popper/popper.js:919-960 | over every run, while the page changes at will, the listeners of others are those there would be without Popper, and once disabled nothing but them is left |
| ScrollListeners.RunDistinct | rv-demo/web/rv/js/popper/popper.js:919-960 | over every run no target has the same listener twice |
| ScrollListeners.Popper.AttachToScrollParents | rv-demo/web/rv/js/popper/popper-utils.js:932-941 | the recursion adds one listener at each target and pushes the targets, the window first |
| ScrollListeners.Popper.SetupEventListeners | rv-demo/web/rv/js/popper/popper-utils.js:949-961 | resize on the window, scroll on the targets, and the whole state |
| ScrollListeners.Popper.RemoveEventListeners | rv-demo/web/rv/js/popper/popper-utils.js:845-860 | the loop takes every recorded listener off and resets the state |
| ScrollListeners.Popper.EnableEventListeners | rv-demo/web/rv/js/popper/popper.js:919-923 | sets up unless enabled |
| ScrollListeners.Popper.DisableEventListeners | rv-demo/web/rv/js/popper/popper.js:955-960 | tears down if enabled |

## Left out

- MD5 of 2^28 bytes or more: the code's signed length shifts and missing high length word differ from the RFC there.
- Strings above one byte per character in MD5: only the low bytes count, as the code's comment says; the UTF-8 encoding step is not modelled.
- Native `Promise`, and Node's unhandledRejection and rejectionHandled events: the model is the fallback `P` outside Node.
- PromiseEngine.Engine.HandleThenable: a getter of `then` throws or returns; one that itself calls the engine is not modelled.
- `P.race`, `P.resolve` and `P.reject`: thin wrappers over the same resolvers.
- PromiseEngine.Engine.All: entries with a foreign `then`, which the loop would call; entries are promises of this engine or values without a `then`.
- Foreign thenables that never call back: what they adopt stays pending; the theorems on adoption are about promises of the engine.
- PromiseOutcomes.ChildFollowsOwner: only for outcomes that are no thenables, because invokeCallback hands rejection reasons to handleThenable too.
- Properties that every JavaScript object inherits, and the order of integer-like keys: tables hold own string keys in insertion order.
- Icon path data, the tables of icons and shims, and toHex: icons are records, a shim list is an arbitrary sequence, the hexadecimal text is a parameter.
- library.reset, which only forgets the recorded definitions.
- Html: characters are Unicode scalar values, not UTF-16 code units; tag and attribute names are assumed safe.
- IconClasses: class lists are separated by single spaces, not by tabs or line ends; the width class is given by its number, not by the division; the existing data attributes and ligature text that classParser may prefer are not modelled.
- IconClasses.RenderedReads: for packs whose prefixes have no hyphen.
- DOM rendering, CSS, animation timing and messages in blockUI: layers, handlers, timers and fades are events and sets; restoring a message node and the onBlock and onUnblock callbacks are not modelled.
- Form builders by reflection: which view class a type stands for, stereotypes and annotations; the declared attributes are a set of names.
- FormStruct.Scanner: java.util.Scanner is not part of the repository; it is modelled for one-character delimiters.
- Popper geometry and computed styles: a node's overflow text is given; the window's body exists.
- brands.js, the archetype copies of the scripts, page assembly, REST and Tomcat start-up: repeated code or thin wrappers.
