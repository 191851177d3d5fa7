# ThreadedRenderer animation and error hand-off bridge, in Dafny

This project models the part of `core/jni/android_view_ThreadedRenderer.cpp` that moves work between the UI thread and the render thread. It also proves properties of that model.

- **`RootRenderNode`** keeps a queue of animating render nodes that have been attached but not yet handed over. At frame start it hands every queued node, in order, to an animation context and then empties the queue. It also acts as the error handler for a tree walk: every error is posted to the UI thread's looper as a `RenderingException`, and nothing is raised inline.
- **`AnimationContextBridge`** extends the base `AnimationContext`:
  - `startFrame` drains the root's queue before the base frame start.
  - `callOnFinished` collects finished-animation events into a batch.
  - `runRemainingAnimations` moves a non-empty batch into one `InvokeAnimationListeners` handler by `swap` and posts it.
- **`InvokeAnimationListeners`** notifies each event's listener in batch order and then empties its batch. **`RenderingException`** raises its stored message on the UI thread as a `java/lang/IllegalStateException`.
- **`ContextFactoryImpl`** builds bridges that all share one root.

The model is imperative, like the C++ code. Each C++ object whose fields change is a Dafny class with `seq` fields. Its methods carry `modifies` clauses and state their entire new state. Three specification functions give the meaning of the loops:

- `AddCalls`: the base-context calls that draining a queue makes.
- `Notifications`: the listener calls that delivering a batch makes.
- `ErrorPostings`: the postings that reporting errors makes.

Lemmas prove what these functions promise: order, concatenation, and exactly-once counts with duplicates included.

`PrepareTree` resets `info.errorHandler` to null after the walk, as the code does. It does not restore a handler installed earlier.

External collaborators are modelled only as far as the bridge observes them:

- The looper (`Looper`) is a FIFO sequence of `Posting(handler, what)`: each entry is a handler posted for immediate delivery, with the `Message` code `what` it was sent with. One turn of the UI thread's run loop (`DispatchNext`) removes the oldest posting and runs it.
- The base `AnimationContext` records each call made on it in `calls`.
- The base `RenderNode::prepareTree` walk gets the errors it finds as a parameter (`walkErrors`). It reports them, in order, to the error handler installed in `TreeInfo`.
- The base `runRemainingAnimations` gets the animations that finish as a parameter. It reports each one through the bridge's `callOnFinished`.
- Animation listeners record the notifications they receive (`ListenerLog`).

C++ inheritance becomes composition: the bridge holds its base context in `base`. `std::vector<OnFinishedEvent>` becomes the class `EventVector`, so the handler constructor's `swap` is a real exchange between two objects.

`scenario.dfy` is a client that runs two frames. It has an error in the first tree walk, post-frame batches that are not yet delivered, and then the UI thread's run loop draining everything. It proves the resulting base-call trace, the dispatch outcomes and the notification order from the contracts alone.

## Model

| member | source | states |
|---|---|---|
| ThreadedRenderer.Notifications | core/jni/android_view_ThreadedRenderer.cpp:74-81 | delivering a batch makes one notification per event, and the k-th is `onAnimationFinished(animator)` on the k-th event's listener |
| ThreadedRenderer.NotificationsAppend | core/jni/android_view_ThreadedRenderer.cpp:78-81 | delivering batch a and then batch b notifies in the order of a + b (FIFO across batches) |
| ThreadedRenderer.NotificationsExactlyOnce | core/jni/android_view_ThreadedRenderer.cpp:78-81 | every event of a batch is notified exactly as many times as it occurs in the batch |
| ThreadedRenderer.AddCalls | core/jni/android_view_ThreadedRenderer.cpp:137-141 | draining a queue makes one `addAnimatingRenderNode` call per queued node, and the k-th call gets the k-th node |
| ThreadedRenderer.AddCallsAppend | core/jni/android_view_ThreadedRenderer.cpp:137-141 | draining the queue a + b makes a's calls followed by b's calls |
| ThreadedRenderer.AddCallsCount | core/jni/android_view_ThreadedRenderer.cpp:137-143 | draining adds each node exactly as often as it is queued (duplicates included) and makes no frame-start or run call |
| ThreadedRenderer.ErrorPostings | core/jni/android_view_ThreadedRenderer.cpp:119-121 | reporting a list of errors posts one `RenderingException` per error, in order, each carrying exactly its message, for immediate delivery with message code 0 |
| ThreadedRenderer.ErrorPostingsAppend | core/jni/android_view_ThreadedRenderer.cpp:119-121 | reporting the errors a + b posts a's exceptions followed by b's |
| ThreadedRenderer.AnimationContext.AddAnimatingRenderNode | core/jni/android_view_ThreadedRenderer.cpp:140 | the base context records exactly one add call for the given node |
| ThreadedRenderer.AnimationContext.StartFrame | core/jni/android_view_ThreadedRenderer.cpp:163 | the base frame start is recorded once |
| ThreadedRenderer.AnimationContext.RunRemainingAnimations | core/jni/android_view_ThreadedRenderer.cpp:168 | the base run of the remaining animations is recorded once |
| ThreadedRenderer.ListenerLog.OnAnimationFinished | core/jni/android_view_ThreadedRenderer.cpp:75 | a listener notification is recorded once, at the end, with its listener and animator |
| ThreadedRenderer.Notify | core/jni/android_view_ThreadedRenderer.cpp:75 | the notification names the event's listener and animator, and no other event gives the same notification |
| ThreadedRenderer.AnimationContext.constructor | core/jni/android_view_ThreadedRenderer.cpp:154 | the base context is built on the given clock, with no calls made on it yet |
| ThreadedRenderer.EventVector.PushBack | core/jni/android_view_ThreadedRenderer.cpp:179 | appends exactly the given event at the end; earlier events keep their order |
| ThreadedRenderer.EventVector.Clear | core/jni/android_view_ThreadedRenderer.cpp:80 | leaves the vector empty |
| ThreadedRenderer.EventVector.Swap | core/jni/android_view_ThreadedRenderer.cpp:71 | the two vectors exchange their entire contents |
| ThreadedRenderer.InvokeAnimationListeners.constructor | core/jni/android_view_ThreadedRenderer.cpp:70-72 | the new handler owns a fresh vector holding the whole given batch in order, and the given vector is left empty |
| ThreadedRenderer.InvokeAnimationListeners.CallOnFinished | core/jni/android_view_ThreadedRenderer.cpp:74-76 | notifies the event's listener with the event's animator, once |
| ThreadedRenderer.InvokeAnimationListeners.HandleMessage | core/jni/android_view_ThreadedRenderer.cpp:78-81 | notifies each event's listener in batch order, once each, then leaves the batch empty |
| ThreadedRenderer.Looper.SendMessage | core/jni/android_view_ThreadedRenderer.cpp:120 | appends exactly one posting, for immediate delivery, with the given handler and message code at the end of the queue |
| ThreadedRenderer.Looper.DispatchNext | core/jni/android_view_ThreadedRenderer.cpp:78-101 | runs the oldest posting and removes it. An error raises `java/lang/IllegalStateException` with the stored message, taken as a whole character sequence. A batch is delivered in order and emptied. An empty queue does nothing |
| ThreadedRenderer.RootRenderNode.constructor | core/jni/android_view_ThreadedRenderer.cpp:110-115 | a root keeps the looper it was built with and starts with an empty pending queue |
| ThreadedRenderer.RootRenderNode.OnError | core/jni/android_view_ThreadedRenderer.cpp:119-121 | appends exactly one `RenderingException` carrying the exact message to the looper's queue, for immediate delivery with message code 0; raises nothing inline; the pending queue is unchanged |
| ThreadedRenderer.RootRenderNode.RenderNodePrepareTree | core/jni/android_view_ThreadedRenderer.cpp:125 | the base walk posts every error it finds, in order, through the installed error handler, and reports nothing when none is installed |
| ThreadedRenderer.RootRenderNode.PrepareTree | core/jni/android_view_ThreadedRenderer.cpp:123-127 | while the base walk runs, this root is the error handler, so every error of the walk reaches this root's looper in order; afterwards the handler is null; the pending queue is unchanged |
| ThreadedRenderer.RootRenderNode.SendMessage | core/jni/android_view_ThreadedRenderer.cpp:129-131 | appends exactly the given handler to the looper's queue, for immediate delivery with message code 0; runs nothing inline |
| ThreadedRenderer.RootRenderNode.AttachAnimatingNode | core/jni/android_view_ThreadedRenderer.cpp:133-135 | appends exactly the given node at the end of the pending queue; the earlier entries and the looper are unchanged |
| ThreadedRenderer.RootRenderNode.DoAttachAnimatingNodes | core/jni/android_view_ThreadedRenderer.cpp:137-143 | hands every pending node to the context in queue order, duplicates included, and leaves the queue empty; the looper is unchanged |
| ThreadedRenderer.NewRootRenderNode | core/jni/android_view_ThreadedRenderer.cpp:110-113 | building a root on a thread with no looper is fatal, and fails with the C++ constructor's message "Must create RootRenderNode on a thread with a looper!"; otherwise the result is a fresh root bound to that looper with an empty queue |
| ThreadedRenderer.AnimationContextBridge.constructor | core/jni/android_view_ThreadedRenderer.cpp:153-155 | a new bridge has a fresh base context on the given clock with no calls yet, an empty batch, and the given root |
| ThreadedRenderer.AnimationContextBridge.StartFrame | core/jni/android_view_ThreadedRenderer.cpp:161-164 | the base context gets one add call per pending node, in order, before the base frame start; afterwards the root's queue is empty and its looper is unchanged |
| ThreadedRenderer.AnimationContextBridge.CallOnFinished | core/jni/android_view_ThreadedRenderer.cpp:177-180 | appends exactly one event with the given animator and listener at the end of the batch; earlier events keep their order |
| ThreadedRenderer.AnimationContextBridge.BaseRunRemaining | core/jni/android_view_ThreadedRenderer.cpp:168 | the base run is recorded, and each animation that finishes is appended to the batch, in order, through `callOnFinished` |
| ThreadedRenderer.AnimationContextBridge.RunRemainingAnimations | core/jni/android_view_ThreadedRenderer.cpp:167-175 | posts exactly one message, for immediate delivery with message code 0, if and only if the batch is non-empty after the base run. That message is a fresh handler holding the whole batch in order. Earlier postings are untouched. The bridge's batch is empty afterwards either way |
| ThreadedRenderer.ContextFactoryImpl.constructor | core/jni/android_view_ThreadedRenderer.cpp:189 | the factory keeps the given root |
| ThreadedRenderer.ContextFactoryImpl.CreateAnimationContext | core/jni/android_view_ThreadedRenderer.cpp:191-193 | every call returns a fresh, independent bridge on the given clock with an empty batch, sharing the factory's root |
| ThreadedRendererScenario.RenderTwoFrames | core/jni/android_view_ThreadedRenderer.cpp:161-175 | over two frames the base trace is: add R1, add R2, start, run, start, run. The second frame drains nothing. The looper holds the walk's error and then one distinct batch per frame |
| ThreadedRendererScenario.DrainUiLooper | core/jni/android_view_ThreadedRenderer.cpp:78-81 | the UI run loop raises the error first, then delivers frame 1's batch before frame 2's, and then is idle |
| ThreadedRendererScenario.TwoFrames | core/jni/android_view_ThreadedRenderer.cpp:119-180 | the whole two-frame session gives the exact base trace, the dispatch outcomes and the listener order L1, L2, L3 |
| ThreadedRendererScenario.DeliverTwice | core/jni/android_view_ThreadedRenderer.cpp:78-81 | a listener handler run twice notifies the batch once and then nobody |

## Left out

- The JNI entry points, the registration table and the shader disk cache are left out. They forward to `RenderProxy`, EGL and file paths, which are not part of this model.
- The real exception throw is left out: `getenv`, `jniThrowException` and the `JavaVM` pointer `mVm` are foreign JNI calls. Raising is modelled as the value `Thrown("java/lang/IllegalStateException", message)` that `Looper.DispatchNext` returns. The fatal path of `getenv` is not modelled. The model also does not capture what the pending Java exception that `jniThrowException` leaves behind does to the rest of that run-loop turn, to later dispatches, or to the Java caller: `Looper.DispatchNext` returns `Raised` and the run loop simply carries on, so `DrainUiLooper` delivers later batches after an error.
- Threads, locks and the real `Looper` are left out. The source has no lock. The two threads are modelled as interleaved sequential calls. Both `onError` and `sendMessage` post through `Looper::sendMessage` with message code 0, for immediate delivery. The looper is modelled as a FIFO queue of such postings. Its time-ordered delayed delivery (`sendMessageDelayed`) is not used by this code and is not modelled.
- `sp<>` reference counting and `incStrong` are left out. An animator, a listener or a render node is an identity value.
- The internals of the base `AnimationContext` and `RenderNode` are left out. Their calls are recorded in a trace. Which animations finish, and which errors a tree walk finds, are parameters (`finished`, `walkErrors`).
- The `TreeInfo` argument of `runRemainingAnimations` and the `Message` argument of `handleMessage` are not modelled, because the bridge does not read them.
- `ThreadedRenderer.Looper.DispatchNext` raises the stored message as a whole Dafny `string`, a sequence of characters. `throwException` passes `message.c_str()`, which JNI reads only up to the first NUL byte and decodes from bytes. A message with an embedded NUL is cut short there by the C++ code but raised in full by the model. The byte-to-character decoding is not modelled either.
- `ThreadedRenderer.RootRenderNode.constructor` takes a non-null `Looper`. The null case, which the C++ constructor kills with `LOG_ALWAYS_FATAL_IF`, is modelled by `NewRootRenderNode`, which returns `Fatal`.
