/*
 * A model of the animation and error hand-off bridge between the UI thread
 * and the render thread: the root render node's pending queue of animating
 * nodes and its error sink, the animation context bridge that drains that
 * queue at frame start and batches finished-animation events, the two kinds
 * of message handler posted to the UI thread's looper, and the factory that
 * builds bridges.
 *
 * External collaborators are reduced to what the bridge observes of them:
 *  - the looper is a FIFO sequence of postings;
 *  - the base animation context records the calls made on it;
 *  - the base tree walk reports the errors it finds through the error handler;
 *  - animation listeners record the notifications they receive.
 */
module ThreadedRenderer {

  // ---------------------------------------------------------------------
  // Identities of objects owned by code outside the bridge
  // ---------------------------------------------------------------------

  /** A render node of the scene graph (an `sp<RenderNode>` in the pending queue). */
  datatype RenderNode = RenderNode(id: nat)

  /** A render-node animator. */
  datatype Animator = Animator(id: nat)

  /** An animation listener. */
  datatype Listener = Listener(id: nat)

  /** The render thread's frame clock. */
  datatype TimeLord = TimeLord(id: nat)

  /** One finished animation: its animator and the listener to notify. */
  datatype OnFinishedEvent = OnFinishedEvent(animator: Animator, listener: Listener)

  /** One call `listener->onAnimationFinished(animator)`. */
  datatype Notification = Notified(listener: Listener, animator: Animator)

  /**
   * The notification that delivering `event` makes. It names the event's
   * listener and animator, so no other event gives the same notification.
   */
  function Notify(event: OnFinishedEvent): (n: Notification)
    ensures n.listener == event.listener && n.animator == event.animator
    ensures forall e: OnFinishedEvent :: Notified(e.listener, e.animator) == n ==> e == event
  {
    Notified(event.listener, event.animator)
  }

  /** The notifications that delivering a batch makes, one per event, in batch order. */
  function Notifications(events: seq<OnFinishedEvent>): (r: seq<Notification>)
    ensures |r| == |events|
    ensures forall k :: 0 <= k < |events| ==>
              r[k] == Notify(events[k])
  {
    if events == [] then [] else [Notify(events[0])] + Notifications(events[1..])
  }

  /** Delivering two batches one after the other notifies in the order of their concatenation. */
  lemma NotificationsAppend(a: seq<OnFinishedEvent>, b: seq<OnFinishedEvent>)
    ensures Notifications(a + b) == Notifications(a) + Notifications(b)
  {
  }

  /** Every event of a batch is notified exactly as often as it occurs in the batch. */
  lemma {:induction false} NotificationsExactlyOnce(events: seq<OnFinishedEvent>, e: OnFinishedEvent)
    ensures multiset(Notifications(events))[Notify(e)] == multiset(events)[e]
  {
    if events != [] {
      NotificationsExactlyOnce(events[1..], e);
      assert events == [events[0]] + events[1..];
    }
  }

  // ---------------------------------------------------------------------
  // The base animation context, observed through the calls made on it
  // ---------------------------------------------------------------------

  /** A call on the base `AnimationContext`. */
  datatype ContextCall =
    | BaseAddAnimatingRenderNode(node: RenderNode)
    | BaseStartFrame
    | BaseRunRemainingAnimations

  /** The calls that handing `nodes` to a context makes, one per node, in order. */
  function AddCalls(nodes: seq<RenderNode>): (r: seq<ContextCall>)
    ensures |r| == |nodes|
    ensures forall k :: 0 <= k < |nodes| ==> r[k] == BaseAddAnimatingRenderNode(nodes[k])
  {
    if nodes == [] then [] else [BaseAddAnimatingRenderNode(nodes[0])] + AddCalls(nodes[1..])
  }

  /** Draining a + b makes a's calls followed by b's; it follows from the element-wise contract of AddCalls. */
  lemma AddCallsAppend(a: seq<RenderNode>, b: seq<RenderNode>)
    ensures AddCalls(a + b) == AddCalls(a) + AddCalls(b)
  {
  }

  /**
   * Handing `nodes` to a context adds each node exactly as often as it occurs
   * in `nodes` (duplicates included) and makes no other kind of call.
   */
  lemma {:induction false} AddCallsCount(nodes: seq<RenderNode>, n: RenderNode)
    ensures multiset(AddCalls(nodes))[BaseAddAnimatingRenderNode(n)] == multiset(nodes)[n]
    ensures multiset(AddCalls(nodes))[BaseStartFrame] == 0
    ensures multiset(AddCalls(nodes))[BaseRunRemainingAnimations] == 0
  {
    if nodes != [] {
      AddCallsCount(nodes[1..], n);
      assert nodes == [nodes[0]] + nodes[1..];
    }
  }

  class AnimationContext {
    const clock: TimeLord
    /** Every call made on this context, oldest first. */
    var calls: seq<ContextCall>

    constructor (clock: TimeLord)
      ensures this.clock == clock && calls == []
    {
      this.clock := clock;
      calls := [];
    }

    method AddAnimatingRenderNode(node: RenderNode)
      modifies this
      ensures calls == old(calls) + [BaseAddAnimatingRenderNode(node)]
    {
      calls := calls + [BaseAddAnimatingRenderNode(node)];
    }

    /** Frame-time update and promotion of next-frame animations. */
    method StartFrame()
      modifies this
      ensures calls == old(calls) + [BaseStartFrame]
    {
      calls := calls + [BaseStartFrame];
    }

    /** Runs the animations still left in the current frame. */
    method RunRemainingAnimations()
      modifies this
      ensures calls == old(calls) + [BaseRunRemainingAnimations]
    {
      calls := calls + [BaseRunRemainingAnimations];
    }
  }

  // ---------------------------------------------------------------------
  // Message handlers and the UI thread's looper
  // ---------------------------------------------------------------------

  /** The Java exception class a reported rendering error is raised as. */
  const IllegalStateException: string := "java/lang/IllegalStateException"

  /** The message every root render node built without a looper dies with. */
  const NoLooperMessage: string := "Must create RootRenderNode on a thread with a looper!"

  /** An exception raised on the UI thread. */
  datatype Thrown = Thrown(className: string, message: string)

  /** A handler that raises a rendering error on the UI thread; it keeps only the message. */
  datatype RenderingException = RenderingException(message: string)

  /** The handlers posted to the looper by this bridge. */
  datatype Handler =
    | ListenerBatch(invoker: InvokeAnimationListeners)
    | Failure(exception: RenderingException)

  /**
   * A handler in the looper's queue for immediate delivery, with the
   * `Message` code it was sent with; the handler receives that code.
   */
  datatype Posting = Posting(handler: Handler, what: int)

  /** The postings that reporting `messages` through `onError` makes, one per message, in order. */
  function ErrorPostings(messages: seq<string>): (r: seq<Posting>)
    ensures |r| == |messages|
    ensures forall k :: 0 <= k < |messages| ==>
              r[k] == Posting(Failure(RenderingException(messages[k])), 0)
  {
    if messages == [] then []
    else [Posting(Failure(RenderingException(messages[0])), 0)] + ErrorPostings(messages[1..])
  }

  /** Reporting a + b posts a's exceptions followed by b's. */
  lemma ErrorPostingsAppend(a: seq<string>, b: seq<string>)
    ensures ErrorPostings(a + b) == ErrorPostings(a) + ErrorPostings(b)
  {
  }

  /** The objects that running `h` changes. */
  function HandlerFootprint(h: Handler): (objs: set<object>)
  {
    if h.ListenerBatch? then {h.invoker.onFinishedEvents} else {}
  }

  /** The animation listeners, observed through the notifications they receive. */
  class ListenerLog {
    var notified: seq<Notification>

    constructor ()
      ensures notified == []
    {
      notified := [];
    }

    method OnAnimationFinished(listener: Listener, animator: Animator)
      modifies this
      ensures notified == old(notified) + [Notified(listener, animator)]
    {
      notified := notified + [Notified(listener, animator)];
    }
  }

  /** A `std::vector<OnFinishedEvent>`. */
  class EventVector {
    var items: seq<OnFinishedEvent>

    constructor ()
      ensures items == []
    {
      items := [];
    }

    method PushBack(event: OnFinishedEvent)
      modifies this
      ensures items == old(items) + [event]
    {
      items := items + [event];
    }

    /** Exchanges the contents of the two vectors. */
    method Swap(other: EventVector)
      modifies this, other
      ensures items == old(other.items) && other.items == old(items)
    {
      var mine := items;
      items := other.items;
      other.items := mine;
    }

    method Clear()
      modifies this
      ensures items == []
    {
      items := [];
    }
  }

  /** The handler that delivers one batch of finished-animation events on the UI thread. */
  class InvokeAnimationListeners {
    const onFinishedEvents: EventVector

    /** Takes the whole batch out of `events` by swapping it with a fresh empty vector. */
    constructor (events: EventVector)
      modifies events
      ensures fresh(onFinishedEvents)
      ensures onFinishedEvents.items == old(events.items)
      ensures events.items == []
    {
      onFinishedEvents := new EventVector();
      new;
      onFinishedEvents.Swap(events);
    }

    static method CallOnFinished(event: OnFinishedEvent, log: ListenerLog)
      modifies log
      ensures log.notified == old(log.notified) + [Notify(event)]
    {
      log.OnAnimationFinished(event.listener, event.animator);
    }

    /** Notifies every event's listener in batch order, then empties the batch. */
    method HandleMessage(log: ListenerLog)
      modifies onFinishedEvents, log
      ensures log.notified == old(log.notified) + Notifications(old(onFinishedEvents.items))
      ensures onFinishedEvents.items == []
    {
      var i := 0;
      while i < |onFinishedEvents.items|
        invariant 0 <= i <= |onFinishedEvents.items|
        invariant onFinishedEvents.items == old(onFinishedEvents.items)
        invariant log.notified == old(log.notified) + Notifications(onFinishedEvents.items[..i])
      {
        CallOnFinished(onFinishedEvents.items[i], log);
        assert onFinishedEvents.items[..i + 1] == onFinishedEvents.items[..i] + [onFinishedEvents.items[i]];
        NotificationsAppend(onFinishedEvents.items[..i], [onFinishedEvents.items[i]]);
        i := i + 1;
      }
      assert onFinishedEvents.items[..i] == onFinishedEvents.items;
      onFinishedEvents.Clear();
    }
  }

  /** What one turn of the UI thread's run loop did. */
  datatype Dispatch =
    | Idle
    | Delivered(count: nat)
    | Raised(thrown: Thrown)

  /** The UI thread's looper: a FIFO queue of postings. */
  class Looper {
    var queue: seq<Posting>

    constructor ()
      ensures queue == []
    {
      queue := [];
    }

    /** Appends a posting at the end of the queue; nothing runs now. */
    method SendMessage(handler: Handler, what: int)
      modifies this
      ensures queue == old(queue) + [Posting(handler, what)]
    {
      queue := queue + [Posting(handler, what)];
    }

    /** One turn of the run loop: removes the oldest posting and runs its handler. */
    method DispatchNext(log: ListenerLog) returns (outcome: Dispatch)
      modifies this, log, if queue == [] then {} else HandlerFootprint(queue[0].handler)
      ensures old(queue) == [] ==>
                outcome == Idle && queue == [] && log.notified == old(log.notified)
      ensures old(queue) != [] ==> queue == old(queue)[1..]
      ensures old(queue) != [] && old(queue)[0].handler.Failure? ==>
                outcome == Raised(Thrown(IllegalStateException, old(queue)[0].handler.exception.message))
                && log.notified == old(log.notified)
      ensures old(queue) != [] && old(queue)[0].handler.ListenerBatch? ==>
                var batch := old(queue)[0].handler.invoker.onFinishedEvents;
                outcome == Delivered(|old(batch.items)|)
                && log.notified == old(log.notified) + Notifications(old(batch.items))
                && batch.items == []
    {
      if queue == [] {
        outcome := Idle;
        return;
      }
      var h := queue[0].handler;
      queue := queue[1..];
      match h
      case Failure(e) =>
        outcome := Raised(Thrown(IllegalStateException, e.message));
      case ListenerBatch(invoker) =>
        outcome := Delivered(|invoker.onFinishedEvents.items|);
        invoker.HandleMessage(log);
    }
  }

  // ---------------------------------------------------------------------
  // Tree preparation
  // ---------------------------------------------------------------------

  /** The per-walk state handed to every node a tree walk visits. */
  class TreeInfo {
    var errorHandler: RootRenderNode?

    constructor ()
      ensures errorHandler == null
    {
      errorHandler := null;
    }
  }

  // ---------------------------------------------------------------------
  // The root render node
  // ---------------------------------------------------------------------

  class RootRenderNode {
    /** The looper of the thread that built this root. */
    const looper: Looper
    /** Animating nodes waiting for the next frame start. */
    var pendingAnimatingRenderNodes: seq<RenderNode>

    constructor (threadLooper: Looper)
      ensures looper == threadLooper && pendingAnimatingRenderNodes == []
    {
      looper := threadLooper;
      pendingAnimatingRenderNodes := [];
    }

    /** Reports an error by posting a rendering exception carrying `message`; raises nothing now. */
    method OnError(message: string)
      modifies looper
      ensures looper.queue == old(looper.queue) + [Posting(Failure(RenderingException(message)), 0)]
    {
      looper.SendMessage(Failure(RenderingException(message)), 0);
    }

    /**
     * The base walk of the tree. It reports each error in `walkErrors`, in
     * order, to the error handler installed in `info`, and reports nothing
     * when none is installed.
     */
    method RenderNodePrepareTree(info: TreeInfo, walkErrors: seq<string>)
      modifies if info.errorHandler == null then {} else {info.errorHandler.looper}
      ensures info.errorHandler != null ==>
                info.errorHandler.looper.queue == old(info.errorHandler.looper.queue) + ErrorPostings(walkErrors)
    {
      var handler := info.errorHandler;
      if handler == null {
        return;
      }
      var i := 0;
      while i < |walkErrors|
        invariant 0 <= i <= |walkErrors|
        invariant handler.looper.queue == old(handler.looper.queue) + ErrorPostings(walkErrors[..i])
      {
        handler.OnError(walkErrors[i]);
        assert walkErrors[..i + 1] == walkErrors[..i] + [walkErrors[i]];
        ErrorPostingsAppend(walkErrors[..i], [walkErrors[i]]);
        i := i + 1;
      }
      assert walkErrors[..i] == walkErrors;
    }

    /**
     * Installs this root as the error handler for the base walk, so every
     * error the walk finds is posted to this root's looper, and resets the
     * handler to null afterwards.
     */
    method PrepareTree(info: TreeInfo, walkErrors: seq<string>)
      modifies info, looper
      ensures info.errorHandler == null
      ensures looper.queue == old(looper.queue) + ErrorPostings(walkErrors)
      ensures pendingAnimatingRenderNodes == old(pendingAnimatingRenderNodes)
    {
      info.errorHandler := this;
      RenderNodePrepareTree(info, walkErrors);
      info.errorHandler := null;
    }

    /** Posts `handler` to this root's looper for immediate delivery, with message code 0; runs nothing now. */
    method SendMessage(handler: Handler)
      modifies looper
      ensures looper.queue == old(looper.queue) + [Posting(handler, 0)]
    {
      looper.SendMessage(handler, 0);
    }

    /** Queues `node` for the next frame start. */
    method AttachAnimatingNode(node: RenderNode)
      modifies this
      ensures pendingAnimatingRenderNodes == old(pendingAnimatingRenderNodes) + [node]
      ensures unchanged(looper)
    {
      pendingAnimatingRenderNodes := pendingAnimatingRenderNodes + [node];
    }

    /** Hands every pending node, in queue order, to `context`, then empties the queue. */
    method DoAttachAnimatingNodes(context: AnimationContext)
      modifies this, context
      ensures context.calls == old(context.calls) + AddCalls(old(pendingAnimatingRenderNodes))
      ensures pendingAnimatingRenderNodes == []
      ensures unchanged(looper)
    {
      var i := 0;
      while i < |pendingAnimatingRenderNodes|
        invariant 0 <= i <= |pendingAnimatingRenderNodes|
        invariant pendingAnimatingRenderNodes == old(pendingAnimatingRenderNodes)
        invariant context.calls == old(context.calls) + AddCalls(pendingAnimatingRenderNodes[..i])
      {
        var node := pendingAnimatingRenderNodes[i];
        context.AddAnimatingRenderNode(node);
        assert pendingAnimatingRenderNodes[..i + 1] == pendingAnimatingRenderNodes[..i] + [node];
        AddCallsAppend(pendingAnimatingRenderNodes[..i], [node]);
        i := i + 1;
      }
      assert pendingAnimatingRenderNodes[..i] == pendingAnimatingRenderNodes;
      pendingAnimatingRenderNodes := [];
    }
  }

  /** The outcome of building a root render node on a thread. */
  datatype Creation = Created(root: RootRenderNode) | Fatal(reason: string)

  /** Builds a root on a thread whose looper is `threadLooper`; a thread without one is fatal. */
  method NewRootRenderNode(threadLooper: Looper?) returns (r: Creation)
    ensures threadLooper == null <==> r.Fatal?
    ensures r.Fatal? ==> r.reason == NoLooperMessage
    ensures r.Created? ==>
              fresh(r.root) && r.root.looper == threadLooper && r.root.pendingAnimatingRenderNodes == []
  {
    if threadLooper == null {
      return Fatal(NoLooperMessage);
    }
    var root := new RootRenderNode(threadLooper);
    return Created(root);
  }

  // ---------------------------------------------------------------------
  // The animation context bridge and its factory
  // ---------------------------------------------------------------------

  class AnimationContextBridge {
    /** The base animation context this bridge extends. */
    const base: AnimationContext
    const rootNode: RootRenderNode
    /** Finished-animation events of the current frame, not yet posted. */
    const onFinishedEvents: EventVector

    constructor (clock: TimeLord, rootNode: RootRenderNode)
      ensures fresh(base) && base.clock == clock && base.calls == []
      ensures fresh(onFinishedEvents) && onFinishedEvents.items == []
      ensures this.rootNode == rootNode
    {
      base := new AnimationContext(clock);
      this.rootNode := rootNode;
      onFinishedEvents := new EventVector();
    }

    /** Drains the root's pending queue into this context, then runs the base frame start. */
    method StartFrame()
      modifies rootNode, base
      ensures base.calls ==
                old(base.calls) + AddCalls(old(rootNode.pendingAnimatingRenderNodes)) + [BaseStartFrame]
      ensures rootNode.pendingAnimatingRenderNodes == []
      ensures unchanged(rootNode.looper)
    {
      rootNode.DoAttachAnimatingNodes(base);
      base.StartFrame();
    }

    /** Appends one event for `animator` and `listener` to the current batch. */
    method CallOnFinished(animator: Animator, listener: Listener)
      modifies onFinishedEvents
      ensures onFinishedEvents.items == old(onFinishedEvents.items) + [OnFinishedEvent(animator, listener)]
    {
      var event := OnFinishedEvent(animator, listener);
      onFinishedEvents.PushBack(event);
    }

    /**
     * The base run of the remaining animations: it reports each animation in
     * `finished`, in order, through this bridge's `CallOnFinished`.
     */
    method BaseRunRemaining(finished: seq<OnFinishedEvent>)
      modifies base, onFinishedEvents
      ensures base.calls == old(base.calls) + [BaseRunRemainingAnimations]
      ensures onFinishedEvents.items == old(onFinishedEvents.items) + finished
    {
      base.RunRemainingAnimations();
      var i := 0;
      while i < |finished|
        invariant 0 <= i <= |finished|
        invariant base.calls == old(base.calls) + [BaseRunRemainingAnimations]
        invariant onFinishedEvents.items == old(onFinishedEvents.items) + finished[..i]
      {
        CallOnFinished(finished[i].animator, finished[i].listener);
        assert finished[..i + 1] == finished[..i] + [finished[i]];
        i := i + 1;
      }
      assert finished[..i] == finished;
    }

    /**
     * Runs the base pass, then, if the batch is non-empty, moves the whole
     * batch into one fresh listener-invoking handler and posts it for
     * immediate delivery. Either way the bridge's batch is empty afterwards.
     */
    method RunRemainingAnimations(finished: seq<OnFinishedEvent>)
      modifies base, onFinishedEvents, rootNode.looper
      ensures base.calls == old(base.calls) + [BaseRunRemainingAnimations]
      ensures onFinishedEvents.items == []
      ensures var batch := old(onFinishedEvents.items) + finished;
              var before := old(rootNode.looper.queue);
              var after := rootNode.looper.queue;
              |after| == |before| + (if batch == [] then 0 else 1)
              && after[..|before|] == before
              && (batch != [] ==>
                    after[|before|].what == 0
                    && after[|before|].handler.ListenerBatch?
                    && fresh(after[|before|].handler.invoker)
                    && fresh(after[|before|].handler.invoker.onFinishedEvents)
                    && after[|before|].handler.invoker.onFinishedEvents.items == batch)
    {
      BaseRunRemaining(finished);
      if |onFinishedEvents.items| > 0 {
        var message := new InvokeAnimationListeners(onFinishedEvents);
        rootNode.SendMessage(ListenerBatch(message));
      }
    }
  }

  class ContextFactoryImpl {
    const rootNode: RootRenderNode

    constructor (rootNode: RootRenderNode)
      ensures this.rootNode == rootNode
    {
      this.rootNode := rootNode;
    }

    /** A new, independent bridge on `clock` that shares this factory's root. */
    method CreateAnimationContext(clock: TimeLord) returns (context: AnimationContextBridge)
      ensures fresh(context) && fresh(context.base) && fresh(context.onFinishedEvents)
      ensures context.rootNode == rootNode
      ensures context.base.clock == clock && context.base.calls == []
      ensures context.onFinishedEvents.items == []
    {
      context := new AnimationContextBridge(clock, rootNode);
    }
  }
}
