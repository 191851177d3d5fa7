/*
 * A client of the bridge that drives it through two frames, the way the UI
 * thread and the render thread interleave, and then lets the UI thread's run
 * loop process everything that was posted. Its contract follows from the
 * contracts of the bridge alone.
 */
module ThreadedRendererScenario {
  import opened ThreadedRenderer

  /** The events of the first and second frame of the scenario below. */
  const FirstFrame: seq<OnFinishedEvent> :=
    [OnFinishedEvent(Animator(1), Listener(1)), OnFinishedEvent(Animator(2), Listener(2))]
  const SecondFrame: seq<OnFinishedEvent> := [OnFinishedEvent(Animator(3), Listener(3))]

  /** A looper queue holding one reported error followed by two distinct listener batches. */
  ghost predicate ErrorThenTwoBatches(queue: seq<Posting>)
  {
    |queue| == 3
    && queue[0] == Posting(Failure(RenderingException("layer too large")), 0)
    && queue[1].handler.ListenerBatch? && queue[2].handler.ListenerBatch?
    && queue[1].handler.invoker.onFinishedEvents != queue[2].handler.invoker.onFinishedEvents
  }

  /** The render thread's side of the scenario: two frames. */
  method RenderTwoFrames(root: RootRenderNode, bridge: AnimationContextBridge, info: TreeInfo)
    requires bridge.rootNode == root && root.looper.queue == []
    requires root.pendingAnimatingRenderNodes == [RenderNode(1), RenderNode(2)]
    requires bridge.base.calls == [] && bridge.onFinishedEvents.items == []
    modifies root, root.looper, bridge.base, bridge.onFinishedEvents, info
    ensures bridge.base.calls ==
              [BaseAddAnimatingRenderNode(RenderNode(1)), BaseAddAnimatingRenderNode(RenderNode(2)),
               BaseStartFrame, BaseRunRemainingAnimations, BaseStartFrame, BaseRunRemainingAnimations]
    ensures ErrorThenTwoBatches(root.looper.queue)
    ensures root.looper.queue[1].handler.invoker.onFinishedEvents.items == FirstFrame
    ensures root.looper.queue[2].handler.invoker.onFinishedEvents.items == SecondFrame
    ensures fresh(root.looper.queue[1].handler.invoker.onFinishedEvents)
    ensures fresh(root.looper.queue[2].handler.invoker.onFinishedEvents)
  {
    // Frame 1: drain both nodes, the walk reports one error, two animations finish.
    bridge.StartFrame();
    assert bridge.base.calls == AddCalls([RenderNode(1), RenderNode(2)]) + [BaseStartFrame];
    root.PrepareTree(info, ["layer too large"]);
    assert root.looper.queue == ErrorPostings(["layer too large"]);
    bridge.RunRemainingAnimations(FirstFrame);
    var first := root.looper.queue[1].handler.invoker;
    // Frame 2: nothing pending, nothing reported, one animation finishes.
    bridge.StartFrame();
    root.PrepareTree(info, []);
    bridge.RunRemainingAnimations(SecondFrame);
    assert root.looper.queue[1].handler.invoker == first;
  }

  /** The UI thread's side of the scenario: four turns of its run loop. */
  method DrainUiLooper(looper: Looper, log: ListenerLog) returns (outcomes: seq<Dispatch>)
    requires ErrorThenTwoBatches(looper.queue) && log.notified == []
    requires looper.queue[1].handler.invoker.onFinishedEvents.items == FirstFrame
    requires looper.queue[2].handler.invoker.onFinishedEvents.items == SecondFrame
    modifies looper, log, looper.queue[1].handler.invoker.onFinishedEvents,
             looper.queue[2].handler.invoker.onFinishedEvents
    ensures outcomes == [Raised(Thrown(IllegalStateException, "layer too large")),
                         Delivered(2), Delivered(1), Idle]
    ensures log.notified == Notifications(FirstFrame + SecondFrame)
  {
    var second := looper.queue[2].handler.invoker.onFinishedEvents;
    var d0 := looper.DispatchNext(log);
    var d1 := looper.DispatchNext(log);
    assert second.items == SecondFrame;
    var d2 := looper.DispatchNext(log);
    var d3 := looper.DispatchNext(log);
    NotificationsAppend(FirstFrame, SecondFrame);
    outcomes := [d0, d1, d2, d3];
  }

  /**
   * Two nodes are attached before the first frame; the first frame's tree
   * walk reports one error and two animations finish; the second frame has
   * nothing to drain and one more animation finishes. The UI thread then
   * sees the error first, then the first frame's batch, then the second's,
   * each listener notified once, in completion order.
   */
  method TwoFrames() returns (calls: seq<ContextCall>, outcomes: seq<Dispatch>, notified: seq<Notification>)
    ensures calls == [BaseAddAnimatingRenderNode(RenderNode(1)), BaseAddAnimatingRenderNode(RenderNode(2)),
                      BaseStartFrame, BaseRunRemainingAnimations,
                      BaseStartFrame, BaseRunRemainingAnimations]
    ensures outcomes == [Raised(Thrown(IllegalStateException, "layer too large")),
                         Delivered(2), Delivered(1), Idle]
    ensures notified == [Notified(Listener(1), Animator(1)), Notified(Listener(2), Animator(2)),
                         Notified(Listener(3), Animator(3))]
  {
    var uiLooper := new Looper();
    var created := NewRootRenderNode(uiLooper);
    var root := created.root;
    var factory := new ContextFactoryImpl(root);
    var bridge := factory.CreateAnimationContext(TimeLord(0));
    var info := new TreeInfo();
    var log := new ListenerLog();

    // UI thread: two animations start.
    root.AttachAnimatingNode(RenderNode(1));
    root.AttachAnimatingNode(RenderNode(2));

    RenderTwoFrames(root, bridge, info);
    calls := bridge.base.calls;
    outcomes := DrainUiLooper(uiLooper, log);
    notified := log.notified;
  }

  /** Running a listener-invoking handler a second time notifies nobody. */
  method DeliverTwice(events: seq<OnFinishedEvent>) returns (first: seq<Notification>, second: seq<Notification>)
    ensures first == Notifications(events)
    ensures second == []
  {
    var batch := new EventVector();
    batch.items := events;
    var handler := new InvokeAnimationListeners(batch);
    var log := new ListenerLog();
    handler.HandleMessage(log);
    first := log.notified;
    handler.HandleMessage(log);
    second := log.notified[|first|..];
  }
}
