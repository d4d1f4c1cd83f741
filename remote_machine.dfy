/**
 * The remote-render synchronisation machine (`remoteMachine`): the
 * connection lifecycle disconnected -> connecting -> online, the render
 * loop render -> sampleFps -> idle inside online, and the context record
 * whose fields are replaced event by event.
 *
 * The invoked services `connect`, `renderer` and `fetchFps` are outside
 * the model: entering a state that invokes one returns the invocation
 * (`Connect` with the address, `RenderRequest` with the server and the
 * staged batch, `FetchFps` with no payload), and its completion arrives
 * later as an input event (`OnConnectDone`, `OnRenderDone`, `OnFpsDone`)
 * carrying an opaque output.
 */
module RemoteMachine {
  import opened Wrappers
  import opened Renderer

  /** The sub-states of `online.renderLoop`. */
  datatype LoopState = Render | SampleFps | Idle

  /** The states under `root`. */
  datatype State = Disconnected | Connecting | Online(loop: LoopState)

  /** A service invoked on entry to a state: the address for connect, the server and batch for the renderer, nothing for fetchFps. */
  datatype Invocation<Server> =
    | Connect(address: Option<string>)
    | RenderRequest(server: Option<Server>, events: seq<Entry>)
    | FetchFps

  /** Thrown by the viewport subscription when the viewport has no camera pose. */
  datatype BridgeError = NoCameraPose

  class Remote<Server, Frame> {
    var state: State
    var address: Option<string>
    var server: Option<Server>
    var frame: Option<Frame>
    var rendererProps: Props
    var queuedRendererEvents: seq<Entry>
    var stagedRendererEvents: seq<Entry>
    /** Render requests issued whose completion has not arrived yet. */
    ghost var pendingRenders: nat

    /**
     * The invariant every event preserves: idle never rests on a non-empty
     * queue; the staged batch followed by the queue replays to the current
     * properties (and hence so does the queue alone, spelled out as its own
     * conjunct for the methods' proofs); a session handle exists exactly while
     * online; nothing is staged before the first render; and exactly one
     * render is outstanding while in `render`, none otherwise.
     */
    ghost predicate Valid()
      reads this
    {
      && (state == Online(Idle) ==> queuedRendererEvents == [])
      && Replays(queuedRendererEvents, rendererProps)
      && Replays(stagedRendererEvents + queuedRendererEvents, rendererProps)
      && (state.Online? <==> server.Some?)
      && (frame.Some? ==> state.Online?)
      && (!state.Online? ==> stagedRendererEvents == [])
      && pendingRenders == (if state == Online(Render) then 1 else 0)
    }

    /**
     * What every event promises about the two loops: `online` is never
     * left, and a render request is issued exactly when the loop enters
     * `render` from another state, so requests are never stacked.
     */
    twostate predicate Serialised(new issued: Option<Invocation<Server>>)
      reads this
    {
      && (old(state).Online? ==> state.Online?)
      && (issued.Some? && issued.value.RenderRequest? <==> old(state) != Online(Render) && state == Online(Render))
    }

    /** The initial context; the machine starts in `disconnected`. */
    constructor ()
      ensures Valid()
      ensures state == Disconnected
      ensures address == None && server == None && frame == None
      ensures rendererProps == InitialProps
      ensures queuedRendererEvents == [] && stagedRendererEvents == []
    {
      state := Disconnected;
      address := None;
      server := None;
      frame := None;
      rendererProps := InitialProps;
      queuedRendererEvents := [];
      stagedRendererEvents := [];
      pendingRenders := 0;
    }

    /**
     * Leave `idle` for `render`: the exit action of idle stages the whole
     * queue and empties it, then entering render invokes the renderer with
     * the staged batch.
     */
    method LeaveIdleForRender() returns (issued: Option<Invocation<Server>>)
      requires state == Online(Idle)
      modifies this
      ensures state == Online(Render)
      ensures stagedRendererEvents == old(queuedRendererEvents) && queuedRendererEvents == []
      ensures issued == Some(RenderRequest(server, stagedRendererEvents))
      ensures pendingRenders == old(pendingRenders) + 1
      ensures address == old(address) && server == old(server) && frame == old(frame)
      ensures rendererProps == old(rendererProps)
    {
      stagedRendererEvents := queuedRendererEvents;
      queuedRendererEvents := [];
      state := Online(Render);
      pendingRenders := pendingRenders + 1;
      issued := Some(RenderRequest(server, stagedRendererEvents));
    }

    /** The eventless transition of `idle`: a non-empty queue sends the loop straight back to `render`. */
    method Settle() returns (issued: Option<Invocation<Server>>)
      modifies this
      ensures if old(state) == Online(Idle) && |old(queuedRendererEvents)| > 0 then
          && state == Online(Render)
          && stagedRendererEvents == old(queuedRendererEvents) && queuedRendererEvents == []
          && issued == Some(RenderRequest(server, stagedRendererEvents))
          && pendingRenders == old(pendingRenders) + 1
          && address == old(address) && server == old(server) && frame == old(frame)
          && rendererProps == old(rendererProps)
        else unchanged(this) && issued == None
    {
      issued := None;
      if state == Online(Idle) && |queuedRendererEvents| > 0 {
        issued := LeaveIdleForRender();
      }
    }

    /** `setAddress`: accepted only in `disconnected`, where it stores the address and starts connecting. */
    method OnSetAddress(a: Option<string>) returns (issued: Option<Invocation<Server>>)
      requires Valid()
      modifies this
      ensures Valid()
      ensures Serialised(issued)
      ensures old(state) == Disconnected ==>
        && state == Connecting && address == a && issued == Some(Connect(a))
        && server == old(server) && frame == old(frame) && rendererProps == old(rendererProps)
        && queuedRendererEvents == old(queuedRendererEvents)
        && stagedRendererEvents == old(stagedRendererEvents)
      ensures old(state) != Disconnected ==> unchanged(this) && issued == None
    {
      issued := None;
      if state == Disconnected {
        address := a;
        state := Connecting;
        issued := Some(Connect(a));
      }
    }

    /**
     * `updateRenderer`, handled by `root` in every state: merge the partial
     * into the properties and append its entries to the queue; then idle's
     * eventless guard, or failing that the raised `render` event, moves an
     * idle loop to `render`.
     */
    method OnUpdateRenderer(partial: seq<Entry>) returns (issued: Option<Invocation<Server>>)
      requires Valid()
      modifies this
      ensures Valid()
      ensures Serialised(issued)
      ensures rendererProps == Merge(old(rendererProps), partial)
      ensures address == old(address) && server == old(server) && frame == old(frame)
      ensures old(state) == Online(Idle) ==>
        && state == Online(Render)
        && stagedRendererEvents == old(queuedRendererEvents) + partial
        && queuedRendererEvents == []
        && issued == Some(RenderRequest(server, stagedRendererEvents))
      ensures old(state) != Online(Idle) ==>
        && state == old(state)
        && queuedRendererEvents == old(queuedRendererEvents) + partial
        && stagedRendererEvents == old(stagedRendererEvents)
        && issued == None
    {
      ghost var staged0, queued0, props0 := stagedRendererEvents, queuedRendererEvents, rendererProps;
      UpdateKeepsReplays(queued0, props0, partial);
      UpdateKeepsReplays(staged0 + queued0, props0, partial);
      assert staged0 + queued0 + partial == staged0 + (queued0 + partial);
      rendererProps := Merge(rendererProps, partial);
      queuedRendererEvents := queuedRendererEvents + partial;
      issued := Settle();
      if state == Online(Idle) {
        // the raised `render` event, reaching idle only when the guard did not fire
        issued := LeaveIdleForRender();
      }
      assert stagedRendererEvents + [] == stagedRendererEvents;
    }

    /** `render`: handled only by `idle`, which it leaves for `render`; elsewhere it changes nothing. */
    method OnRender() returns (issued: Option<Invocation<Server>>)
      requires Valid()
      modifies this
      ensures Valid()
      ensures Serialised(issued)
      ensures old(state) == Online(Idle) ==>
        && state == Online(Render)
        && stagedRendererEvents == old(queuedRendererEvents) && queuedRendererEvents == []
        && issued == Some(RenderRequest(server, stagedRendererEvents))
        && address == old(address) && server == old(server) && frame == old(frame)
        && rendererProps == old(rendererProps)
      ensures old(state) != Online(Idle) ==> unchanged(this) && issued == None
    {
      issued := None;
      if state == Online(Idle) {
        issued := LeaveIdleForRender();
        assert stagedRendererEvents + [] == stagedRendererEvents;
      }
    }

    /**
     * The completion of `connect`: store the session handle, replace the
     * queue by a snapshot of every property, and enter `online` in
     * `render`, whose request carries the staged batch as it stands, which
     * is still empty.
     */
    method OnConnectDone(s: Server) returns (issued: Option<Invocation<Server>>)
      requires Valid()
      modifies this
      ensures Valid()
      ensures Serialised(issued)
      ensures old(state) == Connecting ==>
        && state == Online(Render)
        && server == Some(s)
        && queuedRendererEvents == Entries(rendererProps)
        && stagedRendererEvents == old(stagedRendererEvents) == []
        && issued == Some(RenderRequest(Some(s), []))
        && pendingRenders == old(pendingRenders) + 1
        && address == old(address) && frame == old(frame) && rendererProps == old(rendererProps)
      ensures old(state) != Connecting ==> unchanged(this) && issued == None
    {
      issued := None;
      if state == Connecting {
        SnapshotReplays([], rendererProps);
        assert [] + Entries(rendererProps) == Entries(rendererProps);
        server := Some(s);
        queuedRendererEvents := Entries(rendererProps);
        state := Online(Render);
        pendingRenders := pendingRenders + 1;
        issued := Some(RenderRequest(server, stagedRendererEvents));
      }
    }

    /** The completion of `renderer`: store the frame and go on to `sampleFps`, which probes the throughput. */
    method OnRenderDone(f: Frame) returns (issued: Option<Invocation<Server>>)
      requires Valid()
      modifies this
      ensures Valid()
      ensures Serialised(issued)
      ensures old(state) == Online(Render) ==>
        && state == Online(SampleFps) && frame == Some(f) && issued == Some(FetchFps)
        && pendingRenders == old(pendingRenders) - 1 == 0
        && address == old(address) && server == old(server) && rendererProps == old(rendererProps)
        && queuedRendererEvents == old(queuedRendererEvents)
        && stagedRendererEvents == old(stagedRendererEvents)
      ensures old(state) != Online(Render) ==> unchanged(this) && issued == None
    {
      issued := None;
      if state == Online(Render) {
        frame := Some(f);
        state := Online(SampleFps);
        pendingRenders := pendingRenders - 1;
        issued := Some(FetchFps);
      }
    }

    /**
     * The completion of `fetchFps`: enter `idle`, and leave it for `render`
     * at once when changes are queued. The sample itself is not used.
     */
    method OnFpsDone(sample: real) returns (issued: Option<Invocation<Server>>)
      requires Valid()
      modifies this
      ensures Valid()
      ensures Serialised(issued)
      ensures old(state) == Online(SampleFps) && |old(queuedRendererEvents)| > 0 ==>
        && state == Online(Render)
        && stagedRendererEvents == old(queuedRendererEvents) && queuedRendererEvents == []
        && issued == Some(RenderRequest(server, stagedRendererEvents))
        && address == old(address) && server == old(server) && frame == old(frame)
        && rendererProps == old(rendererProps)
      ensures old(state) == Online(SampleFps) && old(queuedRendererEvents) == [] ==>
        && state == Online(Idle) && issued == None
        && address == old(address) && server == old(server) && frame == old(frame)
        && rendererProps == old(rendererProps)
        && queuedRendererEvents == [] && stagedRendererEvents == old(stagedRendererEvents)
      ensures old(state) != Online(SampleFps) ==> unchanged(this) && issued == None
    {
      issued := None;
      if state == Online(SampleFps) {
        state := Online(Idle);
        issued := Settle();
        assert stagedRendererEvents + [] == stagedRendererEvents;
      }
    }

    /**
     * The viewport subscription registered on entry to `disconnected`: a
     * change notification carrying a camera pose sends
     * `updateRenderer({cameraPose})`; one without a pose throws.
     */
    method OnViewportChanged(pose: Option<Mat4>) returns (r: Result<Option<Invocation<Server>>, BridgeError>)
      requires Valid()
      modifies this
      ensures Valid()
      ensures pose.None? ==> unchanged(this) && r == Err(NoCameraPose)
      ensures pose.Some? ==> r.Ok? && Serialised(r.value)
      ensures pose.Some? ==>
        && rendererProps == old(rendererProps).(cameraPose := pose.value)
        && rendererProps == Merge(old(rendererProps), [CameraPose(pose.value)])
        && address == old(address) && server == old(server) && frame == old(frame)
      ensures pose.Some? && old(state) == Online(Idle) ==>
        && state == Online(Render)
        && stagedRendererEvents == old(queuedRendererEvents) + [CameraPose(pose.value)] == [CameraPose(pose.value)]
        && queuedRendererEvents == []
        && r == Ok(Some(RenderRequest(server, stagedRendererEvents)))
      ensures pose.Some? && old(state) != Online(Idle) ==>
        && state == old(state)
        && queuedRendererEvents == old(queuedRendererEvents) + [CameraPose(pose.value)]
        && stagedRendererEvents == old(stagedRendererEvents)
        && r == Ok(None)
    {
      if pose.None? {
        r := Err(NoCameraPose);
      } else {
        var issued := OnUpdateRenderer([CameraPose(pose.value)]);
        r := Ok(issued);
      }
    }
  }

  /** Updates before any session exists, then the first two requests of a session. */
  method ConnectScenario<Server, Frame>(s: Server, f: Frame)
  {
    var m := new Remote<Server, Frame>();
    var i := m.OnUpdateRenderer([Density(30.0)]);
    assert m.rendererProps.density == 30.0 && m.queuedRendererEvents == [Density(30.0)];
    i := m.OnRender();
    assert i == None;
    i := m.OnSetAddress(Some("ws://renderer"));
    assert i == Some(Connect(Some("ws://renderer")));
    i := m.OnSetAddress(None);
    assert i == None && m.address == Some("ws://renderer");
    // the first request goes out with the empty initial staged batch ...
    i := m.OnConnectDone(s);
    assert i == Some(RenderRequest(Some(s), []));
    ghost var snapshot := Entries(m.rendererProps);
    i := m.OnRenderDone(f);
    assert i == Some(FetchFps);
    // ... and the full snapshot with the second one
    i := m.OnFpsDone(60.0);
    assert i == Some(RenderRequest(Some(s), snapshot));
  }

  /** Two updates that arrive while a render is outstanding go, in order, into the next batch. */
  method BurstScenario<Server, Frame>(m: Remote<Server, Frame>, f: Frame)
    requires m.Valid() && m.state == Online(Render) && m.queuedRendererEvents == []
    modifies m
  {
    var i := m.OnUpdateRenderer([Density(10.0)]);
    i := m.OnUpdateRenderer([Density(20.0)]);
    assert i == None && m.rendererProps.density == 20.0;
    assert m.queuedRendererEvents == [Density(10.0), Density(20.0)];
    i := m.OnRenderDone(f);
    i := m.OnFpsDone(60.0);
    assert i == Some(RenderRequest(m.server, [Density(10.0), Density(20.0)]));
    i := m.OnRenderDone(f);
    i := m.OnFpsDone(60.0);
    assert i == None && m.state == Online(Idle);
    // an idle loop renders again on an explicit request, with an empty batch
    i := m.OnRender();
    assert i == Some(RenderRequest(m.server, []));
  }
}
