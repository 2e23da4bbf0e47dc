/** The protocol does deliver: from any state in which a tunnel is up, a fresh call has a
  * schedule that ends with the agent's response at the caller, captured once - on the
  * instance of the agent, and across Redis from any other instance with a live route.
  */
module Delivery {
  import opened TunnelProto
  import opened Wrappers
  import opened Registry
  import opened Forwarding
  import opened Cluster
  import O = Ownership

  lemma Extend(s: State, es: seq<Event>, e: Event)
    requires Legal(s, es) && CanDo(Play(s, es), e)
    ensures Legal(s, es + [e]) && Play(s, es + [e]) == Do(Play(s, es), e)
  {
    assert (es + [e])[..|es|] == es;
  }

  lemma {:induction false} Concat(s: State, a: seq<Event>, b: seq<Event>)
    requires Legal(s, a) && Legal(Play(s, a), b)
    ensures Legal(s, a + b) && Play(s, a + b) == Play(Play(s, a), b)
    decreases |b|
  {
    hide CanDo, Do;
    if b == [] {
      assert a + b == a;
    } else {
      var init, e := b[..|b| - 1], b[|b| - 1];
      assert init + [e] == b;
      Concat(s, a, init);
      Extend(s, a + init, e);
      assert a + b == (a + init) + [e];
    }
  }

  /** Two events in a row. */
  lemma Two(s: State, e1: Event, e2: Event)
    requires CanDo(s, e1) && CanDo(Do(s, e1), e2)
    ensures Legal(s, [e1, e2]) && Play(s, [e1, e2]) == Do(Do(s, e1), e2)
  {
    hide CanDo, Do;
    assert Legal(s, []) && Play(s, []) == s;
    Extend(s, [], e1);
    Extend(s, [e1], e2);
    assert [] + [e1] == [e1] && [e1] + [e2] == [e1, e2];
  }

  // ---- Serving a request on a connection ------------------------------------------------------

  /** The connection is up: its read loop runs. */
  predicate Up(o: O.State, k: ConnId) {
    k in o.conns && o.conns[k].phase == O.Reading
  }

  function ToSocket(k: ConnId, rid: Uuid, req: ForwardedRequest, resp: ForwardedResponse): seq<Event> {
    [Forward(Serving(Enter(rid))), Forward(Serving(Write(rid, true, None))),
     Forward(Agent(Handle(k, RequestForward(rid, req), resp, true)))]
  }

  function FromSocket(k: ConnId, rid: Uuid, resp: ForwardedResponse): seq<Event> {
    [Forward(Agent(ReadReply(k, ResponseForward(rid, resp)))), Forward(Serving(Select(rid, GotReply)))]
  }

  function Finish(rid: Uuid): seq<Event> {
    [Forward(Serving(Leave(rid))), Forward(Serving(Capture(rid)))]
  }

  /** Everything but the work on sockets and on invocation rid is as before. */
  predicate OnlyServed(d: Data, t: Data, rid: Uuid) {
    && t == d.(serves := t.serves, agentPending := t.agentPending, toAgent := t.toAgent, fromAgent := t.fromAgent,
               executed := t.executed, socketLog := t.socketLog, captured := t.captured)
    && rid in d.serves && rid in t.serves
    && t.serves == d.serves[rid := d.serves[rid].(phase := t.serves[rid].phase)]
  }

  lemma ReachesAgent(s: State, rid: Uuid, resp: ForwardedResponse)
    requires ServeIn(s.d, rid, Looked)
    ensures var v := s.d.serves[rid]; var es := ToSocket(v.conn, rid, v.req, resp);
      && Legal(s, es)
      && var t := Play(s, es);
      && t.o == s.o && OnlyServed(s.d, t.d, rid) && t.d.captured == s.d.captured
      && t.d.serves[rid].phase == Written && rid in Tbl(t.d.agentPending, v.conn)
      && Tbl(t.d.agentPending, v.conn)[rid] == None
      && Frame(v.conn, ResponseForward(rid, resp)) in t.d.fromAgent
  {
    var v := s.d.serves[rid];
    var e1, e2, e3 := Forward(Serving(Enter(rid))), Forward(Serving(Write(rid, true, None))),
      Forward(Agent(Handle(v.conn, RequestForward(rid, v.req), resp, true)));
    Extend(s, [], e1);
    var s1 := Do(s, e1);
    assert s1.d.serves[rid].phase == Entered;
    Extend(s, [e1], e2);
    var s2 := Do(s1, e2);
    assert Frame(v.conn, RequestForward(rid, v.req)) in s2.d.toAgent;
    Extend(s, [e1, e2], e3);
    assert [] + [e1] == [e1] && [e1] + [e2] == [e1, e2] && [e1, e2] + [e3] == ToSocket(v.conn, rid, v.req, resp);
  }

  lemma ReturnsFromAgent(s: State, rid: Uuid, resp: ForwardedResponse)
    requires ServeIn(s.d, rid, Written) && Up(s.o, s.d.serves[rid].conn)
    requires var k := s.d.serves[rid].conn;
      && rid in Tbl(s.d.agentPending, k) && Tbl(s.d.agentPending, k)[rid] == None
      && Frame(k, ResponseForward(rid, resp)) in s.d.fromAgent
    ensures var v := s.d.serves[rid]; var es := FromSocket(v.conn, rid, resp);
      && Legal(s, es)
      && var t := Play(s, es);
      && t.o == s.o && OnlyServed(s.d, t.d, rid) && t.d.captured == s.d.captured
      && t.d.serves[rid].phase == Selected(Ok(resp))
  {
    var v := s.d.serves[rid];
    var e1, e2 := Forward(Agent(ReadReply(v.conn, ResponseForward(rid, resp)))),
      Forward(Serving(Select(rid, GotReply)));
    hide Legal, Play;
    var s1 := Do(s, e1);
    assert Slot(Tbl(s1.d.agentPending, v.conn), rid) == Some(resp);
    Two(s, e1, e2);
    hide Do, CanDo;
  }

  lemma IsCaptured(s: State, rid: Uuid, resp: ForwardedResponse)
    requires ServeIn(s.d, rid, Selected(Ok(resp))) && s.d.serves[rid].conn in s.o.conns
    ensures var v := s.d.serves[rid]; var es := Finish(rid);
      && Legal(s, es)
      && var t := Play(s, es);
      && t.o == s.o && OnlyServed(s.d, t.d, rid) && t.d.serves[rid].phase == Served(Ok(resp))
      && t.d.captured == s.d.captured
         + [Captured(rid, InstanceOf(s.d, rid), v.conn, s.o.conns[v.conn].tunnel, v.req, resp)]
  {
    var v := s.d.serves[rid];
    var e1, e2 := Forward(Serving(Leave(rid))), Forward(Serving(Capture(rid)));
    Extend(s, [], e1);
    var s1 := Do(s, e1);
    assert s1.d.serves[rid].phase == Left(Ok(resp));
    CaptureKeepsInstance(s, s1, rid);
    Extend(s, [e1], e2);
    assert [] + [e1] == [e1] && [e1] + [e2] == Finish(rid);
  }

  lemma CaptureKeepsInstance(s: State, t: State, rid: Uuid)
    requires t.d.calls == s.d.calls && t.d.remotes == s.d.remotes && rid in s.d.serves && rid in t.d.serves
    requires t.d.serves[rid].client == s.d.serves[rid].client
    ensures InstanceOf(t.d, rid) == InstanceOf(s.d, rid)
  {
  }

  function ServeAll(k: ConnId, rid: Uuid, req: ForwardedRequest, resp: ForwardedResponse): seq<Event> {
    ToSocket(k, rid, req, resp) + FromSocket(k, rid, resp) + Finish(rid)
  }

  /** serveLocally, from the lookup to the captured response. */
  lemma ServesCompletely(s: State, rid: Uuid, resp: ForwardedResponse)
    requires ServeIn(s.d, rid, Looked) && Up(s.o, s.d.serves[rid].conn)
    ensures var v := s.d.serves[rid]; var es := ServeAll(v.conn, rid, v.req, resp);
      && Legal(s, es)
      && var t := Play(s, es);
      && t.o == s.o && OnlyServed(s.d, t.d, rid) && t.d.serves[rid].phase == Served(Ok(resp))
      && t.d.captured == s.d.captured
         + [Captured(rid, InstanceOf(s.d, rid), v.conn, s.o.conns[v.conn].tunnel, v.req, resp)]
  {
    hide Legal, Play, InstanceOf;
    var v := s.d.serves[rid];
    var a, b := ToSocket(v.conn, rid, v.req, resp), FromSocket(v.conn, rid, resp);
    ReachesAgent(s, rid, resp);
    var s1 := Play(s, a);
    ReturnsFromAgent(s1, rid, resp);
    Concat(s, a, b);
    var s2 := Play(s, a + b);
    IsCaptured(s2, rid, resp);
    Concat(s, a + b, Finish(rid));
    CaptureKeepsInstance(s, s2, rid);
  }

  // ---- At the agent's own instance ----------------------------------------------------------------

  ghost predicate Delivered(s: State, es: seq<Event>, c: CallId, k: ConnId, rid: Uuid, resp: ForwardedResponse) {
    && Legal(s, es) && c in s.d.calls && k in s.o.conns
    && var t := Play(s, es);
    && c in t.d.calls && t.d.calls[c].outcome == Some(Answer(resp))
    && t.d.captured == s.d.captured
       + [Captured(rid, s.o.conns[k].inst, k, s.o.conns[k].tunnel, s.d.calls[c].req, resp)]
  }

  lemma StartsLocally(s: State, c: CallId, k: ConnId, rid: Uuid)
    requires O.RegistryOk(s.o) && Waiting(s.d, c) && s.d.calls[c].via == Fresh && rid !in s.d.serves
    requires LocalLookup(s.o, s.d.calls[c].inst, s.d.calls[c].sub) == Some(k) && Up(s.o, k)
    ensures var e := Forward(Public(Lookup(c, rid))); var call := s.d.calls[c];
      && Legal(s, [e]) && s.o.conns[k].inst == call.inst
      && var t := Play(s, [e]);
      && t.o == s.o && t.d.captured == s.d.captured && t.d.busLog == s.d.busLog && InstanceOf(t.d, rid) == call.inst
      && rid in t.d.serves && t.d.serves[rid] == Serve(k, call.req, Caller(c), Looked)
      && t.d.calls == s.d.calls[c := call.(via := ByAgent(rid))]
  {
    var e := Forward(Public(Lookup(c, rid)));
    assert s.o.conns[k].inst == s.d.calls[c].inst;
    hide O.RegistryOk, LocalLookup;
    Extend(s, [], e);
    assert [] + [e] == [e];
  }

  /** A call that arrives where its tunnel is connected can be answered with any response the agent's application
    * gives, and nothing goes over Redis. */
  lemma LocalDelivery(s: State, c: CallId, k: ConnId, rid: Uuid, resp: ForwardedResponse)
    requires O.RegistryOk(s.o) && Waiting(s.d, c) && s.d.calls[c].via == Fresh && rid !in s.d.serves
    requires LocalLookup(s.o, s.d.calls[c].inst, s.d.calls[c].sub) == Some(k) && Up(s.o, k)
    ensures exists es :: Delivered(s, es, c, k, rid, resp) && Play(s, es).d.busLog == s.d.busLog
  {
    hide O.RegistryOk, LocalLookup, Do, CanDo, Legal, Play, ServeAll, InstanceOf;
    var e1, e2 := Forward(Public(Lookup(c, rid))), Forward(Public(EndLocal(c)));
    var mid := ServeAll(k, rid, s.d.calls[c].req, resp);
    StartsLocally(s, c, k, rid);
    var s1 := Play(s, [e1]);
    ServesCompletely(s1, rid, resp);
    Concat(s, [e1], mid);
    EndsLocally(Play(s1, mid), c, rid, resp);
    Extend(s, [e1] + mid, e2);
    assert Delivered(s, [e1] + mid + [e2], c, k, rid, resp);
  }

  lemma EndsLocally(s: State, c: CallId, rid: Uuid, resp: ForwardedResponse)
    requires Waiting(s.d, c) && s.d.calls[c].via == ByAgent(rid) && rid in s.d.serves
    requires s.d.serves[rid].phase == Served(Ok(resp))
    ensures var e := Forward(Public(EndLocal(c)));
      && CanDo(s, e) && Do(s, e).d == s.d.(calls := s.d.calls[c := s.d.calls[c].(outcome := Some(Answer(resp)))])
  {
  }

  // ---- Across Redis ---------------------------------------------------------------------------------

  function ToPeer(c: CallId, xid: Uuid, rid: Uuid): seq<Event> {
    [Forward(Public(Lookup(c, rid))), Forward(Public(FindOwner(c, true)))] + [Forward(Public(BeginRemote(c, xid)))]
  }

  function OverBus(i: InstanceId, cr: ClusterRequest, rid: Uuid): seq<Event> {
    [Forward(Public(Publish(cr.requestID, true, None))), Forward(Cluster(PeerServe(i, cr, rid, true)))]
  }

  function BackOverBus(origin: InstanceId, rid: Uuid, rep: ClusterResponse): seq<Event> {
    [Forward(Cluster(Reply(rid, true))), Forward(Cluster(DeliverReply(origin, rep)))]
  }

  function ToCaller(xid: Uuid): seq<Event> {
    [Forward(Public(Settle(xid, GotReply))), Forward(Public(EndRemote(xid)))]
  }

  lemma FindsOwner(s: State, c: CallId, i: InstanceId, rid: Uuid)
    requires Waiting(s.d, c) && s.d.calls[c].via == Fresh && rid !in s.d.serves
    requires LocalLookup(s.o, s.d.calls[c].inst, s.d.calls[c].sub) == None
    requires LiveRoute(s.o.routes, s.d.calls[c].sub, s.o.now) == Some(i)
    ensures var es := [Forward(Public(Lookup(c, rid))), Forward(Public(FindOwner(c, true)))];
      && Legal(s, es)
      && Play(s, es) == s.(d := s.d.(calls := s.d.calls[c := s.d.calls[c].(via := Located(i))]))
  {
    hide LiveRoute, LocalLookup;
    var call := s.d.calls[c];
    var e1, e2 := Forward(Public(Lookup(c, rid))), Forward(Public(FindOwner(c, true)));
    Extend(s, [], e1);
    var s1 := Do(s, e1);
    assert s1 == s.(d := s.d.(calls := s.d.calls[c := call.(via := Missed)]));
    Extend(s, [e1], e2);
    assert s1.d.calls[c := call.(via := Located(i))] == s.d.calls[c := call.(via := Located(i))];
    assert [] + [e1] == [e1] && [e1] + [e2] == [e1, e2];
  }

  lemma Begins(s: State, c: CallId, xid: Uuid)
    requires Waiting(s.d, c) && s.d.calls[c].via.Located? && xid !in s.d.remotes
    ensures var e := Forward(Public(BeginRemote(c, xid))); var call := s.d.calls[c]; var i := call.via.owner;
      && CanDo(s, e)
      && var t := Do(s, e);
      && t.o == s.o
      && t.d == s.d.(calls := s.d.calls[c := call.(via := ByPeer(i, xid))],
                     remotes := s.d.remotes[xid := Remote(c, i, Opened, None)], clusterPending := t.d.clusterPending)
      && Slot(Tbl(t.d.clusterPending, call.inst), xid) == None && xid in Tbl(t.d.clusterPending, call.inst)
  {
  }

  lemma LeavesForPeer(s: State, c: CallId, i: InstanceId, xid: Uuid, rid: Uuid)
    requires Waiting(s.d, c) && s.d.calls[c].via == Fresh && xid !in s.d.remotes && rid !in s.d.serves
    requires LocalLookup(s.o, s.d.calls[c].inst, s.d.calls[c].sub) == None
    requires LiveRoute(s.o.routes, s.d.calls[c].sub, s.o.now) == Some(i)
    ensures var es := ToPeer(c, xid, rid); var call := s.d.calls[c];
      && Legal(s, es)
      && var t := Play(s, es);
      && t.o == s.o
      && t.d == s.d.(calls := s.d.calls[c := call.(via := ByPeer(i, xid))],
                     remotes := s.d.remotes[xid := Remote(c, i, Opened, None)], clusterPending := t.d.clusterPending)
      && Slot(Tbl(t.d.clusterPending, call.inst), xid) == None && xid in Tbl(t.d.clusterPending, call.inst)
  {
    hide LiveRoute, LocalLookup, Legal, Play, Do, CanDo;
    var call := s.d.calls[c];
    FindsOwner(s, c, i, rid);
    var es := [Forward(Public(Lookup(c, rid))), Forward(Public(FindOwner(c, true)))];
    var m := Play(s, es);
    Begins(m, c, xid);
    Extend(s, es, Forward(Public(BeginRemote(c, xid))));
    assert m.d.calls[c := call.(via := ByPeer(i, xid))] == s.d.calls[c := call.(via := ByPeer(i, xid))];
  }

  lemma ArrivesAtPeer(s: State, xid: Uuid, k: ConnId, rid: Uuid)
    requires xid in s.d.remotes && s.d.remotes[xid].phase == Opened && s.d.remotes[xid].call in s.d.calls
    requires rid !in s.d.serves
    requires s.d.remotes[xid].owner in s.o.regs
    requires LocalLookup(s.o, s.d.remotes[xid].owner, s.d.calls[s.d.remotes[xid].call].sub) == Some(k)
    ensures var r := s.d.remotes[xid]; var call := s.d.calls[r.call];
      var es := OverBus(r.owner, RequestFor(s.d, xid), rid);
      && Legal(s, es)
      && var t := Play(s, es);
      && t.o == s.o
      && t.d == s.d.(serves := s.d.serves[rid := Serve(k, call.req, Peer(xid, call.inst), Looked)],
                     remotes := s.d.remotes[xid := r.(phase := Published, served := Some(rid))],
                     rpc := t.d.rpc, busLog := t.d.busLog)
  {
    hide LocalLookup;
    var r, cr := s.d.remotes[xid], RequestFor(s.d, xid);
    var e1, e2 := Forward(Public(Publish(xid, true, None))), Forward(Cluster(PeerServe(r.owner, cr, rid, true)));
    hide Legal, Play;
    var s1 := Do(s, e1);
    assert (r.owner, cr) in s1.d.rpc;
    Two(s, e1, e2);
    hide Do, CanDo;
  }

  lemma ComesBack(s: State, rid: Uuid, resp: ForwardedResponse)
    requires ServeIn(s.d, rid, Served(Ok(resp))) && s.d.serves[rid].client.Peer?
    requires var p := s.d.serves[rid].client;
      Slot(Tbl(s.d.clusterPending, p.origin), p.xid) == None && p.xid in Tbl(s.d.clusterPending, p.origin)
    ensures var p := s.d.serves[rid].client; var rep := ClusterResponse(p.xid, Some(resp), "");
      var es := BackOverBus(p.origin, rid, rep);
      && Legal(s, es)
      && var t := Play(s, es);
      && t.o == s.o && t.d == s.d.(replies := t.d.replies, clusterPending := t.d.clusterPending)
      && Slot(Tbl(t.d.clusterPending, p.origin), p.xid) == Some(rep)
  {
    var p := s.d.serves[rid].client;
    var rep := ClusterResponse(p.xid, Some(resp), "");
    var e1, e2 := Forward(Cluster(Reply(rid, true))), Forward(Cluster(DeliverReply(p.origin, rep)));
    hide Legal, Play;
    var s1 := Do(s, e1);
    assert (p.origin, rep) in s1.d.replies;
    Two(s, e1, e2);
    hide Do, CanDo;
  }

  lemma IsAnswered(s: State, xid: Uuid, resp: ForwardedResponse)
    requires xid in s.d.remotes && s.d.remotes[xid].phase == Published && s.d.remotes[xid].call in s.d.calls
    requires Slot(Tbl(s.d.clusterPending, s.d.calls[s.d.remotes[xid].call].inst), xid)
      == Some(ClusterResponse(xid, Some(resp), ""))
    ensures var es := ToCaller(xid); var c := s.d.remotes[xid].call;
      && Legal(s, es)
      && var t := Play(s, es);
      && t.o == s.o && t.d.captured == s.d.captured && c in t.d.calls && t.d.calls[c].outcome == Some(Answer(resp))
  {
    var e1, e2 := Forward(Public(Settle(xid, GotReply))), Forward(Public(EndRemote(xid)));
    hide Legal, Play;
    var s1 := Do(s, e1);
    assert s1.d.remotes[xid].phase == Settled(Answer(resp), Replied);
    Two(s, e1, e2);
    hide Do, CanDo;
  }

  /** From the reply's publication to the caller's answer. */
  lemma ComesHome(s: State, rid: Uuid, resp: ForwardedResponse)
    requires ServeIn(s.d, rid, Served(Ok(resp))) && s.d.serves[rid].client.Peer?
    requires var p := s.d.serves[rid].client;
      && Slot(Tbl(s.d.clusterPending, p.origin), p.xid) == None && p.xid in Tbl(s.d.clusterPending, p.origin)
      && p.xid in s.d.remotes && s.d.remotes[p.xid].phase == Published
      && s.d.remotes[p.xid].call in s.d.calls && s.d.calls[s.d.remotes[p.xid].call].inst == p.origin
    ensures var p := s.d.serves[rid].client; var c := s.d.remotes[p.xid].call;
      var es := BackOverBus(p.origin, rid, ClusterResponse(p.xid, Some(resp), "")) + ToCaller(p.xid);
      && Legal(s, es)
      && var t := Play(s, es);
      && t.o == s.o && t.d.captured == s.d.captured && c in t.d.calls && t.d.calls[c].outcome == Some(Answer(resp))
  {
    hide Legal, Play, BackOverBus, ToCaller;
    var p := s.d.serves[rid].client;
    var es := BackOverBus(p.origin, rid, ClusterResponse(p.xid, Some(resp), ""));
    ComesBack(s, rid, resp);
    IsAnswered(Play(s, es), p.xid, resp);
    Concat(s, es, ToCaller(p.xid));
  }

  /** From the arrival of the call to its invocation on the peer. */
  lemma GoesOut(s: State, c: CallId, i: InstanceId, k: ConnId, xid: Uuid, rid: Uuid)
    requires Waiting(s.d, c) && s.d.calls[c].via == Fresh && i in s.o.regs
    requires xid !in s.d.remotes && rid !in s.d.serves
    requires LocalLookup(s.o, s.d.calls[c].inst, s.d.calls[c].sub) == None
    requires LiveRoute(s.o.routes, s.d.calls[c].sub, s.o.now) == Some(i)
    requires LocalLookup(s.o, i, s.d.calls[c].sub) == Some(k)
    ensures var call := s.d.calls[c];
      var es := ToPeer(c, xid, rid) + OverBus(i, ClusterRequest(xid, call.inst, call.sub, call.req), rid);
      && Legal(s, es)
      && var t := Play(s, es);
      && t.o == s.o && t.d.captured == s.d.captured
      && t.d.calls == s.d.calls[c := call.(via := ByPeer(i, xid))]
      && rid in t.d.serves && t.d.serves[rid] == Serve(k, call.req, Peer(xid, call.inst), Looked)
      && xid in t.d.remotes && t.d.remotes[xid] == Remote(c, i, Published, Some(rid))
      && Slot(Tbl(t.d.clusterPending, call.inst), xid) == None && xid in Tbl(t.d.clusterPending, call.inst)
  {
    hide LocalLookup, LiveRoute, Legal, Play, ToPeer, OverBus, Tbl, Slot;
    LeavesForPeer(s, c, i, xid, rid);
    var a := ToPeer(c, xid, rid);
    var s1 := Play(s, a);
    ArrivesAtPeer(s1, xid, k, rid);
    Concat(s, a, OverBus(i, RequestFor(s1.d, xid), rid));
  }

  /** From the invocation on the peer to the caller's answer. */
  lemma ServesForPeer(s: State, rid: Uuid, resp: ForwardedResponse)
    requires ServeIn(s.d, rid, Looked) && Up(s.o, s.d.serves[rid].conn) && s.d.serves[rid].client.Peer?
    requires var p := s.d.serves[rid].client;
      && Slot(Tbl(s.d.clusterPending, p.origin), p.xid) == None && p.xid in Tbl(s.d.clusterPending, p.origin)
      && p.xid in s.d.remotes && s.d.remotes[p.xid].phase == Published
      && s.d.remotes[p.xid].call in s.d.calls && s.d.calls[s.d.remotes[p.xid].call].inst == p.origin
    ensures var v := s.d.serves[rid]; var p := v.client; var c := s.d.remotes[p.xid].call;
      var es := ServeAll(v.conn, rid, v.req, resp)
              + (BackOverBus(p.origin, rid, ClusterResponse(p.xid, Some(resp), "")) + ToCaller(p.xid));
      && Legal(s, es)
      && var t := Play(s, es);
      && t.o == s.o && c in t.d.calls && t.d.calls[c].outcome == Some(Answer(resp))
      && t.d.captured == s.d.captured
         + [Captured(rid, InstanceOf(s.d, rid), v.conn, s.o.conns[v.conn].tunnel, v.req, resp)]
  {
    hide Legal, Play, ServeAll, BackOverBus, ToCaller, InstanceOf, Tbl, Slot;
    var v := s.d.serves[rid];
    var es := ServeAll(v.conn, rid, v.req, resp);
    ServesCompletely(s, rid, resp);
    ComesHome(Play(s, es), rid, resp);
    var back := BackOverBus(v.client.origin, rid, ClusterResponse(v.client.xid, Some(resp), ""));
    Concat(s, es, back + ToCaller(v.client.xid));
  }

  lemma HoldsPeer(o: O.State, i: InstanceId, sub: Label, k: ConnId)
    requires O.RegistryOk(o) && LocalLookup(o, i, sub) == Some(k)
    ensures i in o.regs && k in o.conns && o.conns[k].inst == i
  {
  }

  /** A call that arrives on another instance is answered the same way through a live route to the agent's instance. */
  lemma RemoteDelivery(s: State, c: CallId, i: InstanceId, k: ConnId, xid: Uuid, rid: Uuid, resp: ForwardedResponse)
    requires O.RegistryOk(s.o) && Waiting(s.d, c) && s.d.calls[c].via == Fresh
    requires xid !in s.d.remotes && rid !in s.d.serves
    requires LocalLookup(s.o, s.d.calls[c].inst, s.d.calls[c].sub) == None
    requires LiveRoute(s.o.routes, s.d.calls[c].sub, s.o.now) == Some(i)
    requires LocalLookup(s.o, i, s.d.calls[c].sub) == Some(k) && Up(s.o, k)
    ensures exists es :: Delivered(s, es, c, k, rid, resp)
  {
    HoldsPeer(s.o, i, s.d.calls[c].sub, k);
    hide O.RegistryOk, LocalLookup, LiveRoute, Legal, Play, ServeAll, ToPeer, OverBus, BackOverBus, ToCaller, Tbl, Slot;
    var call := s.d.calls[c];
    var out := ToPeer(c, xid, rid) + OverBus(i, ClusterRequest(xid, call.inst, call.sub, call.req), rid);
    GoesOut(s, c, i, k, xid, rid);
    var s1 := Play(s, out);
    assert InstanceOf(s1.d, rid) == i;
    hide InstanceOf;
    var home := ServeAll(k, rid, call.req, resp)
              + (BackOverBus(call.inst, rid, ClusterResponse(xid, Some(resp), "")) + ToCaller(xid));
    ServesForPeer(s1, rid, resp);
    Concat(s, out, home);
    assert Delivered(s, out + home, c, k, rid, resp);
  }

  // ---- Calls that fail ------------------------------------------------------------------------------

  function ErrorPage(err: string): ForwardedResponse {
    ForwardedResponse(502, map["Content-Type" := ["text/plain; charset=utf-8"]], "tunnel error: " + err)
  }

  /** The text of the error that ends a wait on a connection. */
  function WaitError(branch: Branch): string
    requires !branch.GotReply?
  {
    match branch
    case TimedOut => "gateway: timed out waiting for agent"
    case ContextDone => "context deadline exceeded"
    case ConnClosed => "gateway: no active tunnel for host"
  }

  function GiveUp(c: CallId, rid: Uuid, branch: Branch): seq<Event> {
    [Forward(Serving(Select(rid, branch))), Forward(Serving(Leave(rid)))]
    + [Forward(Serving(Capture(rid)))] + [Forward(Public(EndLocal(c)))]
  }

  lemma StopsWaiting(s: State, rid: Uuid, branch: Branch)
    requires ServeIn(s.d, rid, Written) && !branch.GotReply?
    requires branch.ConnClosed? ==> s.d.serves[rid].conn in s.o.conns && s.o.conns[s.d.serves[rid].conn].closed
    ensures var es := [Forward(Serving(Select(rid, branch))), Forward(Serving(Leave(rid)))];
      && Legal(s, es)
      && var t := Play(s, es);
      && t.o == s.o && t.d == s.d.(serves := t.d.serves, agentPending := t.d.agentPending)
      && ServeIn(t.d, rid, Left(Err(WaitError(branch))))
  {
    var e1, e2 := Forward(Serving(Select(rid, branch))), Forward(Serving(Leave(rid)));
    hide Legal, Play;
    assert ServeIn(Do(s, e1).d, rid, Selected(Err(WaitError(branch))));
    Two(s, e1, e2);
    hide Do, CanDo;
  }

  lemma PageReachesCaller(s: State, c: CallId, rid: Uuid, err: string)
    requires Waiting(s.d, c) && s.d.calls[c].via == ByAgent(rid) && ServeIn(s.d, rid, Left(Err(err)))
    ensures var e1, e2 := Forward(Serving(Capture(rid))), Forward(Public(EndLocal(c)));
      && CanDo(s, e1) && CanDo(Do(s, e1), e2)
      && var t := Do(Do(s, e1), e2);
      && t.o == s.o && t.d.captured == s.d.captured && c in t.d.calls
      && t.d.calls[c].outcome == Some(Answer(ErrorPage(err)))
  {
    hide InstanceOf;
  }

  /** A call that waits for an agent on its own instance can end by each branch of the select that brings no response,
    * and its caller then gets the 502 page of that branch, with nothing captured. */
  lemma WaitCanEnd(s: State, c: CallId, rid: Uuid, branch: Branch)
    requires Waiting(s.d, c) && s.d.calls[c].via == ByAgent(rid) && ServeIn(s.d, rid, Written) && !branch.GotReply?
    requires branch.ConnClosed? ==> s.d.serves[rid].conn in s.o.conns && s.o.conns[s.d.serves[rid].conn].closed
    ensures var es := GiveUp(c, rid, branch);
      && Legal(s, es)
      && var t := Play(s, es);
      && t.d.captured == s.d.captured && c in t.d.calls
      && t.d.calls[c].outcome == Some(Answer(ErrorPage(WaitError(branch))))
  {
    hide Legal, Play, Do, CanDo, ErrorPage, WaitError;
    StopsWaiting(s, rid, branch);
    var es := [Forward(Serving(Select(rid, branch))), Forward(Serving(Leave(rid)))];
    PageReachesCaller(Play(s, es), c, rid, WaitError(branch));
    Extend(s, es, Forward(Serving(Capture(rid))));
    Extend(s, es + [Forward(Serving(Capture(rid)))], Forward(Public(EndLocal(c))));
  }

  /** forwardRemote can stop waiting without a reply in both ways, and its caller then gets that error. */
  lemma RemoteWaitCanEnd(s: State, xid: Uuid, branch: Branch)
    requires xid in s.d.remotes && s.d.remotes[xid].phase == Published && s.d.remotes[xid].call in s.d.calls
    requires branch == TimedOut || branch == ContextDone
    ensures var es := [Forward(Public(Settle(xid, branch))), Forward(Public(EndRemote(xid)))];
      var text := if branch == TimedOut then "gateway: timed out waiting for agent" else "context canceled";
      && Legal(s, es)
      && s.d.remotes[xid].call in Play(s, es).d.calls
      && Play(s, es).d.calls[s.d.remotes[xid].call].outcome == Some(BadGateway("tunnel error: " + text))
  {
    var e1, e2 := Forward(Public(Settle(xid, branch))), Forward(Public(EndRemote(xid)));
    hide Legal, Play;
    assert Do(s, e1).d.remotes[xid].phase.Settled?;
    Two(s, e1, e2);
    hide Do, CanDo;
  }

  /** The refusal of a peer that does not hold the label. */
  function Refusal(xid: Uuid, sub: Label): ClusterResponse {
    ClusterResponse(xid, None, "no active tunnel for " + sub)
  }

  lemma PeerRefuses(s: State, xid: Uuid, rid: Uuid)
    requires xid in s.d.remotes && s.d.remotes[xid].phase == Opened && s.d.remotes[xid].call in s.d.calls
    requires rid !in s.d.serves && s.d.remotes[xid].owner in s.o.regs
    requires LocalLookup(s.o, s.d.remotes[xid].owner, s.d.calls[s.d.remotes[xid].call].sub) == None
    ensures var r := s.d.remotes[xid]; var call := s.d.calls[r.call];
      var es := OverBus(r.owner, RequestFor(s.d, xid), rid);
      && Legal(s, es)
      && var t := Play(s, es);
      && t.o == s.o && (call.inst, Refusal(xid, call.sub)) in t.d.replies
      && t.d == s.d.(remotes := s.d.remotes[xid := r.(phase := Published)], rpc := t.d.rpc, busLog := t.d.busLog,
                     replies := t.d.replies)
  {
    hide LocalLookup;
    var r, cr := s.d.remotes[xid], RequestFor(s.d, xid);
    var e1, e2 := Forward(Public(Publish(xid, true, None))), Forward(Cluster(PeerServe(r.owner, cr, rid, true)));
    hide Legal, Play;
    var s1 := Do(s, e1);
    assert (r.owner, cr) in s1.d.rpc;
    Two(s, e1, e2);
    hide Do, CanDo;
  }

  lemma RefusalArrives(s: State, xid: Uuid, sub: Label)
    requires xid in s.d.remotes && s.d.remotes[xid].phase == Published && s.d.remotes[xid].call in s.d.calls
    requires var i := s.d.calls[s.d.remotes[xid].call].inst;
      && (i, Refusal(xid, sub)) in s.d.replies
      && Slot(Tbl(s.d.clusterPending, i), xid) == None && xid in Tbl(s.d.clusterPending, i)
    ensures var c := s.d.remotes[xid].call;
      var es := [Forward(Cluster(DeliverReply(s.d.calls[c].inst, Refusal(xid, sub))))];
      && Legal(s, es)
      && var t := Play(s, es);
      && t.o == s.o && t.d == s.d.(clusterPending := t.d.clusterPending)
      && Slot(Tbl(t.d.clusterPending, s.d.calls[c].inst), xid) == Some(Refusal(xid, sub))
  {
    var e := Forward(Cluster(DeliverReply(s.d.calls[s.d.remotes[xid].call].inst, Refusal(xid, sub))));
    Extend(s, [], e);
    assert [] + [e] == [e];
  }

  lemma IsRefused(s: State, xid: Uuid, sub: Label)
    requires xid in s.d.remotes && s.d.remotes[xid].phase == Published && s.d.remotes[xid].call in s.d.calls
    requires Slot(Tbl(s.d.clusterPending, s.d.calls[s.d.remotes[xid].call].inst), xid) == Some(Refusal(xid, sub))
    ensures var es := ToCaller(xid); var c := s.d.remotes[xid].call;
      && Legal(s, es)
      && var t := Play(s, es);
      && t.d.socketLog == s.d.socketLog && t.d.captured == s.d.captured && c in t.d.calls
      && t.d.calls[c].outcome == Some(BadGateway("tunnel error: " + ("no active tunnel for " + sub)))
  {
    var e1, e2 := Forward(Public(Settle(xid, GotReply))), Forward(Public(EndRemote(xid)));
    assert |Refusal(xid, sub).error| >= |"no active tunnel for "|;
    hide Legal, Play;
    var s1 := Do(s, e1);
    assert s1.d.remotes[xid].phase.Settled?;
    Two(s, e1, e2);
    hide Do, CanDo;
  }

  /** The call ends with this error, and no agent has seen it. */
  ghost predicate Refused(s: State, es: seq<Event>, c: CallId, text: string) {
    && Legal(s, es)
    && var t := Play(s, es).d;
    && t.socketLog == s.d.socketLog && t.captured == s.d.captured
    && c in t.calls && t.calls[c].outcome == Some(BadGateway(text))
  }

  lemma RefusedOnTheWay(s: State, c: CallId, i: InstanceId, xid: Uuid, rid: Uuid)
    requires Waiting(s.d, c) && s.d.calls[c].via == Fresh && xid !in s.d.remotes && rid !in s.d.serves && i in s.o.regs
    requires LocalLookup(s.o, s.d.calls[c].inst, s.d.calls[c].sub) == None
    requires LiveRoute(s.o.routes, s.d.calls[c].sub, s.o.now) == Some(i)
    requires LocalLookup(s.o, i, s.d.calls[c].sub) == None
    ensures var call := s.d.calls[c];
      var es := ToPeer(c, xid, rid) + OverBus(i, ClusterRequest(xid, call.inst, call.sub, call.req), rid);
      && Legal(s, es)
      && var t := Play(s, es);
      && t.d.socketLog == s.d.socketLog && t.d.captured == s.d.captured
      && xid in t.d.remotes && t.d.remotes[xid] == Remote(c, i, Published, None)
      && c in t.d.calls && t.d.calls[c].inst == call.inst && (call.inst, Refusal(xid, call.sub)) in t.d.replies
      && Slot(Tbl(t.d.clusterPending, call.inst), xid) == None && xid in Tbl(t.d.clusterPending, call.inst)
  {
    hide LocalLookup, LiveRoute, Legal, Play, ToPeer, OverBus, Tbl, Slot, Refusal;
    LeavesForPeer(s, c, i, xid, rid);
    var a := ToPeer(c, xid, rid);
    var s1 := Play(s, a);
    PeerRefuses(s1, xid, rid);
    Concat(s, a, OverBus(i, RequestFor(s1.d, xid), rid));
  }

  /** The caller of a stale route, which names an instance without the label, can get that instance's refusal. */
  lemma StaleRouteIsRefused(s: State, c: CallId, i: InstanceId, xid: Uuid, rid: Uuid)
    requires Waiting(s.d, c) && s.d.calls[c].via == Fresh && xid !in s.d.remotes && rid !in s.d.serves && i in s.o.regs
    requires LocalLookup(s.o, s.d.calls[c].inst, s.d.calls[c].sub) == None
    requires LiveRoute(s.o.routes, s.d.calls[c].sub, s.o.now) == Some(i)
    requires LocalLookup(s.o, i, s.d.calls[c].sub) == None
    ensures exists es :: Refused(s, es, c, "tunnel error: " + ("no active tunnel for " + s.d.calls[c].sub))
  {
    hide LocalLookup, LiveRoute, Legal, Play, ToPeer, OverBus, ToCaller, Tbl, Slot, Refusal;
    var call := s.d.calls[c];
    var out := ToPeer(c, xid, rid) + OverBus(i, ClusterRequest(xid, call.inst, call.sub, call.req), rid);
    RefusedOnTheWay(s, c, i, xid, rid);
    var s1 := Play(s, out);
    RefusalArrives(s1, xid, call.sub);
    var back := [Forward(Cluster(DeliverReply(call.inst, Refusal(xid, call.sub))))];
    Concat(s, out, back);
    IsRefused(Play(s1, back), xid, call.sub);
    Concat(s, out + back, ToCaller(xid));
    assert Refused(s, out + back + ToCaller(xid), c, "tunnel error: " + ("no active tunnel for " + call.sub));
  }

  /** Without a route, or without Redis, a call whose own instance does not hold its label is refused at once. */
  lemma MissingRouteIsRefused(s: State, c: CallId, rid: Uuid, redisOk: bool)
    requires Waiting(s.d, c) && s.d.calls[c].via == Fresh && rid !in s.d.serves
    requires LocalLookup(s.o, s.d.calls[c].inst, s.d.calls[c].sub) == None
    requires !redisOk || LiveRoute(s.o.routes, s.d.calls[c].sub, s.o.now) == None
    ensures Refused(s, [Forward(Public(Lookup(c, rid))), Forward(Public(FindOwner(c, redisOk)))], c,
      "no active tunnel for " + s.d.calls[c].sub)
  {
    hide LiveRoute, LocalLookup;
    var e1, e2 := Forward(Public(Lookup(c, rid))), Forward(Public(FindOwner(c, redisOk)));
    hide Legal, Play;
    assert Do(s, e1) == s.(d := s.d.(calls := s.d.calls[c := s.d.calls[c].(via := Missed)]));
    Two(s, e1, e2);
    hide Do, CanDo;
  }
}
