/** The second group of invariants of the forwarding protocol: where requests are sent,
  * what executions and replies they lead to, and that the pending tables hold exactly the
  * calls in progress.
  */
module Replies {
  import opened TunnelProto
  import opened Wrappers
  import opened Registry
  import opened Pending
  import opened Forwarding
  import opened Links
  import Address
  import O = Ownership

  // ---- Outcomes of cluster requests ---------------------------------------------------------

  lemma ClusterCallEnds(o: O.State, d: Data, p: PublicStep, x: Uuid)
    requires LinkOk(d) && ClusterCallsOk(d) && PublicEnabled(o, d, p) && p.EndRemote?
    ensures ClusterCall(ApplyPublic(o, d, p), x)
  {
  }

  lemma ClusterCallOnRemote(o: O.State, d: Data, p: PublicStep, x: Uuid)
    requires LinkOk(d) && ClusterCallsOk(d) && PublicEnabled(o, d, p) && OnRemote(p) && !p.EndRemote?
    ensures ClusterCall(ApplyPublic(o, d, p), x)
  {
    if x in d.remotes { assert RemoteLinked(d, x) && ClusterCall(d, x); }
    hide Stored, Deleted, RequestFor, Tbl, Slot, LinkOk, ClusterCallsOk, TunnelError, ToResponse, SettleOutcome;
  }

  lemma ClusterCallOffRemote(o: O.State, d: Data, p: PublicStep, x: Uuid)
    requires LinkOk(d) && ClusterCallsOk(d) && PublicEnabled(o, d, p) && !OnRemote(p)
    ensures ClusterCall(ApplyPublic(o, d, p), x)
  {
    if x in d.remotes { assert RemoteLinked(d, x) && ClusterCall(d, x); }
    RemotesSame(o, d, p);
    hide LinkOk, ClusterCallsOk, Address.SubdomainFromHost, LiveRoute, LocalLookup, TunnelError, ToResponse;
  }

  lemma ClusterCallPublic(o: O.State, d: Data, p: PublicStep, x: Uuid)
    requires LinkOk(d) && ClusterCallsOk(d) && PublicEnabled(o, d, p)
    ensures ClusterCall(ApplyPublic(o, d, p), x)
  {
    hide LinkOk, ClusterCallsOk, ClusterCall, ApplyPublic, PublicEnabled;
    if p.EndRemote? {
      ClusterCallEnds(o, d, p, x);
    } else if OnRemote(p) {
      ClusterCallOnRemote(o, d, p, x);
    } else {
      ClusterCallOffRemote(o, d, p, x);
    }
  }

  lemma ClusterCallPeer(o: O.State, d: Data, q: ClusterStep, x: Uuid)
    requires ClusterCallsOk(d) && ClusterEnabled(o, d, q)
    ensures ClusterCall(ApplyCluster(o, d, q), x)
  {
  }

  lemma ClusterCallsKept(o: O.State, d: Data, step: Step)
    requires LinkOk(d) && ClusterCallsOk(d) && Enabled(o, d, step)
    ensures ClusterCallsOk(Apply(o, d, step))
  {
    hide LinkOk, ApplyPublic, ApplyServe, ApplyCluster, ApplyAgent;
    hide PublicEnabled, ServeEnabled, ClusterEnabled, AgentEnabled;
    var t := Apply(o, d, step);
    forall x | x in t.remotes
      ensures ClusterCall(t, x)
    {
      match step
      case Public(p) => ClusterCallPublic(o, d, p, x);
      case Cluster(q) => ClusterCallPeer(o, d, q, x);
      case _ => assert ClusterCall(d, x);
    }
  }

  // ---- Routing ------------------------------------------------------------------------------

  /** A serving invocation runs on a connection registered with the label of its call, on the instance that
    * looked it up, and carries the request of its call. */
  ghost predicate Routed(o: O.State, d: Data, rid: Uuid) {
    rid in d.serves ==>
      var s := d.serves[rid];
      && s.conn in o.conns && CallOf(d, rid) in d.calls
      && o.conns[s.conn].sub == d.calls[CallOf(d, rid)].sub
      && s.req == d.calls[CallOf(d, rid)].req
      && o.conns[s.conn].inst == InstanceOf(d, rid)
  }

  ghost predicate RoutedOk(o: O.State, d: Data) {
    forall rid | rid in d.serves :: Routed(o, d, rid)
  }

  lemma RoutedLookup(o: O.State, d: Data, p: PublicStep, rid: Uuid)
    requires O.RegistryOk(o) && PublicEnabled(o, d, p) && rid !in d.serves
    ensures Routed(o, ApplyPublic(o, d, p), rid)
  {
    if !p.Lookup? {
      hide ApplyPublic, PublicEnabled, O.RegistryOk;
      ServesSame(o, d, p);
    }
  }

  lemma RoutedPeer(o: O.State, d: Data, q: ClusterStep, rid: Uuid)
    requires O.RegistryOk(o) && LinkOk(d) && BusOk(d) && ClusterEnabled(o, d, q) && rid !in d.serves
    ensures Routed(o, ApplyCluster(o, d, q), rid)
  {
    hide ToResponse, BusOk, LinkOk;
    if q.PeerServe? { InFlight(d, q.i, q.cr); }
  }

  /** The references a serving invocation was made with stay put. */
  lemma ReferencesStay(o: O.State, d: Data, step: Step, rid: Uuid)
    requires LinkOk(d) && BusOk(d) && ClusterCallsOk(d) && Enabled(o, d, step) && rid in d.serves
    ensures var t := Apply(o, d, step); var c := CallOf(d, rid);
      && rid in t.serves && CallOf(t, rid) == c && InstanceOf(t, rid) == InstanceOf(d, rid)
      && t.serves[rid].conn == d.serves[rid].conn && t.serves[rid].req == d.serves[rid].req
      && t.serves[rid].client == d.serves[rid].client
      && c in d.calls && c in t.calls
      && t.calls[c].sub == d.calls[c].sub && t.calls[c].req == d.calls[c].req && t.calls[c].inst == d.calls[c].inst
  {
    hide Apply, Enabled, BusOk, ClusterCallsOk;
    assert ServeLinked(d, rid);
    ServeGrow(o, d, step, rid);
    CallGrow(o, d, step, CallOf(d, rid));
    match d.serves[rid].client
    case Caller(c) =>
    case Peer(x, _) => RemoteGrow(o, d, step, x);
  }

  lemma RoutedKept(o: O.State, d: Data, step: Step)
    requires O.RegistryOk(o) && LinkOk(d) && BusOk(d) && ClusterCallsOk(d) && RoutedOk(o, d) && Enabled(o, d, step)
    ensures RoutedOk(o, Apply(o, d, step))
  {
    var t := Apply(o, d, step);
    hide O.RegistryOk, LinkOk, BusOk, ClusterCallsOk;
    hide ApplyPublic, ApplyServe, ApplyCluster, ApplyAgent, PublicEnabled, ServeEnabled, ClusterEnabled, AgentEnabled;
    forall rid | rid in t.serves
      ensures Routed(o, t, rid)
    {
      if rid in d.serves {
        assert Routed(o, d, rid);
        ReferencesStay(o, d, step, rid);
      } else {
        hide Routed;
        match step
        case Public(p) => RoutedLookup(o, d, p, rid);
        case Cluster(q) => RoutedPeer(o, d, q, rid);
        case Serving(v) => ServeKeys(o, d, v);
        case Agent(_) =>
      }
    }
  }

  // ---- Sockets --------------------------------------------------------------------------------

  /** The frame is the request of a serving invocation, on its connection, which has written it. */
  ghost predicate WrittenFrame(d: Data, f: Frame) {
    && f.env.RequestForward? && f.env.requestID in d.serves
    && d.serves[f.env.requestID].conn == f.conn && d.serves[f.env.requestID].req == f.env.req
    && Order(d.serves[f.env.requestID].phase) >= 2
  }

  ghost predicate ExecutedFor(d: Data, rid: Uuid) {
    rid in d.executed ==>
      && rid in d.serves && d.serves[rid].conn == d.executed[rid].conn && d.serves[rid].req == d.executed[rid].req
      && Order(d.serves[rid].phase) >= 2
  }

  /** A reply frame carries the response of an execution on the same connection under the same id. */
  ghost predicate ReplyFrame(d: Data, f: Frame) {
    && f.env.ResponseForward? && f.env.requestID in d.executed
    && d.executed[f.env.requestID].conn == f.conn && d.executed[f.env.requestID].resp == f.env.resp
  }

  ghost predicate SocketOk(d: Data) {
    && (forall f | f in d.toAgent :: WrittenFrame(d, f) && f.env.requestID !in d.executed)
    && (forall j | 0 <= j < |d.socketLog| :: WrittenFrame(d, d.socketLog[j]))
    && (forall j, l | 0 <= j < l < |d.socketLog| :: d.socketLog[j].env.requestID != d.socketLog[l].env.requestID)
    && (forall rid | rid in d.executed :: ExecutedFor(d, rid))
    && (forall f | f in d.fromAgent :: ReplyFrame(d, f))
  }

  lemma WrittenFrameKept(o: O.State, d: Data, step: Step, f: Frame)
    requires Enabled(o, d, step) && WrittenFrame(d, f)
    ensures WrittenFrame(Apply(o, d, step), f)
  {
    hide Apply, Enabled;
    ServeGrow(o, d, step, f.env.requestID);
  }

  lemma WriteUpdate(o: O.State, d: Data, v: ServeStep)
    requires ServeEnabled(o, d, v)
    ensures var t := ApplyServe(o, d, v);
      if v.Write? then
        var f := Frame(d.serves[v.rid].conn, RequestForward(v.rid, d.serves[v.rid].req));
        && t.toAgent <= d.toAgent + {f} && t.socketLog == d.socketLog + [f] && WrittenFrame(t, f)
        && Order(d.serves[v.rid].phase) == 1
      else t.toAgent == d.toAgent && t.socketLog == d.socketLog
  {
    hide ForwardOutcome;
  }

  lemma HandleUpdate(o: O.State, d: Data, a: AgentStep)
    requires SocketOk(d) && AgentEnabled(o, d, a)
    ensures var t := ApplyAgent(o, d, a);
      && t.toAgent <= d.toAgent
      && (forall rid | rid in d.executed :: rid in t.executed && t.executed[rid] == d.executed[rid])
      && (forall f | f in t.toAgent :: f.env.requestID !in t.executed)
      && (forall rid | rid in t.executed && rid !in d.executed :: ExecutedFor(t, rid))
      && (forall f | f in t.fromAgent && f !in d.fromAgent :: ReplyFrame(t, f))
  {
  }

  lemma SocketServe(o: O.State, d: Data, v: ServeStep)
    requires SocketOk(d) && ServeEnabled(o, d, v)
    ensures SocketOk(ApplyServe(o, d, v))
  {
    var step := Serving(v);
    var t := Apply(o, d, step);
    WriteUpdate(o, d, v);
    hide ApplyServe, ServeEnabled, WrittenFrame;
    forall f | f in t.toAgent
      ensures WrittenFrame(t, f) && f.env.requestID !in t.executed
    {
      if f in d.toAgent { WrittenFrameKept(o, d, step, f); } else { NotExecuted(d, v.rid); }
    }
    forall j | 0 <= j < |d.socketLog|
      ensures WrittenFrame(t, d.socketLog[j])
    {
      WrittenFrameKept(o, d, step, d.socketLog[j]);
    }
    if v.Write? { NotLogged(d, v.rid); }
    forall rid | rid in t.executed
      ensures ExecutedFor(t, rid)
    {
      assert ExecutedFor(d, rid);
      ServeGrow(o, d, step, rid);
    }
    forall f | f in t.fromAgent
      ensures ReplyFrame(t, f)
    {
      assert ReplyFrame(d, f);
    }
  }

  lemma NotExecuted(d: Data, rid: Uuid)
    requires SocketOk(d) && rid in d.serves && Order(d.serves[rid].phase) < 2
    ensures rid !in d.executed
  {
    assert rid in d.executed ==> ExecutedFor(d, rid);
  }

  lemma NotLogged(d: Data, rid: Uuid)
    requires SocketOk(d) && rid in d.serves && Order(d.serves[rid].phase) < 2
    ensures forall j | 0 <= j < |d.socketLog| :: d.socketLog[j].env.requestID != rid
  {
  }

  lemma SocketOther(o: O.State, d: Data, step: Step)
    requires SocketOk(d) && Enabled(o, d, step) && !step.Serving?
    ensures SocketOk(Apply(o, d, step))
  {
    var t := Apply(o, d, step);
    if step.Agent? { HandleUpdate(o, d, step.a); }
    hide ApplyPublic, ApplyCluster, ApplyAgent, PublicEnabled, ClusterEnabled, AgentEnabled, WrittenFrame;
    forall f | f in t.toAgent
      ensures WrittenFrame(t, f) && f.env.requestID !in t.executed
    {
      WrittenFrameKept(o, d, step, f);
    }
    forall j | 0 <= j < |t.socketLog|
      ensures WrittenFrame(t, t.socketLog[j])
    {
      WrittenFrameKept(o, d, step, d.socketLog[j]);
    }
    forall rid | rid in t.executed
      ensures ExecutedFor(t, rid)
    {
      if rid in d.executed {
        assert ExecutedFor(d, rid);
        ServeGrow(o, d, step, rid);
      }
    }
    forall f | f in t.fromAgent
      ensures ReplyFrame(t, f)
    {
      if f in d.fromAgent { assert ReplyFrame(d, f); }
    }
  }

  lemma SocketKept(o: O.State, d: Data, step: Step)
    requires SocketOk(d) && Enabled(o, d, step)
    ensures SocketOk(Apply(o, d, step))
  {
    hide SocketOk, ApplyPublic, ApplyServe, ApplyCluster, ApplyAgent;
    if step.Serving? { SocketServe(o, d, step.v); } else { SocketOther(o, d, step); }
  }

  // ---- The pending table of a connection ------------------------------------------------------

  /** The table of a connection holds an entry exactly for the forward calls between Store and the deferred
    * Delete; a full channel holds the response of the execution under that id on that connection. */
  ghost predicate PendingEntry(d: Data, k: ConnId, rid: Uuid) {
    && (rid in Tbl(d.agentPending, k) <==>
      rid in d.serves && d.serves[rid].conn == k && 1 <= Order(d.serves[rid].phase) <= 3)
    && (Slot(Tbl(d.agentPending, k), rid).Some? ==>
      && rid in d.executed && d.executed[rid].conn == k
      && d.executed[rid].resp == Slot(Tbl(d.agentPending, k), rid).value)
  }

  ghost predicate AgentPendingOk(d: Data) {
    forall k, rid :: PendingEntry(d, k, rid)
  }

  /** A forward call that returned a response returned the one of its own execution. */
  ghost predicate ResultFor(d: Data, rid: Uuid) {
    rid in d.serves && ResultOf(d.serves[rid].phase).Some? && ResultOf(d.serves[rid].phase).value.Ok? ==>
      rid in d.executed && d.executed[rid].resp == ResultOf(d.serves[rid].phase).value.value
  }

  ghost predicate ResultsOk(d: Data) {
    forall rid | rid in d.serves :: ResultFor(d, rid)
  }

  /** Store and Delete touch one entry of one connection's table, and move its call in and out of the window. */
  lemma PendingEnterLeave(o: O.State, d: Data, v: ServeStep, k: ConnId, rid: Uuid)
    requires PendingEntry(d, k, rid) && ServeEnabled(o, d, v) && (v.Enter? || v.Leave?)
    ensures PendingEntry(ApplyServe(o, d, v), k, rid)
  {
  }

  lemma PendingServe(o: O.State, d: Data, v: ServeStep, k: ConnId, rid: Uuid)
    requires PendingEntry(d, k, rid) && ServeEnabled(o, d, v)
    ensures PendingEntry(ApplyServe(o, d, v), k, rid)
  {
    if v.Enter? || v.Leave? {
      hide PendingEntry;
      PendingEnterLeave(o, d, v, k, rid);
    } else {
      hide ForwardOutcome;
      assert ApplyServe(o, d, v).agentPending == d.agentPending;
      assert ApplyServe(o, d, v).executed == d.executed;
      var t := ApplyServe(o, d, v);
      assert t.serves == d.serves[v.rid := d.serves[v.rid].(phase := t.serves[v.rid].phase)];
    }
  }

  lemma PendingAgent(o: O.State, d: Data, a: AgentStep, k: ConnId, rid: Uuid)
    requires SocketOk(d) && PendingEntry(d, k, rid) && AgentEnabled(o, d, a)
    ensures PendingEntry(ApplyAgent(o, d, a), k, rid)
  {
    if a.Handle? {
      assert a.env.requestID !in d.executed;
    } else {
      assert ReplyFrame(d, Frame(a.k, a.env));
    }
    hide SocketOk;
  }

  /** A new serving invocation starts before its Store. */
  lemma NewServe(o: O.State, d: Data, step: Step, rid: Uuid)
    requires Enabled(o, d, step) && (step.Public? || step.Cluster?)
    ensures var t := Apply(o, d, step);
      (rid in d.serves ==> rid in t.serves && t.serves[rid] == d.serves[rid])
      && (rid in t.serves && rid !in d.serves ==> t.serves[rid].phase == Looked)
  {
    hide ApplyPublic, ApplyCluster;
    match step
    case Public(p) => NewServePublic(o, d, p, rid);
    case Cluster(q) => NewServePeer(o, d, q, rid);
  }

  lemma NewServePublic(o: O.State, d: Data, p: PublicStep, rid: Uuid)
    requires PublicEnabled(o, d, p)
    ensures var t := ApplyPublic(o, d, p);
      (rid in d.serves ==> rid in t.serves && t.serves[rid] == d.serves[rid])
      && (rid in t.serves && rid !in d.serves ==> t.serves[rid].phase == Looked)
  {
    hide Address.SubdomainFromHost, LiveRoute, LocalLookup, TunnelError, ToResponse, SettleOutcome;
  }

  lemma NewServePeer(o: O.State, d: Data, q: ClusterStep, rid: Uuid)
    requires ClusterEnabled(o, d, q)
    ensures var t := ApplyCluster(o, d, q);
      (rid in d.serves ==> rid in t.serves && t.serves[rid] == d.serves[rid])
      && (rid in t.serves && rid !in d.serves ==> t.serves[rid].phase == Looked)
  {
    hide LocalLookup, ToResponse;
  }

  lemma AgentPendingKept(o: O.State, d: Data, step: Step)
    requires SocketOk(d) && AgentPendingOk(d) && Enabled(o, d, step)
    ensures AgentPendingOk(Apply(o, d, step))
  {
    var t := Apply(o, d, step);
    hide SocketOk, ApplyPublic, ApplyServe, ApplyCluster, ApplyAgent, PublicEnabled, ServeEnabled;
    hide ClusterEnabled, AgentEnabled;
    forall k, rid
      ensures PendingEntry(t, k, rid)
    {
      assert PendingEntry(d, k, rid);
      match step
      case Serving(v) => PendingServe(o, d, v, k, rid);
      case Agent(a) => PendingAgent(o, d, a, k, rid);
      case Public(p) => NewServe(o, d, step, rid);
      case Cluster(q) => NewServe(o, d, step, rid);
    }
  }

  lemma ResultServe(o: O.State, d: Data, v: ServeStep, rid: Uuid)
    requires ServeEnabled(o, d, v) && ResultFor(d, rid) && rid in d.serves && PendingEntry(d, d.serves[rid].conn, rid)
    ensures ResultFor(ApplyServe(o, d, v), rid)
  {
  }

  lemma ResultsKept(o: O.State, d: Data, step: Step)
    requires SocketOk(d) && AgentPendingOk(d) && ResultsOk(d) && Enabled(o, d, step)
    ensures ResultsOk(Apply(o, d, step))
  {
    var t := Apply(o, d, step);
    if step.Agent? { HandleUpdate(o, d, step.a); }
    hide SocketOk, ApplyPublic, ApplyServe, ApplyCluster, ApplyAgent, PublicEnabled, ServeEnabled;
    hide ClusterEnabled, AgentEnabled;
    forall rid | rid in t.serves
      ensures ResultFor(t, rid)
    {
      if rid in d.serves { assert ResultFor(d, rid); }
      match step
      case Serving(v) =>
        ServeKeys(o, d, v);
        assert PendingEntry(d, d.serves[rid].conn, rid);
        ResultServe(o, d, v, rid);
      case Agent(a) =>
      case Public(p) => NewServe(o, d, step, rid);
      case Cluster(q) => NewServe(o, d, step, rid);
    }
  }

  // ---- The pending table of an instance ---------------------------------------------------------

  /** The peer has served the cluster request, and this is the response it made of the result. */
  ghost predicate ServedReply(d: Data, x: Uuid, resp: ForwardedResponse) {
    && x in d.remotes && d.remotes[x].served.Some? && d.remotes[x].served.value in d.serves
    && d.serves[d.remotes[x].served.value].phase.Served?
    && resp == ToResponse(d.serves[d.remotes[x].served.value].phase.res)
  }

  /** The cluster request was published, nobody served it, and no message is left from which anybody could. */
  ghost predicate Refused(d: Data, x: Uuid) {
    && x in d.remotes && d.remotes[x].served == None && d.remotes[x].phase != Opened
    && forall m | m in d.rpc :: m.1.requestID != x
  }

  /** A reply holds either the refusal of its request or the response of the one invocation that served it. */
  ghost predicate ReplyFor(d: Data, rep: ClusterResponse) {
    && rep.requestID in d.remotes
    && if rep.error != "" then rep.resp == None && Refused(d, rep.requestID)
      else rep.resp.Some? && ServedReply(d, rep.requestID, rep.resp.value)
  }

  /** The table of an instance holds an entry exactly for the forwardRemote calls it has in progress. */
  ghost predicate ClusterEntry(d: Data, i: InstanceId, x: Uuid) {
    x in Tbl(d.clusterPending, i) <==>
      x in d.remotes && d.remotes[x].call in d.calls && d.calls[d.remotes[x].call].inst == i
        && !d.remotes[x].phase.Ended?
  }

  ghost predicate ClusterSlot(d: Data, i: InstanceId, x: Uuid) {
    var slot := Slot(Tbl(d.clusterPending, i), x);
    slot.Some? ==> slot.value.requestID == x && ReplyFor(d, slot.value)
  }

  ghost predicate RepliesOk(d: Data) {
    && (forall m | m in d.replies ::
      ReplyFor(d, m.1) && d.remotes[m.1.requestID].call in d.calls
        && d.calls[d.remotes[m.1.requestID].call].inst == m.0)
    && (forall i, x :: ClusterEntry(d, i, x) && ClusterSlot(d, i, x))
  }

  /** An answer is the response the request was served with; an error that a reply brought means it was not served. */
  ghost predicate OutcomeFor(d: Data, x: Uuid, out: Outcome, why: Cause) {
    match out
    case Answer(resp) => why.Replied? && ServedReply(d, x, resp)
    case BadGateway(_) => why.Replied? ==> Refused(d, x)
    case Panicked => false
  }

  /** The outcome of forwardRemote is an error, or the response its cluster request was served with; it never panics. */
  ghost predicate RemoteOutcome(d: Data, x: Uuid) {
    x in d.remotes ==>
      match d.remotes[x].phase
      case Settled(out, why) => OutcomeFor(d, x, out, why)
      case Ended(out, why) => OutcomeFor(d, x, out, why)
      case _ => true
  }

  ghost predicate LocalOutcome(d: Data, c: CallId) {
    c in d.calls && d.calls[c].outcome.Some? ==>
      match d.calls[c].via
      case ByAgent(rid) =>
        && rid in d.serves && d.serves[rid].phase.Served?
        && d.calls[c].outcome.value == Answer(ToResponse(d.serves[rid].phase.res))
      case ByPeer(_, _) => true
      case _ => d.calls[c].outcome.value.BadGateway?
  }

  ghost predicate OutcomesOk(d: Data) {
    && (forall x | x in d.remotes :: RemoteOutcome(d, x))
    && (forall c | c in d.calls :: LocalOutcome(d, c))
  }

  lemma ServedReplyKept(o: O.State, d: Data, step: Step, x: Uuid, resp: ForwardedResponse)
    requires BusOk(d) && Enabled(o, d, step) && ServedReply(d, x, resp)
    ensures ServedReply(Apply(o, d, step), x, resp)
  {
    hide Apply, Enabled, BusOk, ToResponse;
    RemoteGrow(o, d, step, x);
    ServeGrow(o, d, step, d.remotes[x].served.value);
  }

  lemma RefusedKept(o: O.State, d: Data, step: Step, x: Uuid)
    requires LinkOk(d) && BusOk(d) && Enabled(o, d, step) && Refused(d, x)
    ensures Refused(Apply(o, d, step), x)
  {
    var t := Apply(o, d, step);
    hide ApplyPublic, ApplyServe, ApplyCluster, ApplyAgent, LinkOk;
    hide ServeEnabled, ClusterEnabled, AgentEnabled;
    RemoteGrow(o, d, step, x);
    if t.remotes[x].served != d.remotes[x].served {
      ServedByPeer(o, d, step, x);
    }
    hide BusOk;
    forall m | m in t.rpc
      ensures m.1.requestID != x
    {
      match step
      case Public(p) => PublishUpdate(o, d, p);
      case Cluster(q) => TakeUpdate(o, d, q);
      case _ =>
    }
  }

  lemma OutcomeForKept(o: O.State, d: Data, step: Step, x: Uuid, out: Outcome, why: Cause)
    requires LinkOk(d) && BusOk(d) && Enabled(o, d, step) && OutcomeFor(d, x, out, why)
    ensures OutcomeFor(Apply(o, d, step), x, out, why)
  {
    hide Apply, Enabled, LinkOk, BusOk, ServedReply, Refused;
    match out
    case Answer(resp) => ServedReplyKept(o, d, step, x, resp);
    case BadGateway(_) => if why.Replied? { RefusedKept(o, d, step, x); }
  }

  lemma ReplyForKept(o: O.State, d: Data, step: Step, rep: ClusterResponse)
    requires LinkOk(d) && BusOk(d) && Enabled(o, d, step) && ReplyFor(d, rep)
    ensures ReplyFor(Apply(o, d, step), rep)
  {
    hide Apply, Enabled, LinkOk, BusOk, ServedReply, Refused;
    RemoteGrow(o, d, step, rep.requestID);
    if rep.error == "" { ServedReplyKept(o, d, step, rep.requestID, rep.resp.value); }
    else { RefusedKept(o, d, step, rep.requestID); }
  }

  lemma EntryBegin(o: O.State, d: Data, p: PublicStep, i: InstanceId, x: Uuid)
    requires LinkOk(d) && PublicEnabled(o, d, p) && p.BeginRemote? && ClusterEntry(d, i, x)
    ensures var t := ApplyPublic(o, d, p);
      && ClusterEntry(t, i, x)
      && (Slot(Tbl(t.clusterPending, i), x).Some? ==>
        Slot(Tbl(t.clusterPending, i), x) == Slot(Tbl(d.clusterPending, i), x))
  {
    if x in d.remotes { assert RemoteLinked(d, x); }
    hide LinkOk;
  }

  lemma EntryEnd(d: Data, xid: Uuid, i: InstanceId, x: Uuid)
    requires LinkOk(d) && xid in d.remotes && d.remotes[xid].phase.Settled? && d.remotes[xid].call in d.calls
    requires ClusterEntry(d, i, x)
    ensures var t := DoEndRemote(d, xid);
      && ClusterEntry(t, i, x)
      && (Slot(Tbl(t.clusterPending, i), x).Some? ==>
        Slot(Tbl(t.clusterPending, i), x) == Slot(Tbl(d.clusterPending, i), x))
  {
  }

  lemma EntryPublic(o: O.State, d: Data, p: PublicStep, i: InstanceId, x: Uuid)
    requires LinkOk(d) && ClusterCallsOk(d) && PublicEnabled(o, d, p) && ClusterEntry(d, i, x) && ClusterSlot(d, i, x)
    ensures var t := ApplyPublic(o, d, p);
      && ClusterEntry(t, i, x)
      && (Slot(Tbl(t.clusterPending, i), x).Some? ==>
        Slot(Tbl(t.clusterPending, i), x) == Slot(Tbl(d.clusterPending, i), x))
  {
    hide ClusterCallsOk;
    if p.BeginRemote? {
      hide LinkOk, ClusterEntry, ClusterSlot, ApplyPublic, PublicEnabled;
      EntryBegin(o, d, p, i, x);
    } else if p.EndRemote? {
      hide LinkOk, ClusterEntry, ClusterSlot, DoEndRemote;
      EntryEnd(d, p.xid, i, x);
    } else {
      if x in d.remotes { assert RemoteLinked(d, x); CallGrowPublic(o, d, p, d.remotes[x].call); }
      hide LinkOk, ClusterSlot;
      PublicTables(o, d, p, x);
    }
  }

  lemma TablesSame(o: O.State, d: Data, p: PublicStep)
    requires PublicEnabled(o, d, p) && !p.BeginRemote? && !p.EndRemote?
    ensures ApplyPublic(o, d, p).clusterPending == d.clusterPending
  {
    hide Stored, Deleted, RequestFor, Tbl, Slot;
    hide Address.SubdomainFromHost, LiveRoute, LocalLookup, TunnelError, ToResponse, SettleOutcome;
  }

  lemma RemotesMove(o: O.State, d: Data, p: PublicStep, x: Uuid)
    requires PublicEnabled(o, d, p) && (p.Publish? || p.Settle?)
    ensures var t := ApplyPublic(o, d, p);
      && t.remotes.Keys == d.remotes.Keys
      && (x in d.remotes ==> t.remotes[x].call == d.remotes[x].call)
      && (x in d.remotes ==> (t.remotes[x].phase.Ended? <==> d.remotes[x].phase.Ended?))
  {
    hide Stored, Deleted, RequestFor, Tbl, Slot, TunnelError, SettleOutcome;
  }

  lemma PublicTables(o: O.State, d: Data, p: PublicStep, x: Uuid)
    requires PublicEnabled(o, d, p) && !p.BeginRemote? && !p.EndRemote?
    ensures var t := ApplyPublic(o, d, p);
      && t.clusterPending == d.clusterPending && t.remotes.Keys == d.remotes.Keys
      && (x in d.remotes ==> t.remotes[x].call == d.remotes[x].call)
      && (x in d.remotes ==> (t.remotes[x].phase.Ended? <==> d.remotes[x].phase.Ended?))
  {
    hide ApplyPublic, PublicEnabled;
    TablesSame(o, d, p);
    if p.Publish? || p.Settle? { RemotesMove(o, d, p, x); } else { RemotesSame(o, d, p); }
  }

  lemma EntryCluster(o: O.State, d: Data, q: ClusterStep, i: InstanceId, x: Uuid)
    requires ClusterEnabled(o, d, q) && ClusterEntry(d, i, x)
    ensures var t := ApplyCluster(o, d, q); var slot := Slot(Tbl(t.clusterPending, i), x);
      && ClusterEntry(t, i, x)
      && (slot.Some? ==>
        || slot == Slot(Tbl(d.clusterPending, i), x)
        || (q.DeliverReply? && i == q.i && x == q.rep.requestID && slot.value == q.rep))
  {
    hide LocalLookup, ToResponse;
  }

  lemma EntryKept(o: O.State, d: Data, step: Step, i: InstanceId, x: Uuid)
    requires LinkOk(d) && BusOk(d) && ClusterCallsOk(d) && RepliesOk(d) && Enabled(o, d, step)
    ensures ClusterEntry(Apply(o, d, step), i, x) && ClusterSlot(Apply(o, d, step), i, x)
  {
    var t := Apply(o, d, step);
    var slot := Slot(Tbl(t.clusterPending, i), x);
    assert ClusterEntry(d, i, x) && ClusterSlot(d, i, x);
    hide LinkOk, BusOk, ClusterCallsOk, ApplyPublic, ApplyServe, ApplyCluster, ApplyAgent;
    match step {
      case Public(p) => EntryPublic(o, d, p, i, x);
      case Cluster(q) =>
        EntryCluster(o, d, q, i, x);
        if q.DeliverReply? { assert ReplyFor(d, (q.i, q.rep).1); }
      case _ =>
    }
    hide RepliesOk, PublicEnabled, ServeEnabled, ClusterEnabled, AgentEnabled, ReplyFor, ClusterEntry;
    if slot.Some? { ReplyForKept(o, d, step, slot.value); }
  }

  lemma ReplyNew(o: O.State, d: Data, q: ClusterStep, m: (InstanceId, ClusterResponse))
    requires LinkOk(d) && BusOk(d) && ClusterEnabled(o, d, q) && m in ApplyCluster(o, d, q).replies && m !in d.replies
    ensures var t := ApplyCluster(o, d, q);
      ReplyFor(t, m.1) && t.remotes[m.1.requestID].call in t.calls && t.calls[t.remotes[m.1.requestID].call].inst == m.0
  {
  }

  lemma RepliesKept(o: O.State, d: Data, step: Step)
    requires LinkOk(d) && BusOk(d) && ClusterCallsOk(d) && RepliesOk(d) && Enabled(o, d, step)
    ensures RepliesOk(Apply(o, d, step))
  {
    var t := Apply(o, d, step);
    hide LinkOk, BusOk, ClusterCallsOk, ApplyPublic, ApplyServe, ApplyCluster, ApplyAgent, ReplyFor;
    hide PublicEnabled, ServeEnabled, ClusterEnabled, AgentEnabled;
    forall m | m in t.replies
      ensures ReplyFor(t, m.1) && t.remotes[m.1.requestID].call in t.calls
      ensures t.calls[t.remotes[m.1.requestID].call].inst == m.0
    {
      if m in d.replies {
        assert ReplyFor(d, m.1);
        ReplyForKept(o, d, step, m.1);
        RemoteGrow(o, d, step, m.1.requestID);
        CallGrow(o, d, step, d.remotes[m.1.requestID].call);
      } else {
        ReplyNew(o, d, step.q, m);
      }
    }
    hide RepliesOk;
    forall i, x
      ensures ClusterEntry(t, i, x) && ClusterSlot(t, i, x)
    {
      EntryKept(o, d, step, i, x);
    }
  }

  // ---- Outcomes -----------------------------------------------------------------------------------

  lemma RemoteOutcomePublic(o: O.State, d: Data, p: PublicStep, x: Uuid)
    requires RemoteOutcome(d, x) && PublicEnabled(o, d, p) && (forall i, y :: ClusterSlot(d, i, y))
    ensures var t := ApplyPublic(o, d, p);
      x in t.remotes ==>
        match t.remotes[x].phase
        case Settled(out, why) => OutcomeFor(d, x, out, why)
        case Ended(out, why) => OutcomeFor(d, x, out, why)
        case _ => true
  {
    if p.Settle? { assert ClusterSlot(d, d.calls[d.remotes[p.xid].call].inst, p.xid); }
    hide Address.SubdomainFromHost, LiveRoute, LocalLookup, ToResponse, ServedReply, Refused;
    if !OnRemote(p) {
      hide ApplyPublic, PublicEnabled, OutcomeFor;
      RemotesSame(o, d, p);
    }
  }

  lemma RemotePhases(o: O.State, d: Data, q: ClusterStep, x: Uuid)
    requires ClusterEnabled(o, d, q) && x in ApplyCluster(o, d, q).remotes
    ensures x in d.remotes && ApplyCluster(o, d, q).remotes[x].phase == d.remotes[x].phase
  {
    hide LocalLookup, ToResponse;
  }

  lemma RemoteOutcomeKept(o: O.State, d: Data, step: Step, x: Uuid)
    requires LinkOk(d) && BusOk(d) && RepliesOk(d) && RemoteOutcome(d, x) && Enabled(o, d, step)
    ensures RemoteOutcome(Apply(o, d, step), x)
  {
    var t := Apply(o, d, step);
    hide LinkOk, BusOk, ApplyPublic, ApplyServe, ApplyCluster, ApplyAgent, ServedReply, Refused;
    hide PublicEnabled, ServeEnabled, ClusterEnabled, AgentEnabled;
    if x in t.remotes {
      match step {
        case Public(p) => RemoteOutcomePublic(o, d, p, x);
        case Cluster(q) => RemotePhases(o, d, q, x);
        case _ =>
      }
      hide RepliesOk;
      match t.remotes[x].phase
      case Settled(out, why) => OutcomeForKept(o, d, step, x, out, why);
      case Ended(out, why) => OutcomeForKept(o, d, step, x, out, why);
      case _ =>
    }
  }

  lemma LocalOutcomeOnRemote(o: O.State, d: Data, p: PublicStep, c: CallId)
    requires LinkOk(d) && PublicEnabled(o, d, p) && OnRemote(p) && (c in d.calls ==> d.calls[c].outcome == None)
    ensures LocalOutcome(ApplyPublic(o, d, p), c)
  {
    if p.EndRemote? { assert RemoteLinked(d, p.xid); }
    hide LinkOk, TunnelError, ToResponse, SettleOutcome, Stored, Deleted, RequestFor, Tbl, Slot;
  }

  lemma LocalOutcomeNew(o: O.State, d: Data, p: PublicStep, c: CallId)
    requires LinkOk(d) && PublicEnabled(o, d, p) && (c in d.calls ==> d.calls[c].outcome == None)
    ensures LocalOutcome(ApplyPublic(o, d, p), c)
  {
    hide LinkOk, Address.SubdomainFromHost, LiveRoute, LocalLookup, TunnelError, ToResponse, SettleOutcome;
    if OnRemote(p) {
      hide ApplyPublic, PublicEnabled, LocalOutcome;
      LocalOutcomeOnRemote(o, d, p, c);
    }
  }

  lemma LocalOutcomeKept(o: O.State, d: Data, step: Step, c: CallId)
    requires LinkOk(d) && ClusterCallsOk(d) && LocalOutcome(d, c) && Enabled(o, d, step)
    ensures LocalOutcome(Apply(o, d, step), c)
  {
    hide LinkOk, ClusterCallsOk, ApplyPublic, ApplyServe, ApplyCluster, ApplyAgent, ToResponse;
    hide PublicEnabled, ServeEnabled, ClusterEnabled, AgentEnabled;
    if c in d.calls && d.calls[c].outcome.Some? {
      CallGrow(o, d, step, c);
      if d.calls[c].via.ByAgent? { ServeGrow(o, d, step, d.calls[c].via.rid); }
    } else if step.Public? {
      LocalOutcomeNew(o, d, step.p, c);
    }
  }

  lemma OutcomesKept(o: O.State, d: Data, step: Step)
    requires LinkOk(d) && BusOk(d) && ClusterCallsOk(d) && RepliesOk(d) && OutcomesOk(d) && Enabled(o, d, step)
    ensures OutcomesOk(Apply(o, d, step))
  {
    var t := Apply(o, d, step);
    hide LinkOk, BusOk, ClusterCallsOk, RepliesOk, Apply, Enabled, RemoteOutcome, LocalOutcome;
    forall x | x in t.remotes
      ensures RemoteOutcome(t, x)
    {
      NewRemoteHasNoOutcome(d, x);
      RemoteOutcomeKept(o, d, step, x);
    }
    forall c | c in t.calls
      ensures LocalOutcome(t, c)
    {
      NewCallHasNoOutcome(d, c);
      LocalOutcomeKept(o, d, step, c);
    }
  }

  lemma NewRemoteHasNoOutcome(d: Data, x: Uuid)
    ensures x !in d.remotes ==> RemoteOutcome(d, x)
  {
  }

  lemma NewCallHasNoOutcome(d: Data, c: CallId)
    ensures c !in d.calls ==> LocalOutcome(d, c)
  {
  }

  // ---- Captures -------------------------------------------------------------------------------------

  /** The entry is the request and response of a finished forward call, recorded by the instance that holds the
    * connection, for the connection's tunnel. */
  ghost predicate CapturedFor(o: O.State, d: Data, e: Captured) {
    && e.rid in d.serves && d.serves[e.rid].phase == Served(Ok(e.resp))
    && e.conn == d.serves[e.rid].conn && e.req == d.serves[e.rid].req
    && e.conn in o.conns && e.inst == o.conns[e.conn].inst && e.tunnel == o.conns[e.conn].tunnel
  }

  ghost predicate CaptureOk(o: O.State, d: Data) {
    && (forall j | 0 <= j < |d.captured| :: CapturedFor(o, d, d.captured[j]))
    && (forall j, l | 0 <= j < l < |d.captured| :: d.captured[j].rid != d.captured[l].rid)
    && (forall rid | rid in d.serves && d.serves[rid].phase.Served? && d.serves[rid].phase.res.Ok? ::
      WasCaptured(d, rid))
  }

  ghost predicate WasCaptured(d: Data, rid: Uuid) {
    exists j :: 0 <= j < |d.captured| && d.captured[j].rid == rid
  }

  lemma CaptureUpdate(o: O.State, d: Data, v: ServeStep, rid: Uuid)
    requires RoutedOk(o, d) && ServeEnabled(o, d, v)
    ensures var t := ApplyServe(o, d, v);
      && d.captured <= t.captured && |t.captured| <= |d.captured| + 1
      && (|t.captured| > |d.captured| ==>
        v.Capture? && d.serves[v.rid].phase.Left? && CapturedFor(o, t, t.captured[|d.captured|])
          && t.captured[|d.captured|].rid == v.rid)
      && (rid in t.serves && t.serves[rid].phase.Served? && t.serves[rid].phase.res.Ok? ==>
        rid in d.serves && (t.serves[rid].phase == d.serves[rid].phase
          || (rid == v.rid && |t.captured| > |d.captured|)))
  {
    assert Routed(o, d, v.rid);
    hide RoutedOk, ForwardOutcome;
  }

  lemma CapturedForKept(o: O.State, d: Data, step: Step, e: Captured)
    requires Enabled(o, d, step) && CapturedFor(o, d, e)
    ensures CapturedFor(o, Apply(o, d, step), e)
  {
    hide Apply, Enabled;
    ServeGrow(o, d, step, e.rid);
  }

  lemma StaysCaptured(o: O.State, d: Data, step: Step, rid: Uuid)
    requires RoutedOk(o, d) && CaptureOk(o, d) && Enabled(o, d, step)
    requires var t := Apply(o, d, step); rid in t.serves && t.serves[rid].phase.Served? && t.serves[rid].phase.res.Ok?
    ensures WasCaptured(Apply(o, d, step), rid)
  {
    var t := Apply(o, d, step);
    hide RoutedOk, ApplyPublic, ApplyServe, ApplyCluster, ApplyAgent, CapturedFor;
    hide PublicEnabled, ServeEnabled, ClusterEnabled, AgentEnabled;
    match step {
      case Serving(v) => CaptureUpdate(o, d, v, rid);
      case Public(_) => NewServe(o, d, step, rid);
      case Cluster(_) => NewServe(o, d, step, rid);
      case Agent(_) =>
    }
    if rid in d.serves && t.serves[rid].phase == d.serves[rid].phase {
      var j :| 0 <= j < |d.captured| && d.captured[j].rid == rid;
      assert t.captured[j].rid == rid;
    } else {
      assert t.captured[|d.captured|].rid == rid;
    }
  }

  lemma CapturedKept(o: O.State, d: Data, step: Step)
    requires RoutedOk(o, d) && CaptureOk(o, d) && Enabled(o, d, step)
    ensures var t := Apply(o, d, step);
      && (forall j | 0 <= j < |t.captured| :: CapturedFor(o, t, t.captured[j]))
      && (forall j, l | 0 <= j < l < |t.captured| :: t.captured[j].rid != t.captured[l].rid)
  {
    var t := Apply(o, d, step);
    hide RoutedOk, WasCaptured, ApplyPublic, ApplyServe, ApplyCluster, ApplyAgent;
    hide PublicEnabled, ServeEnabled, ClusterEnabled, AgentEnabled;
    if step.Serving? { CaptureUpdate(o, d, step.v, 0); }
    forall j | 0 <= j < |d.captured|
      ensures CapturedFor(o, t, d.captured[j])
      ensures (step.Serving? && |t.captured| > |d.captured| ==> d.captured[j].rid != step.v.rid)
    {
      assert CapturedFor(o, d, d.captured[j]);
      CapturedForKept(o, d, step, d.captured[j]);
    }
  }

  lemma CaptureKept(o: O.State, d: Data, step: Step)
    requires RoutedOk(o, d) && CaptureOk(o, d) && Enabled(o, d, step)
    ensures CaptureOk(o, Apply(o, d, step))
  {
    hide Apply, Enabled, RoutedOk, WasCaptured, CapturedFor;
    CapturedKept(o, d, step);
    var t := Apply(o, d, step);
    forall rid | rid in t.serves && t.serves[rid].phase.Served? && t.serves[rid].phase.res.Ok?
      ensures WasCaptured(t, rid)
    {
      StaysCaptured(o, d, step, rid);
    }
  }
}
