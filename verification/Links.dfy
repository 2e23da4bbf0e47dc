/** The first group of invariants of the forwarding protocol: records only grow; calls,
  * serving invocations and cluster requests refer to each other one to one; and what
  * travels over Redis is the request of its call.
  */
module Links {
  import opened TunnelProto
  import opened Wrappers
  import opened Registry
  import opened Forwarding
  import Address
  import Pending
  import O = Ownership

  ghost predicate CallLinked(d: Data, c: CallId)
    requires c in d.calls
  {
    match d.calls[c].via
    case ByAgent(rid) => rid in d.serves && d.serves[rid].client == Caller(c)
    case ByPeer(owner, x) => x in d.remotes && d.remotes[x].call == c && d.remotes[x].owner == owner
    case _ => true
  }

  ghost predicate ServeLinked(d: Data, rid: Uuid)
    requires rid in d.serves
  {
    match d.serves[rid].client
    case Caller(c) => c in d.calls && d.calls[c].via == ByAgent(rid)
    case Peer(x, origin) =>
      && x in d.remotes && d.remotes[x].served == Some(rid)
      && d.remotes[x].call in d.calls && origin == d.calls[d.remotes[x].call].inst
  }

  ghost predicate RemoteLinked(d: Data, x: Uuid)
    requires x in d.remotes
  {
    && d.remotes[x].call in d.calls
    && d.calls[d.remotes[x].call].via == ByPeer(d.remotes[x].owner, x)
    && (d.remotes[x].phase == Opened ==> d.remotes[x].served == None)
    && (d.remotes[x].served.Some? ==>
      && d.remotes[x].served.value in d.serves
      && d.serves[d.remotes[x].served.value].client == Peer(x, d.calls[d.remotes[x].call].inst))
  }

  /** Calls, serving invocations and cluster requests refer to each other one to one. */
  ghost predicate LinkOk(d: Data) {
    && (forall c | c in d.calls :: CallLinked(d, c))
    && (forall rid | rid in d.serves :: ServeLinked(d, rid))
    && (forall x | x in d.remotes :: RemoteLinked(d, x))
  }

  /** A request in flight or published is the one of its call, addressed to the owner that was looked up. */
  ghost predicate OnBus(d: Data, i: InstanceId, cr: ClusterRequest) {
    && cr.requestID in d.remotes && d.remotes[cr.requestID].call in d.calls
    && cr == RequestFor(d, cr.requestID) && i == d.remotes[cr.requestID].owner
    && d.remotes[cr.requestID].phase != Opened
  }

  ghost predicate BusOk(d: Data) {
    && (forall m | m in d.rpc :: OnBus(d, m.0, m.1) && d.remotes[m.1.requestID].served == None)
    && (forall j | 0 <= j < |d.busLog| :: OnBus(d, d.busLog[j].0, d.busLog[j].1))
    && (forall j, l | 0 <= j < l < |d.busLog| :: d.busLog[j].1.requestID != d.busLog[l].1.requestID)
  }

  /** A cluster request that has not ended belongs to a call without an outcome. */
  ghost predicate ClusterCall(d: Data, x: Uuid) {
    x in d.remotes && d.remotes[x].call in d.calls ==>
      d.calls[d.remotes[x].call].outcome == match d.remotes[x].phase case Ended(out, _) => Some(out) case _ => None
  }

  ghost predicate ClusterCallsOk(d: Data) {
    forall x | x in d.remotes :: ClusterCall(d, x)
  }

  // ---- What public steps leave alone --------------------------------------------------------

  lemma ServesSame(o: O.State, d: Data, p: PublicStep)
    requires PublicEnabled(o, d, p) && !p.Lookup?
    ensures ApplyPublic(o, d, p).serves == d.serves
  {
    hide Address.SubdomainFromHost, LiveRoute, LocalLookup, TunnelError, ToResponse, SettleOutcome;
    hide Pending.Stored, Pending.Deleted, RequestFor, Tbl, Slot;
  }

  /** The step works on a cluster request, its own. */
  predicate OnRemote(p: PublicStep) {
    p.BeginRemote? || p.Publish? || p.Settle? || p.EndRemote?
  }

  lemma RemotesSame(o: O.State, d: Data, p: PublicStep)
    requires PublicEnabled(o, d, p) && !OnRemote(p)
    ensures ApplyPublic(o, d, p).remotes == d.remotes
  {
    hide Address.SubdomainFromHost, LiveRoute, LocalLookup, TunnelError, ToResponse;
  }

  // ---- Records only grow -------------------------------------------------------------------

  /** What a step may still change in a call: its way while it has none, and its outcome once. */
  predicate CallGrows(d: Data, t: Data, c: CallId) {
    c in d.calls ==>
      && c in t.calls && t.calls[c].inst == d.calls[c].inst && t.calls[c].sub == d.calls[c].sub
      && t.calls[c].req == d.calls[c].req
      && (d.calls[c].via.ByAgent? || d.calls[c].via.ByPeer? ==> t.calls[c].via == d.calls[c].via)
      && (d.calls[c].outcome.Some? ==> t.calls[c] == d.calls[c])
  }

  function Order(p: ServePhase): nat {
    match p
    case Looked => 0 case Entered => 1 case Written => 2 case Selected(_) => 3 case Left(_) => 4 case Served(_) => 5
  }

  function ResultOf(p: ServePhase): Option<ForwardResult> {
    match p case Selected(r) => Some(r) case Left(r) => Some(r) case Served(r) => Some(r) case _ => None
  }

  predicate ServeGrows(d: Data, t: Data, rid: Uuid) {
    rid in d.serves ==>
      && rid in t.serves && t.serves[rid].(phase := Looked) == d.serves[rid].(phase := Looked)
      && Order(d.serves[rid].phase) <= Order(t.serves[rid].phase)
      && (ResultOf(d.serves[rid].phase).Some? ==> ResultOf(t.serves[rid].phase) == ResultOf(d.serves[rid].phase))
  }

  function RemoteOrder(p: RemotePhase): nat {
    match p case Opened => 0 case Published => 1 case Settled(_, _) => 2 case Ended(_, _) => 3
  }

  predicate RemoteGrows(d: Data, t: Data, x: Uuid) {
    x in d.remotes ==>
      && x in t.remotes && t.remotes[x].call == d.remotes[x].call && t.remotes[x].owner == d.remotes[x].owner
      && RemoteOrder(d.remotes[x].phase) <= RemoteOrder(t.remotes[x].phase)
      && (d.remotes[x].phase.Ended? ==> t.remotes[x].phase == d.remotes[x].phase)
      && (d.remotes[x].served.Some? ==> t.remotes[x].served == d.remotes[x].served)
  }

  lemma CallGrowPublic(o: O.State, d: Data, p: PublicStep, c: CallId)
    requires ClusterCallsOk(d) && PublicEnabled(o, d, p)
    ensures CallGrows(d, ApplyPublic(o, d, p), c)
  {
    if p.EndRemote? {
      assert ClusterCall(d, p.xid);
    }
    hide ClusterCallsOk, Address.SubdomainFromHost, LiveRoute, LocalLookup, TunnelError, ToResponse, SettleOutcome;
    hide Pending.Stored, Pending.Deleted, RequestFor, Tbl, Slot;
  }

  lemma CallGrow(o: O.State, d: Data, step: Step, c: CallId)
    requires ClusterCallsOk(d) && Enabled(o, d, step)
    ensures CallGrows(d, Apply(o, d, step), c)
  {
    hide ApplyPublic, ApplyServe, ApplyCluster, ApplyAgent, ClusterCallsOk;
    hide PublicEnabled, ServeEnabled, ClusterEnabled, AgentEnabled;
    if step.Public? { CallGrowPublic(o, d, step.p, c); }
  }

  lemma ServeGrowPublic(o: O.State, d: Data, p: PublicStep, rid: Uuid)
    requires PublicEnabled(o, d, p)
    ensures ServeGrows(d, ApplyPublic(o, d, p), rid)
  {
    hide Address.SubdomainFromHost, LiveRoute, LocalLookup, TunnelError, ToResponse, SettleOutcome;
    hide Pending.Stored, Pending.Deleted, RequestFor, Tbl, Slot;
    if !p.Lookup? {
      hide ApplyPublic, PublicEnabled;
      ServesSame(o, d, p);
    }
  }

  lemma ServeGrowServe(o: O.State, d: Data, v: ServeStep, rid: Uuid)
    requires ServeEnabled(o, d, v)
    ensures ServeGrows(d, ApplyServe(o, d, v), rid)
  {
    hide ForwardOutcome;
  }

  lemma ServeGrowCluster(o: O.State, d: Data, q: ClusterStep, rid: Uuid)
    requires ClusterEnabled(o, d, q)
    ensures ServeGrows(d, ApplyCluster(o, d, q), rid)
  {
    hide LocalLookup, ToResponse;
  }

  lemma ServeGrow(o: O.State, d: Data, step: Step, rid: Uuid)
    requires Enabled(o, d, step)
    ensures ServeGrows(d, Apply(o, d, step), rid)
  {
    hide ApplyPublic, ApplyServe, ApplyCluster, ApplyAgent;
    hide PublicEnabled, ServeEnabled, ClusterEnabled, AgentEnabled;
    match step
    case Public(p) => ServeGrowPublic(o, d, p, rid);
    case Serving(v) => ServeGrowServe(o, d, v, rid);
    case Cluster(q) => ServeGrowCluster(o, d, q, rid);
    case Agent(_) =>
  }

  lemma RemoteGrowPublic(o: O.State, d: Data, p: PublicStep, x: Uuid)
    requires PublicEnabled(o, d, p)
    ensures RemoteGrows(d, ApplyPublic(o, d, p), x)
  {
    hide Address.SubdomainFromHost, LiveRoute, LocalLookup, TunnelError, ToResponse, SettleOutcome;
    hide Pending.Stored, Pending.Deleted, RequestFor, Tbl, Slot;
    if !OnRemote(p) {
      hide ApplyPublic, PublicEnabled;
      RemotesSame(o, d, p);
    }
  }

  /** A message that is about to be taken up is the request of a call, and was not taken up before. */
  lemma InFlight(d: Data, i: InstanceId, cr: ClusterRequest)
    requires BusOk(d) && (i, cr) in d.rpc
    ensures OnBus(d, i, cr) && d.remotes[cr.requestID].served == None
  {
  }

  lemma RemoteGrowCluster(o: O.State, d: Data, q: ClusterStep, x: Uuid)
    requires BusOk(d) && ClusterEnabled(o, d, q)
    ensures RemoteGrows(d, ApplyCluster(o, d, q), x)
  {
  }

  lemma RemoteGrow(o: O.State, d: Data, step: Step, x: Uuid)
    requires BusOk(d) && Enabled(o, d, step)
    ensures RemoteGrows(d, Apply(o, d, step), x)
  {
    hide BusOk;
    hide ApplyPublic, ApplyServe, ApplyCluster, ApplyAgent;
    hide PublicEnabled, ServeEnabled, ClusterEnabled, AgentEnabled;
    match step
    case Public(p) => RemoteGrowPublic(o, d, p, x);
    case Cluster(q) => RemoteGrowCluster(o, d, q, x);
    case _ =>
  }

  // ---- Links ---------------------------------------------------------------------------------

  lemma CallLinkedNew(o: O.State, d: Data, p: PublicStep, c: CallId)
    requires PublicEnabled(o, d, p) && c in ApplyPublic(o, d, p).calls
    requires c in d.calls ==> !d.calls[c].via.ByAgent? && !d.calls[c].via.ByPeer?
    ensures CallLinked(ApplyPublic(o, d, p), c)
  {
    hide Address.SubdomainFromHost, LiveRoute, LocalLookup, TunnelError, ToResponse, SettleOutcome;
  }

  lemma CallLinkedKept(o: O.State, d: Data, step: Step, c: CallId)
    requires LinkOk(d) && BusOk(d) && ClusterCallsOk(d) && Enabled(o, d, step) && c in Apply(o, d, step).calls
    ensures CallLinked(Apply(o, d, step), c)
  {
    hide ApplyPublic, ApplyServe, ApplyCluster, ApplyAgent, BusOk, ClusterCallsOk;
    hide PublicEnabled, ServeEnabled, ClusterEnabled, AgentEnabled;
    if c in d.calls && (d.calls[c].via.ByAgent? || d.calls[c].via.ByPeer?) {
      assert CallLinked(d, c);
      CallGrow(o, d, step, c);
      if d.calls[c].via.ByAgent? { ServeGrow(o, d, step, d.calls[c].via.rid); }
      else { RemoteGrow(o, d, step, d.calls[c].via.xid); }
    } else if step.Public? {
      CallLinkedNew(o, d, step.p, c);
    }
  }

  lemma ServeLinkedLookup(o: O.State, d: Data, p: PublicStep, rid: Uuid)
    requires PublicEnabled(o, d, p) && rid in ApplyPublic(o, d, p).serves && rid !in d.serves
    ensures ServeLinked(ApplyPublic(o, d, p), rid)
  {
    hide Address.SubdomainFromHost, LiveRoute, LocalLookup, TunnelError, ToResponse, SettleOutcome;
  }

  lemma ServeLinkedPeer(o: O.State, d: Data, q: ClusterStep, rid: Uuid)
    requires BusOk(d) && ClusterEnabled(o, d, q) && rid in ApplyCluster(o, d, q).serves && rid !in d.serves
    ensures ServeLinked(ApplyCluster(o, d, q), rid)
  {
  }

  lemma ServeLinkedNew(o: O.State, d: Data, step: Step, rid: Uuid)
    requires BusOk(d) && Enabled(o, d, step) && rid in Apply(o, d, step).serves && rid !in d.serves
    ensures ServeLinked(Apply(o, d, step), rid)
  {
    match step
    case Public(p) => ServeLinkedLookup(o, d, p, rid);
    case Cluster(q) => ServeLinkedPeer(o, d, q, rid);
    case Serving(v) => ServeKeys(o, d, v);
    case Agent(_) =>
    hide *;
  }

  lemma ServeKeys(o: O.State, d: Data, v: ServeStep)
    requires ServeEnabled(o, d, v)
    ensures ApplyServe(o, d, v).serves.Keys == d.serves.Keys
  {
    hide ForwardOutcome;
  }

  lemma ServeLinkedKept(o: O.State, d: Data, step: Step, rid: Uuid)
    requires LinkOk(d) && BusOk(d) && ClusterCallsOk(d) && Enabled(o, d, step) && rid in Apply(o, d, step).serves
    ensures ServeLinked(Apply(o, d, step), rid)
  {
    if rid !in d.serves {
      ServeLinkedNew(o, d, step, rid);
    } else {
      hide Apply, BusOk, ClusterCallsOk, Enabled;
      assert ServeLinked(d, rid);
      ServeGrow(o, d, step, rid);
      match d.serves[rid].client
      case Caller(c) => CallGrow(o, d, step, c);
      case Peer(x, origin) =>
        RemoteGrow(o, d, step, x);
        CallGrow(o, d, step, d.remotes[x].call);
    }
  }

  lemma RemoteLinkedNew(o: O.State, d: Data, p: PublicStep, x: Uuid)
    requires PublicEnabled(o, d, p) && x in ApplyPublic(o, d, p).remotes && x !in d.remotes
    ensures RemoteLinked(ApplyPublic(o, d, p), x)
  {
    hide Address.SubdomainFromHost, LiveRoute, LocalLookup, TunnelError, ToResponse, SettleOutcome;
  }

  /** Only taking a request up marks it as served. */
  lemma ServedByPeer(o: O.State, d: Data, step: Step, x: Uuid)
    requires BusOk(d) && Enabled(o, d, step) && x in d.remotes && x in Apply(o, d, step).remotes
    requires Apply(o, d, step).remotes[x].served != d.remotes[x].served
    ensures step.Cluster? && step.q.PeerServe? && step.q.cr.requestID == x
    ensures var t := Apply(o, d, step);
      && OnBus(d, step.q.i, step.q.cr) && t.remotes[x].served == Some(step.q.rid) && step.q.rid in t.serves
      && t.serves[step.q.rid].client == Peer(x, step.q.cr.origin)
  {
    hide BusOk, ApplyServe, ApplyAgent;
    match step
    case Public(p) => KeepsServed(o, d, p, x);
    case Cluster(q) =>
      hide LocalLookup, ToResponse, ApplyPublic;
      if q.PeerServe? { InFlight(d, q.i, q.cr); }
    case Serving(v) =>
    case Agent(_) =>
  }

  lemma KeepsServed(o: O.State, d: Data, p: PublicStep, x: Uuid)
    requires PublicEnabled(o, d, p) && x in d.remotes
    ensures x in ApplyPublic(o, d, p).remotes && ApplyPublic(o, d, p).remotes[x].served == d.remotes[x].served
  {
    hide Address.SubdomainFromHost, LiveRoute, LocalLookup, TunnelError, ToResponse, SettleOutcome;
  }

  lemma RemoteKeys(o: O.State, d: Data, q: ClusterStep)
    requires ClusterEnabled(o, d, q)
    ensures ApplyCluster(o, d, q).remotes.Keys == d.remotes.Keys
  {
    hide LocalLookup, ToResponse;
  }

  lemma RemoteLinkedKept(o: O.State, d: Data, step: Step, x: Uuid)
    requires LinkOk(d) && BusOk(d) && ClusterCallsOk(d) && Enabled(o, d, step) && x in Apply(o, d, step).remotes
    ensures RemoteLinked(Apply(o, d, step), x)
  {
    hide ApplyPublic, ApplyServe, ApplyCluster, ApplyAgent, BusOk, ClusterCallsOk;
    hide PublicEnabled, ServeEnabled, ClusterEnabled, AgentEnabled;
    var t := Apply(o, d, step);
    RemoteGrow(o, d, step, x);
    if x !in d.remotes {
      match step
      case Public(p) => RemoteLinkedNew(o, d, p, x);
      case Cluster(q) => RemoteKeys(o, d, q);
      case _ =>
    } else {
      assert RemoteLinked(d, x);
      CallGrow(o, d, step, d.remotes[x].call);
      if t.remotes[x].served != d.remotes[x].served {
        ServedByPeer(o, d, step, x);
      } else if d.remotes[x].served.Some? {
        ServeGrow(o, d, step, d.remotes[x].served.value);
      }
    }
  }

  lemma LinkKept(o: O.State, d: Data, step: Step)
    requires LinkOk(d) && BusOk(d) && ClusterCallsOk(d) && Enabled(o, d, step)
    ensures LinkOk(Apply(o, d, step))
  {
    var t := Apply(o, d, step);
    hide Apply, Enabled, BusOk, ClusterCallsOk, CallLinked, ServeLinked, RemoteLinked;
    forall c | c in t.calls ensures CallLinked(t, c) { CallLinkedKept(o, d, step, c); }
    forall rid | rid in t.serves ensures ServeLinked(t, rid) { ServeLinkedKept(o, d, step, rid); }
    forall x | x in t.remotes ensures RemoteLinked(t, x) { RemoteLinkedKept(o, d, step, x); }
  }

  // ---- Redis Pub/Sub ---------------------------------------------------------------------------

  lemma OnBusKept(o: O.State, d: Data, step: Step, i: InstanceId, cr: ClusterRequest)
    requires BusOk(d) && ClusterCallsOk(d) && Enabled(o, d, step) && OnBus(d, i, cr)
    ensures OnBus(Apply(o, d, step), i, cr)
  {
    hide Apply, Enabled, ClusterCallsOk, BusOk;
    RemoteGrow(o, d, step, cr.requestID);
    CallGrow(o, d, step, d.remotes[cr.requestID].call);
  }

  lemma PublishAdds(o: O.State, d: Data, p: PublicStep)
    requires PublicEnabled(o, d, p) && p.Publish?
    ensures var t := ApplyPublic(o, d, p); var m := (d.remotes[p.xid].owner, RequestFor(d, p.xid));
      && t.rpc <= d.rpc + {m} && t.busLog == d.busLog + [m] && OnBus(t, m.0, m.1)
      && t.remotes[p.xid].served == d.remotes[p.xid].served
  {
    hide TunnelError;
  }

  lemma NothingPublished(o: O.State, d: Data, p: PublicStep)
    requires PublicEnabled(o, d, p) && !p.Publish?
    ensures ApplyPublic(o, d, p).busLog == d.busLog && ApplyPublic(o, d, p).rpc == d.rpc
  {
    hide Address.SubdomainFromHost, LiveRoute, LocalLookup, TunnelError, ToResponse, SettleOutcome;
    hide Pending.Stored, Pending.Deleted, RequestFor, Tbl, Slot;
  }

  lemma PublishUpdate(o: O.State, d: Data, p: PublicStep)
    requires PublicEnabled(o, d, p)
    ensures var t := ApplyPublic(o, d, p);
      if p.Publish? then
        var m := (d.remotes[p.xid].owner, RequestFor(d, p.xid));
        && t.rpc <= d.rpc + {m} && t.busLog == d.busLog + [m] && OnBus(t, m.0, m.1)
        && t.remotes[p.xid].served == d.remotes[p.xid].served
      else t.busLog == d.busLog && t.rpc == d.rpc
  {
    hide ApplyPublic, PublicEnabled, OnBus, RequestFor;
    if p.Publish? { PublishAdds(o, d, p); } else { NothingPublished(o, d, p); }
  }

  lemma TakeUpdate(o: O.State, d: Data, q: ClusterStep)
    requires ClusterEnabled(o, d, q)
    ensures ApplyCluster(o, d, q).rpc == if q.PeerServe? then d.rpc - {(q.i, q.cr)} else d.rpc
  {
    hide LocalLookup, ToResponse;
  }

  lemma RpcKept(o: O.State, d: Data, step: Step, m: (InstanceId, ClusterRequest))
    requires LinkOk(d) && BusOk(d) && ClusterCallsOk(d) && Enabled(o, d, step) && m in Apply(o, d, step).rpc
    ensures OnBus(Apply(o, d, step), m.0, m.1) && Apply(o, d, step).remotes[m.1.requestID].served == None
  {
    var t := Apply(o, d, step);
    if m in d.rpc {
      assert d.remotes[m.1.requestID].served == None by { InFlight(d, m.0, m.1); }
      StillInFlight(o, d, step, m);
    } else {
      hide ApplyPublic, ApplyServe, ApplyCluster, ApplyAgent, ClusterCallsOk, ServeEnabled, ClusterEnabled;
      hide AgentEnabled, BusOk;
      match step
      case Public(p) =>
        PublishUpdate(o, d, p);
        assert RemoteLinked(d, p.xid);
      case Cluster(q) => TakeUpdate(o, d, q);
      case _ =>
    }
  }

  lemma StillInFlight(o: O.State, d: Data, step: Step, m: (InstanceId, ClusterRequest))
    requires BusOk(d) && ClusterCallsOk(d) && Enabled(o, d, step) && m in d.rpc && m in Apply(o, d, step).rpc
    ensures OnBus(Apply(o, d, step), m.0, m.1) && Apply(o, d, step).remotes[m.1.requestID].served == None
  {
    var t := Apply(o, d, step);
    InFlight(d, m.0, m.1);
    hide ApplyPublic, ApplyServe, ApplyCluster, ApplyAgent, ClusterCallsOk, BusOk;
    hide PublicEnabled, ServeEnabled, ClusterEnabled, AgentEnabled;
    OnBusKept(o, d, step, m.0, m.1);
    if t.remotes[m.1.requestID].served != d.remotes[m.1.requestID].served {
      ServedByPeer(o, d, step, m.1.requestID);
      TakeUpdate(o, d, step.q);
    }
  }

  lemma BusKept(o: O.State, d: Data, step: Step)
    requires LinkOk(d) && BusOk(d) && ClusterCallsOk(d) && Enabled(o, d, step)
    ensures BusOk(Apply(o, d, step))
  {
    var t := Apply(o, d, step);
    hide ApplyPublic, ApplyServe, ApplyCluster, ApplyAgent, ClusterCallsOk, LinkOk, OnBus;
    hide ServeEnabled, ClusterEnabled, AgentEnabled;
    forall m | m in t.rpc
      ensures OnBus(t, m.0, m.1) && t.remotes[m.1.requestID].served == None
    {
      RpcKept(o, d, step, m);
    }
    forall j | 0 <= j < |d.busLog|
      ensures OnBus(t, d.busLog[j].0, d.busLog[j].1)
    {
      OnBusKept(o, d, step, d.busLog[j].0, d.busLog[j].1);
    }
    if step.Public? { PublishUpdate(o, d, step.p); }
  }
}
