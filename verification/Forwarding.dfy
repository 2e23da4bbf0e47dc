/** The forwarding protocol: what happens to a public request on the instance where it
  * arrives, on the peer that owns the tunnel, on the agent's socket and in Redis Pub/Sub.
  * A step is one atomic action of one goroutine, agent or message channel; it reads the
  * registries and routes of Ownership and changes only the data below.
  *
  * Requests in flight can be lost (never taken) and overtaken. Replies can in addition be
  * delivered late and more than once: the sets `replies` and `fromAgent` only grow.
  */
module Forwarding {
  import opened TunnelProto
  import opened Wrappers
  import opened Registry
  import opened Pending
  import Address
  import O = Ownership

  type CallId = nat
  type ConnId = O.ConnId

  /** How far handlePublic has brought a call: which goroutines work for it. */
  datatype Via =
    | Fresh
    | Missed                              // not in the local registry
    | Located(owner: InstanceId)          // a route was read
    | ByAgent(rid: Uuid)                  // serveLocally is running
    | ByPeer(owner: InstanceId, xid: Uuid) // forwardRemote is running

  datatype Outcome = Answer(resp: ForwardedResponse) | BadGateway(text: string) | Panicked

  /** A public request at instance `inst` for host label `sub`. */
  datatype Call = Call(inst: InstanceId, sub: Label, req: ForwardedRequest, via: Via, outcome: Option<Outcome>)

  /** For whom a connection serves a request: a public caller here, or a peer's cluster request. */
  datatype Client = Caller(call: CallId) | Peer(xid: Uuid, origin: InstanceId)

  datatype ServePhase =
    | Looked                         // connection found
    | Entered                        // pending entry stored
    | Written                        // request written to the socket
    | Selected(res: ForwardResult)   // a branch of the select was taken
    | Left(res: ForwardResult)       // pending entry deleted
    | Served(res: ForwardResult)     // captured, if there was a response

  /** One serveLocally/forward invocation, named by its request id. */
  datatype Serve = Serve(conn: ConnId, req: ForwardedRequest, client: Client, phase: ServePhase)

  /** Why forwardRemote stopped waiting. */
  datatype Cause = Replied | GaveUp

  datatype RemotePhase = Opened | Published | Settled(out: Outcome, why: Cause) | Ended(out: Outcome, why: Cause)

  /** One forwardRemote invocation; `served` records which invocation on the peer took it up. */
  datatype Remote = Remote(call: CallId, owner: InstanceId, phase: RemotePhase, served: Option<Uuid>)

  datatype Frame = Frame(conn: ConnId, env: Envelope)

  /** The agent's local application was run for a request. */
  datatype Execution = Execution(conn: ConnId, req: ForwardedRequest, resp: ForwardedResponse)

  datatype Captured = Captured(rid: Uuid, inst: InstanceId, conn: ConnId, tunnel: Uuid, req: ForwardedRequest,
    resp: ForwardedResponse)

  datatype Data = Data(
    calls: map<CallId, Call>,
    serves: map<Uuid, Serve>,
    remotes: map<Uuid, Remote>,
    agentPending: map<ConnId, Table<ForwardedResponse>>,
    clusterPending: map<InstanceId, Table<ClusterResponse>>,
    rpc: set<(InstanceId, ClusterRequest)>,
    replies: set<(InstanceId, ClusterResponse)>,
    toAgent: set<Frame>,
    fromAgent: set<Frame>,
    executed: map<Uuid, Execution>,
    socketLog: seq<Frame>,                      // every write of a request to a socket
    busLog: seq<(InstanceId, ClusterRequest)>,  // every publication of a request
    captured: seq<Captured>)

  const EMPTY := Data(map[], map[], map[], map[], map[], {}, {}, {}, {}, map[], [], [], [])

  /** A branch of a select statement. */
  datatype Branch = GotReply | TimedOut | ContextDone | ConnClosed

  /** handlePublic and forwardRemote, on the instance where the request arrives. */
  datatype PublicStep =
    | Arrive(c: CallId, i: InstanceId, host: string, req: ForwardedRequest)
    | Lookup(c: CallId, rid: Uuid)
    | FindOwner(c: CallId, redisOk: bool)
    | BeginRemote(c: CallId, xid: Uuid)
    | Publish(xid: Uuid, sent: bool, err: Option<string>)
    | Settle(xid: Uuid, branch: Branch)
    | EndRemote(xid: Uuid)
    | EndLocal(c: CallId)

  /** serveLocally and forward, on the instance that holds the connection. */
  datatype ServeStep =
    | Enter(rid: Uuid)
    | Write(rid: Uuid, sent: bool, err: Option<string>)
    | Select(rid: Uuid, branch: Branch)
    | Leave(rid: Uuid)
    | Capture(rid: Uuid)

  /** runCluster and handleClusterRequest. */
  datatype ClusterStep =
    | PeerServe(i: InstanceId, cr: ClusterRequest, rid: Uuid, sent: bool)
    | Reply(rid: Uuid, sent: bool)
    | DeliverReply(i: InstanceId, rep: ClusterResponse)

  /** The agent's request goroutines, and the gateway's read loop. */
  datatype AgentStep =
    | Handle(k: ConnId, env: Envelope, resp: ForwardedResponse, sent: bool)
    | ReadReply(k: ConnId, env: Envelope)

  datatype Step = Public(p: PublicStep) | Serving(v: ServeStep) | Cluster(q: ClusterStep) | Agent(a: AgentStep)

  const ERR_NO_TUNNEL := "gateway: no active tunnel for host"
  const ERR_TIMEOUT := "gateway: timed out waiting for agent"
  const ERR_CONTEXT := "context deadline exceeded" // the deadline serveLocally sets
  const ERR_CANCELED := "context canceled"         // a public request's context ends when its client goes away

  function Tbl<T>(m: map<nat, Table<T>>, k: nat): Table<T> {
    if k in m then m[k] else map[]
  }

  predicate ServeIn(d: Data, rid: Uuid, phase: ServePhase) {
    rid in d.serves && d.serves[rid].phase == phase
  }

  predicate Waiting(d: Data, id: CallId) {
    id in d.calls && d.calls[id].outcome == None
  }

  function Slot<T>(t: Table<T>, id: Uuid): Option<T> {
    if id in t then t[id] else None
  }

  predicate PublicEnabled(o: O.State, d: Data, p: PublicStep) {
    match p
    case Arrive(c, i, _, _) => c !in d.calls && i in o.regs
    case Lookup(c, rid) => Waiting(d, c) && d.calls[c].via == Fresh && rid !in d.serves
    case FindOwner(c, _) => Waiting(d, c) && d.calls[c].via == Missed
    case BeginRemote(c, xid) => Waiting(d, c) && d.calls[c].via.Located? && xid !in d.remotes
    case Publish(xid, _, _) => xid in d.remotes && d.remotes[xid].phase == Opened && d.remotes[xid].call in d.calls
    case Settle(xid, branch) =>
      && xid in d.remotes && d.remotes[xid].phase == Published && d.remotes[xid].call in d.calls
      && !branch.ConnClosed?
      && (branch.GotReply? ==> Slot(Tbl(d.clusterPending, d.calls[d.remotes[xid].call].inst), xid).Some?)
    case EndRemote(xid) => xid in d.remotes && d.remotes[xid].phase.Settled? && d.remotes[xid].call in d.calls
    case EndLocal(c) =>
      Waiting(d, c) && d.calls[c].via.ByAgent? && d.calls[c].via.rid in d.serves
        && d.serves[d.calls[c].via.rid].phase.Served?
  }

  predicate ServeEnabled(o: O.State, d: Data, v: ServeStep) {
    match v
    case Enter(rid) => ServeIn(d, rid, Looked)
    case Write(rid, _, _) => ServeIn(d, rid, Entered)
    case Select(rid, branch) =>
      && ServeIn(d, rid, Written)
      && (branch.GotReply? ==> Slot(Tbl(d.agentPending, d.serves[rid].conn), rid).Some?)
      && (branch.ConnClosed? ==> d.serves[rid].conn in o.conns && o.conns[d.serves[rid].conn].closed)
    case Leave(rid) => rid in d.serves && d.serves[rid].phase.Selected?
    case Capture(rid) => rid in d.serves && d.serves[rid].phase.Left?
  }

  predicate ClusterEnabled(o: O.State, d: Data, q: ClusterStep) {
    match q
    case PeerServe(i, cr, rid, _) => (i, cr) in d.rpc && i in o.regs && rid !in d.serves
    case Reply(rid, _) => rid in d.serves && d.serves[rid].phase.Served? && d.serves[rid].client.Peer?
    case DeliverReply(i, rep) => (i, rep) in d.replies
  }

  predicate AgentEnabled(o: O.State, d: Data, a: AgentStep) {
    match a
    case Handle(k, env, _, _) => Frame(k, env) in d.toAgent && env.RequestForward?
    case ReadReply(k, env) =>
      Frame(k, env) in d.fromAgent && env.ResponseForward? && k in o.conns && o.conns[k].phase == O.Reading
  }

  predicate Enabled(o: O.State, d: Data, step: Step) {
    match step
    case Public(p) => PublicEnabled(o, d, p)
    case Serving(v) => ServeEnabled(o, d, v)
    case Cluster(q) => ClusterEnabled(o, d, q)
    case Agent(a) => AgentEnabled(o, d, a)
  }

  // ---- Effects ---------------------------------------------------------------------------

  function WithCall(d: Data, c: CallId, call: Call): Data {
    d.(calls := d.calls[c := call])
  }

  function WithPhase(d: Data, rid: Uuid, phase: ServePhase): Data
    requires rid in d.serves
  {
    d.(serves := d.serves[rid := d.serves[rid].(phase := phase)])
  }

  function WithRemote(d: Data, xid: Uuid, phase: RemotePhase): Data
    requires xid in d.remotes
  {
    d.(remotes := d.remotes[xid := d.remotes[xid].(phase := phase)])
  }

  function AgentTable(d: Data, k: ConnId, t: Table<ForwardedResponse>): Data {
    d.(agentPending := d.agentPending[k := t])
  }

  function ClusterTable(d: Data, i: InstanceId, t: Table<ClusterResponse>): Data {
    d.(clusterPending := d.clusterPending[i := t])
  }

  function DoArrive(o: O.State, d: Data, c: CallId, i: InstanceId, host: string, req: ForwardedRequest): Data {
    var sub := Address.SubdomainFromHost(host, o.base);
    WithCall(d, c, Call(i, sub, req, Fresh, if sub == "" then Some(BadGateway("no tunnel host")) else None))
  }

  function LocalLookup(o: O.State, i: InstanceId, sub: Label): Option<ConnId> {
    if i in o.regs && sub in o.regs[i] then Some(o.regs[i][sub]) else None
  }

  function DoLookup(o: O.State, d: Data, c: CallId, rid: Uuid): Data
    requires c in d.calls
  {
    var call := d.calls[c];
    match LocalLookup(o, call.inst, call.sub)
    case Some(k) =>
      d.(calls := d.calls[c := call.(via := ByAgent(rid))],
         serves := d.serves[rid := Serve(k, call.req, Caller(c), Looked)])
    case None =>
      WithCall(d, c, call.(via := Missed))
  }

  function DoFindOwner(o: O.State, d: Data, c: CallId, redisOk: bool): Data
    requires c in d.calls
  {
    var call := d.calls[c];
    match (if redisOk then LiveRoute(o.routes, call.sub, o.now) else None)
    case Some(owner) => WithCall(d, c, call.(via := Located(owner)))
    case None => WithCall(d, c, call.(outcome := Some(BadGateway("no active tunnel for " + call.sub))))
  }

  function DoBeginRemote(d: Data, c: CallId, xid: Uuid): Data
    requires c in d.calls && d.calls[c].via.Located?
  {
    var call := d.calls[c];
    var owner := call.via.owner;
    ClusterTable(WithCall(d, c, call.(via := ByPeer(owner, xid))), call.inst,
      Stored(Tbl(d.clusterPending, call.inst), xid)).(
      remotes := d.remotes[xid := Remote(c, owner, Opened, None)])
  }

  function RequestFor(d: Data, xid: Uuid): ClusterRequest
    requires xid in d.remotes && d.remotes[xid].call in d.calls
  {
    var call := d.calls[d.remotes[xid].call];
    ClusterRequest(xid, call.inst, call.sub, call.req)
  }

  function TunnelError(err: string): Outcome {
    BadGateway("tunnel error: " + err)
  }

  function DoPublish(d: Data, xid: Uuid, sent: bool, err: Option<string>): Data
    requires xid in d.remotes && d.remotes[xid].call in d.calls
  {
    var msg := (d.remotes[xid].owner, RequestFor(d, xid));
    WithRemote(d, xid, match err case None => Published case Some(e) => Settled(TunnelError(e), GaveUp)).(
      rpc := if sent then d.rpc + {msg} else d.rpc,
      busLog := d.busLog + [msg])
  }

  /** The peer looks the label up in its own map, whatever the route said. */
  function DoPeerServe(o: O.State, d: Data, i: InstanceId, cr: ClusterRequest, rid: Uuid, sent: bool): Data {
    var taken := d.(rpc := d.rpc - {(i, cr)});
    match LocalLookup(o, i, cr.sub)
    case Some(k) =>
      taken.(
        serves := d.serves[rid := Serve(k, cr.req, Peer(cr.requestID, cr.origin), Looked)],
        remotes := if cr.requestID in d.remotes
          then d.remotes[cr.requestID := d.remotes[cr.requestID].(served := Some(rid))] else d.remotes)
    case None =>
      if sent then
        var refusal := ClusterResponse(cr.requestID, None, "no active tunnel for " + cr.sub);
        taken.(replies := d.replies + {(cr.origin, refusal)})
      else taken
  }

  function DoWrite(d: Data, rid: Uuid, sent: bool, err: Option<string>): Data
    requires rid in d.serves
  {
    var frame := Frame(d.serves[rid].conn, RequestForward(rid, d.serves[rid].req));
    WithPhase(d, rid, match err case None => Written case Some(e) => Selected(Err(e))).(
      toAgent := if sent then d.toAgent + {frame} else d.toAgent,
      socketLog := d.socketLog + [frame])
  }

  /** The agent runs the local application once per request frame and echoes the request id. */
  function DoHandle(d: Data, k: ConnId, env: Envelope, resp: ForwardedResponse, sent: bool): Data
    requires env.RequestForward?
  {
    d.(toAgent := d.toAgent - {Frame(k, env)},
       executed := d.executed[env.requestID := Execution(k, env.req, resp)],
       fromAgent := if sent then d.fromAgent + {Frame(k, HandleRequest(env, resp))} else d.fromAgent)
  }

  function ForwardOutcome(d: Data, rid: Uuid, branch: Branch): ForwardResult
    requires rid in d.serves
    requires branch.GotReply? ==> Slot(Tbl(d.agentPending, d.serves[rid].conn), rid).Some?
  {
    match branch
    case GotReply => Ok(Slot(Tbl(d.agentPending, d.serves[rid].conn), rid).value)
    case TimedOut => Err(ERR_TIMEOUT)
    case ContextDone => Err(ERR_CONTEXT)
    case ConnClosed => Err(ERR_NO_TUNNEL)
  }

  function InstanceOf(d: Data, rid: Uuid): InstanceId {
    if rid !in d.serves then 0
    else match d.serves[rid].client
      case Caller(c) => if c in d.calls then d.calls[c].inst else 0
      case Peer(x, _) => if x in d.remotes then d.remotes[x].owner else 0
  }

  function DoCapture(o: O.State, d: Data, rid: Uuid): Data
    requires rid in d.serves && d.serves[rid].phase.Left?
  {
    var s := d.serves[rid];
    var done := WithPhase(d, rid, Served(s.phase.res));
    if s.phase.res.Ok? then
      done.(captured := d.captured + [Captured(rid, InstanceOf(d, rid), s.conn,
        if s.conn in o.conns then o.conns[s.conn].tunnel else 0, s.req, s.phase.res.value)])
    else done
  }

  /** forwardRemote and handlePublic: an empty error with no response would be a nil dereference. */
  function ReplyOutcome(rep: ClusterResponse): Outcome {
    if rep.error != "" then TunnelError(rep.error)
    else match rep.resp case Some(r) => Answer(r) case None => Panicked
  }

  function SettleOutcome(d: Data, xid: Uuid, branch: Branch): Outcome
    requires xid in d.remotes && d.remotes[xid].call in d.calls
    requires branch.GotReply? ==> Slot(Tbl(d.clusterPending, d.calls[d.remotes[xid].call].inst), xid).Some?
  {
    match branch
    case GotReply => ReplyOutcome(Slot(Tbl(d.clusterPending, d.calls[d.remotes[xid].call].inst), xid).value)
    case TimedOut => TunnelError(ERR_TIMEOUT)
    case _ => TunnelError(ERR_CANCELED)
  }

  function CauseOf(branch: Branch): Cause {
    if branch.GotReply? then Replied else GaveUp
  }

  function DoEndRemote(d: Data, xid: Uuid): Data
    requires xid in d.remotes && d.remotes[xid].phase.Settled? && d.remotes[xid].call in d.calls
  {
    var r := d.remotes[xid];
    var call := d.calls[r.call];
    ClusterTable(WithRemote(d, xid, Ended(r.phase.out, r.phase.why)), call.inst,
      Deleted(Tbl(d.clusterPending, call.inst), xid)).(
      calls := d.calls[r.call := call.(outcome := Some(r.phase.out))])
  }

  function ApplyPublic(o: O.State, d: Data, p: PublicStep): (t: Data)
    requires PublicEnabled(o, d, p)
    ensures t == d.(calls := t.calls, serves := t.serves, remotes := t.remotes, clusterPending := t.clusterPending,
                    rpc := t.rpc, busLog := t.busLog)
  {
    match p
    case Arrive(c, i, host, req) => DoArrive(o, d, c, i, host, req)
    case Lookup(c, rid) => DoLookup(o, d, c, rid)
    case FindOwner(c, redisOk) => DoFindOwner(o, d, c, redisOk)
    case BeginRemote(c, xid) => DoBeginRemote(d, c, xid)
    case Publish(xid, sent, err) => DoPublish(d, xid, sent, err)
    case Settle(xid, branch) => WithRemote(d, xid, Settled(SettleOutcome(d, xid, branch), CauseOf(branch)))
    case EndRemote(xid) => DoEndRemote(d, xid)
    case EndLocal(c) =>
      WithCall(d, c, d.calls[c].(outcome := Some(Answer(ToResponse(d.serves[d.calls[c].via.rid].phase.res)))))
  }

  function ApplyServe(o: O.State, d: Data, v: ServeStep): (t: Data)
    requires ServeEnabled(o, d, v)
    ensures t == d.(serves := t.serves, agentPending := t.agentPending, toAgent := t.toAgent, socketLog := t.socketLog,
                    captured := t.captured)
  {
    match v
    case Enter(rid) =>
      var k := d.serves[rid].conn;
      AgentTable(WithPhase(d, rid, Entered), k, Stored(Tbl(d.agentPending, k), rid))
    case Write(rid, sent, err) => DoWrite(d, rid, sent, err)
    case Select(rid, branch) => WithPhase(d, rid, Selected(ForwardOutcome(d, rid, branch)))
    case Leave(rid) =>
      var k := d.serves[rid].conn;
      AgentTable(WithPhase(d, rid, Left(d.serves[rid].phase.res)), k, Deleted(Tbl(d.agentPending, k), rid))
    case Capture(rid) => DoCapture(o, d, rid)
  }

  function ApplyCluster(o: O.State, d: Data, q: ClusterStep): (t: Data)
    requires ClusterEnabled(o, d, q)
    ensures t == d.(serves := t.serves, remotes := t.remotes, clusterPending := t.clusterPending, rpc := t.rpc,
      replies := t.replies)
  {
    match q
    case PeerServe(i, cr, rid, sent) => DoPeerServe(o, d, i, cr, rid, sent)
    case Reply(rid, sent) =>
      var s := d.serves[rid];
      var rep := ClusterResponse(s.client.xid, Some(ToResponse(s.phase.res)), "");
      if sent then d.(replies := d.replies + {(s.client.origin, rep)})
      else d
    case DeliverReply(i, rep) => ClusterTable(d, i, Delivered(Tbl(d.clusterPending, i), rep.requestID, rep))
  }

  function ApplyAgent(o: O.State, d: Data, a: AgentStep): (t: Data)
    requires AgentEnabled(o, d, a)
    ensures t == d.(agentPending := t.agentPending, toAgent := t.toAgent, fromAgent := t.fromAgent,
      executed := t.executed)
  {
    match a
    case Handle(k, env, resp, sent) => DoHandle(d, k, env, resp, sent)
    case ReadReply(k, env) => AgentTable(d, k, Delivered(Tbl(d.agentPending, k), env.requestID, env.resp))
  }

  function Apply(o: O.State, d: Data, step: Step): Data
    requires Enabled(o, d, step)
  {
    match step
    case Public(p) => ApplyPublic(o, d, p)
    case Serving(v) => ApplyServe(o, d, v)
    case Cluster(q) => ApplyCluster(o, d, q)
    case Agent(a) => ApplyAgent(o, d, a)
  }

  // ---- Who works for whom ------------------------------------------------------------------

  /** The public call a serving invocation works for. */
  function CallOf(d: Data, rid: Uuid): CallId {
    if rid !in d.serves then 0
    else match d.serves[rid].client
      case Caller(c) => c
      case Peer(x, _) => if x in d.remotes then d.remotes[x].call else 0
  }

  /** The public call a request frame on a socket belongs to. */
  function FrameCall(d: Data, f: Frame): CallId {
    if f.env.RequestForward? then CallOf(d, f.env.requestID) else 0
  }

  /** The one invocation, here or on a peer, that serves a call. */
  function ServeOf(d: Data, c: CallId): Option<Uuid> {
    if c !in d.calls then None
    else match d.calls[c].via
      case ByAgent(rid) => Some(rid)
      case ByPeer(_, x) => if x in d.remotes then d.remotes[x].served else None
      case _ => None
  }
}
