/** The cluster refines one server. The specification is a single process with one map from
  * subdomains to agents; calls are assigned to the agent the map holds at one instant, the
  * agent answers at most once, and a caller gets that answer or an error. Every run of the
  * cluster is, to public callers, a run of that process, however stale or corrupt the route
  * keys are, unless the row of a tunnel is deleted while its connection has or awaits its label.
  */
module OneServer {
  import opened TunnelProto
  import opened Wrappers
  import opened Registry
  import Pending
  import opened Forwarding
  import opened Links
  import opened Replies
  import opened Cluster
  import Address
  import O = Ownership
  import E = Exclusive

  // ---- The specification ------------------------------------------------------------------

  datatype Request = Request(sub: Label, req: ForwardedRequest, agent: Option<ConnId>,
    reply: Option<ForwardedResponse>, outcome: Option<Outcome>)

  datatype Server = Server(tunnels: map<Label, ConnId>, requests: map<CallId, Request>)

  datatype Act =
    | Open(sub: Label, k: ConnId)
    | Close(sub: Label)
    | Accept(c: CallId, sub: Label, req: ForwardedRequest)
    | Assign(c: CallId)
    | Run(c: CallId, resp: ForwardedResponse)
    | Finish(c: CallId, out: Outcome)
    | Stutter

  const EMPTY_SERVER := Server(map[], map[])

  /** What a caller may be given: the reply of the agent its request was assigned to, or an error. */
  ghost predicate Permitted(r: Request, out: Outcome) {
    match out
    case Answer(resp) => r.reply == Some(resp) || exists err :: resp == ErrorResponse(err)
    case BadGateway(_) => true
    case Panicked => false
  }

  ghost predicate Allowed(a: Server, act: Act) {
    match act
    case Open(sub, _) => sub !in a.tunnels
    case Close(sub) => sub in a.tunnels
    case Accept(c, _, _) => c !in a.requests
    case Assign(c) => c in a.requests && a.requests[c].agent == None && a.requests[c].sub in a.tunnels
    case Run(c, _) => c in a.requests && a.requests[c].agent.Some? && a.requests[c].reply == None
    case Finish(c, out) => c in a.requests && a.requests[c].outcome == None && Permitted(a.requests[c], out)
    case Stutter => true
  }

  /** A request without a label is refused on arrival. */
  function Accepted(sub: Label, req: ForwardedRequest): Request {
    Request(sub, req, None, None, if sub == "" then Some(BadGateway("no tunnel host")) else None)
  }

  function After(a: Server, act: Act): Server {
    match act
    case Open(sub, k) => a.(tunnels := a.tunnels[sub := k])
    case Close(sub) => a.(tunnels := a.tunnels - {sub})
    case Accept(c, sub, req) =>
      a.(requests := a.requests[c := Accepted(sub, req)])
    case Assign(c) =>
      if c in a.requests && a.requests[c].sub in a.tunnels
      then a.(requests := a.requests[c := a.requests[c].(agent := Some(a.tunnels[a.requests[c].sub]))]) else a
    case Run(c, resp) =>
      if c in a.requests then a.(requests := a.requests[c := a.requests[c].(reply := Some(resp))]) else a
    case Finish(c, out) =>
      if c in a.requests then a.(requests := a.requests[c := a.requests[c].(outcome := Some(out))]) else a
    case Stutter => a
  }

  // ---- What the cluster is to callers ------------------------------------------------------

  ghost predicate OneOwner(o: O.State) {
    forall i, j, sub | i in o.regs && j in o.regs && sub in o.regs[i] && sub in o.regs[j] ::
      o.regs[i][sub] == o.regs[j][sub]
  }

  ghost function Tunnels(o: O.State): map<Label, ConnId>
    requires OneOwner(o)
  {
    map i, sub | i in o.regs && sub in o.regs[i] :: sub := o.regs[i][sub]
  }

  function View(d: Data, c: CallId): Request
    requires c in d.calls
  {
    var call := d.calls[c];
    match ServeOf(d, c)
    case None => Request(call.sub, call.req, None, None, call.outcome)
    case Some(rid) =>
      Request(call.sub, call.req,
        if rid in d.serves then Some(d.serves[rid].conn) else None,
        if rid in d.executed then Some(d.executed[rid].resp) else None, call.outcome)
  }

  ghost function Abs(s: State): Server
    requires OneOwner(s.o)
  {
    Server(Tunnels(s.o), map c | c in s.d.calls :: View(s.d, c))
  }

  ghost predicate ExclusiveInv(s: State) {
    Inv(s) && E.ExclusiveOk(s.o)
  }

  // ---- Each event of the cluster is an act of the server -------------------------------------

  function ControlAct(o: O.State, c: O.Step): Act {
    match c
    case List(k) => if k in o.conns then Open(o.conns[k].sub, k) else Stutter
    case Unlist(k) => if k in o.conns then Close(o.conns[k].sub) else Stutter
    case UnlistRejected(k) => if k in o.conns then Close(o.conns[k].sub) else Stutter
    case _ => Stutter
  }

  function PublicAct(o: O.State, d: Data, p: PublicStep): Act
    requires PublicEnabled(o, d, p)
  {
    match p
    case Arrive(c, i, host, req) => Accept(c, Address.SubdomainFromHost(host, o.base), req)
    case Lookup(c, _) => if LocalLookup(o, d.calls[c].inst, d.calls[c].sub).Some? then Assign(c) else Stutter
    case FindOwner(c, ok) =>
      (match DoFindOwner(o, d, c, ok).calls[c].outcome case Some(out) => Finish(c, out) case None => Stutter)
    case EndRemote(x) => Finish(d.remotes[x].call, d.remotes[x].phase.out)
    case EndLocal(c) => Finish(c, Answer(ToResponse(d.serves[d.calls[c].via.rid].phase.res)))
    case _ => Stutter
  }

  function ForwardAct(o: O.State, d: Data, f: Forwarding.Step): Act
    requires Forwarding.Enabled(o, d, f)
  {
    match f
    case Public(p) => PublicAct(o, d, p)
    case Serving(_) => Stutter
    case Cluster(q) =>
      (match q
       case PeerServe(i, cr, rid, _) =>
         if LocalLookup(o, i, cr.sub).Some? && cr.requestID in d.remotes
         then Assign(d.remotes[cr.requestID].call) else Stutter
       case _ => Stutter)
    case Agent(a) =>
      (match a case Handle(_, env, resp, _) => Run(CallOf(d, env.requestID), resp) case _ => Stutter)
  }

  function ActOf(s: State, e: Event): Act
    requires CanDo(s, e)
  {
    match e case Control(c) => ControlAct(s.o, c) case Forward(f) => ForwardAct(s.o, s.d, f)
  }

  // ---- Ownership steps ------------------------------------------------------------------------

  ghost predicate Holds(o: O.State, sub: Label, k: ConnId) {
    exists i :: i in o.regs && sub in o.regs[i] && o.regs[i][sub] == k
  }

  predicate Maps(t: map<Label, ConnId>, sub: Label, k: ConnId) {
    sub in t && t[sub] == k
  }

  lemma MapsEqual(t: map<Label, ConnId>, u: map<Label, ConnId>)
    requires forall sub, k :: Maps(t, sub, k) <==> Maps(u, sub, k)
    ensures t == u
  {
    forall sub | sub in t ensures sub in u && t[sub] == u[sub] { assert Maps(t, sub, t[sub]); }
    forall sub | sub in u ensures sub in t && t[sub] == u[sub] { assert Maps(u, sub, u[sub]); }
  }

  /** The map of the one server holds exactly the entries of all registries. */
  lemma TunnelsHolds(o: O.State, sub: Label, k: ConnId)
    requires OneOwner(o)
    ensures Maps(Tunnels(o), sub, k) <==> Holds(o, sub, k)
  {
  }

  lemma TunnelsAre(o: O.State, t: map<Label, ConnId>)
    requires OneOwner(o)
    requires forall sub, k :: Maps(t, sub, k) <==> Holds(o, sub, k)
    ensures Tunnels(o) == t
  {
    hide Holds, OneOwner, Tunnels, Maps;
    forall sub, k
      ensures Maps(Tunnels(o), sub, k) <==> Maps(t, sub, k)
    {
      TunnelsHolds(o, sub, k);
    }
    MapsEqual(Tunnels(o), t);
  }

  lemma NotOpen(o: O.State, sub: Label)
    requires OneOwner(o) && forall i | i in o.regs :: sub !in o.regs[i]
    ensures sub !in Tunnels(o)
  {
  }

  lemma ListTunnels(o: O.State, k: ConnId)
    requires O.InPhase(o, k, O.RowActive) && (forall i | i in o.regs :: o.conns[k].sub !in o.regs[i])
    requires OneOwner(o) && OneOwner(O.DoList(o, k))
    ensures o.conns[k].sub !in Tunnels(o) && Tunnels(O.DoList(o, k)) == Tunnels(o)[o.conns[k].sub := k]
  {
    var t, sub := O.DoList(o, k), o.conns[k].sub;
    NotOpen(o, sub);
    hide OneOwner, O.DoList, Tunnels;
    forall l, x
      ensures Maps(Tunnels(o)[sub := k], l, x) <==> Holds(t, l, x)
    {
      TunnelsHolds(o, l, x);
      ListHolds(o, k, l, x);
    }
    TunnelsAre(t, Tunnels(o)[sub := k]);
  }

  /** Listing opens a label that is not open, for the connection listed. */
  lemma ListOpens(o: O.State, k: ConnId)
    requires O.RegistryOk(o) && O.RowsOk(o) && E.ExclusiveOk(o) && O.Enabled(o, O.List(k))
    requires OneOwner(o) && OneOwner(O.DoList(o, k))
    ensures var sub := o.conns[k].sub; sub !in Tunnels(o) && Tunnels(O.DoList(o, k)) == Tunnels(o)[sub := k]
  {
    assert E.ExclusiveAt(o, o.conns[k].sub, E.Claiming);
    hide O.RegistryOk, O.RowsOk, E.ExclusiveOk, E.ExclusiveAt, OneOwner, O.DoList, Tunnels;
    E.NeverReplaces(o, k);
    ListTunnels(o, k);
  }

  lemma ListHolds(o: O.State, k: ConnId, sub: Label, x: ConnId)
    requires O.InPhase(o, k, O.RowActive) && forall i | i in o.regs :: o.conns[k].sub !in o.regs[i]
    ensures Holds(O.DoList(o, k), sub, x) <==> if sub == o.conns[k].sub then x == k else Holds(o, sub, x)
  {
    var t := O.DoList(o, k);
    if Holds(o, sub, x) {
      var i :| i in o.regs && sub in o.regs[i] && o.regs[i][sub] == x;
      assert i in t.regs && sub in t.regs[i] && t.regs[i][sub] == x;
    }
    if Holds(t, sub, x) {
      var i :| i in t.regs && sub in t.regs[i] && t.regs[i][sub] == x;
      assert sub != o.conns[k].sub ==> i in o.regs && sub in o.regs[i] && o.regs[i][sub] == x;
    }
    assert o.conns[k].inst in t.regs && o.conns[k].sub in t.regs[o.conns[k].inst];
  }

  lemma UnlistTunnels(o: O.State, k: ConnId, next: O.Phase)
    requires k in o.conns && o.conns[k].inst in o.regs && Maps(o.regs[o.conns[k].inst], o.conns[k].sub, k)
    requires forall i | i in o.regs && o.conns[k].sub in o.regs[i] :: i == o.conns[k].inst
    requires OneOwner(o) && OneOwner(O.DoUnlist(o, k, next))
    ensures o.conns[k].sub in Tunnels(o) && Tunnels(O.DoUnlist(o, k, next)) == Tunnels(o) - {o.conns[k].sub}
  {
    var t, sub := O.DoUnlist(o, k, next), o.conns[k].sub;
    hide OneOwner, O.DoUnlist, Tunnels;
    assert Holds(o, sub, k);
    TunnelsHolds(o, sub, k);
    forall l, x
      ensures Maps(Tunnels(o) - {sub}, l, x) <==> Holds(t, l, x)
    {
      TunnelsHolds(o, l, x);
      UnlistHolds(o, k, next, l, x);
    }
    TunnelsAre(t, Tunnels(o) - {sub});
  }

  lemma HeldHere(o: O.State, k: ConnId)
    requires O.RegistryOk(o) && O.RowsOk(o) && E.ExclusiveOk(o) && k in o.conns && O.ListedPhase(o.conns[k].phase)
    ensures o.conns[k].inst in o.regs && Maps(o.regs[o.conns[k].inst], o.conns[k].sub, k)
    ensures forall i | i in o.regs && o.conns[k].sub in o.regs[i] :: i == o.conns[k].inst
  {
    var sub := o.conns[k].sub;
    assert E.ExclusiveAt(o, sub, E.Claiming) && E.HeldAt(o, sub);
    assert E.HeldOf(o, k);
    hide E.ExclusiveOk, E.ExclusiveAt, E.HeldAt, O.RowsOk;
    E.NotTwice(o, sub);
  }

  /** Unlisting closes the label of the connection unlisted. */
  lemma UnlistCloses(o: O.State, k: ConnId, next: O.Phase)
    requires O.RegistryOk(o) && O.RowsOk(o) && E.ExclusiveOk(o)
    requires k in o.conns && O.ListedPhase(o.conns[k].phase) && o.conns[k].inst in o.regs
    requires OneOwner(o) && OneOwner(O.DoUnlist(o, k, next))
    ensures var sub := o.conns[k].sub; sub in Tunnels(o) && Tunnels(O.DoUnlist(o, k, next)) == Tunnels(o) - {sub}
  {
    hide O.RegistryOk, O.RowsOk, E.ExclusiveOk, OneOwner, Tunnels;
    HeldHere(o, k);
    UnlistTunnels(o, k, next);
  }

  lemma UnlistHolds(o: O.State, k: ConnId, next: O.Phase, sub: Label, x: ConnId)
    requires k in o.conns && o.conns[k].inst in o.regs && Maps(o.regs[o.conns[k].inst], o.conns[k].sub, k)
    requires forall i | i in o.regs && o.conns[k].sub in o.regs[i] :: i == o.conns[k].inst
    ensures Holds(O.DoUnlist(o, k, next), sub, x) <==> sub != o.conns[k].sub && Holds(o, sub, x)
  {
    var t := O.DoUnlist(o, k, next);
    if Holds(o, sub, x) {
      var i :| i in o.regs && sub in o.regs[i] && o.regs[i][sub] == x;
      assert sub != o.conns[k].sub ==> i in t.regs && sub in t.regs[i] && t.regs[i][sub] == x;
    }
    if Holds(t, sub, x) {
      var i :| i in t.regs && sub in t.regs[i] && t.regs[i][sub] == x;
      assert i in o.regs && sub in o.regs[i] && o.regs[i][sub] == x;
    }
  }

  lemma QuietControl(o: O.State, c: O.Step)
    requires O.Enabled(o, c) && !c.List? && !c.Unlist? && !c.UnlistRejected?
    requires OneOwner(o) && OneOwner(O.Apply(o, c))
    ensures Tunnels(O.Apply(o, c)) == Tunnels(o)
  {
    var t := O.Apply(o, c);
    hide O.FreshTunnel, O.SetStatus, OneOwner, Tunnels;
    if c.Boot? {
      forall sub, k
        ensures Maps(Tunnels(o), sub, k) <==> Holds(t, sub, k)
      {
        TunnelsHolds(o, sub, k);
        BootHolds(o, c.i, sub, k);
      }
      TunnelsAre(t, Tunnels(o));
    } else {
      assert t.regs == o.regs;
      TunnelsOfRegs(o, t);
    }
  }

  lemma TunnelsOfRegs(o: O.State, t: O.State)
    requires OneOwner(o) && OneOwner(t) && t.regs == o.regs
    ensures Tunnels(t) == Tunnels(o)
  {
  }

  lemma BootHolds(o: O.State, i: InstanceId, sub: Label, k: ConnId)
    requires O.Enabled(o, O.Boot(i))
    ensures Holds(O.Apply(o, O.Boot(i)), sub, k) <==> Holds(o, sub, k)
  {
    var t := O.Apply(o, O.Boot(i));
    if Holds(o, sub, k) {
      var j :| j in o.regs && sub in o.regs[j] && o.regs[j][sub] == k;
      assert j in t.regs && sub in t.regs[j] && t.regs[j][sub] == k;
    }
  }

  // ---- Forwarding steps -------------------------------------------------------------------------

  ghost function Requests(d: Data): map<CallId, Request> {
    map c | c in d.calls :: View(d, c)
  }

  /** What an act leaves of a request. */
  ghost predicate ViewAfter(o: O.State, d: Data, t: Data, act: Act, c: CallId) {
    match act
    case Accept(x, sub, req) =>
      if x == c then c !in d.calls && c in t.calls && View(t, c) == Accepted(sub, req)
      else Unchanged(d, t, c)
    case Assign(x) =>
      if x == c then
        && c in d.calls && c in t.calls && View(d, c).agent == None
        && exists k :: Holds(o, View(d, c).sub, k) && View(t, c) == View(d, c).(agent := Some(k))
      else Unchanged(d, t, c)
    case Run(x, resp) =>
      if x == c then
        c in d.calls && c in t.calls && View(d, c).agent.Some? && View(d, c).reply == None
          && View(t, c) == View(d, c).(reply := Some(resp))
      else Unchanged(d, t, c)
    case Finish(x, out) =>
      if x == c then
        && c in d.calls && c in t.calls && View(d, c).outcome == None && Permitted(View(d, c), out)
        && View(t, c) == View(d, c).(outcome := Some(out))
      else Unchanged(d, t, c)
    case _ => Unchanged(d, t, c)
  }

  ghost predicate Unchanged(d: Data, t: Data, c: CallId) {
    if c in d.calls then c in t.calls && View(t, c) == View(d, c) else c !in t.calls
  }

  /** A call that waits for an outcome and has a serving invocation gets what that invocation returned. */
  lemma AnswerPermitted(s: State, c: CallId, resp: ForwardedResponse)
    requires Inv(s) && c in s.d.calls && ServeOf(s.d, c).Some? && ServeOf(s.d, c).value in s.d.serves
    requires var v := s.d.serves[ServeOf(s.d, c).value]; v.phase.Served? && resp == ToResponse(v.phase.res)
    ensures Permitted(View(s.d, c), Answer(resp))
  {
    hide O.RegistryOk, O.RowsOk, LinkOk, BusOk, ClusterCallsOk, RoutedOk, SocketOk, AgentPendingOk, RepliesOk;
    hide OutcomesOk, CaptureOk;
    assert ResultFor(s.d, ServeOf(s.d, c).value);
    match s.d.serves[ServeOf(s.d, c).value].phase.res
    case Ok(r) =>
    case Err(err) => assert resp == ErrorResponse(err);
  }

  /** References that a view follows exist. */
  lemma ViewLinks(s: State, c: CallId)
    requires Inv(s) && c in s.d.calls
    ensures s.d.calls[c].via.ByPeer? ==>
      && s.d.calls[c].via.xid in s.d.remotes && s.d.remotes[s.d.calls[c].via.xid].call == c
    ensures ServeOf(s.d, c).Some? ==> ServeOf(s.d, c).value in s.d.serves && CallOf(s.d, ServeOf(s.d, c).value) == c
  {
  }

  lemma ViewServing(s: State, v: ServeStep, c: CallId)
    requires Inv(s) && ServeEnabled(s.o, s.d, v)
    ensures Unchanged(s.d, ApplyServe(s.o, s.d, v), c)
  {
    hide Inv;
    if c in s.d.calls {
      if ServeOf(s.d, c).Some? { ServeGrowServe(s.o, s.d, v, ServeOf(s.d, c).value); }
      ServeKeys(s.o, s.d, v);
      hide ApplyServe, ServeEnabled;
    }
  }

  /** Two calls never share a serving invocation. */
  ghost predicate Own(d: Data, c: CallId) {
    c in d.calls && ServeOf(d, c).Some? ==> ServeOf(d, c).value in d.serves && CallOf(d, ServeOf(d, c).value) == c
  }

  lemma HandleView(d: Data, k: ConnId, env: Envelope, resp: ForwardedResponse, sent: bool, c: CallId)
    requires env.RequestForward? && env.requestID in d.serves && env.requestID !in d.executed && Own(d, c)
    requires var x := CallOf(d, env.requestID); x in d.calls && ServeOf(d, x) == Some(env.requestID)
    ensures var t := DoHandle(d, k, env, resp, sent);
      if c == CallOf(d, env.requestID)
      then c in t.calls && View(d, c).agent.Some? && View(d, c).reply == None
        && View(t, c) == View(d, c).(reply := Some(resp))
      else Unchanged(d, t, c)
  {
  }

  lemma ReadView(d: Data, k: ConnId, t: Pending.Table<ForwardedResponse>, c: CallId)
    ensures Unchanged(d, AgentTable(d, k, t), c)
  {
  }

  lemma HandleFacts(s: State, a: AgentStep)
    requires Inv(s) && a.Handle? && AgentEnabled(s.o, s.d, a)
    ensures var x := CallOf(s.d, a.env.requestID);
      && a.env.requestID in s.d.serves && a.env.requestID !in s.d.executed && x in s.d.calls
      && ServeOf(s.d, x) == Some(a.env.requestID)
  {
    assert WrittenFrame(s.d, Frame(a.k, a.env)) && a.env.requestID !in s.d.executed;
    CallOfLinked(s.d, a.env.requestID);
  }

  lemma ViewAgent(s: State, a: AgentStep, c: CallId)
    requires Inv(s) && Forwarding.Enabled(s.o, s.d, Agent(a))
    ensures ViewAfter(s.o, s.d, Forwarding.Apply(s.o, s.d, Agent(a)), ForwardAct(s.o, s.d, Agent(a)), c)
  {
    hide Inv;
    if c in s.d.calls { ViewLinks(s, c); }
    match a
    case Handle(k, env, resp, sent) =>
      HandleFacts(s, a);
      assert Own(s.d, c);
      hide View, DoHandle, Unchanged, CallOf, ServeOf;
      HandleView(s.d, k, env, resp, sent, c);
    case ReadReply(k, env) =>
      hide View, Unchanged, CallOf, ServeOf;
      ReadView(s.d, k, Pending.Delivered(Tbl(s.d.agentPending, k), env.requestID, env.resp), c);
  }

  lemma PeerView(o: O.State, d: Data, i: InstanceId, cr: ClusterRequest, rid: Uuid, sent: bool, c: CallId)
    requires cr.requestID in d.remotes && d.remotes[cr.requestID].served == None && rid !in d.serves
    requires rid !in d.executed && Own(d, c)
    requires var x := d.remotes[cr.requestID].call;
      x in d.calls && d.calls[x].via.ByPeer? && d.calls[x].via.xid == cr.requestID && cr.sub == d.calls[x].sub
    requires c in d.calls && d.calls[c].via.ByPeer? ==>
      d.calls[c].via.xid in d.remotes && d.remotes[d.calls[c].via.xid].call == c
    ensures var t := DoPeerServe(o, d, i, cr, rid, sent); var k := LocalLookup(o, i, cr.sub);
      if k.Some? && c == d.remotes[cr.requestID].call
      then c in t.calls && View(d, c).agent == None && View(d, c).sub == cr.sub && View(t, c) == View(d, c).(agent := k)
      else Unchanged(d, t, c)
  {
    hide LocalLookup;
    var t := DoPeerServe(o, d, i, cr, rid, sent);
    assert t.calls == d.calls && t.executed == d.executed;
    match LocalLookup(o, i, cr.sub)
    case Some(k) =>
      assert t.remotes == d.remotes[cr.requestID := d.remotes[cr.requestID].(served := Some(rid))];
      assert t.serves == d.serves[rid := Serve(k, cr.req, Peer(cr.requestID, cr.origin), Looked)];
      hide DoPeerServe;
    case None =>
      assert t.remotes == d.remotes && t.serves == d.serves;
      hide DoPeerServe;
  }

  lemma PeerFacts(s: State, q: ClusterStep)
    requires Inv(s) && q.PeerServe? && ClusterEnabled(s.o, s.d, q)
    ensures var d := s.d; var cr := q.cr;
      && cr.requestID in d.remotes && d.remotes[cr.requestID].served == None && q.rid !in d.executed
      && var x := d.remotes[cr.requestID].call;
      && x in d.calls && d.calls[x].via.ByPeer? && d.calls[x].via.xid == cr.requestID && cr.sub == d.calls[x].sub
    ensures var k := LocalLookup(s.o, q.i, q.cr.sub); k.Some? ==> Holds(s.o, q.cr.sub, k.value)
  {
  }

  lemma RepView(d: Data, t: Data, c: CallId)
    requires t.calls == d.calls && t.serves == d.serves && t.remotes == d.remotes && t.executed == d.executed
    ensures Unchanged(d, t, c)
  {
  }

  lemma ViewCluster(s: State, q: ClusterStep, c: CallId)
    requires Inv(s) && Forwarding.Enabled(s.o, s.d, Cluster(q))
    ensures ViewAfter(s.o, s.d, Forwarding.Apply(s.o, s.d, Cluster(q)), ForwardAct(s.o, s.d, Cluster(q)), c)
  {
    hide Inv;
    if c in s.d.calls { ViewLinks(s, c); }
    match q
    case PeerServe(i, cr, rid, sent) =>
      PeerFacts(s, q);
      assert Own(s.d, c);
      hide DoPeerServe, LocalLookup, Holds, ServeOf, CallOf;
      PeerView(s.o, s.d, i, cr, rid, sent, c);
      hide View, Unchanged;
    case _ =>
      hide LocalLookup, View, Unchanged, ServeOf, CallOf;
      RepView(s.d, Forwarding.Apply(s.o, s.d, Cluster(q)), c);
  }

  /** The cluster request of a call in progress is on record. */
  ghost predicate HasRemote(d: Data, c: CallId) {
    c in d.calls && d.calls[c].via.ByPeer? ==> d.calls[c].via.xid in d.remotes
  }

  lemma ArriveView(o: O.State, d: Data, x: CallId, i: InstanceId, host: string, req: ForwardedRequest, c: CallId)
    requires x !in d.calls
    ensures ViewAfter(o, d, DoArrive(o, d, x, i, host, req), Accept(x, Address.SubdomainFromHost(host, o.base), req), c)
  {
    hide Address.SubdomainFromHost;
  }

  lemma LookupView(o: O.State, d: Data, x: CallId, rid: Uuid, c: CallId)
    requires x in d.calls && d.calls[x].via == Fresh && rid !in d.serves && rid !in d.executed && Own(d, c)
    ensures var t := DoLookup(o, d, x, rid); var k := LocalLookup(o, d.calls[x].inst, d.calls[x].sub);
      if k.Some? && c == x
      then c in t.calls && View(d, c).agent == None && View(d, c).sub == d.calls[x].sub
        && View(t, c) == View(d, c).(agent := k)
      else Unchanged(d, t, c)
  {
    hide LocalLookup;
  }

  lemma OwnerView(o: O.State, d: Data, x: CallId, ok: bool, c: CallId)
    requires x in d.calls && d.calls[x].via == Missed && d.calls[x].outcome == None
    ensures var t := DoFindOwner(o, d, x, ok); var out := t.calls[x].outcome;
      if c == x && out.Some? then
        out.value.BadGateway? && View(d, c).outcome == None && View(t, c) == View(d, c).(outcome := out)
      else Unchanged(d, t, c)
  {
    hide LiveRoute;
  }

  lemma BeginView(d: Data, x: CallId, xid: Uuid, c: CallId)
    requires x in d.calls && d.calls[x].via.Located? && xid !in d.remotes && HasRemote(d, c)
    ensures Unchanged(d, DoBeginRemote(d, x, xid), c)
  {
  }

  /** A change of phase of a cluster request shows in no view. */
  lemma RemotePhaseView(d: Data, t: Data, xid: Uuid, c: CallId)
    requires xid in d.remotes && t.calls == d.calls && t.serves == d.serves && t.executed == d.executed
    requires xid in t.remotes && t.remotes == d.remotes[xid := d.remotes[xid].(phase := t.remotes[xid].phase)]
    ensures Unchanged(d, t, c)
  {
  }

  lemma OutcomeView(d: Data, t: Data, x: CallId, out: Outcome, c: CallId)
    requires x in d.calls && t.calls == d.calls[x := d.calls[x].(outcome := Some(out))] && t.serves == d.serves
    requires t.executed == d.executed
    requires t.remotes.Keys == d.remotes.Keys && forall y | y in d.remotes :: t.remotes[y].served == d.remotes[y].served
    ensures if c == x then c in t.calls && View(t, c) == View(d, c).(outcome := Some(out)) else Unchanged(d, t, c)
  {
  }

  lemma LookupFacts(s: State, c: CallId, rid: Uuid)
    requires Inv(s) && rid !in s.d.serves
    ensures rid !in s.d.executed && (c in s.d.calls ==> var k := LocalLookup(s.o, s.d.calls[c].inst, s.d.calls[c].sub);
      k.Some? ==> Holds(s.o, s.d.calls[c].sub, k.value))
  {
    assert rid in s.d.executed ==> ExecutedFor(s.d, rid);
  }

  lemma EndFacts(s: State, xid: Uuid)
    requires Inv(s) && xid in s.d.remotes && s.d.remotes[xid].phase.Settled? && s.d.remotes[xid].call in s.d.calls
    ensures var c := s.d.remotes[xid].call; var out := s.d.remotes[xid].phase.out;
      s.d.calls[c].outcome == None && Permitted(View(s.d, c), out)
  {
    var c, out := s.d.remotes[xid].call, s.d.remotes[xid].phase.out;
    assert ClusterCall(s.d, xid) && RemoteLinked(s.d, xid) && RemoteOutcome(s.d, xid);
    hide O.RegistryOk, O.RowsOk, LinkOk, BusOk, ClusterCallsOk, RoutedOk, SocketOk, AgentPendingOk, ResultsOk;
    hide RepliesOk, OutcomesOk, CaptureOk;
    if out.Answer? {
      assert ServeOf(s.d, c) == s.d.remotes[xid].served;
      AnswerPermitted(s, c, out.resp);
    }
  }

  lemma ViewFindOwner(s: State, p: PublicStep, c: CallId)
    requires Forwarding.Enabled(s.o, s.d, Public(p)) && p.FindOwner?
    ensures ViewAfter(s.o, s.d, Forwarding.Apply(s.o, s.d, Public(p)), ForwardAct(s.o, s.d, Public(p)), c)
  {
    hide LiveRoute, CallOf, ServeOf;
    OwnerView(s.o, s.d, p.c, p.redisOk, c);
    hide View, Unchanged;
  }

  lemma ViewBeginRemote(s: State, p: PublicStep, c: CallId)
    requires Inv(s) && Forwarding.Enabled(s.o, s.d, Public(p)) && p.BeginRemote?
    ensures ViewAfter(s.o, s.d, Forwarding.Apply(s.o, s.d, Public(p)), ForwardAct(s.o, s.d, Public(p)), c)
  {
    hide Inv, View, Unchanged, DoBeginRemote, CallOf, ServeOf;
    if c in s.d.calls { ViewLinks(s, c); }
    BeginView(s.d, p.c, p.xid, c);
  }

  lemma ViewPublicCall(s: State, p: PublicStep, c: CallId)
    requires Inv(s) && Forwarding.Enabled(s.o, s.d, Public(p)) && (p.Arrive? || p.Lookup?)
    ensures ViewAfter(s.o, s.d, Forwarding.Apply(s.o, s.d, Public(p)), ForwardAct(s.o, s.d, Public(p)), c)
  {
    hide Inv, LocalLookup, Address.SubdomainFromHost, CallOf, ServeOf, Holds;
    if c in s.d.calls { ViewLinks(s, c); }
    assert Own(s.d, c);
    hide View, Unchanged, DoArrive, DoLookup, Own;
    match p
    case Arrive(x, i, host, req) => ArriveView(s.o, s.d, x, i, host, req, c);
    case Lookup(x, rid) => LookupFacts(s, x, rid); LookupView(s.o, s.d, x, rid, c);
  }

  lemma ViewPublicRemote(s: State, p: PublicStep, c: CallId)
    requires Inv(s) && Forwarding.Enabled(s.o, s.d, Public(p))
    requires (p.Publish? || p.Settle? || p.EndRemote? || p.EndLocal?)
    ensures ViewAfter(s.o, s.d, Forwarding.Apply(s.o, s.d, Public(p)), ForwardAct(s.o, s.d, Public(p)), c)
  {
    hide Inv, SettleOutcome, ToResponse, RequestFor, CallOf;
    var t := Forwarding.Apply(s.o, s.d, Public(p));
    if c in s.d.calls { ViewLinks(s, c); }
    match p
    case Publish(xid, _, _) => hide View, Unchanged, ServeOf; RemotePhaseView(s.d, t, xid, c);
    case Settle(xid, _) => hide View, Unchanged, ServeOf; RemotePhaseView(s.d, t, xid, c);
    case EndRemote(xid) =>
      EndFacts(s, xid);
      hide Unchanged, ServeOf;
      OutcomeView(s.d, t, s.d.remotes[xid].call, s.d.remotes[xid].phase.out, c);
    case EndLocal(x) =>
      var resp := ToResponse(s.d.serves[s.d.calls[x].via.rid].phase.res);
      AnswerPermitted(s, x, resp);
      hide Unchanged, ServeOf;
      OutcomeView(s.d, t, x, Answer(resp), c);
  }

  lemma ViewKept(s: State, f: Forwarding.Step, c: CallId)
    requires Inv(s) && Forwarding.Enabled(s.o, s.d, f)
    ensures ViewAfter(s.o, s.d, Forwarding.Apply(s.o, s.d, f), ForwardAct(s.o, s.d, f), c)
  {
    hide Inv, ViewAfter;
    match f
    case Public(p) =>
      hide Forwarding.Apply, Forwarding.Enabled, ForwardAct;
      if p.Arrive? || p.Lookup? { ViewPublicCall(s, p, c); }
      else if p.FindOwner? { ViewFindOwner(s, p, c); }
      else if p.BeginRemote? { ViewBeginRemote(s, p, c); }
      else { ViewPublicRemote(s, p, c); }
    case Serving(v) => QuietServing(s, v, c);
    case Cluster(q) => hide Forwarding.Apply, Forwarding.Enabled, ForwardAct; ViewCluster(s, q, c);
    case Agent(a) => hide Forwarding.Apply, Forwarding.Enabled, ForwardAct; ViewAgent(s, a, c);
  }

  lemma QuietServing(s: State, v: ServeStep, c: CallId)
    requires Inv(s) && Forwarding.Enabled(s.o, s.d, Serving(v))
    ensures ViewAfter(s.o, s.d, Forwarding.Apply(s.o, s.d, Serving(v)), ForwardAct(s.o, s.d, Serving(v)), c)
  {
    hide Inv, ApplyServe, ServeEnabled, Unchanged;
    ViewServing(s, v, c);
  }

  // ---- Simulation -----------------------------------------------------------------------------------

  predicate RequestAct(act: Act) {
    !act.Open? && !act.Close?
  }

  lemma ActAllowed(o: O.State, d: Data, t: Data, act: Act)
    requires OneOwner(o) && RequestAct(act)
    requires forall c :: ViewAfter(o, d, t, act, c)
    ensures Allowed(Server(Tunnels(o), Requests(d)), act)
  {
    if !act.Stutter? { assert ViewAfter(o, d, t, act, act.c); }
    hide View, Unchanged, Tunnels;
    if act.Assign? {
      var k :| Holds(o, View(d, act.c).sub, k) && View(t, act.c) == View(d, act.c).(agent := Some(k));
      TunnelsHolds(o, View(d, act.c).sub, k);
    }
  }

  lemma RequestAfter(o: O.State, d: Data, t: Data, act: Act, c: CallId)
    requires OneOwner(o) && RequestAct(act) && ViewAfter(o, d, t, act, c)
    ensures var r := After(Server(Tunnels(o), Requests(d)), act).requests;
      (c in r <==> c in t.calls) && (c in t.calls ==> r[c] == View(t, c))
  {
    hide View, Tunnels, OneOwner;
    if act.Assign? && act.c == c {
      var k :| Holds(o, View(d, c).sub, k) && View(t, c) == View(d, c).(agent := Some(k));
      TunnelsHolds(o, View(d, c).sub, k);
    }
  }

  lemma RequestsAfter(o: O.State, d: Data, t: Data, act: Act)
    requires OneOwner(o) && RequestAct(act)
    requires forall c :: ViewAfter(o, d, t, act, c)
    ensures var a := Server(Tunnels(o), Requests(d)); Allowed(a, act) && After(a, act) == a.(requests := Requests(t))
  {
    hide ViewAfter, View, Tunnels, OneOwner;
    ActAllowed(o, d, t, act);
    var a := Server(Tunnels(o), Requests(d));
    var r := After(a, act).requests;
    forall c
      ensures (c in r <==> c in t.calls) && (c in t.calls ==> r[c] == View(t, c))
    {
      RequestAfter(o, d, t, act, c);
    }
    assert r == Requests(t);
  }

  lemma ForwardSimulates(s: State, f: Forwarding.Step)
    requires Inv(s) && OneOwner(s.o) && Forwarding.Enabled(s.o, s.d, f)
    ensures var act := ForwardAct(s.o, s.d, f);
      Allowed(Abs(s), act) && Abs(Do(s, Forward(f))) == After(Abs(s), act)
  {
    hide Inv, Forwarding.Apply, Forwarding.Enabled, ForwardAct, ViewAfter, View, Tunnels, OneOwner, Allowed;
    hide After, RequestAct;
    var act, t := ForwardAct(s.o, s.d, f), Forwarding.Apply(s.o, s.d, f);
    ActIsRequest(s.o, s.d, f);
    forall c
      ensures ViewAfter(s.o, s.d, t, act, c)
    {
      ViewKept(s, f, c);
    }
    RequestsAfter(s.o, s.d, t, act);
  }

  lemma ActIsRequest(o: O.State, d: Data, f: Forwarding.Step)
    requires Forwarding.Enabled(o, d, f)
    ensures RequestAct(ForwardAct(o, d, f))
  {
    hide Forwarding.Enabled, LocalLookup, Address.SubdomainFromHost, ToResponse, DoFindOwner;
  }

  lemma Parts(s: State)
    requires ExclusiveInv(s)
    ensures Inv(s) && O.RegistryOk(s.o) && O.RowsOk(s.o) && E.ExclusiveOk(s.o)
  {
  }

  lemma TunnelsStep(o: O.State, c: O.Step, requests: map<CallId, Request>)
    requires O.RegistryOk(o) && O.RowsOk(o) && E.ExclusiveOk(o)
    requires OneOwner(o) && O.Enabled(o, c) && OneOwner(O.Apply(o, c))
    ensures var a := Server(Tunnels(o), requests); var t := O.Apply(o, c);
      Allowed(a, ControlAct(o, c)) && After(a, ControlAct(o, c)) == Server(Tunnels(t), requests)
  {
    hide O.RegistryOk, O.RowsOk, E.ExclusiveOk, OneOwner, Tunnels;
    if c.List? {
      hide O.DoList;
      ListOpens(o, c.k);
    } else if c.Unlist? || c.UnlistRejected? {
      hide O.DoUnlist;
      UnlistCloses(o, c.k, if c.Unlist? then O.Unlisted else O.RejectUnlisted);
    } else {
      hide O.Apply, O.Enabled;
      QuietControl(o, c);
    }
  }

  lemma ControlSimulates(s: State, c: O.Step)
    requires ExclusiveInv(s) && OneOwner(s.o) && O.Enabled(s.o, c) && OneOwner(O.Apply(s.o, c))
    ensures Allowed(Abs(s), ControlAct(s.o, c)) && Abs(Do(s, Control(c))) == After(Abs(s), ControlAct(s.o, c))
  {
    hide ExclusiveInv, Inv, O.RegistryOk, O.RowsOk, E.ExclusiveOk, OneOwner, Tunnels, View;
    hide O.Apply, O.Enabled, ControlAct, Allowed, After;
    Parts(s);
    TunnelsStep(s.o, c, Requests(s.d));
  }

  ghost predicate Careful(s: State, e: Event) {
    e.Control? ==> E.Careful(s.o, e.c)
  }

  lemma ExclusiveKept(s: State, e: Event)
    requires ExclusiveInv(s) && CanDo(s, e) && Careful(s, e)
    ensures ExclusiveInv(Do(s, e))
  {
    Keeps(s, e);
    assert O.RegistryOk(s.o) && O.RowsOk(s.o);
    hide Inv, O.RegistryOk, O.RowsOk, E.ExclusiveOk, O.Apply, O.Enabled, Forwarding.Apply, Forwarding.Enabled;
    if e.Control? { E.ExclusiveOkKept(s.o, e.c); }
  }

  lemma HasOneOwner(s: State)
    requires ExclusiveInv(s)
    ensures OneOwner(s.o)
  {
    hide O.RegistryOk, O.RowsOk, E.ExclusiveAt, E.HeldAt;
    forall sub ensures !E.TwoRegistries(s.o, sub) { E.NotTwice(s.o, sub); }
    forall i, j, sub | i in s.o.regs && j in s.o.regs && sub in s.o.regs[i] && sub in s.o.regs[j]
      ensures s.o.regs[i][sub] == s.o.regs[j][sub]
    {
      assert !E.TwoRegistries(s.o, sub);
    }
  }

  lemma Simulates(s: State, e: Event)
    requires ExclusiveInv(s) && CanDo(s, e) && Careful(s, e)
    ensures ExclusiveInv(Do(s, e)) && OneOwner(s.o) && OneOwner(Do(s, e).o)
    ensures Allowed(Abs(s), ActOf(s, e)) && Abs(Do(s, e)) == After(Abs(s), ActOf(s, e))
  {
    ExclusiveKept(s, e);
    HasOneOwner(s);
    HasOneOwner(Do(s, e));
    assert Inv(s);
    hide ExclusiveInv, OneOwner, Abs, O.Apply, O.Enabled, Forwarding.Apply, Forwarding.Enabled, ControlAct;
    hide ForwardAct, Inv;
    match e
    case Control(c) => ControlSimulates(s, c);
    case Forward(f) => ForwardSimulates(s, f);
  }

  // ---- Runs --------------------------------------------------------------------------------------------

  ghost predicate AllowedAll(a: Server, acts: seq<Act>) {
    acts == [] || (AllowedAll(a, acts[..|acts| - 1]) && Allowed(AfterAll(a, acts[..|acts| - 1]), acts[|acts| - 1]))
  }

  function AfterAll(a: Server, acts: seq<Act>): Server {
    if acts == [] then a else After(AfterAll(a, acts[..|acts| - 1]), acts[|acts| - 1])
  }

  /** The acts a run of the cluster amounts to, event by event. */
  ghost function Acts(s: State, es: seq<Event>): (acts: seq<Act>)
    requires Legal(s, es)
    ensures |acts| == |es|
  {
    if es == [] then [] else Acts(s, es[..|es| - 1]) + [ActOf(Play(s, es[..|es| - 1]), es[|es| - 1])]
  }

  /** No event deletes the row of a connection that is in a registry or still to be listed. */
  ghost predicate CarefulRun(s: State, es: seq<Event>)
    requires Legal(s, es)
    decreases |es|
  {
    es == [] || (CarefulRun(s, es[..|es| - 1]) && Careful(Play(s, es[..|es| - 1]), es[|es| - 1]))
  }

  lemma ActsSnoc(a: Server, acts: seq<Act>, act: Act)
    requires AllowedAll(a, acts) && Allowed(AfterAll(a, acts), act)
    ensures AllowedAll(a, acts + [act]) && AfterAll(a, acts + [act]) == After(AfterAll(a, acts), act)
  {
    hide Allowed, After;
    assert (acts + [act])[..|acts|] == acts;
  }

  lemma LastAct(s: State, es: seq<Event>)
    requires Legal(s, es) && es != []
    ensures var n := |es| - 1;
      && Legal(s, es[..n]) && CanDo(Play(s, es[..n]), es[n]) && Play(s, es) == Do(Play(s, es[..n]), es[n])
      && Acts(s, es) == Acts(s, es[..n]) + [ActOf(Play(s, es[..n]), es[n])]
  {
    hide CanDo, Do, ActOf;
  }

  lemma {:induction false} RunSimulates(s: State, es: seq<Event>)
    requires ExclusiveInv(s) && OneOwner(s.o) && Legal(s, es) && CarefulRun(s, es)
    ensures ExclusiveInv(Play(s, es)) && OneOwner(Play(s, es).o)
    ensures AllowedAll(Abs(s), Acts(s, es)) && AfterAll(Abs(s), Acts(s, es)) == Abs(Play(s, es))
    decreases |es|
  {
    if es != [] {
      var n := |es| - 1;
      hide ExclusiveInv, OneOwner, Abs, CanDo, Do, ActOf, Allowed, After, Careful;
      RunSimulates(s, es[..n]);
      Simulates(Play(s, es[..n]), es[n]);
      LastAct(s, es);
      hide AllowedAll, AfterAll, Acts, Legal, Play;
      ActsSnoc(Abs(s), Acts(s, es[..n]), ActOf(Play(s, es[..n]), es[n]));
    }
  }

  /** Refinement: every run of the cluster in which no row is deleted under a connection that has or awaits its label
    * - whatever happens to other rows, route keys, messages, writes and clocks - is event by event a run of the one
    * server, and ends in the state it shows to callers. */
  lemma Refines(base: string, es: seq<Event>)
    requires Legal(Start(base), es) && CarefulRun(Start(base), es)
    ensures OneOwner(Play(Start(base), es).o)
    ensures AllowedAll(EMPTY_SERVER, Acts(Start(base), es))
    ensures AfterAll(EMPTY_SERVER, Acts(Start(base), es)) == Abs(Play(Start(base), es))
  {
    hide Inv, ExclusiveInv, OneOwner, Abs;
    StartIsEmpty(base);
    RunSimulates(Start(base), es);
  }

  lemma StartIsEmpty(base: string)
    ensures ExclusiveInv(Start(base)) && OneOwner(Start(base).o) && Abs(Start(base)) == EMPTY_SERVER
  {
  }
}
