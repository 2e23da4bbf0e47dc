/** What an invocation of serveLocally says about the run: which of its steps were taken, and by which of them it got
  * its result. Nothing here speaks of the state but the invocation itself; all the rest is told from the events.
  */
module Invocations {
  import opened TunnelProto
  import opened Wrappers
  import opened Registry
  import opened Forwarding
  import opened Links
  import opened Cluster
  import Address
  import Pending
  import O = Ownership

  function Own(v: ServeStep): Event {
    Forward(Serving(v))
  }

  function Read(k: ConnId, rid: Uuid, resp: ForwardedResponse): Event {
    Forward(Agent(ReadReply(k, ResponseForward(rid, resp))))
  }

  /** What a branch of the select on connection k makes the result. */
  ghost predicate ResultBy(es: seq<Event>, k: ConnId, rid: Uuid, branch: Branch, res: ForwardResult) {
    match branch
    case GotReply => res.Ok? && Read(k, rid, res.value) in es
    case TimedOut => res == Err("gateway: timed out waiting for agent")
    case ContextDone => res == Err("context deadline exceeded")
    case ConnClosed => res == Err("gateway: no active tunnel for host")
  }

  /** How far the invocation has come is which of its steps were taken. */
  ghost predicate PhaseTold(es: seq<Event>, rid: Uuid, p: ServePhase) {
    && (Order(p) >= 1 <==> Own(Enter(rid)) in es)
    && (Order(p) >= 2 <==> exists sent, err :: Own(Write(rid, sent, err)) in es)
    && (Order(p) >= 4 <==> Own(Leave(rid)) in es)
    && (Order(p) >= 5 <==> Own(Capture(rid)) in es)
  }

  /** Its result is the error of the write that failed, or comes from the branch that was taken. */
  ghost predicate ResultTold(es: seq<Event>, k: ConnId, rid: Uuid, p: ServePhase) {
    && (ResultOf(p).Some? <==>
      ((exists sent, e :: Own(Write(rid, sent, Some(e))) in es) || (exists branch :: Own(Select(rid, branch)) in es)))
    && (forall sent, e | Own(Write(rid, sent, Some(e))) in es :: ResultOf(p) == Some(Err(e)))
    && (forall branch | Own(Select(rid, branch)) in es ::
      ResultOf(p).Some? && ResultBy(es, k, rid, branch, ResultOf(p).value))
  }

  ghost predicate Told(d: Data, es: seq<Event>, rid: Uuid) {
    if rid in d.serves
    then PhaseTold(es, rid, d.serves[rid].phase) && ResultTold(es, d.serves[rid].conn, rid, d.serves[rid].phase)
    else forall v: ServeStep | v.rid == rid :: Own(v) !in es
  }

  /** What waits in a pending channel was read from that connection. */
  ghost predicate SlotTold(d: Data, es: seq<Event>, k: ConnId, rid: Uuid) {
    Slot(Tbl(d.agentPending, k), rid).Some? ==> Read(k, rid, Slot(Tbl(d.agentPending, k), rid).value) in es
  }

  // ---- One event -------------------------------------------------------------------------------

  lemma OthersPublic(o: O.State, d: Data, p: PublicStep, rid: Uuid)
    requires PublicEnabled(o, d, p)
    ensures var t := ApplyPublic(o, d, p);
      && t.agentPending == d.agentPending
      && (rid in d.serves ==> rid in t.serves && t.serves[rid] == d.serves[rid])
      && (rid in t.serves && rid !in d.serves ==> t.serves[rid].phase == Looked)
  {
    hide Address.SubdomainFromHost, LiveRoute, LocalLookup, TunnelError, ToResponse, SettleOutcome;
    hide Pending.Stored, Pending.Deleted, RequestFor, Tbl, Slot;
    if !p.Lookup? {
      ServesSame(o, d, p);
      hide ApplyPublic, PublicEnabled;
    }
  }

  lemma OthersCluster(o: O.State, d: Data, q: ClusterStep, rid: Uuid)
    requires ClusterEnabled(o, d, q)
    ensures var t := ApplyCluster(o, d, q);
      && t.agentPending == d.agentPending
      && (rid in d.serves ==> rid in t.serves && t.serves[rid] == d.serves[rid])
      && (rid in t.serves && rid !in d.serves ==> t.serves[rid].phase == Looked)
  {
    hide LocalLookup, ToResponse, Pending.Delivered;
  }

  /** Steps of others leave an invocation alone, or have just made it. */
  lemma OthersLeave(o: O.State, d: Data, f: Forwarding.Step, rid: Uuid)
    requires Forwarding.Enabled(o, d, f) && (f.Serving? ==> f.v.rid != rid)
    ensures var t := Forwarding.Apply(o, d, f);
      && (rid in d.serves ==> rid in t.serves && t.serves[rid] == d.serves[rid])
      && (rid in t.serves && rid !in d.serves ==> t.serves[rid].phase == Looked)
  {
    hide ApplyPublic, ApplyCluster, ApplyAgent, PublicEnabled, ClusterEnabled, AgentEnabled, ForwardOutcome;
    match f
    case Public(p) => OthersPublic(o, d, p, rid);
    case Cluster(q) => OthersCluster(o, d, q, rid);
    case _ =>
  }

  lemma OtherEvent(d: Data, t: Data, es: seq<Event>, e: Event, rid: Uuid)
    requires Told(d, es, rid) && !(e.Forward? && e.f.Serving? && e.f.v.rid == rid)
    requires rid in d.serves ==> rid in t.serves && t.serves[rid] == d.serves[rid]
    requires rid in t.serves && rid !in d.serves ==> t.serves[rid].phase == Looked
    ensures Told(t, es + [e], rid)
  {
    assert forall v: ServeStep | v.rid == rid :: Own(v) in es + [e] <==> Own(v) in es;
    forall sent, err
      ensures Own(Write(rid, sent, err)) in es + [e] <==> Own(Write(rid, sent, err)) in es
    {
      assert Write(rid, sent, err).rid == rid;
    }
    forall branch
      ensures Own(Select(rid, branch)) in es + [e] <==> Own(Select(rid, branch)) in es
    {
      assert Select(rid, branch).rid == rid;
    }
  }

  /** The phases between which a step of the invocation leads. */
  predicate Moves(v: ServeStep, p: ServePhase, q: ServePhase) {
    match v
    case Enter(_) => p == Looked && q == Entered
    case Write(_, _, None) => p == Entered && q == Written
    case Write(_, _, Some(e)) => p == Entered && q == Selected(Err(e))
    case Select(_, _) => p == Written && q.Selected?
    case Leave(_) => p.Selected? && q == Left(p.res)
    case Capture(_) => p.Left? && q == Served(p.res)
  }

  lemma OwnMoves(o: O.State, d: Data, v: ServeStep)
    requires ServeEnabled(o, d, v)
    ensures v.rid in d.serves && v.rid in ApplyServe(o, d, v).serves
    ensures var k, q := d.serves[v.rid].conn, ApplyServe(o, d, v).serves[v.rid];
      && q == d.serves[v.rid].(phase := q.phase) && Moves(v, d.serves[v.rid].phase, q.phase)
      && (v.Select? ==> q.phase.res == ForwardOutcome(d, v.rid, v.branch))
  {
    hide ForwardOutcome, Pending.Stored, Pending.Deleted;
  }

  lemma SelectTold(d: Data, es: seq<Event>, rid: Uuid, branch: Branch)
    requires rid in d.serves && SlotTold(d, es, d.serves[rid].conn, rid)
    requires branch.GotReply? ==> Slot(Tbl(d.agentPending, d.serves[rid].conn), rid).Some?
    ensures ResultBy(es, d.serves[rid].conn, rid, branch, ForwardOutcome(d, rid, branch))
  {
  }

  lemma Longer(es: seq<Event>, e: Event, k: ConnId, rid: Uuid)
    ensures forall branch, res :: ResultBy(es, k, rid, branch, res) ==> ResultBy(es + [e], k, rid, branch, res)
  {
  }

  lemma OwnPhase(es: seq<Event>, v: ServeStep, p: ServePhase, q: ServePhase)
    requires PhaseTold(es, v.rid, p) && Moves(v, p, q)
    ensures PhaseTold(es + [Own(v)], v.rid, q)
  {
    var rid, all := v.rid, es + [Own(v)];
    assert Own(v) in all;
    forall sent, err
      ensures Own(Write(rid, sent, err)) in all <==> Own(Write(rid, sent, err)) in es || v == Write(rid, sent, err)
    {
    }
    if v.Write? { assert Own(Write(rid, v.sent, v.err)) in all; }
  }

  lemma OwnResult(es: seq<Event>, k: ConnId, v: ServeStep, p: ServePhase, q: ServePhase)
    requires PhaseTold(es, v.rid, p) && ResultTold(es, k, v.rid, p) && Moves(v, p, q)
    requires v.Select? ==> ResultBy(es, k, v.rid, v.branch, q.res)
    ensures ResultTold(es + [Own(v)], k, v.rid, q)
  {
    var rid, all := v.rid, es + [Own(v)];
    Longer(es, Own(v), k, rid);
    hide ResultBy;
    forall sent, e
      ensures Own(Write(rid, sent, Some(e))) in all
         <==> (Own(Write(rid, sent, Some(e))) in es || v == Write(rid, sent, Some(e)))
    {
    }
    forall branch
      ensures Own(Select(rid, branch)) in all <==> Own(Select(rid, branch)) in es || v == Select(rid, branch)
    {
    }
    if v.Write? && v.err.Some? { assert Own(Write(rid, v.sent, Some(v.err.value))) in all; }
    if v.Select? { assert Own(Select(rid, v.branch)) in all; }
  }

  lemma OwnEvent(o: O.State, d: Data, es: seq<Event>, v: ServeStep)
    requires ServeEnabled(o, d, v) && Told(d, es, v.rid) && SlotTold(d, es, d.serves[v.rid].conn, v.rid)
    ensures Told(ApplyServe(o, d, v), es + [Own(v)], v.rid)
  {
    OwnMoves(o, d, v);
    if v.Select? { SelectTold(d, es, v.rid, v.branch); }
    hide ServeEnabled, ApplyServe, PhaseTold, ResultTold, Moves, ForwardOutcome, SlotTold, ResultBy;
    var s, q := d.serves[v.rid], ApplyServe(o, d, v).serves[v.rid].phase;
    OwnPhase(es, v, s.phase, q);
    OwnResult(es, s.conn, v, s.phase, q);
  }

  lemma SlotSame(d: Data, t: Data, es: seq<Event>, e: Event, k: ConnId, rid: Uuid)
    requires SlotTold(d, es, k, rid) && t.agentPending == d.agentPending
    ensures SlotTold(t, es + [e], k, rid)
  {
  }

  lemma SlotServe(o: O.State, d: Data, es: seq<Event>, v: ServeStep, k: ConnId, rid: Uuid)
    requires SlotTold(d, es, k, rid) && ServeEnabled(o, d, v)
    ensures SlotTold(ApplyServe(o, d, v), es + [Own(v)], k, rid)
  {
    hide ForwardOutcome;
    if !v.Enter? && !v.Leave? { SlotSame(d, ApplyServe(o, d, v), es, Own(v), k, rid); }
  }

  lemma SlotAgent(o: O.State, d: Data, es: seq<Event>, a: AgentStep, k: ConnId, rid: Uuid)
    requires SlotTold(d, es, k, rid) && AgentEnabled(o, d, a)
    ensures SlotTold(ApplyAgent(o, d, a), es + [Forward(Agent(a))], k, rid)
  {
    if a.Handle? { SlotSame(d, ApplyAgent(o, d, a), es, Forward(Agent(a)), k, rid); }
    else { assert Forward(Agent(a)) == Read(a.k, a.env.requestID, a.env.resp); }
  }

  lemma SlotEvent(s: State, es: seq<Event>, e: Event, k: ConnId, rid: Uuid)
    requires SlotTold(s.d, es, k, rid) && CanDo(s, e)
    ensures SlotTold(Do(s, e).d, es + [e], k, rid)
  {
    hide SlotTold, O.Apply, O.Enabled, ApplyPublic, ApplyServe, ApplyCluster, ApplyAgent;
    hide PublicEnabled, ServeEnabled, ClusterEnabled, AgentEnabled;
    match e
    case Control(_) => SlotSame(s.d, s.d, es, e, k, rid);
    case Forward(Public(p)) =>
      OthersPublic(s.o, s.d, p, rid);
      SlotSame(s.d, ApplyPublic(s.o, s.d, p), es, e, k, rid);
    case Forward(Serving(v)) => SlotServe(s.o, s.d, es, v, k, rid);
    case Forward(Cluster(q)) =>
      OthersCluster(s.o, s.d, q, rid);
      SlotSame(s.d, ApplyCluster(s.o, s.d, q), es, e, k, rid);
    case Forward(Agent(a)) => SlotAgent(s.o, s.d, es, a, k, rid);
  }

  lemma TellsOn(s: State, es: seq<Event>, e: Event, rid: Uuid)
    requires Told(s.d, es, rid) && (forall k :: SlotTold(s.d, es, k, rid)) && CanDo(s, e)
    ensures Told(Do(s, e).d, es + [e], rid)
  {
    hide Told, SlotTold, O.Apply, O.Enabled;
    if e.Forward? && e.f.Serving? && e.f.v.rid == rid {
      assert SlotTold(s.d, es, s.d.serves[rid].conn, rid);
      OwnEvent(s.o, s.d, es, e.f.v);
    } else {
      if e.Forward? { OthersLeave(s.o, s.d, e.f, rid); }
      hide Forwarding.Apply, Forwarding.Enabled;
      OtherEvent(s.d, Do(s, e).d, es, e, rid);
    }
  }

  /** In every run each invocation is in the phase its own steps have brought it to, and its result is what they made
    * it: the error of its failed write, the error of the branch taken - 30 seconds without a reply, the context done,
    * the connection closed - or a response that was read from its connection under its id. */
  lemma {:induction false} InvocationMeaning(base: string, es: seq<Event>, rid: Uuid)
    requires Legal(Start(base), es)
    ensures Told(Play(Start(base), es).d, es, rid)
    ensures forall k :: SlotTold(Play(Start(base), es).d, es, k, rid)
    decreases |es|
  {
    if es != [] {
      var n := |es| - 1;
      assert es == es[..n] + [es[n]];
      hide Do, CanDo, Told, SlotTold;
      InvocationMeaning(base, es[..n], rid);
      TellsOn(Play(Start(base), es[..n]), es[..n], es[n], rid);
      forall k { SlotEvent(Play(Start(base), es[..n]), es[..n], es[n], k, rid); }
    }
  }
}
