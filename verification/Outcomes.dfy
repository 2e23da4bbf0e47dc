/** What a caller gets, told from the events of the run: how each cluster request ended, what was sent back over Redis,
  * and for every error page the one thing that went wrong.
  */
module Outcomes {
  import opened TunnelProto
  import opened Wrappers
  import opened Registry
  import opened Forwarding
  import opened Links
  import opened Replies
  import opened Cluster
  import opened Journal
  import Address
  import I = Invocations
  import Pending
  import O = Ownership

  // ---- Invocations and where they were made ----------------------------------------------------

  ghost predicate MadeTold(base: string, es: seq<Event>, d: Data, rid: Uuid)
    requires Legal(Start(base), es)
  {
    && (rid in d.serves ==>
      Shown(base, es, Made(rid, d.serves[rid].conn, d.serves[rid].req, d.serves[rid].client)))
    && (forall k, req, client | Shown(base, es, Made(rid, k, req, client)) ::
      rid in d.serves && d.serves[rid] == Serve(k, req, client, d.serves[rid].phase))
  }

  lemma MakesOne(s: State, e: Event, rid: Uuid)
    requires CanDo(s, e)
    ensures var t := Do(s, e).d;
      && (forall k, req, client | Shows(s, e, Made(rid, k, req, client)) ::
        rid !in s.d.serves && rid in t.serves && t.serves[rid] == Serve(k, req, client, Looked))
      && (rid in t.serves && rid !in s.d.serves ==>
        Shows(s, e, Made(rid, t.serves[rid].conn, t.serves[rid].req, t.serves[rid].client)))
  {
    hide O.Apply, O.Enabled, ApplyAgent, AgentEnabled, LocalLookup;
    match e
    case Forward(Public(p)) => MakesPublic(s, p, rid); hide ApplyPublic, PublicEnabled, Shows;
    case Forward(Serving(v)) => ServeKeys(s.o, s.d, v); hide ApplyServe, ServeEnabled;
    case Forward(Cluster(q)) => MakesPeer(s, q, rid); hide ApplyCluster, ClusterEnabled, Shows;
    case _ =>
  }

  lemma MakesPublic(s: State, p: PublicStep, rid: Uuid)
    requires PublicEnabled(s.o, s.d, p)
    ensures var e := Pub(p); var t := ApplyPublic(s.o, s.d, p);
      && (forall k, req, client | Shows(s, e, Made(rid, k, req, client)) ::
        rid !in s.d.serves && rid in t.serves && t.serves[rid] == Serve(k, req, client, Looked))
      && (rid in t.serves && rid !in s.d.serves ==>
        Shows(s, e, Made(rid, t.serves[rid].conn, t.serves[rid].req, t.serves[rid].client)))
  {
    if p.Lookup? {
      hide LocalLookup;
    } else {
      ServesSame(s.o, s.d, p);
      hide ApplyPublic, PublicEnabled, LiveRoute;
    }
  }

  lemma MakesPeer(s: State, q: ClusterStep, rid: Uuid)
    requires ClusterEnabled(s.o, s.d, q)
    ensures var e := Forward(Cluster(q)); var t := ApplyCluster(s.o, s.d, q);
      && (forall k, req, client | Shows(s, e, Made(rid, k, req, client)) ::
        rid !in s.d.serves && rid in t.serves && t.serves[rid] == Serve(k, req, client, Looked))
      && (rid in t.serves && rid !in s.d.serves ==>
        Shows(s, e, Made(rid, t.serves[rid].conn, t.serves[rid].req, t.serves[rid].client)))
  {
    hide LocalLookup, ToResponse, Pending.Delivered;
  }

  lemma MadeGoesOn(base: string, es: seq<Event>, e: Event, d: Data, t: Data, rid: Uuid)
    requires Legal(Start(base), es) && Legal(Start(base), es + [e]) && MadeTold(base, es, d, rid)
    requires ServeGrows(d, t, rid)
    requires var s := Play(Start(base), es);
      && (forall k, req, client | Shows(s, e, Made(rid, k, req, client)) ::
        rid !in d.serves && rid in t.serves && t.serves[rid] == Serve(k, req, client, Looked))
      && (rid in t.serves && rid !in d.serves ==>
        Shows(s, e, Made(rid, t.serves[rid].conn, t.serves[rid].req, t.serves[rid].client)))
    ensures MadeTold(base, es + [e], t, rid)
  {
    forall fact
      ensures Shown(base, es + [e], fact) <==> Shown(base, es, fact) || Shows(Play(Start(base), es), e, fact)
    {
      ShownGrows(base, es, e, fact);
    }
    hide Shown, Shows, Legal, Play;
  }

  /** In every run the invocations are exactly those for which a registry - the caller's own, or the peer's that took up
    * the request - held a connection when it was looked at, and each is on that connection, for that request. */
  lemma {:induction false} OriginMeaning(base: string, es: seq<Event>, rid: Uuid)
    requires Legal(Start(base), es)
    ensures MadeTold(base, es, Play(Start(base), es).d, rid)
    decreases |es|
  {
    if es != [] {
      var n := |es| - 1;
      var s := Play(Start(base), es[..n]);
      assert es == es[..n] + [es[n]];
      hide MadeTold, Shows, O.Apply, O.Enabled, Forwarding.Apply, Forwarding.Enabled;
      OriginMeaning(base, es[..n], rid);
      MakesOne(s, es[n], rid);
      if es[n].Forward? { ServeGrow(s.o, s.d, es[n].f, rid); }
      MadeGoesOn(base, es[..n], es[n], s.d, Do(s, es[n]).d, rid);
    } else {
      NothingShown(base, es);
    }
  }

  lemma NothingShown(base: string, es: seq<Event>)
    requires es == []
    ensures forall fact :: !Shown(base, es, fact)
  {
  }

  // ---- Replies over Redis ----------------------------------------------------------------------

  /** The replies on Redis are exactly those that were published. */
  ghost predicate SentTold(base: string, es: seq<Event>, d: Data, i: InstanceId, rep: ClusterResponse)
    requires Legal(Start(base), es)
  {
    (i, rep) in d.replies <==> Shown(base, es, Response(i, rep)) || Shown(base, es, Refusal(i, rep))
  }

  lemma SendsReply(s: State, e: Event, i: InstanceId, rep: ClusterResponse)
    requires CanDo(s, e)
    ensures (i, rep) in Do(s, e).d.replies
       <==> ((i, rep) in s.d.replies || Shows(s, e, Response(i, rep)) || Shows(s, e, Refusal(i, rep)))
  {
    hide O.Apply, O.Enabled, ApplyAgent, AgentEnabled, ApplyServe, ServeEnabled, ApplyPublic, PublicEnabled;
    if e.Forward? && e.f.Cluster? {
      SendsFromPeer(s, e.f.q, i, rep);
      hide ApplyCluster, ClusterEnabled, Shows;
    } else {
      hide LocalLookup, LiveRoute;
    }
  }

  lemma SendsFromPeer(s: State, q: ClusterStep, i: InstanceId, rep: ClusterResponse)
    requires ClusterEnabled(s.o, s.d, q)
    ensures var e := Forward(Cluster(q));
      (i, rep) in ApplyCluster(s.o, s.d, q).replies
      <==> ((i, rep) in s.d.replies || Shows(s, e, Response(i, rep)) || Shows(s, e, Refusal(i, rep)))
  {
    hide LocalLookup, ToResponse, Pending.Delivered;
  }

  lemma {:induction false} ReplyMeaning(base: string, es: seq<Event>, i: InstanceId, rep: ClusterResponse)
    requires Legal(Start(base), es)
    ensures SentTold(base, es, Play(Start(base), es).d, i, rep)
    decreases |es|
  {
    if es != [] {
      var n := |es| - 1;
      assert es == es[..n] + [es[n]];
      hide Shown, Shows, O.Apply, O.Enabled, Forwarding.Apply, Forwarding.Enabled;
      ReplyMeaning(base, es[..n], i, rep);
      SendsReply(Play(Start(base), es[..n]), es[n], i, rep);
      ShownGrows(base, es[..n], es[n], Response(i, rep));
      ShownGrows(base, es[..n], es[n], Refusal(i, rep));
    } else {
      NothingShown(base, es);
    }
  }

  // ---- Cluster requests ------------------------------------------------------------------------

  function OutcomeOf(p: RemotePhase): Option<Outcome> {
    match p case Settled(out, _) => Some(out) case Ended(out, _) => Some(out) case _ => None
  }

  /** What forwardRemote and handlePublic make of a reply. */
  predicate Brings(rep: ClusterResponse, x: Uuid, out: Outcome) {
    && rep.requestID == x
    && if rep.error != "" then out == BadGateway("tunnel error: " + rep.error)
       else rep.resp.Some? && out == Answer(rep.resp.value)
  }

  /** What a branch of the select makes of the request x of instance i. */
  ghost predicate SettledBy(d: Data, i: InstanceId, x: Uuid, branch: Branch, out: Outcome) {
    match branch
    case GotReply => exists rep :: (i, rep) in d.replies && Brings(rep, x, out)
    case TimedOut => out == BadGateway("tunnel error: " + "gateway: timed out waiting for agent")
    case ContextDone => out == BadGateway("tunnel error: " + "context canceled")
    case ConnClosed => false
  }

  ghost predicate RequestTold(es: seq<Event>, x: Uuid, p: RemotePhase) {
    && (RemoteOrder(p) >= 1 <==> exists sent, err :: Pub(Publish(x, sent, err)) in es)
    && (RemoteOrder(p) >= 3 <==> Pub(EndRemote(x)) in es)
  }

  /** Its outcome is the error of the publication that failed, or comes from the branch that was taken. */
  ghost predicate SettledTold(d: Data, es: seq<Event>, i: InstanceId, x: Uuid, p: RemotePhase) {
    && (OutcomeOf(p).Some? <==>
      ((exists sent, e :: Pub(Publish(x, sent, Some(e))) in es) || (exists branch :: Pub(Settle(x, branch)) in es)))
    && (forall sent, e | Pub(Publish(x, sent, Some(e))) in es :: OutcomeOf(p) == Some(BadGateway("tunnel error: " + e)))
    && (forall branch | Pub(Settle(x, branch)) in es ::
      OutcomeOf(p).Some? && SettledBy(d, i, x, branch, OutcomeOf(p).value))
  }

  predicate Concerns(e: Event, x: Uuid) {
    e.Forward? && e.f.Public? && (e.f.p.Publish? || e.f.p.Settle? || e.f.p.EndRemote?) && e.f.p.xid == x
  }

  ghost predicate RemoteTold(d: Data, es: seq<Event>, x: Uuid) {
    if x in d.remotes
    then
      && d.remotes[x].call in d.calls && RequestTold(es, x, d.remotes[x].phase)
      && SettledTold(d, es, d.calls[d.remotes[x].call].inst, x, d.remotes[x].phase)
    else forall e | e in es :: !Concerns(e, x)
  }

  /** The phases between which a step of the request leads. */
  predicate Moves(p: PublicStep, a: RemotePhase, b: RemotePhase) {
    match p
    case Publish(_, _, None) => a == Opened && b == Published
    case Publish(_, _, Some(e)) => a == Opened && OutcomeOf(b) == Some(BadGateway("tunnel error: " + e)) && b.Settled?
    case Settle(_, _) => a == Published && b.Settled?
    case EndRemote(_) => a.Settled? && b.Ended? && OutcomeOf(b) == OutcomeOf(a)
    case _ => false
  }

  lemma OwnMoves(o: O.State, d: Data, p: PublicStep, x: Uuid)
    requires PublicEnabled(o, d, p) && Concerns(Pub(p), x)
    ensures x in d.remotes && x in ApplyPublic(o, d, p).remotes
    ensures var t := ApplyPublic(o, d, p);
      && t.remotes[x].call == d.remotes[x].call && d.remotes[x].call in d.calls
      && Moves(p, d.remotes[x].phase, t.remotes[x].phase)
      && (p.Settle? ==> OutcomeOf(t.remotes[x].phase) == Some(SettleOutcome(d, x, p.branch)))
  {
    hide SettleOutcome, RequestFor, Tbl, Slot, Pending.Deleted;
  }

  /** What waits in a pending channel is a reply that was published for it. */
  ghost predicate SlotTold(d: Data, i: InstanceId, x: Uuid) {
    var slot := Slot(Tbl(d.clusterPending, i), x);
    slot.Some? ==> (i, slot.value) in d.replies
  }

  lemma SlotBrings(d: Data, i: InstanceId, x: Uuid)
    requires RepliesOk(d) && Slot(Tbl(d.clusterPending, i), x).Some?
    ensures Brings(Slot(Tbl(d.clusterPending, i), x).value, x, ReplyOutcome(Slot(Tbl(d.clusterPending, i), x).value))
  {
    assert ClusterSlot(d, i, x);
    hide RepliesOk;
  }

  lemma SettleTold(d: Data, x: Uuid, branch: Branch)
    requires RepliesOk(d) && x in d.remotes && d.remotes[x].call in d.calls && !branch.ConnClosed?
    requires SlotTold(d, d.calls[d.remotes[x].call].inst, x)
    requires branch.GotReply? ==> Slot(Tbl(d.clusterPending, d.calls[d.remotes[x].call].inst), x).Some?
    ensures SettledBy(d, d.calls[d.remotes[x].call].inst, x, branch, SettleOutcome(d, x, branch))
  {
    hide RepliesOk, Brings, ReplyOutcome;
    if branch.GotReply? { SlotBrings(d, d.calls[d.remotes[x].call].inst, x); }
  }

  lemma MoreReplies(d: Data, t: Data, i: InstanceId, x: Uuid)
    requires d.replies <= t.replies
    ensures forall branch, out :: SettledBy(d, i, x, branch, out) ==> SettledBy(t, i, x, branch, out)
  {
  }

  lemma OwnRequest(es: seq<Event>, p: PublicStep, x: Uuid, a: RemotePhase, b: RemotePhase)
    requires Concerns(Pub(p), x) && RequestTold(es, x, a) && Moves(p, a, b)
    ensures RequestTold(es + [Pub(p)], x, b)
  {
    var all := es + [Pub(p)];
    assert Pub(p) in all;
    forall sent, err
      ensures Pub(Publish(x, sent, err)) in all <==> Pub(Publish(x, sent, err)) in es || p == Publish(x, sent, err)
    {
    }
    if p.Publish? { assert Pub(Publish(x, p.sent, p.err)) in all; }
  }

  lemma OwnSettled(d: Data, t: Data, es: seq<Event>, i: InstanceId, p: PublicStep, x: Uuid, a: RemotePhase,
                   b: RemotePhase)
    requires Concerns(Pub(p), x) && SettledTold(d, es, i, x, a) && Moves(p, a, b) && d.replies <= t.replies
    requires p.Settle? ==> SettledBy(t, i, x, p.branch, b.out)
    ensures SettledTold(t, es + [Pub(p)], i, x, b)
  {
    var all := es + [Pub(p)];
    MoreReplies(d, t, i, x);
    hide SettledBy;
    forall sent, e
      ensures Pub(Publish(x, sent, Some(e))) in all
         <==> (Pub(Publish(x, sent, Some(e))) in es || p == Publish(x, sent, Some(e)))
    {
    }
    forall branch
      ensures Pub(Settle(x, branch)) in all <==> Pub(Settle(x, branch)) in es || p == Settle(x, branch)
    {
    }
    if p.Publish? && p.err.Some? { assert Pub(Publish(x, p.sent, Some(p.err.value))) in all; }
    if p.Settle? { assert Pub(Settle(x, p.branch)) in all; }
  }

  lemma OwnTold(o: O.State, d: Data, es: seq<Event>, p: PublicStep, x: Uuid)
    requires PublicEnabled(o, d, p) && Concerns(Pub(p), x) && RepliesOk(d) && RemoteTold(d, es, x)
    requires x in d.remotes && d.remotes[x].call in d.calls ==> SlotTold(d, d.calls[d.remotes[x].call].inst, x)
    requires ClusterCallsOk(d)
    ensures RemoteTold(ApplyPublic(o, d, p), es + [Pub(p)], x)
  {
    OwnMoves(o, d, p, x);
    if p.Settle? { SettleTold(d, x, p.branch); }
    var t := ApplyPublic(o, d, p);
    CallGrowPublic(o, d, p, d.remotes[x].call);
    hide PublicEnabled, ApplyPublic, RepliesOk, ClusterCallsOk, SlotTold, RequestTold, SettledTold, Moves, SettledBy;
    hide SettleOutcome;
    OwnRequest(es, p, x, d.remotes[x].phase, t.remotes[x].phase);
    OwnSettled(d, d, es, d.calls[d.remotes[x].call].inst, p, x, d.remotes[x].phase, t.remotes[x].phase);
    SameReplies(d, t, es + [Pub(p)], d.calls[d.remotes[x].call].inst, x, t.remotes[x].phase);
  }

  lemma SameReplies(d: Data, t: Data, es: seq<Event>, i: InstanceId, x: Uuid, p: RemotePhase)
    requires SettledTold(d, es, i, x, p) && d.replies <= t.replies
    ensures SettledTold(t, es, i, x, p)
  {
    MoreReplies(d, t, i, x);
    hide SettledBy;
  }

  lemma OtherTold(d: Data, t: Data, es: seq<Event>, e: Event, x: Uuid)
    requires RemoteTold(d, es, x) && !Concerns(e, x) && d.replies <= t.replies
    requires x in d.remotes ==> x in t.remotes && t.remotes[x].(served := None) == d.remotes[x].(served := None)
    requires x in d.remotes ==> CallGrows(d, t, d.remotes[x].call)
    requires x in t.remotes && x !in d.remotes ==> t.remotes[x].phase == Opened && t.remotes[x].call in t.calls
    ensures RemoteTold(t, es + [e], x)
  {
    forall p | Concerns(Pub(p), x) ensures Pub(p) in es + [e] <==> Pub(p) in es { }
    assert forall sent, err :: Concerns(Pub(Publish(x, sent, err)), x);
    assert forall branch :: Concerns(Pub(Settle(x, branch)), x);
    assert Concerns(Pub(EndRemote(x)), x);
    assert forall sent, err :: Pub(Publish(x, sent, err)) in es + [e] <==> Pub(Publish(x, sent, err)) in es;
    assert forall branch :: Pub(Settle(x, branch)) in es + [e] <==> Pub(Settle(x, branch)) in es;
    if x in d.remotes { MoreReplies(d, t, d.calls[d.remotes[x].call].inst, x); }
    hide SettledBy;
  }

  // ---- One event -------------------------------------------------------------------------------

  lemma SlotPublic(o: O.State, d: Data, p: PublicStep, i: InstanceId, x: Uuid)
    requires SlotTold(d, i, x) && PublicEnabled(o, d, p)
    ensures SlotTold(ApplyPublic(o, d, p), i, x)
  {
    if p.BeginRemote? {
      SlotAfter(d, d.calls[p.c].inst, Pending.Stored(Tbl(d.clusterPending, d.calls[p.c].inst), p.xid), i, x);
    } else if p.EndRemote? {
      var j := d.calls[d.remotes[p.xid].call].inst;
      SlotAfter(d, j, Pending.Deleted(Tbl(d.clusterPending, j), p.xid), i, x);
    } else {
      TablesSame(o, d, p);
      hide ApplyPublic, PublicEnabled;
    }
    hide Tbl, Slot, Pending.Stored, Pending.Deleted;
  }

  /** A table whose entries are emptied or removed tells no more than before. */
  lemma SlotAfter(d: Data, j: InstanceId, table: Pending.Table<ClusterResponse>, i: InstanceId, x: Uuid)
    requires SlotTold(d, i, x)
    requires Slot(table, x).Some? ==> Slot(table, x) == Slot(Tbl(d.clusterPending, j), x)
    ensures var slot := Slot(Tbl(d.clusterPending[j := table], i), x); slot.Some? ==> (i, slot.value) in d.replies
  {
  }

  lemma SlotCluster(o: O.State, d: Data, q: ClusterStep, i: InstanceId, x: Uuid)
    requires SlotTold(d, i, x) && ClusterEnabled(o, d, q)
    ensures SlotTold(ApplyCluster(o, d, q), i, x)
    ensures d.replies <= ApplyCluster(o, d, q).replies
  {
    hide LocalLookup, ToResponse;
  }

  lemma SlotEvent(s: State, e: Event, i: InstanceId, x: Uuid)
    requires SlotTold(s.d, i, x) && CanDo(s, e)
    ensures SlotTold(Do(s, e).d, i, x) && s.d.replies <= Do(s, e).d.replies
  {
    hide O.Apply, O.Enabled, ApplyPublic, ApplyServe, ApplyCluster, ApplyAgent;
    hide PublicEnabled, ServeEnabled, ClusterEnabled, AgentEnabled;
    match e
    case Forward(Public(p)) => SlotPublic(s.o, s.d, p, i, x);
    case Forward(Cluster(q)) => SlotCluster(s.o, s.d, q, i, x);
    case _ =>
  }

  /** Steps of others leave a cluster request alone, but for noting who took it up, or have just made it. */
  lemma OthersPublic(o: O.State, d: Data, p: PublicStep, x: Uuid)
    requires PublicEnabled(o, d, p) && !Concerns(Pub(p), x)
    ensures var t := ApplyPublic(o, d, p);
      && (x in d.remotes ==> x in t.remotes && t.remotes[x] == d.remotes[x])
      && (x in t.remotes && x !in d.remotes ==> t.remotes[x].phase == Opened && t.remotes[x].call in t.calls)
  {
    hide TunnelError, ToResponse, SettleOutcome, RequestFor, Tbl, Slot, Pending.Stored, Pending.Deleted;
    if !OnRemote(p) {
      RemotesSame(o, d, p);
      hide ApplyPublic, PublicEnabled;
    }
  }

  lemma OthersCluster(o: O.State, d: Data, q: ClusterStep, x: Uuid)
    requires ClusterEnabled(o, d, q)
    ensures var t := ApplyCluster(o, d, q);
      && (x in t.remotes <==> x in d.remotes)
      && (x in d.remotes ==> t.remotes[x].(served := None) == d.remotes[x].(served := None))
  {
    hide LocalLookup, ToResponse, Pending.Delivered;
  }

  lemma OthersLeave(s: State, e: Event, x: Uuid)
    requires CanDo(s, e) && !Concerns(e, x)
    ensures var d, t := s.d, Do(s, e).d;
      && (x in d.remotes ==> x in t.remotes && t.remotes[x].(served := None) == d.remotes[x].(served := None))
      && (x in t.remotes && x !in d.remotes ==> t.remotes[x].phase == Opened && t.remotes[x].call in t.calls)
  {
    hide O.Apply, O.Enabled, ApplyPublic, ApplyServe, ApplyCluster, ApplyAgent;
    hide PublicEnabled, ServeEnabled, ClusterEnabled, AgentEnabled;
    match e
    case Forward(Public(p)) => OthersPublic(s.o, s.d, p, x);
    case Forward(Cluster(q)) => OthersCluster(s.o, s.d, q, x);
    case _ =>
  }

  lemma IsPublic(s: State, e: Event, x: Uuid)
    requires CanDo(s, e) && Concerns(e, x)
    ensures e == Pub(e.f.p) && PublicEnabled(s.o, s.d, e.f.p) && Do(s, e).d == ApplyPublic(s.o, s.d, e.f.p)
  {
    hide PublicEnabled, ApplyPublic;
  }

  lemma TellsOn(s: State, es: seq<Event>, e: Event, x: Uuid)
    requires Inv(s) && CanDo(s, e) && RemoteTold(s.d, es, x) && (forall i :: SlotTold(s.d, i, x))
    ensures RemoteTold(Do(s, e).d, es + [e], x)
  {
    assert RepliesOk(s.d) && ClusterCallsOk(s.d);
    if Concerns(e, x) {
      IsPublic(s, e, x);
      hide Inv, Do, CanDo, RemoteTold, RepliesOk, ClusterCallsOk, SlotTold, PublicEnabled, ApplyPublic;
      if x in s.d.remotes && s.d.remotes[x].call in s.d.calls {
        assert SlotTold(s.d, s.d.calls[s.d.remotes[x].call].inst, x);
      }
      OwnTold(s.o, s.d, es, e.f.p, x);
    } else {
      SlotEvent(s, e, 0, x);
      OthersLeave(s, e, x);
      if x in s.d.remotes { CallStays(s, e, s.d.remotes[x].call); }
      hide Inv, Do, CanDo, RepliesOk, ClusterCallsOk, SlotTold, Concerns;
      OtherTold(s.d, Do(s, e).d, es, e, x);
    }
  }

  /** In every run each cluster request is in the phase its own steps have brought it to, and its outcome is what they
    * made it: the error of its failed publication, the error of the branch taken, or the content of a reply that was
    * published for it. */
  lemma {:induction false} RequestMeaning(base: string, es: seq<Event>, x: Uuid)
    requires Legal(Start(base), es)
    ensures RemoteTold(Play(Start(base), es).d, es, x)
    ensures forall i :: SlotTold(Play(Start(base), es).d, i, x)
    decreases |es|
  {
    if es != [] {
      var n := |es| - 1;
      var s := Play(Start(base), es[..n]);
      assert es == es[..n] + [es[n]];
      hide Inv, Do, CanDo, RemoteTold, SlotTold;
      RequestMeaning(base, es[..n], x);
      Reachable(base, es[..n]);
      TellsOn(s, es[..n], es[n], x);
      forall i { SlotEvent(s, es[n], i, x); }
    }
  }

  // ---- Why a caller gets an error page ---------------------------------------------------------

  /** forwardRemote for call c got this from its request x. */
  ghost predicate Failed(es: seq<Event>, c: CallId, x: Uuid, step: PublicStep) {
    Pub(BeginRemote(c, x)) in es && Pub(step) in es && Pub(EndRemote(x)) in es
  }

  /** Everything that can stand on an error page of handlePublic, each with its cause in the run. */
  ghost predicate Because(base: string, es: seq<Event>, d: Data, c: CallId, text: string)
    requires Legal(Start(base), es) && c in d.calls
  {
    var call := d.calls[c];
    || (call.sub == "" && text == "no tunnel host")
    || (text == "no active tunnel for " + call.sub && Shown(base, es, NotHere(c)) && Shown(base, es, NoRoute(c)))
    || (exists x, sent, e :: Failed(es, c, x, Publish(x, sent, Some(e))) && text == "tunnel error: " + e)
    || (exists x :: && Failed(es, c, x, Settle(x, TimedOut))
                    && text == "tunnel error: " + "gateway: timed out waiting for agent")
    || (exists x :: Failed(es, c, x, Settle(x, ContextDone)) && text == "tunnel error: " + "context canceled")
    || (exists x, rep: ClusterResponse :: && Failed(es, c, x, Settle(x, GotReply)) && rep.requestID == x
                         && Shown(base, es, Refusal(call.inst, rep))
                         && text == "tunnel error: " + ("no active tunnel for " + call.sub))
  }

  /** Every error page of handlePublic has its cause in the run, and no other text stands on one. */
  lemma ErrorMeaning(base: string, es: seq<Event>, c: CallId, text: string)
    requires Legal(Start(base), es) && c in Play(Start(base), es).d.calls
    requires Play(Start(base), es).d.calls[c].outcome == Some(BadGateway(text))
    ensures Because(base, es, Play(Start(base), es).d, c, text)
  {
    var s := Play(Start(base), es);
    Reachable(base, es);
    WayMeaning(base, es, c);
    FailedCall(s, c);
    hide Inv, Legal, Play, Shown, HasLooked, HasSought, HasBegun;
    match s.d.calls[c].via
    case ByPeer(i, x) =>
      RequestMeaning(base, es, x);
      hide WayTold, SlotTold, RequestTold;
      RemoteCause(base, es, s, c, x, text);
    case _ =>
  }

  lemma FailedCall(s: State, c: CallId)
    requires Inv(s) && c in s.d.calls && s.d.calls[c].outcome.Some? && s.d.calls[c].outcome.value.BadGateway?
    ensures !s.d.calls[c].via.ByAgent?
    ensures var via := s.d.calls[c].via;
      via.ByPeer? ==>
        && via.xid in s.d.remotes && s.d.remotes[via.xid].call == c && s.d.remotes[via.xid].phase.Ended?
        && OutcomeOf(s.d.remotes[via.xid].phase) == s.d.calls[c].outcome
  {
    hide O.RegistryOk, O.RowsOk, BusOk, RoutedOk, SocketOk, AgentPendingOk, ResultsOk, RepliesOk, CaptureOk;
    assert CallLinked(s.d, c) && LocalOutcome(s.d, c);
    if s.d.calls[c].via.ByPeer? { assert ClusterCall(s.d, s.d.calls[c].via.xid); }
  }

  lemma RemoteCause(base: string, es: seq<Event>, s: State, c: CallId, x: Uuid, text: string)
    requires Legal(Start(base), es) && s == Play(Start(base), es) && c in s.d.calls && RemoteTold(s.d, es, x)
    requires x in s.d.remotes && s.d.remotes[x].call == c && s.d.remotes[x].phase.Ended?
    requires OutcomeOf(s.d.remotes[x].phase) == Some(BadGateway(text)) && Pub(BeginRemote(c, x)) in es
    ensures Because(base, es, s.d, c, text)
  {
    hide Legal, Play, Shown;
    assert Pub(EndRemote(x)) in es;
    if sent, e :| Pub(Publish(x, sent, Some(e))) in es {
      assert Failed(es, c, x, Publish(x, sent, Some(e)));
    } else {
      var branch :| Pub(Settle(x, branch)) in es;
      assert Failed(es, c, x, Settle(x, branch)) && SettledBy(s.d, s.d.calls[c].inst, x, branch, BadGateway(text));
      SettledCause(base, es, s, c, x, branch, text);
    }
  }

  lemma SettledCause(base: string, es: seq<Event>, s: State, c: CallId, x: Uuid, branch: Branch, text: string)
    requires Legal(Start(base), es) && s == Play(Start(base), es) && c in s.d.calls
    requires x in s.d.remotes && s.d.remotes[x].call == c
    requires Failed(es, c, x, Settle(x, branch)) && SettledBy(s.d, s.d.calls[c].inst, x, branch, BadGateway(text))
    ensures Because(base, es, s.d, c, text)
  {
    hide Legal, Play, Shown;
    if branch.GotReply? {
      var i := s.d.calls[c].inst;
      var rep :| (i, rep) in s.d.replies && Brings(rep, x, BadGateway(text));
      ReplyMeaning(base, es, i, rep);
      ResponseHasNoError(base, es, i, rep);
      RefusalNamesLabel(base, es, i, rep);
    }
  }

  lemma ResponseHasNoError(base: string, es: seq<Event>, i: InstanceId, rep: ClusterResponse)
    requires Legal(Start(base), es)
    ensures Shown(base, es, Response(i, rep)) ==> rep.error == ""
  {
    hide Before;
  }

  /** The refusal names the label that was asked for. */
  ghost predicate Names(d: Data, rep: ClusterResponse) {
    && rep.requestID in d.remotes && d.remotes[rep.requestID].call in d.calls
    && rep.error == "no active tunnel for " + d.calls[d.remotes[rep.requestID].call].sub
  }

  lemma RefusalAsked(s: State, e: Event, i: InstanceId, rep: ClusterResponse)
    requires BusOk(s.d) && CanDo(s, e) && Shows(s, e, Refusal(i, rep))
    ensures Names(s.d, rep)
  {
    InFlight(s.d, e.f.q.i, e.f.q.cr);
    hide BusOk, LocalLookup;
  }

  lemma NamesStay(s: State, e: Event, rep: ClusterResponse)
    requires Inv(s) && CanDo(s, e) && Names(s.d, rep)
    ensures Names(Do(s, e).d, rep)
  {
    assert BusOk(s.d);
    CallStays(s, e, s.d.remotes[rep.requestID].call);
    hide Inv, BusOk, O.Apply, O.Enabled;
    if e.Forward? { RemoteGrow(s.o, s.d, e.f, rep.requestID); hide Forwarding.Apply, Forwarding.Enabled; }
  }

  lemma {:induction false} RefusalNamesLabel(base: string, es: seq<Event>, i: InstanceId, rep: ClusterResponse)
    requires Legal(Start(base), es)
    ensures Shown(base, es, Refusal(i, rep)) ==> Names(Play(Start(base), es).d, rep)
    decreases |es|
  {
    if es != [] {
      var n := |es| - 1;
      var s := Play(Start(base), es[..n]);
      assert es == es[..n] + [es[n]];
      Reachable(base, es[..n]);
      assert BusOk(s.d);
      hide Inv, BusOk, Do, CanDo, Shown, Shows, Names;
      RefusalNamesLabel(base, es[..n], i, rep);
      ShownGrows(base, es[..n], es[n], Refusal(i, rep));
      if Shows(s, es[n], Refusal(i, rep)) { RefusalAsked(s, es[n], i, rep); }
      if Names(s.d, rep) { NamesStay(s, es[n], rep); }
    } else {
      NothingShown(base, es);
    }
  }

  // ---- What stands in an answer ------------------------------------------------------------------

  /** Why an invocation failed with this error. */
  ghost predicate FailedBecause(es: seq<Event>, rid: Uuid, err: string) {
    || (exists sent :: I.Own(Write(rid, sent, Some(err))) in es)
    || (I.Own(Select(rid, TimedOut)) in es && err == "gateway: timed out waiting for agent")
    || (I.Own(Select(rid, ContextDone)) in es && err == "context deadline exceeded")
    || (I.Own(Select(rid, ConnClosed)) in es && err == "gateway: no active tunnel for host")
  }

  /** The one invocation that served call c returned resp: as it was read from the connection, or a 502 page that
    * names the cause. */
  ghost predicate Returned(es: seq<Event>, d: Data, c: CallId, rid: Uuid, resp: ForwardedResponse) {
    && ServeOf(d, c) == Some(rid) && rid in d.serves && d.serves[rid].phase.Served?
    && match d.serves[rid].phase.res
      case Ok(r) => resp == r && I.Read(d.serves[rid].conn, rid, resp) in es
      case Err(err) =>
        && FailedBecause(es, rid, err)
        && resp == ForwardedResponse(502, map["Content-Type" := ["text/plain; charset=utf-8"]], "tunnel error: " + err)
  }

  lemma InvocationResult(d: Data, es: seq<Event>, rid: Uuid)
    requires I.Told(d, es, rid) && rid in d.serves && d.serves[rid].phase.Served?
    ensures var v := d.serves[rid];
      match v.phase.res
      case Ok(r) => I.Read(v.conn, rid, r) in es
      case Err(err) => FailedBecause(es, rid, err)
  {
    var v := d.serves[rid];
    if sent, e :| I.Own(Write(rid, sent, Some(e))) in es {
      assert v.phase.res == Err(e);
    } else {
      var branch :| I.Own(Select(rid, branch)) in es;
      assert I.ResultBy(es, v.conn, rid, branch, v.phase.res);
    }
  }

  /** Every answer is what the invocation for that call read from its connection, or the gateway's own page with the
    * cause of the failure on it. */
  lemma AnswerMeaning(base: string, es: seq<Event>, c: CallId, resp: ForwardedResponse)
    requires Legal(Start(base), es) && c in Play(Start(base), es).d.calls
    requires Play(Start(base), es).d.calls[c].outcome == Some(Answer(resp))
    ensures exists rid :: Returned(es, Play(Start(base), es).d, c, rid, resp)
  {
    var s := Play(Start(base), es);
    Reachable(base, es);
    AnswerHasServe(s, c);
    hide Inv, Legal, Play, I.SlotTold, I.Told;
    var rid := ServeOf(s.d, c).value;
    I.InvocationMeaning(base, es, rid);
    InvocationResult(s.d, es, rid);
    assert Returned(es, s.d, c, rid, resp);
  }

  // ---- The wire --------------------------------------------------------------------------------

  /** The frames that the write steps of a run put on sockets, in order. */
  ghost function Frames(base: string, es: seq<Event>): seq<Frame>
    requires Legal(Start(base), es)
    decreases |es|
  {
    if es == [] then []
    else
      var n := |es| - 1;
      Frames(base, es[..n])
      + match es[n]
        case Forward(Serving(Write(rid, _, _))) =>
          var d := Play(Start(base), es[..n]).d;
          if rid in d.serves then [Frame(d.serves[rid].conn, RequestForward(rid, d.serves[rid].req))] else []
        case _ => []
  }

  /** The cluster requests that the publish steps of a run put on Redis, in order. */
  ghost function Publications(base: string, es: seq<Event>): seq<(InstanceId, Uuid)>
    requires Legal(Start(base), es)
    decreases |es|
  {
    if es == [] then []
    else
      var n := |es| - 1;
      Publications(base, es[..n])
      + match es[n]
        case Forward(Public(Publish(x, _, _))) =>
          var d := Play(Start(base), es[..n]).d;
          if x in d.remotes then [(d.remotes[x].owner, x)] else []
        case _ => []
  }

  function Heads(log: seq<(InstanceId, ClusterRequest)>): seq<(InstanceId, Uuid)> {
    seq(|log|, j requires 0 <= j < |log| => (log[j].0, log[j].1.requestID))
  }

  lemma SocketStep(s: State, e: Event)
    requires CanDo(s, e)
    ensures Do(s, e).d.socketLog == s.d.socketLog
      + match e
        case Forward(Serving(Write(rid, _, _))) =>
          if rid in s.d.serves then [Frame(s.d.serves[rid].conn, RequestForward(rid, s.d.serves[rid].req))] else []
        case _ => []
  {
    hide O.Apply, O.Enabled, ApplyPublic, ApplyCluster, ApplyAgent, PublicEnabled, ClusterEnabled, AgentEnabled;
    hide ForwardOutcome, Pending.Stored, Pending.Deleted;
  }

  lemma BusPublic(o: O.State, d: Data, p: PublicStep)
    requires PublicEnabled(o, d, p)
    ensures Heads(ApplyPublic(o, d, p).busLog) == Heads(d.busLog)
      + if p.Publish? then [(d.remotes[p.xid].owner, p.xid)] else []
  {
    if p.Publish? {
      hide TunnelError;
    } else {
      hide Address.SubdomainFromHost, LiveRoute, LocalLookup, TunnelError, ToResponse, SettleOutcome, RequestFor;
      hide Tbl, Slot, Pending.Stored, Pending.Deleted, Heads;
      assert Heads(d.busLog) + [] == Heads(d.busLog);
    }
  }

  lemma BusStep(s: State, e: Event)
    requires CanDo(s, e)
    ensures Heads(Do(s, e).d.busLog) == Heads(s.d.busLog)
      + match e
        case Forward(Public(Publish(x, _, _))) => if x in s.d.remotes then [(s.d.remotes[x].owner, x)] else []
        case _ => []
  {
    hide O.Apply, O.Enabled, ApplyServe, ApplyCluster, ApplyAgent, ServeEnabled, ClusterEnabled, AgentEnabled, Heads;
    match e
    case Forward(Public(p)) => BusPublic(s.o, s.d, p); hide ApplyPublic;
    case _ => assert Heads(s.d.busLog) + [] == Heads(s.d.busLog);
  }

  /** The two logs miss nothing: every write to a socket and every publication of the run is in them, in order. */
  lemma {:induction false} LogsAreComplete(base: string, es: seq<Event>)
    requires Legal(Start(base), es)
    ensures Play(Start(base), es).d.socketLog == Frames(base, es)
    ensures Heads(Play(Start(base), es).d.busLog) == Publications(base, es)
    decreases |es|
  {
    if es != [] {
      var n := |es| - 1;
      hide Do, CanDo, Heads;
      LogsAreComplete(base, es[..n]);
      SocketStep(Play(Start(base), es[..n]), es[n]);
      BusStep(Play(Start(base), es[..n]), es[n]);
    }
  }

  // ---- What was sent ---------------------------------------------------------------------------

  /** The request of the invocation left the gateway on its socket. */
  ghost predicate LeftOnSocket(es: seq<Event>, rid: Uuid) {
    exists err :: I.Own(Write(rid, true, err)) in es
  }

  /** The cluster request left the gateway for Redis. */
  ghost predicate LeftOnBus(es: seq<Event>, x: Uuid) {
    exists err :: Pub(Publish(x, true, err)) in es
  }

  /** The agent of connection k ran the request of the invocation with this response and sent it back. */
  ghost predicate LeftAgent(es: seq<Event>, k: ConnId, rid: Uuid, resp: ForwardedResponse) {
    exists req :: Forward(Agent(Handle(k, RequestForward(rid, req), resp, true))) in es
  }

  ghost predicate SocketSeen(d: Data, es: seq<Event>) {
    && (forall f | f in d.toAgent && f.env.RequestForward? :: LeftOnSocket(es, f.env.requestID))
    && (forall rid | rid in d.executed :: LeftOnSocket(es, rid))
  }

  ghost predicate BusSeen(d: Data, es: seq<Event>) {
    && (forall m | m in d.rpc :: LeftOnBus(es, m.1.requestID))
    && (forall x | x in d.remotes && d.remotes[x].served.Some? :: LeftOnBus(es, x))
  }

  ghost predicate AgentSeen(d: Data, es: seq<Event>) {
    forall f | f in d.fromAgent && f.env.ResponseForward? :: LeftAgent(es, f.conn, f.env.requestID, f.env.resp)
  }

  /** Agents, peers and read loops have seen only what was sent to them. */
  ghost predicate SeenIsSent(d: Data, es: seq<Event>) {
    SocketSeen(d, es) && BusSeen(d, es) && AgentSeen(d, es)
  }

  /** What an event does not touch is still sent after it. */
  lemma SentStays(d: Data, t: Data, es: seq<Event>, e: Event)
    ensures SocketSeen(d, es) && t.toAgent == d.toAgent && t.executed == d.executed ==> SocketSeen(t, es + [e])
    ensures BusSeen(d, es) && t.rpc == d.rpc && t.remotes == d.remotes ==> BusSeen(t, es + [e])
    ensures AgentSeen(d, es) && t.fromAgent == d.fromAgent ==> AgentSeen(t, es + [e])
  {
    LeftStays(es, e);
    hide LeftAgent, LeftOnBus, LeftOnSocket;
  }

  lemma LeftStays(es: seq<Event>, e: Event)
    ensures forall rid | LeftOnSocket(es, rid) :: LeftOnSocket(es + [e], rid)
    ensures forall x | LeftOnBus(es, x) :: LeftOnBus(es + [e], x)
    ensures forall k, rid, resp | LeftAgent(es, k, rid, resp) :: LeftAgent(es + [e], k, rid, resp)
  {
    forall k, rid, resp | LeftAgent(es, k, rid, resp)
      ensures LeftAgent(es + [e], k, rid, resp)
    {
      var req :| Forward(Agent(Handle(k, RequestForward(rid, req), resp, true))) in es;
      assert Forward(Agent(Handle(k, RequestForward(rid, req), resp, true))) in es + [e];
    }
    forall rid | LeftOnSocket(es, rid)
      ensures LeftOnSocket(es + [e], rid)
    {
      var err :| I.Own(Write(rid, true, err)) in es;
      assert I.Own(Write(rid, true, err)) in es + [e];
    }
    forall x | LeftOnBus(es, x)
      ensures LeftOnBus(es + [e], x)
    {
      var err :| Pub(Publish(x, true, err)) in es;
      assert Pub(Publish(x, true, err)) in es + [e];
    }
  }

  lemma SentServing(o: O.State, d: Data, es: seq<Event>, v: ServeStep)
    requires SeenIsSent(d, es) && ServeEnabled(o, d, v)
    ensures SeenIsSent(ApplyServe(o, d, v), es + [I.Own(v)])
  {
    var t := ApplyServe(o, d, v);
    SentStays(d, t, es, I.Own(v));
    if v.Write? && v.sent {
      LeftStays(es, I.Own(v));
      assert I.Own(Write(v.rid, true, v.err)) in es + [I.Own(v)];
    }
    hide BusSeen, AgentSeen, LeftAgent, LeftOnBus, ForwardOutcome, Tbl, Pending.Stored, Pending.Deleted;
  }

  lemma RanSentRequest(d: Data, es: seq<Event>, a: AgentStep)
    requires SocketSeen(d, es) && a.Handle? && Frame(a.k, a.env) in d.toAgent && a.env.RequestForward?
    ensures SocketSeen(DoHandle(d, a.k, a.env, a.resp, a.sent), es + [Forward(Agent(a))])
  {
    LeftStays(es, Forward(Agent(a)));
    hide LeftAgent, LeftOnBus, LeftOnSocket;
  }

  lemma SentItsResponse(d: Data, es: seq<Event>, a: AgentStep)
    requires AgentSeen(d, es) && a.Handle? && a.env.RequestForward?
    ensures AgentSeen(DoHandle(d, a.k, a.env, a.resp, a.sent), es + [Forward(Agent(a))])
  {
    LeftStays(es, Forward(Agent(a)));
    var h := Handle(a.k, RequestForward(a.env.requestID, a.env.req), a.resp, true);
    assert a.sent ==> Forward(Agent(h)) in es + [Forward(Agent(a))];
    assert a.sent ==> LeftAgent(es + [Forward(Agent(a))], a.k, a.env.requestID, a.resp);
    hide LeftAgent, LeftOnBus, LeftOnSocket;
  }

  lemma SentAgent(o: O.State, d: Data, es: seq<Event>, a: AgentStep)
    requires SeenIsSent(d, es) && AgentEnabled(o, d, a)
    ensures SeenIsSent(ApplyAgent(o, d, a), es + [Forward(Agent(a))])
  {
    hide SocketSeen, BusSeen, AgentSeen, Tbl, Pending.Delivered, DoHandle;
    SentStays(d, ApplyAgent(o, d, a), es, Forward(Agent(a)));
    if a.Handle? {
      RanSentRequest(d, es, a);
      SentItsResponse(d, es, a);
      HandleLeavesBus(d, a);
    }
  }

  lemma HandleLeavesBus(d: Data, a: AgentStep)
    requires a.Handle? && a.env.RequestForward?
    ensures var t := DoHandle(d, a.k, a.env, a.resp, a.sent); t.rpc == d.rpc && t.remotes == d.remotes
  {
  }

  lemma TookSentRequest(o: O.State, d: Data, es: seq<Event>, q: ClusterStep)
    requires BusSeen(d, es) && q.PeerServe? && (q.i, q.cr) in d.rpc
    ensures var t := DoPeerServe(o, d, q.i, q.cr, q.rid, q.sent);
      BusSeen(t, es + [Forward(Cluster(q))]) && t.toAgent == d.toAgent && t.executed == d.executed
      && t.fromAgent == d.fromAgent
  {
    LeftStays(es, Forward(Cluster(q)));
    hide LeftAgent, LeftOnBus, LeftOnSocket, LocalLookup;
  }

  lemma SentCluster(o: O.State, d: Data, es: seq<Event>, q: ClusterStep)
    requires SeenIsSent(d, es) && ClusterEnabled(o, d, q)
    ensures SeenIsSent(ApplyCluster(o, d, q), es + [Forward(Cluster(q))])
  {
    SentStays(d, ApplyCluster(o, d, q), es, Forward(Cluster(q)));
    hide SocketSeen, BusSeen, AgentSeen, DoPeerServe, Tbl, Pending.Delivered, ToResponse;
    if q.PeerServe? { TookSentRequest(o, d, es, q); }
  }

  lemma SentPublic(o: O.State, d: Data, es: seq<Event>, p: PublicStep)
    requires SeenIsSent(d, es) && PublicEnabled(o, d, p)
    ensures SeenIsSent(ApplyPublic(o, d, p), es + [Pub(p)])
  {
    SentStays(d, ApplyPublic(o, d, p), es, Pub(p));
    LeftStays(es, Pub(p));
    hide SocketSeen, AgentSeen;
    if p.Publish? {
      if p.sent { assert Pub(Publish(p.xid, true, p.err)) in es + [Pub(p)]; }
      hide LeftAgent, LeftOnBus, LeftOnSocket, TunnelError;
    } else {
      BusSame(o, d, p);
      hide LeftAgent, LeftOnBus, LeftOnSocket, ApplyPublic, PublicEnabled;
    }
  }

  lemma BusSame(o: O.State, d: Data, p: PublicStep)
    requires PublicEnabled(o, d, p) && !p.Publish?
    ensures var t := ApplyPublic(o, d, p);
      && t.rpc == d.rpc
      && forall x | x in t.remotes && t.remotes[x].served.Some? ::
        x in d.remotes && d.remotes[x].served == t.remotes[x].served
  {
    if OnRemote(p) {
      hide TunnelError, SettleOutcome, Tbl, Slot, Pending.Stored, Pending.Deleted;
    } else {
      RemotesSame(o, d, p);
      RpcSame(o, d, p);
      hide ApplyPublic, PublicEnabled;
    }
  }

  lemma RpcSame(o: O.State, d: Data, p: PublicStep)
    requires PublicEnabled(o, d, p) && !OnRemote(p)
    ensures ApplyPublic(o, d, p).rpc == d.rpc
  {
    hide Address.SubdomainFromHost, LiveRoute, LocalLookup, TunnelError, ToResponse;
  }

  /** In every run an agent has run only requests whose write put them on its socket, peers have taken up only cluster
    * requests whose publication reached Redis, and a response frame is one that the agent sent after running it. */
  lemma {:induction false} OnlySentIsSeen(base: string, es: seq<Event>)
    requires Legal(Start(base), es)
    ensures SeenIsSent(Play(Start(base), es).d, es)
    decreases |es|
  {
    if es != [] {
      var n := |es| - 1;
      var s := Play(Start(base), es[..n]);
      assert es == es[..n] + [es[n]];
      hide SeenIsSent, Do, CanDo;
      OnlySentIsSeen(base, es[..n]);
      SentEvent(s, es[..n], es[n]);
    }
  }

  lemma SentEvent(s: State, es: seq<Event>, e: Event)
    requires SeenIsSent(s.d, es) && CanDo(s, e)
    ensures SeenIsSent(Do(s, e).d, es + [e])
  {
    hide SeenIsSent, O.Apply, O.Enabled, ApplyPublic, ApplyServe, ApplyCluster, ApplyAgent;
    hide PublicEnabled, ServeEnabled, ClusterEnabled, AgentEnabled;
    match e
    case Control(_) => SentControl(s.d, es, e);
    case Forward(Public(p)) => SentPublic(s.o, s.d, es, p);
    case Forward(Serving(v)) => SentServing(s.o, s.d, es, v);
    case Forward(Cluster(q)) => SentCluster(s.o, s.d, es, q);
    case Forward(Agent(a)) => SentAgent(s.o, s.d, es, a);
  }

  lemma SentControl(d: Data, es: seq<Event>, e: Event)
    requires SeenIsSent(d, es)
    ensures SeenIsSent(d, es + [e])
  {
    SentStays(d, d, es, e);
    hide SocketSeen, BusSeen, AgentSeen;
  }
}
