/** Every call can end, by the steps of its own instance alone: no reachable state strands a caller, whatever
  * messages are lost and whoever has stopped. While a call waits, one of its own steps can be taken; each of them
  * brings it closer to its outcome; and no other step takes it further away.
  */
module Completion {
  import opened TunnelProto
  import opened Wrappers
  import opened Registry
  import opened Forwarding
  import opened Links
  import opened Replies
  import opened Cluster
  import opened Delivery
  import Address
  import Pending
  import O = Ownership

  /** The steps of the goroutine that handles call c on the instance where it arrived. */
  predicate OwnStep(d: Data, e: Event, c: CallId) {
    e.Forward? &&
    match e.f
    case Public(p) =>
      (match p
       case Lookup(x, _) => x == c
       case FindOwner(x, _) => x == c
       case BeginRemote(x, _) => x == c
       case EndLocal(x) => x == c
       case Publish(x, _, _) => x in d.remotes && d.remotes[x].call == c
       case Settle(x, _) => x in d.remotes && d.remotes[x].call == c
       case EndRemote(x) => x in d.remotes && d.remotes[x].call == c
       case Arrive(_, _, _, _) => false)
    case Serving(v) => v.rid in d.serves && d.serves[v.rid].client == Caller(c)
    case _ => false
  }

  /** How many of its own steps a call can still take. */
  function Distance(d: Data, c: CallId): nat
    requires c in d.calls
  {
    if d.calls[c].outcome.Some? then 0
    else match d.calls[c].via
      case Fresh => 7
      case Missed => 5
      case Located(_) => 4
      case ByPeer(_, x) => if x in d.remotes then 3 - RemoteOrder(d.remotes[x].phase) else 3
      case ByAgent(rid) => if rid in d.serves then 6 - Order(d.serves[rid].phase) else 6
  }

  /** Waits that are over without a reply, or steps that do not wait. */
  predicate WaitsForNobody(e: Event) {
    e.Forward? &&
    match e.f
    case Public(p) => p.Settle? ==> p.branch.TimedOut?
    case Serving(v) => v.Select? ==> v.branch.TimedOut?
    case _ => false
  }

  /** A waiting call can take a step of its own now, without waiting for a reply. */
  lemma NextStep(s: State, c: CallId) returns (e: Event)
    requires Inv(s) && Waiting(s.d, c)
    ensures CanDo(s, e) && OwnStep(s.d, e, c) && WaitsForNobody(e)
  {
    hide O.RegistryOk, O.RowsOk, BusOk, RoutedOk, SocketOk, AgentPendingOk, ResultsOk, RepliesOk, OutcomesOk, CaptureOk;
    assert CallLinked(s.d, c);
    match s.d.calls[c].via
    case Fresh =>
      var rid := FreshUuid(s.d.serves.Keys);
      e := Forward(Public(Lookup(c, rid)));
    case Missed => e := Forward(Public(FindOwner(c, false)));
    case Located(_) =>
      var x := FreshUuid(s.d.remotes.Keys);
      e := Forward(Public(BeginRemote(c, x)));
    case ByPeer(_, x) =>
      assert ClusterCall(s.d, x);
      e := match s.d.remotes[x].phase
        case Opened => Forward(Public(Publish(x, false, None)))
        case Published => Forward(Public(Settle(x, TimedOut)))
        case _ => Forward(Public(EndRemote(x)));
    case ByAgent(rid) =>
      e := match s.d.serves[rid].phase
        case Looked => Forward(Serving(Enter(rid)))
        case Entered => Forward(Serving(Write(rid, false, None)))
        case Written => Forward(Serving(Select(rid, TimedOut)))
        case Selected(_) => Forward(Serving(Leave(rid)))
        case Left(_) => Forward(Serving(Capture(rid)))
        case Served(_) => Forward(Public(EndLocal(c)));
  }

  lemma OwnCallStep(s: State, p: PublicStep, c: CallId)
    requires Inv(s) && Waiting(s.d, c) && PublicEnabled(s.o, s.d, p) && OwnStep(s.d, Forward(Public(p)), c)
    requires p.Lookup? || p.FindOwner? || p.BeginRemote? || p.EndLocal?
    ensures var t := ApplyPublic(s.o, s.d, p); c in t.calls && Distance(t, c) < Distance(s.d, c)
  {
    hide Inv, LiveRoute, LocalLookup, TunnelError, ToResponse, Tbl, Slot, Pending.Stored, Pending.Deleted;
  }

  lemma OwnRemoteStep(s: State, p: PublicStep, c: CallId)
    requires Inv(s) && Waiting(s.d, c) && PublicEnabled(s.o, s.d, p) && OwnStep(s.d, Forward(Public(p)), c)
    requires p.Publish? || p.Settle? || p.EndRemote?
    ensures var t := ApplyPublic(s.o, s.d, p); c in t.calls && Distance(t, c) < Distance(s.d, c)
  {
    assert RemoteLinked(s.d, p.xid);
    hide Inv, TunnelError, ToResponse, SettleOutcome, RequestFor, Tbl, Slot, Pending.Stored, Pending.Deleted;
  }

  lemma OwnPublicStep(s: State, p: PublicStep, c: CallId)
    requires Inv(s) && Waiting(s.d, c) && PublicEnabled(s.o, s.d, p) && OwnStep(s.d, Forward(Public(p)), c)
    ensures var t := ApplyPublic(s.o, s.d, p); c in t.calls && Distance(t, c) < Distance(s.d, c)
  {
    hide Inv, PublicEnabled, ApplyPublic, Distance;
    if p.Publish? || p.Settle? || p.EndRemote? { OwnRemoteStep(s, p, c); } else { OwnCallStep(s, p, c); }
  }

  lemma OwnServeStep(s: State, v: ServeStep, c: CallId)
    requires Inv(s) && Waiting(s.d, c) && ServeEnabled(s.o, s.d, v) && OwnStep(s.d, Forward(Serving(v)), c)
    ensures var t := ApplyServe(s.o, s.d, v); c in t.calls && Distance(t, c) < Distance(s.d, c)
  {
    hide O.RegistryOk, O.RowsOk, BusOk, RoutedOk, SocketOk, AgentPendingOk, ResultsOk, RepliesOk, OutcomesOk, CaptureOk;
    assert ServeLinked(s.d, v.rid);
    hide LinkOk, ClusterCallsOk, ForwardOutcome, Tbl, Slot, Pending.Stored, Pending.Deleted;
  }

  /** Each of its own steps brings a waiting call closer to its outcome, whichever branch it takes. */
  lemma OwnStepAdvances(s: State, e: Event, c: CallId)
    requires Inv(s) && Waiting(s.d, c) && CanDo(s, e) && OwnStep(s.d, e, c)
    ensures c in Do(s, e).d.calls && Distance(Do(s, e).d, c) < Distance(s.d, c)
  {
    hide Inv, PublicEnabled, ServeEnabled, ApplyPublic, ApplyServe, Distance;
    match e.f
    case Public(p) => OwnPublicStep(s, p, c);
    case Serving(v) => OwnServeStep(s, v, c);
    case _ =>
  }

  lemma OtherPublicStep(s: State, p: PublicStep, c: CallId)
    requires PublicEnabled(s.o, s.d, p) && Waiting(s.d, c) && !OwnStep(s.d, Forward(Public(p)), c)
    ensures c in ApplyPublic(s.o, s.d, p).calls && ApplyPublic(s.o, s.d, p).calls[c] == s.d.calls[c]
  {
    hide Address.SubdomainFromHost, LiveRoute, LocalLookup, TunnelError, ToResponse, SettleOutcome;
    hide RequestFor, Tbl, Slot;
    hide Pending.Stored, Pending.Deleted;
  }

  lemma StandsStill(d: Data, t: Data, c: CallId)
    requires c in d.calls && c in t.calls && t.calls[c] == d.calls[c]
    requires d.calls[c].via.ByAgent? ==> ServeGrows(d, t, d.calls[c].via.rid)
    requires d.calls[c].via.ByPeer? ==> RemoteGrows(d, t, d.calls[c].via.xid)
    requires d.calls[c].via.ByAgent? ==> d.calls[c].via.rid in d.serves
    requires d.calls[c].via.ByPeer? ==> d.calls[c].via.xid in d.remotes
    ensures Distance(t, c) <= Distance(d, c)
  {
  }

  lemma OtherForwardStep(s: State, f: Forwarding.Step, c: CallId)
    requires LinkOk(s.d) && BusOk(s.d) && ClusterCallsOk(s.d) && Forwarding.Enabled(s.o, s.d, f)
    requires Waiting(s.d, c) && !OwnStep(s.d, Forward(f), c)
    ensures var t := Forwarding.Apply(s.o, s.d, f); c in t.calls && Distance(t, c) <= Distance(s.d, c)
  {
    assert CallLinked(s.d, c);
    hide LinkOk, BusOk, ClusterCallsOk, PublicEnabled, ServeEnabled, ClusterEnabled, AgentEnabled;
    hide ApplyPublic, ApplyServe, ApplyCluster, ApplyAgent, OwnStep, Distance;
    if f.Public? { OtherPublicStep(s, f.p, c); }
    ServeGrow(s.o, s.d, f, if s.d.calls[c].via.ByAgent? then s.d.calls[c].via.rid else 0);
    RemoteGrow(s.o, s.d, f, if s.d.calls[c].via.ByPeer? then s.d.calls[c].via.xid else 0);
    StandsStill(s.d, Forwarding.Apply(s.o, s.d, f), c);
  }

  /** No other step takes a call further away from its outcome. */
  lemma OtherStepsDoNotHinder(s: State, e: Event, c: CallId)
    requires Inv(s) && c in s.d.calls && CanDo(s, e) && !OwnStep(s.d, e, c)
    ensures c in Do(s, e).d.calls && Distance(Do(s, e).d, c) <= Distance(s.d, c)
  {
    assert LinkOk(s.d) && BusOk(s.d) && ClusterCallsOk(s.d);
    hide Inv, LinkOk, BusOk, ClusterCallsOk, OwnStep, Forwarding.Apply, Forwarding.Enabled, O.Apply, O.Enabled;
    if s.d.calls[c].outcome.Some? {
      CallStays(s, e, c);
    } else if e.Forward? {
      OtherForwardStep(s, e.f, c);
    }
  }

  /** The own steps of a call in a run. */
  ghost function OwnSteps(s: State, es: seq<Event>, c: CallId): nat
    requires Legal(s, es)
    decreases |es|
  {
    if es == [] then 0
    else
      var n := |es| - 1;
      var d := Play(s, es[..n]).d;
      OwnSteps(s, es[..n], c) + if OwnStep(d, es[n], c) && Waiting(d, c) then 1 else 0
  }

  /** Own steps use up the distance, which is never more than seven. */
  lemma {:induction false} OwnStepsSuffice(s: State, es: seq<Event>, c: CallId)
    requires Inv(s) && Legal(s, es) && c in s.d.calls
    ensures c in Play(s, es).d.calls && OwnSteps(s, es, c) + Distance(Play(s, es).d, c) <= Distance(s.d, c) <= 7
    decreases |es|
  {
    if es != [] {
      var init, e := es[..|es| - 1], es[|es| - 1];
      hide Inv, Do, CanDo, OwnStep, Distance;
      OwnStepsSuffice(s, init, c);
      RunKeeps(s, init);
      var u := Play(s, init);
      if OwnStep(u.d, e, c) {
        if Waiting(u.d, c) { OwnStepAdvances(u, e, c); } else { EndedStays(u, e, c); }
      } else {
        OtherStepsDoNotHinder(u, e, c);
      }
    }
  }

  lemma EndedStays(s: State, e: Event, c: CallId)
    requires Inv(s) && CanDo(s, e) && c in s.d.calls && s.d.calls[c].outcome.Some?
    ensures c in Do(s, e).d.calls && Distance(Do(s, e).d, c) == 0
  {
    hide Inv, Do, CanDo;
    CallStays(s, e, c);
  }

  lemma WaitingIsAway(s: State, c: CallId)
    requires Inv(s) && c in s.d.calls
    ensures s.d.calls[c].outcome == None <==> Distance(s.d, c) > 0
  {
    hide O.RegistryOk, O.RowsOk, BusOk, RoutedOk, SocketOk, AgentPendingOk, ResultsOk, RepliesOk, OutcomesOk, CaptureOk;
    assert CallLinked(s.d, c);
    match s.d.calls[c].via
    case ByPeer(_, x) => assert ClusterCall(s.d, x);
    case _ =>
  }

  /** In every run from every reachable state, a call waits through fewer than seven steps of its own, however they
    * interleave with other steps; so any scheduler that keeps running a waiting call's goroutine lets it end. */
  lemma SevenStepsSuffice(base: string, es: seq<Event>, more: seq<Event>, c: CallId)
    requires Legal(Start(base), es) && Legal(Play(Start(base), es), more) && c in Play(Start(base), es).d.calls
    ensures var s := Play(Start(base), es);
      && OwnSteps(s, more, c) <= 7 && c in Play(s, more).d.calls
      && (Waiting(Play(s, more).d, c) ==> OwnSteps(s, more, c) < 7)
  {
    var s := Play(Start(base), es);
    Reachable(base, es);
    hide Inv, Distance;
    OwnStepsSuffice(s, more, c);
    RunKeeps(s, more);
    WaitingIsAway(Play(s, more), c);
  }

  ghost predicate Ends(s: State, more: seq<Event>, c: CallId) {
    && Legal(s, more) && (forall e | e in more :: WaitsForNobody(e))
    && c in Play(s, more).d.calls && Play(s, more).d.calls[c].outcome.Some?
  }

  lemma {:induction false} EndsFrom(s: State, so: seq<Event>, c: CallId) returns (more: seq<Event>)
    requires Inv(s) && Legal(s, so) && (forall e | e in so :: WaitsForNobody(e)) && c in Play(s, so).d.calls
    ensures Ends(s, more, c) && |more| <= |so| + Distance(Play(s, so).d, c)
    decreases Distance(Play(s, so).d, c)
  {
    var u := Play(s, so);
    hide Inv, Do, CanDo, OwnStep, Distance, WaitsForNobody;
    if u.d.calls[c].outcome.Some? {
      more := so;
    } else {
      RunKeeps(s, so);
      var e := NextStep(u, c);
      OwnStepAdvances(u, e, c);
      Extend(s, so, e);
      more := EndsFrom(s, so + [e], c);
    }
  }

  /** From every reachable state every call can be brought to its outcome within seven steps of the gateway, none of
    * which needs a message to arrive. */
  lemma EveryCallCanEnd(base: string, es: seq<Event>, c: CallId)
    requires Legal(Start(base), es) && c in Play(Start(base), es).d.calls
    ensures exists more :: Ends(Play(Start(base), es), more, c) && |more| <= 7
  {
    var s := Play(Start(base), es);
    Reachable(base, es);
    hide Inv, Ends, Distance;
    OwnStepsSuffice(s, [], c);
    var more := EndsFrom(s, [], c);
  }
}
