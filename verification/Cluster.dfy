/** The whole tunnel gateway: ownership and forwarding steps interleaved freely, and what
  * holds for public callers in every run.
  */
module Cluster {
  import opened TunnelProto
  import opened Wrappers
  import opened Registry
  import opened Forwarding
  import opened Links
  import opened Replies
  import O = Ownership

  datatype State = State(o: O.State, d: Data)

  datatype Event = Control(c: O.Step) | Forward(f: Forwarding.Step)

  function Start(base: string): State {
    State(O.Init(base), EMPTY)
  }

  predicate CanDo(s: State, e: Event) {
    match e
    case Control(c) => O.Enabled(s.o, c)
    case Forward(f) => Forwarding.Enabled(s.o, s.d, f)
  }

  function Do(s: State, e: Event): State
    requires CanDo(s, e)
  {
    match e
    case Control(c) => s.(o := O.Apply(s.o, c))
    case Forward(f) => s.(d := Forwarding.Apply(s.o, s.d, f))
  }

  ghost predicate Legal(s: State, es: seq<Event>)
    decreases |es|, 0
  {
    es == [] || (Legal(s, es[..|es| - 1]) && CanDo(Play(s, es[..|es| - 1]), es[|es| - 1]))
  }

  ghost function Play(s: State, es: seq<Event>): State
    requires Legal(s, es)
    decreases |es|, 1
  {
    if es == [] then s else Do(Play(s, es[..|es| - 1]), es[|es| - 1])
  }

  // ---- The invariant -----------------------------------------------------------------------

  ghost predicate Inv(s: State) {
    && O.RegistryOk(s.o) && O.RowsOk(s.o)
    && LinkOk(s.d) && BusOk(s.d) && ClusterCallsOk(s.d) && RoutedOk(s.o, s.d) && SocketOk(s.d)
    && AgentPendingOk(s.d) && ResultsOk(s.d) && RepliesOk(s.d) && OutcomesOk(s.d) && CaptureOk(s.o, s.d)
  }

  lemma ControlKeeps(s: State, c: O.Step)
    requires Inv(s) && O.Enabled(s.o, c)
    ensures Inv(Do(s, Control(c)))
  {
    var o := O.Apply(s.o, c);
    hide O.Apply, O.Enabled, O.RegistryOk, O.RowsOk, LinkOk, BusOk, ClusterCallsOk, SocketOk, AgentPendingOk;
    hide ResultsOk, RepliesOk, OutcomesOk;
    O.RegistryKept(s.o, c);
    O.RowsKept(s.o, c);
    forall rid | rid in s.d.serves
      ensures Routed(o, s.d, rid)
    {
      assert Routed(s.o, s.d, rid);
      O.ConnStable(s.o, c, s.d.serves[rid].conn);
    }
    forall j | 0 <= j < |s.d.captured|
      ensures CapturedFor(o, s.d, s.d.captured[j])
    {
      assert CapturedFor(s.o, s.d, s.d.captured[j]);
      O.ConnStable(s.o, c, s.d.captured[j].conn);
    }
  }

  lemma ForwardKeeps(s: State, f: Forwarding.Step)
    requires Inv(s) && Forwarding.Enabled(s.o, s.d, f)
    ensures Inv(Do(s, Forward(f)))
  {
    hide O.RegistryOk, O.RowsOk, LinkOk, BusOk, ClusterCallsOk, RoutedOk, SocketOk, AgentPendingOk, ResultsOk;
    hide RepliesOk, OutcomesOk, CaptureOk;
    hide Forwarding.Apply, Forwarding.Enabled;
    LinkKept(s.o, s.d, f);
    BusKept(s.o, s.d, f);
    ClusterCallsKept(s.o, s.d, f);
    RoutedKept(s.o, s.d, f);
    SocketKept(s.o, s.d, f);
    AgentPendingKept(s.o, s.d, f);
    ResultsKept(s.o, s.d, f);
    RepliesKept(s.o, s.d, f);
    OutcomesKept(s.o, s.d, f);
    CaptureKept(s.o, s.d, f);
  }

  lemma StartOk(base: string)
    ensures Inv(Start(base))
  {
  }

  lemma Keeps(s: State, e: Event)
    requires Inv(s) && CanDo(s, e)
    ensures Inv(Do(s, e))
  {
    hide Inv, Do;
    match e
    case Control(c) => ControlKeeps(s, c);
    case Forward(f) => ForwardKeeps(s, f);
  }

  lemma {:induction false} RunKeeps(s: State, es: seq<Event>)
    requires Inv(s) && Legal(s, es)
    ensures Inv(Play(s, es))
    decreases |es|
  {
    if es != [] {
      hide Inv, Do, CanDo;
      RunKeeps(s, es[..|es| - 1]);
      Keeps(Play(s, es[..|es| - 1]), es[|es| - 1]);
    }
  }

  /** The invariant holds after every run, whatever happens to rows and route keys. */
  lemma Reachable(base: string, es: seq<Event>)
    requires Legal(Start(base), es)
    ensures Inv(Play(Start(base), es))
  {
    StartOk(base);
    RunKeeps(Start(base), es);
  }

  // ---- What callers get ----------------------------------------------------------------------

  /** The response answers the call: an invocation made for this very call on a connection registered with the
    * call's label either ran the agent's application on the call's request with this response, or failed and
    * the response is the gateway's own error page. */
  ghost predicate Answers(s: State, c: CallId, rid: Uuid, resp: ForwardedResponse) {
    && c in s.d.calls && ServeOf(s.d, c) == Some(rid) && rid in s.d.serves && CallOf(s.d, rid) == c
    && s.d.serves[rid].phase.Served?
    && match s.d.serves[rid].phase.res
      case Ok(r) =>
        && r == resp && rid in s.d.executed
        && s.d.executed[rid] == Execution(s.d.serves[rid].conn, s.d.calls[c].req, resp)
        && s.d.serves[rid].conn in s.o.conns && s.o.conns[s.d.serves[rid].conn].sub == s.d.calls[c].sub
      case Err(err) => resp == ErrorResponse(err)
  }

  lemma AnswerHasServe(s: State, c: CallId)
    requires Inv(s) && c in s.d.calls && s.d.calls[c].outcome.Some? && s.d.calls[c].outcome.value.Answer?
    ensures ServeOf(s.d, c).Some? && ServeOf(s.d, c).value in s.d.serves
    ensures CallOf(s.d, ServeOf(s.d, c).value) == c
    ensures s.d.serves[ServeOf(s.d, c).value].phase.Served?
    ensures s.d.calls[c].outcome.value.resp == ToResponse(s.d.serves[ServeOf(s.d, c).value].phase.res)
  {
  }

  /** In every interleaving, a caller that is answered gets the response produced for its own request, never
    * another's, and never a response out of thin air; and the handler never dereferences a missing response. */
  lemma Correlation(base: string, es: seq<Event>, c: CallId)
    requires Legal(Start(base), es)
    requires c in Play(Start(base), es).d.calls && Play(Start(base), es).d.calls[c].outcome.Some?
    ensures var s := Play(Start(base), es); var out := s.d.calls[c].outcome.value;
      !out.Panicked? && (out.Answer? ==> exists rid :: Answers(s, c, rid, out.resp))
  {
    Reachable(base, es);
    var s := Play(Start(base), es);
    if s.d.calls[c].outcome.value.Answer? {
      AnswerHasServe(s, c);
      var rid := ServeOf(s.d, c).value;
      ServeIsGenuine(s, rid);
      assert Answers(s, c, rid, s.d.calls[c].outcome.value.resp);
    } else {
      NeverPanics(s, c);
    }
  }

  lemma ServeIsGenuine(s: State, rid: Uuid)
    requires Inv(s) && rid in s.d.serves
    ensures var v := s.d.serves[rid]; var c := CallOf(s.d, rid);
      && c in s.d.calls && v.req == s.d.calls[c].req && v.conn in s.o.conns && s.o.conns[v.conn].sub == s.d.calls[c].sub
      && (v.phase.Served? && v.phase.res.Ok? ==>
        rid in s.d.executed && s.d.executed[rid] == Execution(v.conn, v.req, v.phase.res.value))
  {
    hide O.RegistryOk, O.RowsOk, LinkOk, BusOk, ClusterCallsOk, AgentPendingOk, RepliesOk, OutcomesOk, CaptureOk;
    assert Routed(s.o, s.d, rid) && ResultFor(s.d, rid);
    assert rid in s.d.executed ==> ExecutedFor(s.d, rid);
  }

  lemma NeverPanics(s: State, c: CallId)
    requires Inv(s) && c in s.d.calls && s.d.calls[c].outcome.Some?
    ensures !s.d.calls[c].outcome.value.Panicked?
  {
  }

  /** The invocation that serves a call serves no other call. */
  lemma ServesOneCall(s: State, c1: CallId, c2: CallId)
    requires Inv(s) && c1 in s.d.calls && c2 in s.d.calls && ServeOf(s.d, c1).Some?
    requires ServeOf(s.d, c1) == ServeOf(s.d, c2)
    ensures c1 == c2
  {
  }

  lemma CallOfLinked(d: Data, rid: Uuid)
    requires LinkOk(d) && rid in d.serves
    ensures CallOf(d, rid) in d.calls && ServeOf(d, CallOf(d, rid)) == Some(rid)
  {
  }

  /** Whatever the route keys say, every request written to a socket goes to a connection registered with the
    * label the caller asked for, and it is the caller's request. */
  lemma NoMisrouting(base: string, es: seq<Event>, j: int)
    requires Legal(Start(base), es) && 0 <= j < |Play(Start(base), es).d.socketLog|
    ensures var s := Play(Start(base), es); var f := s.d.socketLog[j]; var c := FrameCall(s.d, f);
      && f.env.RequestForward? && c in s.d.calls && f.conn in s.o.conns
      && s.o.conns[f.conn].sub == s.d.calls[c].sub && f.env.req == s.d.calls[c].req
  {
    Reachable(base, es);
    var s := Play(Start(base), es);
    assert WrittenFrame(s.d, s.d.socketLog[j]);
    ServeIsGenuine(s, s.d.socketLog[j].env.requestID);
  }

  /** Each public request is written to at most one socket, once, and published to at most one peer, once -
    * also when route keys are stale, point back at the sender or form a cycle. */
  lemma AtMostOnce(base: string, es: seq<Event>, j: int, l: int)
    requires Legal(Start(base), es) && 0 <= j < l
    ensures var d := Play(Start(base), es).d;
      && (l < |d.socketLog| ==> FrameCall(d, d.socketLog[j]) != FrameCall(d, d.socketLog[l]))
      && (l < |d.busLog| ==>
        && d.busLog[j].1.requestID in d.remotes && d.busLog[l].1.requestID in d.remotes
        && d.remotes[d.busLog[j].1.requestID].call != d.remotes[d.busLog[l].1.requestID].call)
  {
    Reachable(base, es);
    var s := Play(Start(base), es);
    if l < |s.d.socketLog| { OneWritePerCall(s, j, l); }
    if l < |s.d.busLog| { OnePublicationPerCall(s, j, l); }
  }

  lemma OneWritePerCall(s: State, j: int, l: int)
    requires Inv(s) && 0 <= j < l < |s.d.socketLog|
    ensures FrameCall(s.d, s.d.socketLog[j]) != FrameCall(s.d, s.d.socketLog[l])
  {
    hide O.RegistryOk, O.RowsOk, BusOk, RoutedOk, AgentPendingOk, ResultsOk, RepliesOk, OutcomesOk, CaptureOk;
    hide ClusterCallsOk, LinkOk;
    assert WrittenFrame(s.d, s.d.socketLog[j]) && WrittenFrame(s.d, s.d.socketLog[l]);
    CallOfLinked(s.d, s.d.socketLog[j].env.requestID);
    CallOfLinked(s.d, s.d.socketLog[l].env.requestID);
  }

  lemma OnePublicationPerCall(s: State, j: int, l: int)
    requires Inv(s) && 0 <= j < l < |s.d.busLog|
    ensures s.d.busLog[j].1.requestID in s.d.remotes && s.d.busLog[l].1.requestID in s.d.remotes
    ensures s.d.remotes[s.d.busLog[j].1.requestID].call != s.d.remotes[s.d.busLog[l].1.requestID].call
  {
  }

  /** The captured exchanges are exactly the forward calls that returned a response, each once, recorded where the
    * connection is; a captured response the caller did not get was lost between two instances. */
  lemma CaptureAccounting(base: string, es: seq<Event>, rid: Uuid)
    requires Legal(Start(base), es) && rid in Play(Start(base), es).d.serves
    ensures var s := Play(Start(base), es); var v := s.d.serves[rid];
      if v.phase.Served? && v.phase.res.Ok? then
        exists j ::
          && 0 <= j < |s.d.captured| && s.d.captured[j].rid == rid
          && (forall l | 0 <= l < |s.d.captured| && l != j :: s.d.captured[l].rid != rid)
          && v.conn in s.o.conns
          && s.d.captured[j]
             == Captured(rid, s.o.conns[v.conn].inst, v.conn, s.o.conns[v.conn].tunnel, v.req, v.phase.res.value)
      else
        forall j | 0 <= j < |s.d.captured| :: s.d.captured[j].rid != rid
  {
    Reachable(base, es);
    var s := Play(Start(base), es);
    hide O.RegistryOk, O.RowsOk, LinkOk, BusOk, ClusterCallsOk, RoutedOk, SocketOk, AgentPendingOk, ResultsOk;
    hide RepliesOk, OutcomesOk;
    CapturedExactly(s, rid);
  }

  lemma CapturedExactly(s: State, rid: Uuid)
    requires CaptureOk(s.o, s.d) && rid in s.d.serves
    ensures var v := s.d.serves[rid];
      if v.phase.Served? && v.phase.res.Ok? then
        exists j ::
          && 0 <= j < |s.d.captured| && s.d.captured[j].rid == rid
          && (forall l | 0 <= l < |s.d.captured| && l != j :: s.d.captured[l].rid != rid)
          && v.conn in s.o.conns
          && s.d.captured[j]
             == Captured(rid, s.o.conns[v.conn].inst, v.conn, s.o.conns[v.conn].tunnel, v.req, v.phase.res.value)
      else
        forall j | 0 <= j < |s.d.captured| :: s.d.captured[j].rid != rid
  {
  }

  /** forwardRemote stopped waiting before a reply came: publishing failed, it waited too long, or the caller went
    * away. */
  predicate GaveUp(d: Data, c: CallId) {
    && c in d.calls && d.calls[c].via.ByPeer? && d.calls[c].via.xid in d.remotes
    && d.remotes[d.calls[c].via.xid].phase.Ended? && !d.remotes[d.calls[c].via.xid].phase.why.Replied?
    && d.calls[c].outcome == Some(d.remotes[d.calls[c].via.xid].phase.out)
  }

  lemma ErrorsWithoutService(s: State, c: CallId)
    requires Inv(s) && c in s.d.calls && s.d.calls[c].outcome.Some? && !s.d.calls[c].outcome.value.Answer?
    requires ServeOf(s.d, c).Some?
    ensures GaveUp(s.d, c)
  {
    hide O.RegistryOk, O.RowsOk, BusOk, RoutedOk, SocketOk, AgentPendingOk, ResultsOk, RepliesOk, CaptureOk;
    assert CallLinked(s.d, c) && LocalOutcome(s.d, c);
    match s.d.calls[c].via
    case ByPeer(owner, x) => assert RemoteLinked(s.d, x) && ClusterCall(s.d, x) && RemoteOutcome(s.d, x);
    case _ =>
  }

  /** A caller whose call was captured either has no outcome yet, got exactly the captured response, or was served by
    * a peer and its own instance gave up waiting. No reply turns a captured response into an error. */
  lemma CapturedResponseReachesCaller(base: string, es: seq<Event>, j: int)
    requires Legal(Start(base), es) && 0 <= j < |Play(Start(base), es).d.captured|
    ensures var d := Play(Start(base), es).d; var e := d.captured[j]; var c := CallOf(d, e.rid);
      && c in d.calls && e.req == d.calls[c].req
      && (d.calls[c].outcome == None || d.calls[c].outcome == Some(Answer(e.resp)) || GaveUp(d, c))
  {
    Reachable(base, es);
    var s := Play(Start(base), es);
    assert CapturedFor(s.o, s.d, s.d.captured[j]);
    var rid := s.d.captured[j].rid;
    ServeIsGenuine(s, rid);
    CallOfLinked(s.d, rid);
    var c := CallOf(s.d, rid);
    hide Inv, GaveUp;
    if s.d.calls[c].outcome.Some? {
      if s.d.calls[c].outcome.value.Answer? { AnswerHasServe(s, c); } else { ErrorsWithoutService(s, c); }
    }
  }

  /** A caller told by a reply that there is no tunnel was not served: its request is written to no socket, at no
    * time. */
  lemma RefusedIsNotForwarded(base: string, es: seq<Event>, c: CallId, j: int)
    requires Legal(Start(base), es) && c in Play(Start(base), es).d.calls
    requires var d := Play(Start(base), es).d;
      d.calls[c].outcome.Some? && !d.calls[c].outcome.value.Answer? && !GaveUp(d, c) && 0 <= j < |d.socketLog|
    ensures FrameCall(Play(Start(base), es).d, Play(Start(base), es).d.socketLog[j]) != c
  {
    Reachable(base, es);
    var s := Play(Start(base), es);
    assert WrittenFrame(s.d, s.d.socketLog[j]);
    CallOfLinked(s.d, s.d.socketLog[j].env.requestID);
    hide Inv, GaveUp;
    if ServeOf(s.d, c).Some? { ErrorsWithoutService(s, c); }
  }

  // ---- Calls in progress -----------------------------------------------------------------------

  /** In every reachable state the keys of both kinds of pending tables are precisely the calls in progress. */
  lemma PendingTablesExact(base: string, es: seq<Event>, k: ConnId, i: InstanceId, id: Uuid)
    requires Legal(Start(base), es)
    ensures var d := Play(Start(base), es).d;
      && (id in Tbl(d.agentPending, k) <==>
        id in d.serves && d.serves[id].conn == k && 1 <= Order(d.serves[id].phase) <= 3)
      && (id in Tbl(d.clusterPending, i) <==>
        && id in d.remotes && d.remotes[id].call in d.calls && d.calls[d.remotes[id].call].inst == i
        && !d.remotes[id].phase.Ended?)
  {
    Reachable(base, es);
    var d := Play(Start(base), es).d;
    assert PendingEntry(d, k, id) && ClusterEntry(d, i, id);
  }

  /** When no call is in progress, no table holds anything. */
  lemma QuiescentTablesEmpty(base: string, es: seq<Event>, k: ConnId, i: InstanceId)
    requires Legal(Start(base), es)
    requires var d := Play(Start(base), es).d;
      && (forall rid | rid in d.serves :: d.serves[rid].phase.Served?)
      && (forall x | x in d.remotes :: d.remotes[x].phase.Ended?)
    ensures var d := Play(Start(base), es).d; Tbl(d.agentPending, k) == map[] && Tbl(d.clusterPending, i) == map[]
  {
    var d := Play(Start(base), es).d;
    forall id
      ensures id !in Tbl(d.agentPending, k) && id !in Tbl(d.clusterPending, i)
    {
      PendingTablesExact(base, es, k, i, id);
    }
  }

  lemma CallStays(s: State, e: Event, c: CallId)
    requires Inv(s) && CanDo(s, e)
    ensures CallGrows(s.d, Do(s, e).d, c)
  {
    hide O.Apply, O.Enabled, Forwarding.Apply, Forwarding.Enabled, ClusterCallsOk;
    if e.Forward? { CallGrow(s.o, s.d, e.f, c); }
  }

  /** A call gets one outcome: nothing that happens later - late, repeated or unknown replies included - changes
    * it, and the request it was made with never changes either. */
  lemma {:induction false} OutcomeIsFinal(s: State, after: seq<Event>, c: CallId)
    requires Inv(s) && Legal(s, after) && c in s.d.calls
    ensures var t := Play(s, after).d;
      && c in t.calls && t.calls[c].sub == s.d.calls[c].sub && t.calls[c].req == s.d.calls[c].req
      && t.calls[c].inst == s.d.calls[c].inst
      && (s.d.calls[c].outcome.Some? ==> t.calls[c] == s.d.calls[c])
    decreases |after|
  {
    if after != [] {
      var init := after[..|after| - 1];
      hide Inv, Do, CanDo;
      OutcomeIsFinal(s, init, c);
      RunKeeps(s, init);
      CallStays(Play(s, init), after[|after| - 1], c);
    }
  }

  /** Once the read loop of a connection has ended, every call still waiting on it can return at once. */
  lemma WaitersAreReleased(base: string, es: seq<Event>, rid: Uuid)
    requires Legal(Start(base), es)
    requires var s := Play(Start(base), es);
      ServeIn(s.d, rid, Written) && s.d.serves[rid].conn in s.o.conns
        && O.EndedPhase(s.o.conns[s.d.serves[rid].conn].phase)
    ensures var s := Play(Start(base), es); var e := Forward(Serving(Select(rid, ConnClosed)));
      CanDo(s, e) && Do(s, e).d.serves[rid].phase == Selected(Err(ERR_NO_TUNNEL))
  {
    hide CanDo, Do;
    Reachable(base, es);
    Released(Play(Start(base), es), rid);
  }

  lemma Released(s: State, rid: Uuid)
    requires O.RegistryOk(s.o) && ServeIn(s.d, rid, Written)
    requires s.d.serves[rid].conn in s.o.conns && O.EndedPhase(s.o.conns[s.d.serves[rid].conn].phase)
    ensures var e := Forward(Serving(Select(rid, ConnClosed)));
      CanDo(s, e) && Do(s, e).d.serves[rid].phase == Selected(Err(ERR_NO_TUNNEL))
  {
  }
}
