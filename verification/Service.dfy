/** What callers can count on. The control steps of a cluster run are a run of the control plane, so what holds of
  * those in every run holds here: in every run that is timely for a connection, a call for its label is answered by
  * that connection's agent, wherever the call arrives; and a label that is free can be registered and then called.
  */
module Service {
  import opened TunnelProto
  import opened Wrappers
  import opened Registry
  import opened Forwarding
  import opened Cluster
  import opened Delivery
  import opened Routes
  import Address
  import E = Exclusive
  import J = Journal
  import O = Ownership
  import P = Progress

  /** The control steps of a run, in order. */
  function Project(es: seq<Event>): seq<O.Step> {
    if es == [] then []
    else
      var n := |es| - 1;
      Project(es[..n]) + if es[n].Control? then [es[n].c] else []
  }

  lemma {:induction false} ProjectPlays(s: State, es: seq<Event>)
    requires Legal(s, es)
    ensures O.Legal(s.o, Project(es)) && O.Play(s.o, Project(es)) == Play(s, es).o
    decreases |es|
  {
    if es != [] {
      var n := |es| - 1;
      hide O.Apply, O.Enabled, Forwarding.Apply, Forwarding.Enabled;
      ProjectPlays(s, es[..n]);
      if es[n].Control? {
        O.Append(s.o, Project(es[..n]), es[n].c);
      } else {
        assert Project(es) == Project(es[..n]);
      }
    }
  }

  // ---- Arrivals that are answered --------------------------------------------------------------

  ghost predicate TimelyControl(base: string, es: seq<Event>, i: InstanceId, sub: Label) {
    O.Legal(O.Init(base), Project(es)) && TimelyRun(O.Init(base), Project(es), i, sub)
  }

  /** The request of call c arrives at instance j now, and the run can go on so that connection k answers it. */
  ghost predicate Answered(s: State, j: InstanceId, c: CallId, host: string, req: ForwardedRequest, more: seq<Event>,
                           k: ConnId, rid: Uuid, resp: ForwardedResponse) {
    var e := J.Pub(Arrive(c, j, host, req));
    && CanDo(s, e) && k in s.o.conns && Legal(s, [e] + more)
    && var t := Play(s, [e] + more);
    && c in t.d.calls && t.d.calls[c].outcome == Some(Answer(resp))
    && t.d.captured == s.d.captured + [Captured(rid, s.o.conns[k].inst, k, s.o.conns[k].tunnel, req, resp)]
    && (j == s.o.conns[k].inst ==> t.d.busLog == s.d.busLog)
  }

  lemma ArrivesFresh(s: State, j: InstanceId, c: CallId, host: string, req: ForwardedRequest)
    requires j in s.o.regs && c !in s.d.calls && Address.SubdomainFromHost(host, s.o.base) != ""
    ensures var e := J.Pub(Arrive(c, j, host, req));
      && CanDo(s, e) && Legal(s, [e]) && Play(s, [e]) == Do(s, e)
      && Do(s, e)
         == s.(d := s.d.(calls := s.d.calls[c := Call(j, Address.SubdomainFromHost(host, s.o.base), req, Fresh, None)]))
  {
    hide Address.SubdomainFromHost;
    var e := J.Pub(Arrive(c, j, host, req));
    Extend(s, [], e);
    assert [] + [e] == [e];
  }

  /** With peers finding connection k and no other registry holding its label, an arrival anywhere can be answered. */
  lemma FoundIsAnswered(s: State, j: InstanceId, c: CallId, host: string, req: ForwardedRequest, k: ConnId,
                        i: InstanceId, sub: Label, resp: ForwardedResponse)
    requires O.RegistryOk(s.o) && Up(s.o, k) && s.o.conns[k].inst == i && Found(s.o, k, i, sub)
    requires !E.TwoRegistries(s.o, sub)
    requires j in s.o.regs && c !in s.d.calls && Address.SubdomainFromHost(host, s.o.base) == sub && sub != ""
    ensures exists rid, more :: Answered(s, j, c, host, req, more, k, rid, resp)
  {
    var rid := FreshUuid(s.d.serves.Keys);
    var xid := FreshUuid(s.d.remotes.Keys);
    assert j != i ==> LocalLookup(s.o, j, sub) == None;
    assert LocalLookup(s.o, i, sub) == Some(k);
    hide O.RegistryOk, Address.SubdomainFromHost, LiveRoute, LocalLookup, Legal, Play, Do, CanDo;
    ArrivesFresh(s, j, c, host, req);
    var e := J.Pub(Arrive(c, j, host, req));
    var s1 := Do(s, e);
    var more: seq<Event>;
    if j == i {
      LocalDelivery(s1, c, k, rid, resp);
      more :| Delivered(s1, more, c, k, rid, resp) && Play(s1, more).d.busLog == s1.d.busLog;
    } else {
      RemoteDelivery(s1, c, i, k, xid, rid, resp);
      more :| Delivered(s1, more, c, k, rid, resp);
    }
    Concat(s, [e], more);
    assert Answered(s, j, c, host, req, more, k, rid, resp);
  }

  /** In every cluster run whose control steps are timely for the instance and label of a connection in its read loop, a
    * request whose host leads to the label, arriving now at any instance that runs, can be answered by that connection
    * with any response its agent gives, captured once; and where it arrives at the connection's own instance, nothing
    * goes over Redis. */
  lemma AnsweredWhereverItArrives(base: string, es: seq<Event>, j: InstanceId, c: CallId, host: string,
                                  req: ForwardedRequest, k: ConnId, resp: ForwardedResponse)
    requires Legal(Start(base), es)
    requires var s := Play(Start(base), es);
      && j in s.o.regs && c !in s.d.calls && Up(s.o, k)
      && s.o.conns[k].sub == Address.SubdomainFromHost(host, base) != ""
      && TimelyControl(base, es, s.o.conns[k].inst, s.o.conns[k].sub)
    ensures exists rid, more :: Answered(Play(Start(base), es), j, c, host, req, more, k, rid, resp)
  {
    var s := Play(Start(base), es);
    var i, sub := s.o.conns[k].inst, s.o.conns[k].sub;
    ProjectPlays(Start(base), es);
    J.ArrivedOnce(base, es, c);
    assert O.RegistryOk(s.o) by { Cluster.Reachable(base, es); }
    hide Address.SubdomainFromHost, Legal, Play, Answered;
    RoutedIsReachable(base, Project(es), k, i, sub);
    StartIsLive(base, i, sub);
    TimelyRunKeeps(O.Init(base), Project(es), i, sub);
    E.Weaker(s.o, sub, E.Acting);
    E.NotTwice(s.o, sub);
    FoundIsAnswered(s, j, c, host, req, k, i, sub, resp);
  }

  // ---- From a free label to an answer ----------------------------------------------------------

  function Lift(steps: seq<O.Step>): seq<Event> {
    if steps == [] then [] else Lift(steps[..|steps| - 1]) + [Control(steps[|steps| - 1])]
  }

  lemma {:induction false} LiftPlays(s: State, steps: seq<O.Step>)
    requires O.Legal(s.o, steps)
    ensures Legal(s, Lift(steps)) && Play(s, Lift(steps)) == State(O.Play(s.o, steps), s.d)
    decreases |steps|
  {
    if steps != [] {
      hide O.Apply, O.Enabled;
      LiftPlays(s, steps[..|steps| - 1]);
      Extend(s, Lift(steps[..|steps| - 1]), Control(steps[|steps| - 1]));
    }
  }

  /** The run can go on so that an agent registers the label on instance i, the request of call c then arrives at
    * instance j, and that agent answers it. */
  ghost predicate FromScratch(s: State, steps: seq<O.Step>, i: InstanceId, j: InstanceId, c: CallId, host: string,
                              req: ForwardedRequest, more: seq<Event>, k: ConnId, rid: Uuid, resp: ForwardedResponse) {
    && k !in s.o.conns && O.Legal(s.o, steps) && E.AllSmooth(steps) && Legal(s, Lift(steps))
    && var u := Play(s, Lift(steps));
    && u.d == s.d && k in u.o.conns && u.o.conns[k].inst == i
    && Answered(u, j, c, host, req, more, k, rid, resp)
  }

  /** From every reachable state in which a label has no row - with rows of it deleted before only when their
    * connections had left the registries - an agent can register it on any instance, and a request for it that then
    * arrives at any instance can be answered by that agent with any response. */
  lemma FreeLabelCanServe(base: string, es: seq<Event>, i: InstanceId, j: InstanceId, c: CallId, host: string,
                          req: ForwardedRequest, resp: ForwardedResponse)
    requires Legal(Start(base), es) && O.Legal(O.Init(base), Project(es))
    requires var s := Play(Start(base), es); var sub := Address.SubdomainFromHost(host, base);
      && E.SparesRun(O.Init(base), Project(es), sub, E.Claiming)
      && i in s.o.regs && j in s.o.regs && c !in s.d.calls && sub != "" && Address.PublicUrl(sub, base) !in s.o.rows
    ensures exists steps, more, k, rid ::
      FromScratch(Play(Start(base), es), steps, i, j, c, host, req, more, k, rid, resp)
  {
    var s, sub := Play(Start(base), es), Address.SubdomainFromHost(host, base);
    ProjectPlays(Start(base), es);
    J.ArrivedOnce(base, es, c);
    hide Address.SubdomainFromHost, Address.PublicUrl, Legal, Play, Answered, FromScratch, J.ArrivalTold;
    P.RegistersIffFree(base, Project(es), i, sub);
    var steps, k :| P.Registers(s.o, steps, k, i, sub);
    E.StartIsSound(base, sub, E.Claiming);
    E.SparesRunKeeps(O.Init(base), Project(es), sub, E.Claiming);
    Registered(s, steps, k, i, sub);
    LiftPlays(s, steps);
    var u := Play(s, Lift(steps));
    FoundIsAnswered(u, j, c, host, req, k, i, sub, resp);
    var rid, more :| Answered(u, j, c, host, req, more, k, rid, resp);
    assert FromScratch(s, steps, i, j, c, host, req, more, k, rid, resp);
  }

  lemma Registered(s: State, steps: seq<O.Step>, k: ConnId, i: InstanceId, sub: Label)
    requires E.SoundAt(s.o, sub, E.Claiming) && P.Registers(s.o, steps, k, i, sub)
    ensures O.Legal(s.o, steps)
    ensures var o := O.Play(s.o, steps);
      && O.RegistryOk(o) && o.base == s.o.base && (forall j | j in s.o.regs :: j in o.regs)
      && Up(o, k) && o.conns[k].inst == i && Found(o, k, i, sub) && !E.TwoRegistries(o, sub)
  {
    hide Address.PublicUrl, O.RegistryOk, O.RowsOk, E.ExclusiveAt, E.HeldAt;
    E.SmoothSpares(s.o, steps, sub, E.Claiming);
    E.SparesRunKeeps(s.o, steps, sub, E.Claiming);
    E.NotTwice(O.Play(s.o, steps), sub);
    SmoothKeepsInstances(s.o, steps);
  }

  lemma {:induction false} SmoothKeepsInstances(s: O.State, steps: seq<O.Step>)
    requires O.Legal(s, steps)
    ensures O.Play(s, steps).base == s.base && forall j | j in s.regs :: j in O.Play(s, steps).regs
    decreases |steps|
  {
    if steps != [] {
      hide O.Apply, O.Enabled;
      SmoothKeepsInstances(s, steps[..|steps| - 1]);
      InstancesStay(O.Play(s, steps[..|steps| - 1]), steps[|steps| - 1]);
    }
  }

  lemma InstancesStay(s: O.State, step: O.Step)
    requires O.Enabled(s, step)
    ensures O.Apply(s, step).base == s.base && forall j | j in s.regs :: j in O.Apply(s, step).regs
  {
    hide O.FreshTunnel, O.SetStatus, Address.PublicUrl, Added, Removed, SetRoute;
  }
}
