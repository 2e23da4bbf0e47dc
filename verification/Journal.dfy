/** What calls and the messages on the wire say about the run: where and with what a call arrived, what was found when
  * it was looked up, who made each invocation, and what was written to sockets and published on Redis.
  */
module Journal {
  import opened TunnelProto
  import opened Wrappers
  import opened Registry
  import opened Forwarding
  import opened Links
  import opened Cluster
  import Address
  import History
  import Pending
  import O = Ownership

  // ---- States along a run ----------------------------------------------------------------------

  lemma {:induction false} PrefixIsLegal(base: string, es: seq<Event>, n: nat)
    requires Legal(Start(base), es) && n <= |es|
    ensures Legal(Start(base), es[..n])
    decreases |es|
  {
    if n < |es| {
      assert es[..|es| - 1][..n] == es[..n];
      PrefixIsLegal(base, es[..|es| - 1], n);
    } else {
      assert es[..n] == es;
    }
  }

  /** The state in which event n happened. */
  ghost function Before(base: string, es: seq<Event>, n: nat): State
    requires Legal(Start(base), es) && n <= |es|
  {
    PrefixIsLegal(base, es, n);
    Play(Start(base), es[..n])
  }

  lemma BeforePrefix(base: string, es: seq<Event>, n: nat)
    requires Legal(Start(base), es) && n < |es|
    ensures Legal(Start(base), es[..|es| - 1])
    ensures Before(base, es, n) == Before(base, es[..|es| - 1], n)
  {
    assert es[..|es| - 1][..n] == es[..n];
  }

  lemma BeforeLast(base: string, es: seq<Event>)
    requires Legal(Start(base), es) && es != []
    ensures Legal(Start(base), es[..|es| - 1])
    ensures Before(base, es, |es| - 1) == Play(Start(base), es[..|es| - 1])
  {
  }

  // ---- Arrivals --------------------------------------------------------------------------------

  function Pub(p: PublicStep): Event {
    Forward(Public(p))
  }

  predicate Arrives(e: Event, c: CallId) {
    e.Forward? && e.f.Public? && e.f.p.Arrive? && e.f.p.c == c
  }

  /** The call is the one that this arrival made. */
  predicate IsArrival(d: Data, base: string, c: CallId, e: Event)
    requires Arrives(e, c)
  {
    && c in d.calls && d.calls[c].inst == e.f.p.i && d.calls[c].req == e.f.p.req
    && d.calls[c].sub == Address.SubdomainFromHost(e.f.p.host, base)
  }

  lemma CallsOfPublic(o: O.State, d: Data, p: PublicStep, c: CallId)
    requires PublicEnabled(o, d, p)
    ensures c in ApplyPublic(o, d, p).calls <==> c in d.calls || Arrives(Pub(p), c)
  {
    hide Address.SubdomainFromHost, LiveRoute, LocalLookup, TunnelError, ToResponse, SettleOutcome, RequestFor;
    hide Tbl, Slot, Pending.Stored, Pending.Deleted;
  }

  lemma ArrivalStep(s: State, e: Event, c: CallId)
    requires CanDo(s, e)
    ensures c in Do(s, e).d.calls <==> c in s.d.calls || Arrives(e, c)
    ensures Arrives(e, c) ==> c !in s.d.calls && IsArrival(Do(s, e).d, s.o.base, c, e)
    ensures Do(s, e).o.base == s.o.base
  {
    hide O.Apply, O.Enabled, ApplyServe, ApplyCluster, ApplyAgent, ServeEnabled, ClusterEnabled, AgentEnabled;
    match e
    case Control(step) => History.RowStep(s.o, step, "");
    case Forward(Public(p)) =>
      CallsOfPublic(s.o, s.d, p, c);
      if Arrives(e, c) { ArrivesWith(s.o, s.d, p); }
      hide ApplyPublic, PublicEnabled, IsArrival;
    case _ =>
  }

  lemma ArrivesWith(o: O.State, d: Data, p: PublicStep)
    requires PublicEnabled(o, d, p) && p.Arrive?
    ensures p.c !in d.calls && IsArrival(ApplyPublic(o, d, p), o.base, p.c, Pub(p))
  {
    hide Address.SubdomainFromHost;
  }

  /** The call is there exactly when one event made it arrive, and is as that event said. */
  ghost predicate ArrivalTold(d: Data, base: string, es: seq<Event>, c: CallId) {
    && (c in d.calls <==> exists n :: 0 <= n < |es| && Arrives(es[n], c))
    && (forall n | 0 <= n < |es| && Arrives(es[n], c) :: IsArrival(d, base, c, es[n]))
    && (forall m, n | 0 <= m < n < |es| :: !(Arrives(es[m], c) && Arrives(es[n], c)))
  }

  lemma ArrivalGoesOn(d: Data, t: Data, base: string, es: seq<Event>, e: Event, c: CallId)
    requires ArrivalTold(d, base, es, c) && CallGrows(d, t, c)
    requires c in t.calls <==> c in d.calls || Arrives(e, c)
    requires Arrives(e, c) ==> c !in d.calls && IsArrival(t, base, c, e)
    ensures ArrivalTold(t, base, es + [e], c)
  {
    hide Arrives;
    var all := es + [e];
    assert all[|es|] == e && forall n | 0 <= n < |es| :: all[n] == es[n];
    if n :| 0 <= n < |es| && Arrives(es[n], c) { assert Arrives(all[n], c); }
  }

  /** In every run each call arrived exactly once: on its instance, with its request, and with a Host header that leads
    * to its label. */
  lemma {:induction false} ArrivedOnce(base: string, es: seq<Event>, c: CallId)
    requires Legal(Start(base), es)
    ensures Play(Start(base), es).o.base == base && ArrivalTold(Play(Start(base), es).d, base, es, c)
    decreases |es|
  {
    if es != [] {
      var k := |es| - 1;
      var s := Play(Start(base), es[..k]);
      assert es == es[..k] + [es[k]];
      hide Inv, Do, CanDo, ArrivalTold, Arrives, IsArrival, CallGrows;
      Reachable(base, es[..k]);
      ArrivedOnce(base, es[..k], c);
      ArrivalStep(s, es[k], c);
      CallStays(s, es[k], c);
      ArrivalGoesOn(s.d, Do(s, es[k]).d, base, es[..k], es[k], c);
    }
  }

  // ---- What was found --------------------------------------------------------------------------

  /** What one event shows about registries and routes at the moment it happens. */
  datatype Fact =
    | Made(rid: Uuid, conn: ConnId, req: ForwardedRequest, client: Client) // the registry held the connection
    | NotHere(c: CallId)                    // the registry of the call's own instance did not hold its label
    | RouteTo(c: CallId, i: InstanceId)     // the label's route named instance i
    | NoRoute(c: CallId)                    // Redis failed or there was no route
    | Response(i: InstanceId, rep: ClusterResponse) // an invocation for a peer replied with what it returned
    | Refusal(i: InstanceId, rep: ClusterResponse)  // an instance without the label replied to i that it has none

  ghost predicate Shows(s: State, e: Event, fact: Fact) {
    match e
    case Forward(Public(Lookup(c, rid))) =>
      && c in s.d.calls
      && var call := s.d.calls[c];
      (match LocalLookup(s.o, call.inst, call.sub)
       case Some(k) => fact == Made(rid, k, call.req, Caller(c))
       case None => fact == NotHere(c))
    case Forward(Public(FindOwner(c, ok))) =>
      && c in s.d.calls
      && (match LiveRoute(s.o.routes, s.d.calls[c].sub, s.o.now)
          case Some(i) => fact == if ok then RouteTo(c, i) else NoRoute(c)
          case None => fact == NoRoute(c))
    case Forward(Cluster(PeerServe(i, cr, rid, sent))) =>
      (match LocalLookup(s.o, i, cr.sub)
       case Some(k) => fact == Made(rid, k, cr.req, Peer(cr.requestID, cr.origin))
       case None =>
         sent && fact == Refusal(cr.origin, ClusterResponse(cr.requestID, None, "no active tunnel for " + cr.sub)))
    case Forward(Cluster(Reply(rid, true))) =>
      && rid in s.d.serves && s.d.serves[rid].client.Peer? && s.d.serves[rid].phase.Served?
      && var p := s.d.serves[rid].client;
      fact == Response(p.origin, ClusterResponse(p.xid, Some(ToResponse(s.d.serves[rid].phase.res)), ""))
    case _ => false
  }

  /** Some event of the run has shown this. */
  ghost predicate Shown(base: string, es: seq<Event>, fact: Fact)
    requires Legal(Start(base), es)
  {
    exists n: nat :: n < |es| && Shows(Before(base, es, n), es[n], fact)
  }

  lemma ShownSnoc(base: string, es: seq<Event>, fact: Fact)
    requires Legal(Start(base), es) && es != []
    ensures Legal(Start(base), es[..|es| - 1])
    ensures var k := |es| - 1;
      Shown(base, es, fact)
      <==> (Shown(base, es[..k], fact) || Shows(Play(Start(base), es[..k]), es[k], fact))
  {
    hide Shows, Before, Legal, Play;
    var k := |es| - 1;
    BeforeLast(base, es);
    forall n: nat | n < k
      ensures Before(base, es, n) == Before(base, es[..k], n) && es[..k][n] == es[n]
    {
      BeforePrefix(base, es, n);
    }
    if Shown(base, es[..k], fact) {
      var n: nat :| n < k && Shows(Before(base, es[..k], n), es[..k][n], fact);
      assert Shows(Before(base, es, n), es[n], fact);
    }
    if Shows(Before(base, es, k), es[k], fact) { assert Shown(base, es, fact); }
  }

  // ---- The way of a call -----------------------------------------------------------------------

  ghost predicate HasLooked(es: seq<Event>, c: CallId) {
    exists rid :: Pub(Lookup(c, rid)) in es
  }

  ghost predicate HasSought(es: seq<Event>, c: CallId) {
    exists ok :: Pub(FindOwner(c, ok)) in es
  }

  ghost predicate HasBegun(es: seq<Event>, c: CallId) {
    exists x :: Pub(BeginRemote(c, x)) in es
  }

  /** The way a call has taken is what its look-ups have found, and the handler's own error pages say why. */
  ghost predicate WayTold(base: string, es: seq<Event>, d: Data, c: CallId)
    requires Legal(Start(base), es)
  {
    if c !in d.calls then !HasLooked(es, c) && !HasSought(es, c) && !HasBegun(es, c) && Pub(EndLocal(c)) !in es
    else
      var call := d.calls[c];
      && (HasLooked(es, c) <==> !call.via.Fresh?)
      && (HasBegun(es, c) <==> call.via.ByPeer?)
      && (Pub(EndLocal(c)) in es <==> call.via.ByAgent? && call.outcome.Some?)
      && match call.via
        case Fresh =>
          !HasSought(es, c) && call.outcome == if call.sub == "" then Some(BadGateway("no tunnel host")) else None
        case ByAgent(rid) =>
          && !HasSought(es, c) && rid in d.serves && Shown(base, es, Made(rid, d.serves[rid].conn, call.req, Caller(c)))
        case Missed =>
          && Shown(base, es, NotHere(c)) && (HasSought(es, c) <==> call.outcome.Some?)
          && (call.outcome.Some? ==>
            Shown(base, es, NoRoute(c)) && call.outcome == Some(BadGateway("no active tunnel for " + call.sub)))
        case Located(i) => Shown(base, es, NotHere(c)) && Shown(base, es, RouteTo(c, i)) && call.outcome == None
        case ByPeer(i, x) =>
          && Shown(base, es, NotHere(c)) && Shown(base, es, RouteTo(c, i)) && Pub(BeginRemote(c, x)) in es
  }

  /** The public step is one of those that decide the way of call c. */
  predicate Steers(e: Event, c: CallId) {
    e.Forward? && e.f.Public? &&
    match e.f.p
    case Arrive(x, _, _, _) => x == c
    case Lookup(x, _) => x == c
    case FindOwner(x, _) => x == c
    case BeginRemote(x, _) => x == c
    case EndLocal(x) => x == c
    case _ => false
  }

  predicate IsLookup(e: Event, c: CallId) {
    e.Forward? && e.f.Public? && e.f.p.Lookup? && e.f.p.c == c
  }

  predicate IsFindOwner(e: Event, c: CallId) {
    e.Forward? && e.f.Public? && e.f.p.FindOwner? && e.f.p.c == c
  }

  predicate IsBeginRemote(e: Event, c: CallId) {
    e.Forward? && e.f.Public? && e.f.p.BeginRemote? && e.f.p.c == c
  }

  lemma LookedSnoc(es: seq<Event>, e: Event, c: CallId)
    ensures HasLooked(es + [e], c) <==> HasLooked(es, c) || IsLookup(e, c)
  {
    assert forall rid :: Pub(Lookup(c, rid)) in es + [e] <==> Pub(Lookup(c, rid)) in es || e == Pub(Lookup(c, rid));
    if IsLookup(e, c) { assert e == Pub(Lookup(c, e.f.p.rid)) && e in es + [e]; }
  }

  lemma SoughtSnoc(es: seq<Event>, e: Event, c: CallId)
    ensures HasSought(es + [e], c) <==> HasSought(es, c) || IsFindOwner(e, c)
  {
    assert forall ok ::
      Pub(FindOwner(c, ok)) in es + [e] <==> Pub(FindOwner(c, ok)) in es || e == Pub(FindOwner(c, ok));
    if IsFindOwner(e, c) { assert e == Pub(FindOwner(c, e.f.p.redisOk)) && e in es + [e]; }
  }

  lemma BegunSnoc(es: seq<Event>, e: Event, c: CallId)
    ensures HasBegun(es + [e], c) <==> HasBegun(es, c) || IsBeginRemote(e, c)
  {
    assert forall x ::
      Pub(BeginRemote(c, x)) in es + [e] <==> Pub(BeginRemote(c, x)) in es || e == Pub(BeginRemote(c, x));
    if IsBeginRemote(e, c) { assert e == Pub(BeginRemote(c, e.f.p.xid)) && e in es + [e]; }
  }

  /** What one more event adds to what is told of call c. */
  lemma EventSnoc(es: seq<Event>, e: Event, c: CallId)
    ensures HasLooked(es + [e], c) <==> HasLooked(es, c) || IsLookup(e, c)
    ensures HasSought(es + [e], c) <==> HasSought(es, c) || IsFindOwner(e, c)
    ensures HasBegun(es + [e], c) <==> HasBegun(es, c) || IsBeginRemote(e, c)
    ensures forall p :: Pub(p) in es + [e] <==> Pub(p) in es || e == Pub(p)
  {
    hide HasLooked, HasSought, HasBegun, IsLookup, IsFindOwner, IsBeginRemote;
    LookedSnoc(es, e, c);
    SoughtSnoc(es, e, c);
    BegunSnoc(es, e, c);
  }

  lemma ShownGrows(base: string, es: seq<Event>, e: Event, fact: Fact)
    requires Legal(Start(base), es + [e])
    ensures Legal(Start(base), es)
    ensures Shown(base, es + [e], fact) <==> Shown(base, es, fact) || Shows(Play(Start(base), es), e, fact)
  {
    hide Shown, Shows;
    assert (es + [e])[..|es + [e]| - 1] == es;
    ShownSnoc(base, es + [e], fact);
  }

  /** Nothing that is told of the way of call c has changed. */
  predicate SameWay(d: Data, t: Data, c: CallId) {
    && (c in t.calls <==> c in d.calls)
    && (c in d.calls ==>
      var was := d.calls[c];
      && t.calls[c] == was.(outcome := t.calls[c].outcome)
      && (!was.via.ByPeer? ==> t.calls[c] == was)
      && (was.via.ByAgent? && was.via.rid in d.serves ==>
        was.via.rid in t.serves && t.serves[was.via.rid].conn == d.serves[was.via.rid].conn))
  }

  /** The handler's steps on its way, and the ends of remote calls, are the only ones that touch a call. */
  lemma UnsteeredPublic(o: O.State, d: Data, p: PublicStep, c: CallId)
    requires LinkOk(d) && PublicEnabled(o, d, p) && !Steers(Pub(p), c)
    ensures SameWay(d.(serves := map[]), ApplyPublic(o, d, p).(serves := map[]), c)
  {
    if p.EndRemote? {
      assert RemoteLinked(d, p.xid);
      hide Tbl, Pending.Deleted, LinkOk;
    } else {
      hide LinkOk, Address.SubdomainFromHost, LiveRoute, LocalLookup, TunnelError, ToResponse, SettleOutcome;
      hide RequestFor, Tbl, Slot, Pending.Stored, Pending.Deleted;
    }
  }

  lemma CallsUntouched(o: O.State, d: Data, f: Forwarding.Step)
    requires Forwarding.Enabled(o, d, f) && !f.Public?
    ensures Forwarding.Apply(o, d, f).calls == d.calls
  {
    hide ApplyPublic, ApplyServe, ApplyCluster, ApplyAgent, ServeEnabled, ClusterEnabled, AgentEnabled;
  }

  lemma Unsteered(s: State, e: Event, c: CallId)
    requires Inv(s) && CanDo(s, e) && !Steers(e, c)
    ensures SameWay(s.d, Do(s, e).d, c)
  {
    assert LinkOk(s.d);
    hide Inv, O.Apply, O.Enabled, Forwarding.Apply, Forwarding.Enabled, LinkOk;
    if e.Forward? {
      if c in s.d.calls && s.d.calls[c].via.ByAgent? { ServeGrow(s.o, s.d, e.f, s.d.calls[c].via.rid); }
      if e.f.Public? { PublicApplied(s.o, s.d, e.f.p); UnsteeredPublic(s.o, s.d, e.f.p, c); }
      else { CallsUntouched(s.o, s.d, e.f); }
      hide PublicEnabled, ApplyPublic;
    }
  }

  lemma PublicApplied(o: O.State, d: Data, p: PublicStep)
    requires Forwarding.Enabled(o, d, Public(p))
    ensures PublicEnabled(o, d, p) && Forwarding.Apply(o, d, Public(p)) == ApplyPublic(o, d, p)
  {
    hide PublicEnabled, ApplyPublic;
  }

  lemma WayStays(base: string, es: seq<Event>, e: Event, d: Data, t: Data, c: CallId)
    requires Legal(Start(base), es + [e]) && Legal(Start(base), es) && WayTold(base, es, d, c) && !Steers(e, c)
    requires SameWay(d, t, c)
    ensures WayTold(base, es + [e], t, c)
  {
    EventSnoc(es, e, c);
    forall fact ensures Shown(base, es, fact) ==> Shown(base, es + [e], fact) { ShownGrows(base, es, e, fact); }
    hide Shown, Shows, HasLooked, HasSought, HasBegun, Legal, Play;
  }

  /** all is es with this event of the handler of call c after it. */
  ghost predicate Then(es: seq<Event>, all: seq<Event>, e: Event, c: CallId) {
    && (HasLooked(all, c) <==> HasLooked(es, c) || IsLookup(e, c))
    && (HasSought(all, c) <==> HasSought(es, c) || IsFindOwner(e, c))
    && (HasBegun(all, c) <==> HasBegun(es, c) || IsBeginRemote(e, c))
    && (forall p :: Pub(p) in all <==> Pub(p) in es || e == Pub(p))
  }

  lemma SteerArrive(base: string, es: seq<Event>, all: seq<Event>, o: O.State, d: Data, p: PublicStep)
    requires Legal(Start(base), es) && Legal(Start(base), all) && p.Arrive? && Then(es, all, Pub(p), p.c)
    requires WayTold(base, es, d, p.c) && PublicEnabled(o, d, p)
    ensures WayTold(base, all, ApplyPublic(o, d, p), p.c)
  {
    hide Shown, HasLooked, HasSought, HasBegun, Legal, Play, Address.SubdomainFromHost;
  }

  lemma LookupFinds(s: State, p: PublicStep)
    requires p.Lookup? && PublicEnabled(s.o, s.d, p)
    ensures p.c in s.d.calls && Waiting(s.d, p.c) && s.d.calls[p.c].via == Fresh
    ensures var t := ApplyPublic(s.o, s.d, p); var call := s.d.calls[p.c];
      match LocalLookup(s.o, call.inst, call.sub)
      case Some(k) =>
        && Shows(s, Pub(p), Made(p.rid, k, call.req, Caller(p.c))) && p.rid in t.serves && t.serves[p.rid].conn == k
        && t.calls == s.d.calls[p.c := call.(via := ByAgent(p.rid))]
      case None => Shows(s, Pub(p), NotHere(p.c)) && t.calls == s.d.calls[p.c := call.(via := Missed)]
  {
    hide LocalLookup;
  }

  lemma SteerLookup(base: string, es: seq<Event>, all: seq<Event>, s: State, p: PublicStep)
    requires Legal(Start(base), es) && Legal(Start(base), all) && p.Lookup? && Then(es, all, Pub(p), p.c)
    requires WayTold(base, es, s.d, p.c) && PublicEnabled(s.o, s.d, p)
    requires forall fact | Shows(s, Pub(p), fact) :: Shown(base, all, fact)
    ensures WayTold(base, all, ApplyPublic(s.o, s.d, p), p.c)
  {
    LookupFinds(s, p);
    hide PublicEnabled, ApplyPublic, LocalLookup, Shown, Shows, HasLooked, HasSought, HasBegun, Legal, Play;
  }

  lemma OwnerFinds(s: State, p: PublicStep)
    requires p.FindOwner? && PublicEnabled(s.o, s.d, p)
    ensures p.c in s.d.calls && Waiting(s.d, p.c) && s.d.calls[p.c].via == Missed
    ensures var t := ApplyPublic(s.o, s.d, p); var call := s.d.calls[p.c];
      || (exists i :: Shows(s, Pub(p), RouteTo(p.c, i)) && t.calls == s.d.calls[p.c := call.(via := Located(i))])
      || (&& Shows(s, Pub(p), NoRoute(p.c))
          && t.calls == s.d.calls[p.c := call.(outcome := Some(BadGateway("no active tunnel for " + call.sub)))])
  {
    hide LiveRoute;
    var route := LiveRoute(s.o.routes, s.d.calls[p.c].sub, s.o.now);
    if p.redisOk && route.Some? { assert Shows(s, Pub(p), RouteTo(p.c, route.value)); }
  }

  lemma SteerFindOwner(base: string, es: seq<Event>, all: seq<Event>, s: State, p: PublicStep)
    requires Legal(Start(base), es) && Legal(Start(base), all) && p.FindOwner? && Then(es, all, Pub(p), p.c)
    requires WayTold(base, es, s.d, p.c) && PublicEnabled(s.o, s.d, p)
    requires forall fact | Shown(base, es, fact) || Shows(s, Pub(p), fact) :: Shown(base, all, fact)
    ensures WayTold(base, all, ApplyPublic(s.o, s.d, p), p.c)
  {
    OwnerFinds(s, p);
    assert Shown(base, es, NotHere(p.c));
    hide PublicEnabled, ApplyPublic, LiveRoute, Shown, Shows, HasLooked, HasSought, HasBegun, Legal, Play;
  }

  lemma SteerBegin(base: string, es: seq<Event>, all: seq<Event>, o: O.State, d: Data, p: PublicStep)
    requires Legal(Start(base), es) && Legal(Start(base), all) && p.BeginRemote? && Then(es, all, Pub(p), p.c)
    requires WayTold(base, es, d, p.c) && PublicEnabled(o, d, p)
    requires forall fact | Shown(base, es, fact) :: Shown(base, all, fact)
    ensures WayTold(base, all, ApplyPublic(o, d, p), p.c)
  {
    hide Shown, HasLooked, HasSought, HasBegun, Legal, Play, Tbl, Pending.Stored;
  }

  lemma SteerEnd(base: string, es: seq<Event>, all: seq<Event>, o: O.State, d: Data, p: PublicStep)
    requires Legal(Start(base), es) && Legal(Start(base), all) && p.EndLocal? && Then(es, all, Pub(p), p.c)
    requires WayTold(base, es, d, p.c) && PublicEnabled(o, d, p)
    requires forall fact | Shown(base, es, fact) :: Shown(base, all, fact)
    ensures WayTold(base, all, ApplyPublic(o, d, p), p.c)
  {
    hide Shown, HasLooked, HasSought, HasBegun, Legal, Play, ToResponse;
  }

  lemma WaySteered(base: string, es: seq<Event>, p: PublicStep, c: CallId)
    requires Legal(Start(base), es) && Legal(Start(base), es + [Pub(p)]) && Steers(Pub(p), c)
    requires var s := Play(Start(base), es); WayTold(base, es, s.d, c) && PublicEnabled(s.o, s.d, p)
    ensures var s := Play(Start(base), es); WayTold(base, es + [Pub(p)], ApplyPublic(s.o, s.d, p), c)
  {
    hide Legal, Play, WayTold, PublicEnabled, ApplyPublic, Shows, Shown;
    var s, e := Play(Start(base), es), Pub(p);
    var all := es + [e];
    EventSnoc(es, e, c);
    forall fact
      ensures Shown(base, all, fact) <==> Shown(base, es, fact) || Shows(s, e, fact)
    {
      ShownGrows(base, es, e, fact);
    }
    assert p.c == c && Then(es, all, e, c);
    hide Steers, HasLooked, HasSought, HasBegun, Then;
    match p
    case Arrive(_, _, _, _) => SteerArrive(base, es, all, s.o, s.d, p);
    case Lookup(_, _) => SteerLookup(base, es, all, s, p);
    case FindOwner(_, _) => SteerFindOwner(base, es, all, s, p);
    case BeginRemote(_, _) => SteerBegin(base, es, all, s.o, s.d, p);
    case EndLocal(_) => SteerEnd(base, es, all, s.o, s.d, p);
  }

  /** In every run the way of each call is the one its look-ups led it: an invocation on the connection its own registry
    * held; or, that registry not holding the label, the instance its route named; or an error page that says what
    * was missing. */
  lemma {:induction false} WayMeaning(base: string, es: seq<Event>, c: CallId)
    requires Legal(Start(base), es)
    ensures WayTold(base, es, Play(Start(base), es).d, c)
    decreases |es|
  {
    if es != [] {
      var k := |es| - 1;
      var s := Play(Start(base), es[..k]);
      assert es == es[..k] + [es[k]];
      hide Inv, WayTold, Do, CanDo, Steers;
      WayMeaning(base, es[..k], c);
      if Steers(es[k], c) {
        SteersPublic(s, es[k], c);
        WaySteered(base, es[..k], es[k].f.p, c);
      } else {
        Reachable(base, es[..k]);
        Unsteered(s, es[k], c);
        WayStays(base, es[..k], es[k], s.d, Do(s, es[k]).d, c);
      }
    }
  }

  lemma SteersPublic(s: State, e: Event, c: CallId)
    requires CanDo(s, e) && Steers(e, c)
    ensures e == Pub(e.f.p) && PublicEnabled(s.o, s.d, e.f.p) && Do(s, e).d == ApplyPublic(s.o, s.d, e.f.p)
  {
    hide PublicEnabled, ApplyPublic;
  }
}
