/** What the control plane can always do: register an agent under a free label, run every connection to its end, and
  * keep a route alive for as long as its instance goes on refreshing.
  */
module Progress {
  import opened TunnelProto
  import opened Wrappers
  import opened Registry
  import opened Ownership
  import opened Exclusive
  import opened Routes
  import Address
  import History

  // ---- Registering -----------------------------------------------------------------------------

  predicate Online(t: State, x: ConnId, i: InstanceId, sub: Label) {
    && x in t.conns && t.conns[x].inst == i && t.conns[x].sub == sub && t.conns[x].phase == Reading
    && Address.PublicUrl(sub, t.base) in t.rows
    && t.rows[Address.PublicUrl(sub, t.base)] == Row(t.conns[x].tunnel, Active)
    && Found(t, x, i, sub)
  }

  /** A run that deletes no row and ends with a new connection that serves the label on instance i. */
  ghost predicate Registers(s: State, more: seq<Step>, x: ConnId, i: InstanceId, sub: Label) {
    Legal(s, more) && AllSmooth(more) && x !in s.conns && Online(Play(s, more), x, i, sub)
  }

  lemma RowInserted(s: State, i: InstanceId, sub: Label) returns (t: State, x: ConnId)
    requires i in s.regs && Address.PublicUrl(sub, s.base) !in s.rows
    ensures Reaches(s, t) && x !in s.conns && InPhase(t, x, RowActive) && t.base == s.base
    ensures t.conns[x].inst == i && t.conns[x].sub == sub && t.regs == s.regs
    ensures forall k | k in s.conns :: k in t.conns && t.conns[k] == s.conns[k]
    ensures Address.PublicUrl(sub, t.base) in t.rows
    ensures t.rows[Address.PublicUrl(sub, t.base)] == Row(t.conns[x].tunnel, Active)
  {
    hide Address.PublicUrl, Reaches, FreshTunnel;
    x := FreshUuid(s.conns.Keys);
    var tunnel := FreshTunnelId(s);
    ReachesItself(s);
    ReachesNext(s, s, CreateRow(x, i, sub, tunnel));
    t := Apply(s, CreateRow(x, i, sub, tunnel));
    ReachesNext(s, t, Activate(x, true));
    t := Apply(t, Activate(x, true));
  }

  lemma Lists(t: State, x: ConnId)
    requires InPhase(t, x, RowActive)
    ensures Enabled(t, List(x))
    ensures var u, c := Apply(t, List(x)), t.conns[x];
      && u.base == t.base && u.rows == t.rows && u.regs == t.regs[c.inst := Added(t.regs[c.inst], c.sub, x)]
      && InPhase(u, x, Listed) && u.conns[x] == c.(phase := Listed, closed := u.conns[x].closed)
  {
  }

  lemma AnnouncesAndConfirms(t: State, x: ConnId)
    requires InPhase(t, x, Listed)
    ensures Enabled(t, Announce(x, true)) && Enabled(Apply(t, Announce(x, true)), Confirm(x, true))
    ensures var u, c := Apply(Apply(t, Announce(x, true)), Confirm(x, true)), t.conns[x];
      && u.base == t.base && u.rows == t.rows && u.regs == t.regs && x in u.conns
      && u.conns[x] == c.(phase := Reading) && LiveRoute(u.routes, c.sub, u.now) == Some(c.inst)
  {
  }

  /** From the active row to the read loop. */
  lemma ComesOnline(s: State, t: State, x: ConnId) returns (u: State)
    requires Reaches(s, t) && InPhase(t, x, RowActive) && Address.PublicUrl(t.conns[x].sub, t.base) in t.rows
    requires t.rows[Address.PublicUrl(t.conns[x].sub, t.base)] == Row(t.conns[x].tunnel, Active)
    ensures Reaches(s, u) && Online(u, x, t.conns[x].inst, t.conns[x].sub) && u.base == t.base
  {
    hide Address.PublicUrl, Reaches, Apply, Enabled, LiveRoute;
    Lists(t, x);
    ReachesNext(s, t, List(x));
    u := Apply(t, List(x));
    AnnouncesAndConfirms(u, x);
    ReachesNext(s, u, Announce(x, true));
    u := Apply(u, Announce(x, true));
    ReachesNext(s, u, Confirm(x, true));
    u := Apply(u, Confirm(x, true));
  }

  lemma ReachesRegisters(s: State, t: State, x: ConnId, i: InstanceId, sub: Label)
    requires Reaches(s, t) && x !in s.conns && Online(t, x, i, sub)
    ensures exists more :: Registers(s, more, x, i, sub)
  {
    var more :| Legal(s, more) && Play(s, more) == t && AllSmooth(more);
    assert Registers(s, more, x, i, sub);
  }

  /** With its row in place nobody new gets the label. */
  lemma {:induction false} TakenStaysTaken(s: State, more: seq<Step>, x: ConnId, sub: Label)
    requires Legal(s, more) && AllSmooth(more) && Address.PublicUrl(sub, s.base) in s.rows && x !in s.conns
    ensures var t := Play(s, more);
      && t.base == s.base && Address.PublicUrl(sub, t.base) in t.rows
      && (x in t.conns ==> t.conns[x].sub != sub)
    decreases |more|
  {
    if more != [] {
      var init, step := more[..|more| - 1], more[|more| - 1];
      assert step in more && forall st | st in init :: st in more;
      hide Apply, Enabled;
      TakenStaysTaken(s, init, x, sub);
      TakenStep(Play(s, init), step, x, sub);
    }
  }

  lemma TakenStep(s: State, step: Step, x: ConnId, sub: Label)
    requires Enabled(s, step) && Smooth(step) && Address.PublicUrl(sub, s.base) in s.rows
    requires x in s.conns ==> s.conns[x].sub != sub
    ensures var t := Apply(s, step);
      && t.base == s.base && Address.PublicUrl(sub, t.base) in t.rows
      && (x in t.conns ==> t.conns[x].sub != sub)
  {
    BaseStays(s, step);
    RowStays(s, step, Address.PublicUrl(sub, s.base));
    if x in s.conns {
      ConnStable(s, step, x);
    } else {
      hide FreshTunnel, SetStatus, Added, Removed, SetRoute;
    }
  }

  /** On every instance that runs, in every reachable state, an agent can be registered under a label - its connection
    * in the read loop, its row active, its route and registry leading to it - if and only if the label has no row. */
  lemma RegistersIffFree(base: string, steps: seq<Step>, i: InstanceId, sub: Label)
    requires Legal(Init(base), steps) && i in Play(Init(base), steps).regs
    ensures var s := Play(Init(base), steps);
      (exists more, x :: Registers(s, more, x, i, sub)) <==> Address.PublicUrl(sub, s.base) !in s.rows
  {
    var s := Play(Init(base), steps);
    hide Address.PublicUrl, Reaches, Registers, Online, Legal, Play;
    if Address.PublicUrl(sub, s.base) !in s.rows {
      var t, x := RowInserted(s, i, sub);
      var u := ComesOnline(s, t, x);
      ReachesRegisters(s, u, x, i, sub);
    } else {
      forall more, x
        ensures !Registers(s, more, x, i, sub)
      {
        NoneRegisters(s, more, x, i, sub);
      }
    }
  }

  lemma NoneRegisters(s: State, more: seq<Step>, x: ConnId, i: InstanceId, sub: Label)
    requires Address.PublicUrl(sub, s.base) in s.rows
    ensures !Registers(s, more, x, i, sub)
  {
    if Registers(s, more, x, i, sub) { TakenStaysTaken(s, more, x, sub); }
  }

  /** Nobody holds the outside world back: in every state time can pass, Redis can come to hold anything, a new instance
    * can start, and a row can be inserted for every free URL and deleted for every other through the API. */
  lemma OutsidersAreFree(s: State, d: nat, routes: map<Label, Route>, i: InstanceId, url: string)
    ensures Enabled(s, Tick(d)) && Enabled(s, Corrupt(routes))
    ensures i !in s.regs && i !in s.refresh ==> Enabled(s, Boot(i))
    ensures if url in s.rows then Enabled(s, ApiDelete(url)) else exists tunnel :: Enabled(s, ApiCreate(url, tunnel))
  {
    var tunnel := FreshTunnelId(s);
    hide FreshTunnel;
    assert url !in s.rows ==> Enabled(s, ApiCreate(url, tunnel));
  }

  // ---- Running to the end ----------------------------------------------------------------------

  predicate Finished(p: Phase) {
    p == Gone || p == Abandoned
  }

  /** How many steps a goroutine has still to take at most. */
  function Remaining(p: Phase): nat {
    match p
    case RowCreated => 8 case RowActive => 7 case Listed => 6 case Routed => 5
    case Reading => 4 case Closed => 3 case Unlisted => 2 case Unrouted => 1 case Gone => 0
    case Rejected => 2 case RejectUnlisted => 1 case Abandoned => 0
  }

  /** The next step of the goroutine, `ok` being the result of what it writes. */
  function NextOf(k: ConnId, p: Phase, ok: bool): Step {
    match p
    case RowCreated => Activate(k, ok)
    case RowActive => List(k)
    case Listed => Announce(k, ok)
    case Routed => Confirm(k, ok)
    case Reading => EndRead(k)
    case Closed => Unlist(k)
    case Unlisted => Unroute(k, ok)
    case Rejected => UnlistRejected(k)
    case RejectUnlisted => UnrouteRejected(k, ok)
    case _ => MarkDisconnected(k, ok)
  }

  lemma NextEnabled(s: State, k: ConnId, ok: bool)
    requires k in s.conns && s.conns[k].inst in s.regs && !Finished(s.conns[k].phase)
    ensures Enabled(s, NextOf(k, s.conns[k].phase, ok)) && Concerns(NextOf(k, s.conns[k].phase, ok), k)
  {
    hide FreshTunnel, Address.PublicUrl;
  }

  lemma NextMoves(s: State, k: ConnId, ok: bool)
    requires RegistryOk(s) && k in s.conns && !Finished(s.conns[k].phase)
    ensures var step := NextOf(k, s.conns[k].phase, ok);
      && Enabled(s, step) && Concerns(step, k)
      && k in Apply(s, step).conns && Remaining(Apply(s, step).conns[k].phase) < Remaining(s.conns[k].phase)
  {
    assert s.conns[k].inst in s.regs;
    hide RegistryOk, Enabled, Apply, Concerns, NextOf, Remaining, History.Target, Finished;
    var step := NextOf(k, s.conns[k].phase, ok);
    NextEnabled(s, k, ok);
    NextIsCloser(k, s.conns[k].phase, ok);
    History.OwnStepMoves(s, step, k);
  }

  /** What the step writes succeeds or fails as said. */
  predicate WriteIs(step: Step, ok: bool) {
    match step
    case Activate(_, r) => r == ok
    case Announce(_, r) => r == ok
    case Confirm(_, r) => r == ok
    case Unroute(_, r) => r == ok
    case UnrouteRejected(_, r) => r == ok
    case MarkDisconnected(_, r) => r == ok
    case _ => true
  }

  lemma NextIsCloser(k: ConnId, p: Phase, ok: bool)
    requires !Finished(p)
    ensures Remaining(History.Target(NextOf(k, p, ok))) < Remaining(p) <= 8 && WriteIs(NextOf(k, p, ok), ok)
  {
  }

  /** Steps of connection k alone, whose n-th write ends as oks[n] says. */
  ghost predicate OwnRun(more: seq<Step>, k: ConnId, oks: seq<bool>) {
    |more| <= |oks| && forall n | 0 <= n < |more| :: Concerns(more[n], k) && WriteIs(more[n], oks[n])
  }

  ghost predicate RunsToEnd(s: State, more: seq<Step>, k: ConnId, oks: seq<bool>) {
    && Legal(s, more) && OwnRun(more, k, oks)
    && k in Play(s, more).conns && Finished(Play(s, more).conns[k].phase)
  }

  lemma OwnRunSnoc(so: seq<Step>, step: Step, k: ConnId, oks: seq<bool>)
    requires OwnRun(so, k, oks) && |so| < |oks| && Concerns(step, k) && WriteIs(step, oks[|so|])
    ensures OwnRun(so + [step], k, oks)
  {
    hide Concerns, WriteIs;
    var more := so + [step];
    assert more[|so|] == step && forall n | 0 <= n < |so| :: more[n] == so[n];
  }

  lemma {:induction false} EndsFrom(s: State, so: seq<Step>, k: ConnId, oks: seq<bool>) returns (more: seq<Step>)
    requires RegistryOk(s) && RowsOk(s) && Legal(s, so) && OwnRun(so, k, oks) && |oks| == 8
    requires k in Play(s, so).conns && |so| + Remaining(Play(s, so).conns[k].phase) <= 8
    ensures RunsToEnd(s, more, k, oks)
    decreases Remaining(Play(s, so).conns[k].phase)
  {
    var u := Play(s, so);
    hide RegistryOk, RowsOk, Apply, Enabled, Concerns, OwnRun, WriteIs, NextOf;
    if Finished(u.conns[k].phase) {
      more := so;
    } else {
      RunKeeps(s, so);
      var step := NextOf(k, u.conns[k].phase, oks[|so|]);
      NextMoves(u, k, oks[|so|]);
      NextIsCloser(k, u.conns[k].phase, oks[|so|]);
      Append(s, so, step);
      OwnRunSnoc(so, step, k, oks);
      more := EndsFrom(s, so + [step], k, oks);
    }
  }

  /** From every reachable state every connection can run to its end by at most eight steps of its own goroutine, with
    * any pattern of failing writes; nobody else has to do anything. */
  lemma EveryConnectionCanEnd(base: string, steps: seq<Step>, k: ConnId, oks: seq<bool>)
    requires Legal(Init(base), steps) && k in Play(Init(base), steps).conns && |oks| == 8
    ensures exists more :: RunsToEnd(Play(Init(base), steps), more, k, oks)
  {
    var s := Play(Init(base), steps);
    RunKeeps(Init(base), steps);
    hide Init, RegistryOk, RowsOk, Apply, Enabled, Concerns;
    assert Play(s, []) == s && Legal(s, []);
    var more := EndsFrom(s, [], k, oks);
  }

  // ---- Keeping a route -------------------------------------------------------------------------

  /** t comes after s in a run timely for the instance and label. */
  ghost predicate TimelyReaches(s: State, t: State, i: InstanceId, sub: Label) {
    exists more :: Legal(s, more) && Play(s, more) == t && TimelyRun(s, more, i, sub)
  }

  lemma TimelyNext(s: State, t: State, step: Step, i: InstanceId, sub: Label)
    requires TimelyReaches(s, t, i, sub) && Enabled(t, step) && Timely(t, step, i, sub)
    ensures TimelyReaches(s, Apply(t, step), i, sub)
  {
    var more :| Legal(s, more) && Play(s, more) == t && TimelyRun(s, more, i, sub);
    hide Legal, Play, Enabled, Apply, Timely;
    Append(s, more, step);
    TimelyAppend(s, more, step, i, sub);
    assert Play(s, more + [step]) == Apply(t, step);
  }

  lemma TimelyAppend(s: State, more: seq<Step>, step: Step, i: InstanceId, sub: Label)
    requires Legal(s, more) && TimelyRun(s, more, i, sub)
    requires Legal(s, more + [step]) && Timely(Play(s, more), step, i, sub)
    ensures TimelyRun(s, more + [step], i, sub)
  {
    hide Enabled, Apply, Timely;
    assert (more + [step])[..|more|] == more;
  }

  /** t is s but for route keys, the refresher of instance i, and the time. */
  predicate OnlyRefreshed(s: State, t: State, i: InstanceId) {
    t == s.(routes := t.routes, refresh := t.refresh, now := t.now) && i in t.refresh
  }

  /** The refresher can finish the pass it is in without any time going by. */
  lemma FinishesPass(s: State, t: State, i: InstanceId, sub: Label) returns (u: State)
    requires TimelyReaches(s, t, i, sub) && i in t.refresh
    ensures TimelyReaches(s, u, i, sub) && OnlyRefreshed(t, u, i) && u.now == t.now && u.refresh[i].todo == {}
    ensures u.refresh[i].done == if t.refresh[i].todo == {} then t.refresh[i].done else t.refresh[i].started
    decreases t.refresh[i].todo
  {
    hide TimelyReaches, Forgotten, Address.PublicUrl;
    if t.refresh[i].todo == {} {
      u := t;
    } else {
      var x :| x in t.refresh[i].todo;
      var step := Rewrite(i, x, true);
      TimelyNext(s, t, step, i, sub);
      u := FinishesPass(s, Apply(t, step), i, sub);
    }
  }

  /** A whole pass, after which the deadline of the instance is 90 seconds from now. */
  lemma RunsPass(s: State, t: State, i: InstanceId, sub: Label) returns (u: State)
    requires TimelyReaches(s, t, i, sub) && i in t.refresh && i in t.regs
    ensures TimelyReaches(s, u, i, sub) && OnlyRefreshed(t, u, i) && u.now == t.now && u.refresh[i].done == u.now
  {
    hide TimelyReaches, Forgotten, Address.PublicUrl;
    u := FinishesPass(s, t, i, sub);
    TimelyNext(s, u, Snapshot(i), i, sub);
    u := Apply(u, Snapshot(i));
    u := FinishesPass(s, u, i, sub);
  }

  /** A pass, and then the 30 seconds to the next tick of the refresher. */
  lemma PassesTime(s: State, t: State, i: InstanceId, sub: Label) returns (u: State)
    requires TimelyReaches(s, t, i, sub) && i in t.refresh && i in t.regs
    ensures TimelyReaches(s, u, i, sub) && OnlyRefreshed(t, u, i) && u.now == t.now + 30
  {
    hide TimelyReaches, Forgotten, Address.PublicUrl;
    u := RunsPass(s, t, i, sub);
    TimelyNext(s, u, Tick(30), i, sub);
    u := Apply(u, Tick(30));
  }

  lemma {:induction false} TimeGoesOn(s: State, t: State, i: InstanceId, sub: Label, until: nat) returns (u: State)
    requires TimelyReaches(s, t, i, sub) && i in t.refresh && i in t.regs
    ensures TimelyReaches(s, u, i, sub) && OnlyRefreshed(t, u, i) && u.now >= until
    decreases until - t.now
  {
    hide TimelyReaches;
    if t.now >= until {
      u := t;
    } else {
      u := PassesTime(s, t, i, sub);
      u := TimeGoesOn(s, u, i, sub, until);
    }
  }

  /** The connection is still found at the end of a timely continuation that reaches this time. */
  ghost predicate FoundUntil(s: State, more: seq<Step>, k: ConnId, i: InstanceId, sub: Label, until: nat) {
    && Legal(s, more) && TimelyRun(s, more, i, sub)
    && Play(s, more).now >= until && Found(Play(s, more), k, i, sub)
  }

  /** Being timely is something an instance can go on doing for ever: every timely run can be continued, with a pass
    * every 30 seconds, to any time, and the connection is found then. */
  lemma RoutesCanBeKept(base: string, steps: seq<Step>, k: ConnId, i: InstanceId, sub: Label, until: nat)
    requires Legal(Init(base), steps) && TimelyRun(Init(base), steps, i, sub)
    requires RoutedAt(Play(Init(base), steps), k, i, sub)
    ensures exists more :: FoundUntil(Play(Init(base), steps), more, k, i, sub, until)
  {
    var s := Play(Init(base), steps);
    StartIsLive(base, i, sub);
    TimelyRunKeeps(Init(base), steps, i, sub);
    assert i in s.regs && i in s.refresh;
    hide LabelOk, ClockAt, LiveAt, Found, Apply, Enabled, Timely;
    assert Play(s, []) == s && Legal(s, []) && TimelyRun(s, [], i, sub);
    var u := TimeGoesOn(s, s, i, sub, until);
    var more :| Legal(s, more) && Play(s, more) == u && TimelyRun(s, more, i, sub);
    TimelyRunKeeps(s, more, i, sub);
    FoundWhenLive(u, k, i, sub);
    assert FoundUntil(s, more, k, i, sub, until);
  }
}
