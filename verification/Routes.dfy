/** What the route keys in Redis say, and how long. A label's route depends only on the instance that holds its
  * connection: what other instances do or fail to do plays no part.
  */
module Routes {
  import opened TunnelProto
  import opened Wrappers
  import opened Registry
  import opened Ownership
  import opened Exclusive
  import Address

  // ---- Where keys come from ------------------------------------------------------------------

  ghost predicate Registered(s: State, i: InstanceId, sub: Label) {
    exists k :: k in s.conns && s.conns[k].inst == i && s.conns[k].sub == sub && WasListed(s.conns[k].phase)
  }

  lemma RegisteredStable(s: State, step: Step, i: InstanceId, sub: Label)
    requires Enabled(s, step) && Registered(s, i, sub)
    ensures Registered(Apply(s, step), i, sub)
  {
    hide Enabled, Apply;
    var k :| k in s.conns && s.conns[k].inst == i && s.conns[k].sub == sub && WasListed(s.conns[k].phase);
    ConnStable(s, step, k);
  }

  /** Every route key, and every key a refresher is about to write, names an instance where the label was registered. */
  ghost predicate RoutesOk(s: State) {
    && (forall sub | sub in s.routes :: Registered(s, s.routes[sub].owner, sub))
    && (forall i, sub | i in s.refresh && sub in s.refresh[i].todo :: Registered(s, i, sub))
  }

  lemma RoutesKept(s: State, step: Step)
    requires RegistryOk(s) && RoutesOk(s) && Enabled(s, step) && !step.Corrupt?
    ensures RoutesOk(Apply(s, step))
  {
    var t := Apply(s, step);
    forall i, sub | Registered(s, i, sub)
      ensures Registered(t, i, sub)
    {
      RegisteredStable(s, step, i, sub);
    }
    forall sub | sub in t.routes
      ensures Registered(t, t.routes[sub].owner, sub)
    {
      RouteWritten(s, step, sub);
    }
    forall i, sub | i in t.refresh && sub in t.refresh[i].todo
      ensures Registered(t, i, sub)
    {
      TodoWritten(s, step, i, sub);
    }
  }

  lemma RouteWritten(s: State, step: Step, sub: Label)
    requires RegistryOk(s) && RoutesOk(s) && Enabled(s, step) && !step.Corrupt? && sub in Apply(s, step).routes
    ensures Registered(s, Apply(s, step).routes[sub].owner, sub)
  {
    hide FreshTunnel, SetStatus, RegistryOk;
    match step
    case Announce(k, ok) => assert sub == s.conns[k].sub && ok ==> Registered(s, s.conns[k].inst, sub);
    case _ =>
  }

  lemma TodoWritten(s: State, step: Step, i: InstanceId, sub: Label)
    requires RegistryOk(s) && RoutesOk(s) && Enabled(s, step)
    requires i in Apply(s, step).refresh && sub in Apply(s, step).refresh[i].todo
    ensures Registered(s, i, sub)
  {
  }

  /** The connection whose row the label has is, or was, one of instance i. */
  ghost predicate OwnerAt(s: State, i: InstanceId, sub: Label) {
    exists k :: k in s.conns && s.conns[k].inst == i && s.conns[k].sub == sub && OwnsRow(s, k)
  }

  lemma OwnerStays(s: State, step: Step, i: InstanceId, sub: Label)
    requires Enabled(s, step) && OwnerAt(s, i, sub) && step != ApiDelete(Address.PublicUrl(sub, s.base))
    ensures OwnerAt(Apply(s, step), i, sub)
  {
    var k :| k in s.conns && s.conns[k].inst == i && s.conns[k].sub == sub && OwnsRow(s, k);
    hide Enabled, Apply;
    BaseStays(s, step);
    ConnStable(s, step, k);
    RowStays(s, step, Address.PublicUrl(sub, s.base));
    assert OwnsRow(Apply(s, step), k);
  }

  lemma BaseStays(s: State, step: Step)
    requires Enabled(s, step)
    ensures Apply(s, step).base == s.base
  {
    hide FreshTunnel, SetStatus, Address.PublicUrl;
  }

  /** A key that a refresher is about to write belongs to its own instance. */
  ghost predicate TodoAt(s: State, sub: Label) {
    forall i | i in s.refresh && sub in s.refresh[i].todo :: OwnerAt(s, i, sub)
  }

  /** Nobody will touch the label's key: no connection still acts for it and no refresher has it in its snapshot. */
  ghost predicate Forgotten(s: State, sub: Label) {
    && (forall k :: !Binds(s, k, sub, Acting))
    && (forall i | i in s.refresh :: sub !in s.refresh[i].todo)
  }

  /** The label's row is deleted only when the label is forgotten. */
  ghost predicate Lets(s: State, step: Step, sub: Label) {
    step == ApiDelete(Address.PublicUrl(sub, s.base)) ==> Forgotten(s, sub)
  }

  ghost predicate LabelOk(s: State, sub: Label) {
    SoundAt(s, sub, Acting) && TodoAt(s, sub)
  }

  lemma OwnerOf(s: State, sub: Label, i: InstanceId, k: ConnId)
    requires RowsOk(s) && ExclusiveAt(s, sub, Acting) && OwnerAt(s, i, sub) && Binds(s, k, sub, Acting)
    ensures i == s.conns[k].inst
  {
    var x :| x in s.conns && s.conns[x].inst == i && s.conns[x].sub == sub && OwnsRow(s, x);
    assert OwnsRow(s, k);
  }

  lemma TodoFromSnapshot(s: State, step: Step, i: InstanceId, sub: Label)
    requires RegistryOk(s) && ExclusiveAt(s, sub, Acting) && Enabled(s, step)
    requires i in Apply(s, step).refresh && sub in Apply(s, step).refresh[i].todo
    ensures (i in s.refresh && sub in s.refresh[i].todo) || OwnerAt(s, i, sub)
  {
    hide FreshTunnel, SetStatus, Address.PublicUrl;
    if step.Snapshot? && step.i == i {
      assert Binds(s, s.regs[i][sub], sub, Acting);
      assert OwnsRow(s, s.regs[i][sub]);
    }
  }

  lemma TodoKept(s: State, step: Step, sub: Label)
    requires LabelOk(s, sub) && Enabled(s, step) && Lets(s, step, sub)
    ensures TodoAt(Apply(s, step), sub)
  {
    var t := Apply(s, step);
    hide RowsOk, HeldAt, OwnerAt;
    forall i | i in t.refresh && sub in t.refresh[i].todo
      ensures OwnerAt(t, i, sub)
    {
      hide Apply, Enabled, RegistryOk, ExclusiveAt, Binds;
      TodoFromSnapshot(s, step, i, sub);
      if step == ApiDelete(Address.PublicUrl(sub, s.base)) {
        TodoUntouched(s, Address.PublicUrl(sub, s.base));
      } else {
        OwnerStays(s, step, i, sub);
      }
    }
  }

  lemma TodoUntouched(s: State, url: string)
    requires Enabled(s, ApiDelete(url))
    ensures Apply(s, ApiDelete(url)).refresh == s.refresh
  {
  }

  lemma LabelKept(s: State, step: Step, sub: Label)
    requires LabelOk(s, sub) && Enabled(s, step) && Lets(s, step, sub)
    ensures LabelOk(Apply(s, step), sub)
  {
    assert Spares(s, step, sub, Acting);
    TodoKept(s, step, sub);
    hide Apply, Enabled, RegistryOk, RowsOk, ExclusiveAt, HeldAt, TodoAt;
    Weaker(s, sub, Acting);
    RegistryKept(s, step);
    RowsKept(s, step);
    ExclusiveKept(s, step, sub, Acting);
    HeldKept(s, step, sub);
  }

  // ---- Whom a route names -----------------------------------------------------------------------

  ghost predicate NamesOwner(s: State, sub: Label) {
    LiveRoute(s.routes, sub, s.now).Some? ==> OwnerAt(s, LiveRoute(s.routes, sub, s.now).value, sub)
  }

  predicate SameKey(r: Routes, t: Routes, sub: Label) {
    (sub in r <==> sub in t) && (sub in r ==> r[sub] == t[sub])
  }

  /** A step that leaves the label's key to the gateways, and deletes its row only when nothing is left of it. */
  ghost predicate Faithful(s: State, step: Step, sub: Label) {
    && (step == ApiDelete(Address.PublicUrl(sub, s.base)) ==>
      Forgotten(s, sub) && LiveRoute(s.routes, sub, s.now) == None)
    && (step.Corrupt? ==> SameKey(s.routes, step.routes, sub))
  }

  lemma LiveRouteWritten(s: State, step: Step, sub: Label)
    requires LabelOk(s, sub) && Enabled(s, step) && Faithful(s, step, sub)
    requires LiveRoute(Apply(s, step).routes, sub, Apply(s, step).now).Some?
    ensures var i := LiveRoute(Apply(s, step).routes, sub, Apply(s, step).now);
      LiveRoute(s.routes, sub, s.now) == i || OwnerAt(s, i.value, sub)
  {
    hide FreshTunnel, SetStatus, RegistryOk, RowsOk, HeldAt, Address.PublicUrl, Forgotten;
    if step.Announce? && s.conns[step.k].sub == sub {
      assert Binds(s, step.k, sub, Acting);
      assert OwnsRow(s, step.k);
    }
  }

  lemma NamesOwnerKept(s: State, step: Step, sub: Label)
    requires LabelOk(s, sub) && NamesOwner(s, sub) && Enabled(s, step) && Faithful(s, step, sub)
    ensures NamesOwner(Apply(s, step), sub)
  {
    var t := Apply(s, step);
    hide OwnerAt, LabelOk, Forgotten, LiveRoute;
    if LiveRoute(t.routes, sub, t.now).Some? {
      LiveRouteWritten(s, step, sub);
      if step != ApiDelete(Address.PublicUrl(sub, s.base)) {
        hide Apply, Enabled;
        OwnerStays(s, step, LiveRoute(t.routes, sub, t.now).value, sub);
      }
    }
  }

  ghost predicate FaithfulRun(s: State, steps: seq<Step>, sub: Label)
    requires Legal(s, steps)
    decreases |steps|
  {
    steps == [] ||
    (FaithfulRun(s, steps[..|steps| - 1], sub) && Faithful(Play(s, steps[..|steps| - 1]), steps[|steps| - 1], sub))
  }

  lemma {:induction false} FaithfulRunKeeps(s: State, steps: seq<Step>, sub: Label)
    requires LabelOk(s, sub) && NamesOwner(s, sub) && Legal(s, steps) && FaithfulRun(s, steps, sub)
    ensures LabelOk(Play(s, steps), sub) && NamesOwner(Play(s, steps), sub)
    decreases |steps|
  {
    if steps != [] {
      hide LabelOk, NamesOwner, Apply, Enabled;
      var init, step := steps[..|steps| - 1], steps[|steps| - 1];
      FaithfulRunKeeps(s, init, sub);
      LabelKept(Play(s, init), step, sub);
      NamesOwnerKept(Play(s, init), step, sub);
    }
  }

  /** While a connection acts for the label, the label's route is absent or names the instance of that connection; for
    * every run in which Redis keeps this key and the label's row is deleted only when nothing is left of the label. */
  lemma RouteNamesTheOwner(base: string, steps: seq<Step>, sub: Label, k: ConnId)
    requires Legal(Init(base), steps) && FaithfulRun(Init(base), steps, sub)
    requires Binds(Play(Init(base), steps), k, sub, Acting)
    ensures var t := Play(Init(base), steps);
      LiveRoute(t.routes, sub, t.now) == None || LiveRoute(t.routes, sub, t.now) == Some(t.conns[k].inst)
  {
    var t := Play(Init(base), steps);
    FaithfulRunKeeps(Init(base), steps, sub);
    hide Binds, RowsOk, RegistryOk, ExclusiveAt, OwnerAt;
    if LiveRoute(t.routes, sub, t.now).Some? {
      OwnerOf(t, sub, LiveRoute(t.routes, sub, t.now).value, k);
    }
  }

  // ---- How long routes live ----------------------------------------------------------------

  /** No key outlives 90 seconds counted from its last write. */
  ghost predicate TtlOk(s: State) {
    forall sub | sub in s.routes :: s.routes[sub].expires <= s.now + 90
  }

  lemma TtlKept(s: State, step: Step)
    requires TtlOk(s) && Enabled(s, step) && !step.Corrupt?
    ensures TtlOk(Apply(s, step))
  {
    hide FreshTunnel, SetStatus;
  }

  predicate Writes(s: State, step: Step, sub: Label) {
    match step
    case Announce(k, ok) => ok && k in s.conns && s.conns[k].sub == sub
    case Rewrite(_, x, ok) => ok && x == sub
    case Corrupt(_) => true
    case _ => false
  }

  lemma UnwrittenRoute(s: State, step: Step, sub: Label)
    requires Enabled(s, step) && !Writes(s, step, sub)
    ensures var t := Apply(s, step);
      s.now <= t.now && (sub in t.routes ==> sub in s.routes && t.routes[sub] == s.routes[sub])
  {
    hide FreshTunnel, SetStatus;
  }

  ghost predicate NeverWritten(s: State, steps: seq<Step>, sub: Label)
    requires Legal(s, steps)
    decreases |steps|
  {
    steps == [] ||
    (NeverWritten(s, steps[..|steps| - 1], sub) && !Writes(Play(s, steps[..|steps| - 1]), steps[|steps| - 1], sub))
  }

  lemma {:induction false} UnwrittenRun(s: State, steps: seq<Step>, sub: Label)
    requires Legal(s, steps) && NeverWritten(s, steps, sub)
    ensures var t := Play(s, steps);
      s.now <= t.now && (sub in t.routes ==> sub in s.routes && t.routes[sub] == s.routes[sub])
    decreases |steps|
  {
    hide Enabled, Apply;
    if steps != [] {
      var init := steps[..|steps| - 1];
      UnwrittenRun(s, init, sub);
      UnwrittenRoute(Play(s, init), steps[|steps| - 1], sub);
    }
  }

  ghost predicate NoCorrupt(steps: seq<Step>) {
    forall st | st in steps :: !st.Corrupt?
  }

  lemma {:induction false} UncorruptedRunKeeps(s: State, steps: seq<Step>)
    requires RegistryOk(s) && RowsOk(s) && RoutesOk(s) && TtlOk(s) && Legal(s, steps) && NoCorrupt(steps)
    ensures RoutesOk(Play(s, steps)) && TtlOk(Play(s, steps))
    decreases |steps|
  {
    if steps != [] {
      var init, step := steps[..|steps| - 1], steps[|steps| - 1];
      assert step in steps && forall st | st in init :: st in steps;
      hide RegistryOk, RowsOk, RoutesOk, TtlOk, Apply, Enabled;
      UncorruptedRunKeeps(s, init);
      RunKeeps(s, init);
      RoutesKept(Play(s, init), step);
      TtlKept(Play(s, init), step);
    }
  }

  /** A label nobody writes any more stops being routed within 90 seconds, however often it was resurrected before. */
  lemma RouteLapses(base: string, before: seq<Step>, after: seq<Step>, sub: Label)
    requires Legal(Init(base), before) && NoCorrupt(before)
    requires Legal(Play(Init(base), before), after) && NeverWritten(Play(Init(base), before), after, sub)
    requires Play(Play(Init(base), before), after).now >= Play(Init(base), before).now + 90
    ensures var t := Play(Play(Init(base), before), after); LiveRoute(t.routes, sub, t.now) == None
  {
    UncorruptedRunKeeps(Init(base), before);
    UnwrittenRun(Play(Init(base), before), after, sub);
  }

  // ---- Reachability through routes ---------------------------------------------------------------

  /** What keeps the label routed to instance i: writes of its key by i succeed, Redis does not lose the key, time does
    * not advance to 90 seconds after the snapshot of i's last finished refresh pass, and the label's row is deleted
    * only when the label is forgotten. Nothing is asked of other instances, labels or keys. */
  ghost predicate Timely(s: State, step: Step, i: InstanceId, sub: Label) {
    && Lets(s, step, sub)
    && match step
      case Corrupt(routes) => SameKey(s.routes, routes, sub)
      case Announce(k, ok) => k in s.conns && s.conns[k].inst == i && s.conns[k].sub == sub ==> ok
      case Rewrite(j, x, ok) => j == i && x == sub ==> ok
      case Tick(d) => i in s.refresh ==> s.now + d < s.refresh[i].done + 90
      case _ => true
  }

  predicate RoutedPhase(p: Phase) {
    p in {Routed, Reading, Rejected, Closed}
  }

  ghost predicate ClockAt(s: State, i: InstanceId) {
    i in s.refresh ==> s.refresh[i].done <= s.refresh[i].started <= s.now
  }

  ghost predicate KeyOk(s: State, i: InstanceId, sub: Label) {
    && sub in s.routes && s.routes[sub].owner == i && s.now < s.routes[sub].expires
    && i in s.refresh
    && s.refresh[i].done + 90 <= s.routes[sub].expires
    && (sub !in s.refresh[i].todo ==> s.refresh[i].started + 90 <= s.routes[sub].expires)
  }

  predicate RoutedAt(s: State, k: ConnId, i: InstanceId, sub: Label) {
    k in s.conns && s.conns[k].inst == i && s.conns[k].sub == sub && RoutedPhase(s.conns[k].phase)
  }

  ghost predicate LiveAt(s: State, i: InstanceId, sub: Label) {
    (exists k :: RoutedAt(s, k, i, sub)) ==> KeyOk(s, i, sub)
  }

  lemma ClockKept(s: State, step: Step, i: InstanceId)
    requires RegistryOk(s) && ClockAt(s, i) && Enabled(s, step)
    ensures ClockAt(Apply(s, step), i)
  {
    hide FreshTunnel, SetStatus, RegistryOk;
  }

  lemma RoutedBefore(s: State, step: Step, k: ConnId, i: InstanceId, sub: Label)
    requires Enabled(s, step) && RoutedAt(Apply(s, step), k, i, sub)
    ensures k in s.conns && s.conns[k].inst == i && s.conns[k].sub == sub
    ensures step == Announce(k, true) || step == Announce(k, false) || RoutedAt(s, k, i, sub)
    ensures RoutedAt(s, k, i, sub) ==> !((step.Unroute? || step.UnrouteRejected? || step.Announce?) && step.k == k)
  {
    hide FreshTunnel, SetStatus, Address.PublicUrl, Added, Removed, SetRoute;
    if !Concerns(step, k) && !step.List? {
      hide Apply, Enabled, Concerns;
      OthersLeaveAlone(s, step, k);
    }
  }

  lemma KeySame(s: State, t: State, i: InstanceId, sub: Label)
    requires KeyOk(s, i, sub) && i in t.refresh && t.refresh[i] == s.refresh[i]
    requires sub in t.routes && t.routes[sub] == s.routes[sub] && t.now < t.routes[sub].expires
    ensures KeyOk(t, i, sub)
  {
  }

  lemma KeyAnnounced(s: State, k: ConnId)
    requires RegistryOk(s) && Enabled(s, Announce(k, true)) && ClockAt(s, s.conns[k].inst)
    ensures KeyOk(Apply(s, Announce(k, true)), s.conns[k].inst, s.conns[k].sub)
  {
  }

  /** The refresher of the connection's own instance: its key is written in the pass or not in the snapshot. */
  lemma KeyRefreshed(s: State, step: Step, k: ConnId, i: InstanceId, sub: Label)
    requires ClockAt(s, i) && RoutedAt(s, k, i, sub) && HeldOf(s, k) && KeyOk(s, i, sub)
    requires Enabled(s, step) && (step.Snapshot? || step.Rewrite?) && Timely(s, step, i, sub)
    requires step.Rewrite? && step.sub == sub ==> step.i == i
    ensures KeyOk(Apply(s, step), i, sub)
  {
    assert sub in s.regs[i].Keys;
    if step.Rewrite? && sub != step.sub && sub in s.refresh[i].todo {
      assert sub in s.refresh[i].todo - {step.sub};
    }
  }

  lemma OtherKeys(s: State, step: Step, i: InstanceId, sub: Label)
    requires Enabled(s, step) && Timely(s, step, i, sub) && i in s.refresh && sub in s.routes && !step.Snapshot?
    requires !step.Rewrite?
    requires (step.Announce? || step.Unroute? || step.UnrouteRejected?) ==> s.conns[step.k].sub != sub
    requires s.refresh[i].done + 90 <= s.routes[sub].expires && s.now < s.routes[sub].expires
    ensures var t := Apply(s, step);
      && i in t.refresh && t.refresh[i] == s.refresh[i]
      && sub in t.routes && t.routes[sub] == s.routes[sub] && t.now < t.routes[sub].expires
  {
    hide FreshTunnel, SetStatus, Address.PublicUrl, Lets;
  }

  /** No other connection and no other instance writes or deletes the key of a routed connection, although `remove`
    * deletes unconditionally: whoever acts for the label is that connection. */
  lemma KeyKept(s: State, step: Step, k: ConnId, i: InstanceId, sub: Label)
    requires LabelOk(s, sub) && ClockAt(s, i) && KeyOk(s, i, sub) && RoutedAt(s, k, i, sub)
    requires Enabled(s, step) && Timely(s, step, i, sub)
    requires !((step.Unroute? || step.UnrouteRejected? || step.Announce?) && step.k == k)
    ensures KeyOk(Apply(s, step), i, sub)
  {
    assert Binds(s, k, sub, Acting) && HeldOf(s, k) && i in s.refresh && sub in s.routes;
    if step.Snapshot? || step.Rewrite? {
      if step.Rewrite? && step.sub == sub {
        assert OwnerAt(s, step.i, sub);
        OwnerOf(s, sub, step.i, k);
      }
      hide Apply, Enabled, LabelOk, KeyOk, Timely, ClockAt, HeldOf, RoutedAt;
      KeyRefreshed(s, step, k, i, sub);
    } else {
      if (step.Announce? || step.Unroute? || step.UnrouteRejected?) && s.conns[step.k].sub == sub {
        assert Binds(s, step.k, sub, Acting);
        SameLabelSameConn(s, sub, Acting, step.k, k);
      }
      hide Apply, Enabled, LabelOk, KeyOk, Timely, ClockAt, HeldOf, RoutedAt;
      OtherKeys(s, step, i, sub);
      KeySame(s, Apply(s, step), i, sub);
    }
  }

  lemma LiveKept(s: State, step: Step, i: InstanceId, sub: Label)
    requires LabelOk(s, sub) && ClockAt(s, i) && LiveAt(s, i, sub) && Enabled(s, step) && Timely(s, step, i, sub)
    ensures LiveAt(Apply(s, step), i, sub)
  {
    var t := Apply(s, step);
    if k :| RoutedAt(t, k, i, sub) {
      assert RegistryOk(s);
      hide Apply, Enabled, LabelOk, KeyOk, ClockAt, RoutedAt, RegistryOk, Lets;
      RoutedBefore(s, step, k, i, sub);
      if RoutedAt(s, k, i, sub) { KeyKept(s, step, k, i, sub); } else { KeyAnnounced(s, k); }
    }
  }

  ghost predicate TimelyRun(s: State, steps: seq<Step>, i: InstanceId, sub: Label)
    requires Legal(s, steps)
    decreases |steps|
  {
    steps == [] ||
    (TimelyRun(s, steps[..|steps| - 1], i, sub) && Timely(Play(s, steps[..|steps| - 1]), steps[|steps| - 1], i, sub))
  }

  lemma {:induction false} TimelyRunKeeps(s: State, steps: seq<Step>, i: InstanceId, sub: Label)
    requires LabelOk(s, sub) && ClockAt(s, i) && LiveAt(s, i, sub) && Legal(s, steps) && TimelyRun(s, steps, i, sub)
    ensures LabelOk(Play(s, steps), sub) && ClockAt(Play(s, steps), i) && LiveAt(Play(s, steps), i, sub)
    decreases |steps|
  {
    if steps != [] {
      var init, step := steps[..|steps| - 1], steps[|steps| - 1];
      TimelyRunKeeps(s, init, i, sub);
      var u := Play(s, init);
      assert Lets(u, step, sub) && RegistryOk(u);
      hide LabelOk, ClockAt, LiveAt, Lets, Apply, Enabled, Timely, RegistryOk;
      LabelKept(u, step, sub);
      ClockKept(u, step, i);
      LiveKept(u, step, i, sub);
    }
  }

  lemma Reachable(s: State, k: ConnId, i: InstanceId, sub: Label)
    requires HeldAt(s, sub) && ClockAt(s, i) && LiveAt(s, i, sub) && RoutedAt(s, k, i, sub)
    ensures Found(s, k, i, sub)
  {
    assert KeyOk(s, i, sub) && HeldOf(s, k);
  }

  lemma StartIsLive(base: string, i: InstanceId, sub: Label)
    ensures LabelOk(Init(base), sub) && ClockAt(Init(base), i) && LiveAt(Init(base), i, sub)
  {
    StartIsSound(base, sub, Acting);
  }

  /** Peers find the connection: the route names its instance and the instance's registry leads to it. */
  predicate Found(s: State, k: ConnId, i: InstanceId, sub: Label) {
    LiveRoute(s.routes, sub, s.now) == Some(i) && i in s.regs && sub in s.regs[i] && s.regs[i][sub] == k
  }

  /** In every timely run peers find a connection from the write of its route until it is unlisted. */
  lemma RoutedIsReachable(base: string, steps: seq<Step>, k: ConnId, i: InstanceId, sub: Label)
    requires Legal(Init(base), steps) && TimelyRun(Init(base), steps, i, sub)
    requires RoutedAt(Play(Init(base), steps), k, i, sub)
    ensures Found(Play(Init(base), steps), k, i, sub)
  {
    hide Init, RegistryOk, RowsOk, ExclusiveAt, HeldAt, TodoAt, ClockAt, LiveAt;
    StartIsLive(base, i, sub);
    TimelyRunKeeps(Init(base), steps, i, sub);
    Reachable(Play(Init(base), steps), k, i, sub);
  }

  // ---- What deleting the row of a label that is not forgotten leads to --------------------------

  /** Every earlier deletion of the label's row happened when the label was forgotten. */
  ghost predicate LetsRun(s: State, steps: seq<Step>, sub: Label)
    requires Legal(s, steps)
    decreases |steps|
  {
    steps == [] ||
    (LetsRun(s, steps[..|steps| - 1], sub) && Lets(Play(s, steps[..|steps| - 1]), steps[|steps| - 1], sub))
  }

  lemma {:induction false} LetsRunKeeps(s: State, steps: seq<Step>, sub: Label, i: InstanceId)
    requires LabelOk(s, sub) && ClockAt(s, i) && Legal(s, steps) && LetsRun(s, steps, sub)
    ensures LabelOk(Play(s, steps), sub) && ClockAt(Play(s, steps), i)
    decreases |steps|
  {
    if steps != [] {
      var init, step := steps[..|steps| - 1], steps[|steps| - 1];
      LetsRunKeeps(s, init, sub, i);
      assert RegistryOk(Play(s, init));
      hide LabelOk, ClockAt, Lets, Apply, Enabled, RegistryOk;
      LabelKept(Play(s, init), step, sub);
      ClockKept(Play(s, init), step, i);
    }
  }

  lemma {:induction false} SmoothIsTimely(s: State, steps: seq<Step>, i: InstanceId, sub: Label)
    requires Legal(s, steps) && AllSmooth(steps)
    ensures TimelyRun(s, steps, i, sub)
    decreases |steps|
  {
    if steps != [] {
      hide Enabled, Apply, Forgotten;
      assert Smooth(steps[|steps| - 1]);
      SmoothIsTimely(s, steps[..|steps| - 1], i, sub);
    }
  }

  /** A run timely for a connection that peers do not find, although its route was written. */
  ghost predicate LosesRoute(s: State, more: seq<Step>, x: ConnId, i: InstanceId, sub: Label) {
    Legal(s, more) && TimelyRun(s, more, i, sub) && RoutedAt(Play(s, more), x, i, sub)
      && !Found(Play(s, more), x, i, sub)
  }

  lemma ReachesLoss(s: State, u: State, x: ConnId, i: InstanceId, sub: Label)
    requires Reaches(s, u) && RoutedAt(u, x, i, sub) && !Found(u, x, i, sub)
    ensures exists more :: LosesRoute(s, more, x, i, sub)
  {
    var more :| Legal(s, more) && Play(s, more) == u && AllSmooth(more);
    SmoothIsTimely(s, more, i, sub);
    assert LosesRoute(s, more, x, i, sub);
  }

  lemma Announces(s: State, u: State, x: ConnId)
    requires Reaches(s, u) && InPhase(u, x, Listed)
    ensures var v := Apply(u, Announce(x, true)); var c := u.conns[x];
      && Reaches(s, v) && v.conns == u.conns[x := c.(phase := Routed)] && v.regs == u.regs && v.refresh == u.refresh
      && LiveRoute(v.routes, c.sub, v.now) == Some(c.inst)
  {
    hide Reaches;
    ReachesNext(s, u, Announce(x, true));
  }

  /** With no row in the way a new instance can register the label and announce it. */
  lemma AnotherRouted(s: State, sub: Label) returns (u: State, x: ConnId, i: InstanceId)
    requires RegistryOk(s) && RowsOk(s) && Address.PublicUrl(sub, s.base) !in s.rows
    ensures Reaches(s, u) && RegistryOk(u) && RoutedAt(u, x, i, sub) && i !in s.regs && x !in s.conns
    ensures forall k | k in s.conns :: k in u.conns && u.conns[k] == s.conns[k]
    ensures forall j | j in s.refresh :: j in u.refresh && u.refresh[j] == s.refresh[j]
  {
    ReachesItself(s);
    u, i, x := AnotherListed(s, s, sub);
    hide Reaches, RegistryOk, RowsOk, Address.PublicUrl, Apply, LiveRoute;
    Announces(s, u, x);
    u := Apply(u, Announce(x, true));
    ReachesRegistry(s, u);
  }

  lemma ReachesRegistry(s: State, u: State)
    requires RegistryOk(s) && RowsOk(s) && Reaches(s, u)
    ensures RegistryOk(u)
  {
    var more :| Legal(s, more) && Play(s, more) == u && AllSmooth(more);
    hide RegistryOk, RowsOk;
    RunKeeps(s, more);
  }

  /** A refresher that still has the label in its snapshot writes the route of its own instance over the new one. */
  lemma SnapshotTakesRoute(s: State, u: State, x: ConnId, i: InstanceId, j: InstanceId, sub: Label)
    requires Reaches(s, u) && RoutedAt(u, x, i, sub) && i != j && j in u.refresh && sub in u.refresh[j].todo
    ensures exists more :: LosesRoute(s, more, x, i, sub)
  {
    hide Reaches, LosesRoute;
    ReachesNext(s, u, Rewrite(j, sub, true));
    ReachesLoss(s, Apply(u, Rewrite(j, sub, true)), x, i, sub);
  }

  /** A connection that has yet to announce the label announces its own instance. */
  lemma LaterAnnouncementTakesRoute(s: State, u: State, x: ConnId, i: InstanceId, k: ConnId, sub: Label)
    requires Reaches(s, u) && RegistryOk(u) && RoutedAt(u, x, i, sub) && k in u.conns && u.conns[k].sub == sub
    requires u.conns[k].inst != i
    requires u.conns[k].phase.RowCreated? || u.conns[k].phase.RowActive? || u.conns[k].phase.Listed?
    ensures exists more :: LosesRoute(s, more, x, i, sub)
  {
    assert Beside(u, x, i, k, sub, u.conns[k].phase);
    hide Reaches, LosesRoute, Apply, Enabled, LiveRoute;
    var v := ListedBeside(s, u, x, i, k, sub);
    Announces(s, v, k);
    ReachesLoss(s, Apply(v, Announce(k, true)), x, i, sub);
  }

  /** Two connections on different instances, the second at a phase of its registration. */
  predicate Beside(u: State, x: ConnId, i: InstanceId, k: ConnId, sub: Label, phase: Phase) {
    RoutedAt(u, x, i, sub) && InPhase(u, k, phase) && u.conns[k].sub == sub && u.conns[k].inst != i
  }

  lemma BesideActive(s: State, u: State, x: ConnId, i: InstanceId, k: ConnId, sub: Label)
    requires Reaches(s, u) && Beside(u, x, i, k, sub, RowCreated)
    ensures Reaches(s, Apply(u, Activate(k, true))) && Beside(Apply(u, Activate(k, true)), x, i, k, sub, RowActive)
  {
    hide Reaches, Address.PublicUrl, SetStatus;
    ReachesNext(s, u, Activate(k, true));
  }

  lemma BesideListed(s: State, u: State, x: ConnId, i: InstanceId, k: ConnId, sub: Label)
    requires Reaches(s, u) && Beside(u, x, i, k, sub, RowActive)
    ensures Reaches(s, Apply(u, List(k))) && Beside(Apply(u, List(k)), x, i, k, sub, Listed)
  {
    hide Reaches, Address.PublicUrl, Added;
    ReachesNext(s, u, List(k));
  }

  lemma ListedBeside(s: State, u: State, x: ConnId, i: InstanceId, k: ConnId, sub: Label) returns (v: State)
    requires Reaches(s, u)
    requires (exists phase | phase in {RowCreated, RowActive, Listed} :: Beside(u, x, i, k, sub, phase))
    ensures Reaches(s, v) && Beside(v, x, i, k, sub, Listed)
  {
    var phase :| phase in {RowCreated, RowActive, Listed} && Beside(u, x, i, k, sub, phase);
    hide Reaches, Apply, Enabled, RoutedAt;
    v := u;
    if phase.RowCreated? {
      BesideActive(s, v, x, i, k, sub);
      v := Apply(v, Activate(k, true));
    }
    if !phase.Listed? {
      BesideListed(s, v, x, i, k, sub);
      v := Apply(v, List(k));
    }
  }

  /** A connection that has yet to be removed deletes the label's key, whoever wrote it. */
  lemma RemovalDropsRoute(s: State, u: State, x: ConnId, i: InstanceId, k: ConnId, sub: Label)
    requires Reaches(s, u) && RegistryOk(u) && RoutedAt(u, x, i, sub) && k != x && Binds(u, k, sub, Acting)
    requires !u.conns[k].phase.RowCreated? && !u.conns[k].phase.RowActive? && !u.conns[k].phase.Listed?
    ensures exists more :: LosesRoute(s, more, x, i, sub)
  {
    var v := AboutToUnroute(s, u, x, i, k, sub);
    hide Reaches, LosesRoute, Address.PublicUrl;
    var last := if v.conns[k].phase.Unlisted? then Unroute(k, true) else UnrouteRejected(k, true);
    ReachesNext(s, v, last);
    ReachesLoss(s, Apply(v, last), x, i, sub);
  }

  lemma AboutToUnroute(s: State, u: State, x: ConnId, i: InstanceId, k: ConnId, sub: Label) returns (v: State)
    requires Reaches(s, u) && RegistryOk(u) && RoutedAt(u, x, i, sub) && k != x && Binds(u, k, sub, Acting)
    requires !u.conns[k].phase.RowCreated? && !u.conns[k].phase.RowActive? && !u.conns[k].phase.Listed?
    ensures Reaches(s, v) && RoutedAt(v, x, i, sub) && k in v.conns && v.conns[k].sub == sub
    ensures v.conns[k].inst in v.regs
    ensures v.conns[k].phase.Unlisted? || v.conns[k].phase.RejectUnlisted?
  {
    assert u.conns[k].inst in u.regs;
    hide RegistryOk, Reaches, Address.PublicUrl, Removed;
    v := u;
    if v.conns[k].phase.Routed? {
      ReachesNext(s, v, Confirm(k, false));
      v := Apply(v, Confirm(k, false));
    }
    if v.conns[k].phase.Reading? {
      ReachesNext(s, v, EndRead(k));
      v := Apply(v, EndRead(k));
    }
    v := AfterUnlisting(s, v, x, i, k, sub);
  }

  lemma AfterUnlisting(s: State, u: State, x: ConnId, i: InstanceId, k: ConnId, sub: Label) returns (v: State)
    requires Reaches(s, u) && RoutedAt(u, x, i, sub) && k != x && k in u.conns && u.conns[k].sub == sub
    requires u.conns[k].inst in u.regs
    requires u.conns[k].phase in {Rejected, Closed, Unlisted, RejectUnlisted}
    ensures Reaches(s, v) && RoutedAt(v, x, i, sub) && k in v.conns && v.conns[k].sub == sub
    ensures v.conns[k].inst in v.regs
    ensures v.conns[k].phase.Unlisted? || v.conns[k].phase.RejectUnlisted?
  {
    hide Reaches, Address.PublicUrl, Removed;
    v := u;
    if v.conns[k].phase.Rejected? {
      ReachesNext(s, v, UnlistRejected(k));
      v := Apply(v, UnlistRejected(k));
    } else if v.conns[k].phase.Closed? {
      ReachesNext(s, v, Unlist(k));
      v := Apply(v, Unlist(k));
    }
  }

  lemma TracesTakeRoute(s: State, sub: Label)
    requires RegistryOk(s) && RowsOk(s) && !Forgotten(s, sub) && Address.PublicUrl(sub, s.base) !in s.rows
    ensures exists more, x, i :: LosesRoute(s, more, x, i, sub)
  {
    var u, x, i := AnotherRouted(s, sub);
    assert s.regs.Keys == s.refresh.Keys && forall k | k in s.conns :: s.conns[k].inst in s.regs;
    hide RegistryOk, RowsOk, Reaches, LosesRoute, Address.PublicUrl;
    if j :| j in s.refresh && sub in s.refresh[j].todo {
      SnapshotTakesRoute(s, u, x, i, j, sub);
    } else {
      var k :| Binds(s, k, sub, Acting);
      if u.conns[k].phase.RowCreated? || u.conns[k].phase.RowActive? || u.conns[k].phase.Listed? {
        LaterAnnouncementTakesRoute(s, u, x, i, k, sub);
      } else {
        RemovalDropsRoute(s, u, x, i, k, sub);
      }
    }
  }

  /** After a deletion that lets the label go no timely run loses a route. */
  lemma ForgottenKeepsRoutes(s: State, sub: Label, more: seq<Step>, x: ConnId, i: InstanceId)
    requires LabelOk(s, sub) && ClockAt(s, i) && Forgotten(s, sub)
    requires Enabled(s, ApiDelete(Address.PublicUrl(sub, s.base)))
    ensures !LosesRoute(Apply(s, ApiDelete(Address.PublicUrl(sub, s.base))), more, x, i, sub)
  {
    var step := ApiDelete(Address.PublicUrl(sub, s.base));
    var t := Apply(s, step);
    NobodyRouted(s, sub, i);
    assert RegistryOk(s);
    hide LabelOk, Forgotten, RegistryOk, ClockAt, LiveAt, Apply, Enabled, Found, RoutedAt, Address.PublicUrl;
    LabelKept(s, step, sub);
    ClockKept(s, step, i);
    if LosesRoute(t, more, x, i, sub) {
      TimelyRunKeeps(t, more, i, sub);
      FoundWhenLive(Play(t, more), x, i, sub);
    }
  }

  lemma NobodyRouted(s: State, sub: Label, i: InstanceId)
    requires Forgotten(s, sub) && Enabled(s, ApiDelete(Address.PublicUrl(sub, s.base)))
    ensures LiveAt(Apply(s, ApiDelete(Address.PublicUrl(sub, s.base))), i, sub)
  {
    hide Address.PublicUrl, KeyOk;
    var t := Apply(s, ApiDelete(Address.PublicUrl(sub, s.base)));
    forall k ensures !RoutedAt(t, k, i, sub) { assert RoutedAt(t, k, i, sub) ==> Binds(s, k, sub, Acting); }
  }

  lemma FoundWhenLive(s: State, k: ConnId, i: InstanceId, sub: Label)
    requires LabelOk(s, sub) && ClockAt(s, i) && LiveAt(s, i, sub) && RoutedAt(s, k, i, sub)
    ensures Found(s, k, i, sub)
  {
    hide RegistryOk, RowsOk, ExclusiveAt, HeldAt, TodoAt, ClockAt, LiveAt, RoutedAt, Found;
    Reachable(s, k, i, sub);
  }

  /** The first deletion of a label's row that costs a connection its route: some continuation, timely for the instance
    * and label of a routed connection, in which peers do not find that connection exists if and only if the label was
    * not forgotten - if a connection still acted for it, or a refresher still had it in its snapshot. */
  lemma DeletionUnroutes(base: string, steps: seq<Step>, sub: Label)
    requires Legal(Init(base), steps) && LetsRun(Init(base), steps, sub)
    requires Enabled(Play(Init(base), steps), ApiDelete(Address.PublicUrl(sub, Play(Init(base), steps).base)))
    ensures var s := Play(Init(base), steps); var t := Apply(s, ApiDelete(Address.PublicUrl(sub, s.base)));
      (exists more, x, i :: LosesRoute(t, more, x, i, sub)) <==> !Forgotten(s, sub)
  {
    var s := Play(Init(base), steps);
    var step := ApiDelete(Address.PublicUrl(sub, s.base));
    var t := Apply(s, step);
    forall i
      ensures ClockAt(s, i) && LabelOk(s, sub)
    {
      StartIsLive(base, i, sub);
      LetsRunKeeps(Init(base), steps, sub, i);
    }
    assert ClockAt(s, 0) && LabelOk(s, sub);
    if Forgotten(s, sub) {
      hide Init, LabelOk, ClockAt, Forgotten, LosesRoute, Apply, Enabled, Play, Legal, Address.PublicUrl;
      forall more, x, i
        ensures !LosesRoute(t, more, x, i, sub)
      {
        ForgottenKeepsRoutes(s, sub, more, x, i);
      }
    } else {
      StillRemembered(s, sub);
      hide Init, LosesRoute, Play, Legal, Apply, Enabled, RegistryOk, RowsOk, ExclusiveAt, HeldAt, TodoAt;
      hide Address.PublicUrl;
      RegistryKept(s, step);
      RowsKept(s, step);
      TracesTakeRoute(t, sub);
    }
  }

  lemma StillRemembered(s: State, sub: Label)
    requires Enabled(s, ApiDelete(Address.PublicUrl(sub, s.base))) && !Forgotten(s, sub)
    ensures var t := Apply(s, ApiDelete(Address.PublicUrl(sub, s.base)));
      !Forgotten(t, sub) && Address.PublicUrl(sub, t.base) !in t.rows
  {
    hide Address.PublicUrl;
    var t := Apply(s, ApiDelete(Address.PublicUrl(sub, s.base)));
    assert forall k :: Binds(s, k, sub, Acting) ==> Binds(t, k, sub, Acting);
  }
}
