/** Exclusive ownership of labels, and exactly how far it depends on tunnel rows not being deleted.
  * Everything is stated for one label: what happens to the rows of other labels plays no part.
  */
module Exclusive {
  import opened TunnelProto
  import opened Registry
  import opened Ownership
  import Address

  /** Which connections are meant: those in a registry or still to be listed; those that may also still delete the
    * label's route key; those whose goroutine has not finished; or all that ever were. */
  datatype Level = Claiming | Acting | Unfinished | Ever

  predicate Bound(p: Phase, level: Level) {
    match level
    case Claiming => p.RowCreated? || p.RowActive? || ListedPhase(p)
    case Acting => !p.Unrouted? && !p.Gone? && !p.Abandoned?
    case Unfinished => !p.Gone? && !p.Abandoned?
    case Ever => true
  }

  predicate Binds(s: State, k: ConnId, sub: Label, level: Level) {
    k in s.conns && s.conns[k].sub == sub && Bound(s.conns[k].phase, level)
  }

  predicate OwnsRow(s: State, k: ConnId)
    requires k in s.conns
  {
    var url := Address.PublicUrl(s.conns[k].sub, s.base);
    url in s.rows && s.rows[url].tunnel == s.conns[k].tunnel
  }

  /** Every connection of the label at this level has its row. */
  ghost predicate ExclusiveAt(s: State, sub: Label, level: Level) {
    forall k | Binds(s, k, sub, level) :: OwnsRow(s, k)
  }

  /** The step does not delete the row of a connection of the label at this level. */
  ghost predicate Spares(s: State, step: Step, sub: Label, level: Level) {
    step == ApiDelete(Address.PublicUrl(sub, s.base)) ==> forall k :: !Binds(s, k, sub, level)
  }

  /** The unique index on public URLs makes a label's connection unique. */
  lemma SameLabelSameConn(s: State, sub: Label, level: Level, k1: ConnId, k2: ConnId)
    requires RowsOk(s) && ExclusiveAt(s, sub, level) && Binds(s, k1, sub, level) && Binds(s, k2, sub, level)
    ensures k1 == k2
  {
  }

  /** The replacing branch of `add` is not taken. */
  lemma NeverReplaces(s: State, k: ConnId)
    requires RegistryOk(s) && RowsOk(s) && Enabled(s, List(k)) && ExclusiveAt(s, s.conns[k].sub, Claiming)
    ensures forall i | i in s.regs :: s.conns[k].sub !in s.regs[i]
  {
    var sub := s.conns[k].sub;
    forall i | i in s.regs && sub in s.regs[i]
      ensures false
    {
      assert Binds(s, s.regs[i][sub], sub, Claiming) && Binds(s, k, sub, Claiming);
      SameLabelSameConn(s, sub, Claiming, k, s.regs[i][sub]);
    }
  }

  // ---- What every step keeps -----------------------------------------------------------------

  /** Connections only leave a level, unless they are new. */
  lemma BoundBefore(s: State, step: Step, k: ConnId, sub: Label, level: Level)
    requires Enabled(s, step) && Binds(Apply(s, step), k, sub, level)
    ensures Apply(s, step).conns[k].tunnel == if k in s.conns then s.conns[k].tunnel else step.tunnel
    ensures if k in s.conns then Binds(s, k, sub, level) else step.CreateRow? && step.k == k && step.sub == sub
  {
    hide FreshTunnel, SetStatus, Address.PublicUrl, Added, Removed, SetRoute;
    if !Concerns(step, k) && !step.List? {
      hide Apply, Enabled, Concerns;
      OthersLeaveAlone(s, step, k);
    }
  }

  lemma ExclusiveKept(s: State, step: Step, sub: Label, level: Level)
    requires ExclusiveAt(s, sub, level) && Enabled(s, step) && Spares(s, step, sub, level)
    ensures ExclusiveAt(Apply(s, step), sub, level)
  {
    var t, url := Apply(s, step), Address.PublicUrl(sub, s.base);
    forall k | Binds(t, k, sub, level)
      ensures OwnsRow(t, k)
    {
      BoundBefore(s, step, k, sub, level);
      if k in s.conns {
        assert OwnsRow(s, k);
        hide Apply, Enabled, Binds;
        RowStays(s, step, url);
      }
    }
  }

  /** A connection that is listed and not unlisted is the one its label leads to; only an ended read loop has closed
    * one. */
  ghost predicate HeldOf(s: State, k: ConnId)
    requires k in s.conns
  {
    && (ListedPhase(s.conns[k].phase) ==>
      && s.conns[k].inst in s.regs && s.conns[k].sub in s.regs[s.conns[k].inst]
      && s.regs[s.conns[k].inst][s.conns[k].sub] == k)
    && (s.conns[k].closed ==> EndedPhase(s.conns[k].phase))
  }

  ghost predicate HeldAt(s: State, sub: Label) {
    forall k | k in s.conns && s.conns[k].sub == sub :: HeldOf(s, k)
  }

  /** A registry entry goes only with its own connection. */
  lemma EntryStays(s: State, step: Step, i: InstanceId, sub: Label)
    requires Enabled(s, step) && !step.List? && i in s.regs && sub in s.regs[i] && !Concerns(step, s.regs[i][sub])
    ensures var t := Apply(s, step); i in t.regs && sub in t.regs[i] && t.regs[i][sub] == s.regs[i][sub]
  {
    hide FreshTunnel, SetStatus, Address.PublicUrl, SetRoute;
  }

  lemma HeldOfKept(s: State, step: Step, k: ConnId)
    requires Enabled(s, step) && !step.List? && k in Apply(s, step).conns && (k in s.conns ==> HeldOf(s, k))
    ensures HeldOf(Apply(s, step), k)
  {
    hide FreshTunnel, SetStatus, Address.PublicUrl, SetRoute;
    if !Concerns(step, k) {
      hide Apply, Enabled, Concerns;
      OthersLeaveAlone(s, step, k);
      if ListedPhase(s.conns[k].phase) { EntryStays(s, step, s.conns[k].inst, s.conns[k].sub); }
    }
  }

  lemma HeldBesideListed(s: State, x: ConnId, k: ConnId)
    requires RegistryOk(s) && Enabled(s, List(x)) && k in s.conns && HeldOf(s, k) && s.conns[x].sub != s.conns[k].sub
    ensures k in DoList(s, x).conns && HeldOf(DoList(s, x), k)
  {
    var prev := s.regs[s.conns[x].inst];
    assert s.conns[x].sub in prev ==> prev[s.conns[x].sub] != k;
    hide RegistryOk, FreshTunnel;
  }

  lemma HeldUnderListed(s: State, x: ConnId, k: ConnId)
    requires RegistryOk(s) && RowsOk(s) && Enabled(s, List(x)) && k in s.conns && HeldOf(s, k)
    requires s.conns[x].sub == s.conns[k].sub && ExclusiveAt(s, s.conns[k].sub, Claiming)
    ensures k in DoList(s, x).conns && HeldOf(DoList(s, x), k)
  {
    NeverReplaces(s, x);
    hide RegistryOk, RowsOk, FreshTunnel, ExclusiveAt;
  }

  lemma HeldOfListed(s: State, x: ConnId, k: ConnId)
    requires RegistryOk(s) && RowsOk(s) && Enabled(s, List(x)) && k in s.conns && HeldOf(s, k)
    requires s.conns[x].sub == s.conns[k].sub ==> ExclusiveAt(s, s.conns[k].sub, Claiming)
    ensures k in DoList(s, x).conns && HeldOf(DoList(s, x), k)
  {
    hide RegistryOk, RowsOk, HeldOf, DoList, ExclusiveAt;
    if s.conns[x].sub == s.conns[k].sub { HeldUnderListed(s, x, k); } else { HeldBesideListed(s, x, k); }
  }

  lemma HeldKept(s: State, step: Step, sub: Label)
    requires RegistryOk(s) && RowsOk(s) && ExclusiveAt(s, sub, Claiming) && HeldAt(s, sub) && Enabled(s, step)
    ensures HeldAt(Apply(s, step), sub)
  {
    var t := Apply(s, step);
    hide RegistryOk, RowsOk, ExclusiveAt, HeldOf, FreshTunnel, SetStatus;
    forall k | k in t.conns && t.conns[k].sub == sub
      ensures HeldOf(t, k)
    {
      if k in s.conns { ConnStable(s, step, k); }
      if step.List? {
        HeldOfListed(s, step.k, k);
      } else {
        hide Apply, Enabled;
        HeldOfKept(s, step, k);
      }
    }
  }

  // ---- Runs ------------------------------------------------------------------------------------

  /** No step of the run deletes the row of a connection of the label at this level. */
  ghost predicate SparesRun(s: State, steps: seq<Step>, sub: Label, level: Level)
    requires Legal(s, steps)
    decreases |steps|
  {
    steps == [] ||
    (SparesRun(s, steps[..|steps| - 1], sub, level)
     && Spares(Play(s, steps[..|steps| - 1]), steps[|steps| - 1], sub, level))
  }

  ghost predicate SoundAt(s: State, sub: Label, level: Level) {
    RegistryOk(s) && RowsOk(s) && ExclusiveAt(s, sub, level) && HeldAt(s, sub)
  }

  lemma Weaker(s: State, sub: Label, level: Level)
    requires ExclusiveAt(s, sub, level)
    ensures ExclusiveAt(s, sub, Claiming)
  {
    assert forall k | Binds(s, k, sub, Claiming) :: Binds(s, k, sub, level);
  }

  lemma {:induction false} SparesRunKeeps(s: State, steps: seq<Step>, sub: Label, level: Level)
    requires SoundAt(s, sub, level) && Legal(s, steps) && SparesRun(s, steps, sub, level)
    ensures SoundAt(Play(s, steps), sub, level)
    decreases |steps|
  {
    if steps != [] {
      hide RegistryOk, RowsOk, ExclusiveAt, HeldAt, Apply, Enabled, Spares;
      var init, step := steps[..|steps| - 1], steps[|steps| - 1];
      SparesRunKeeps(s, init, sub, level);
      var u := Play(s, init);
      Weaker(u, sub, level);
      RegistryKept(u, step);
      RowsKept(u, step);
      ExclusiveKept(u, step, sub, level);
      HeldKept(u, step, sub);
    }
  }

  lemma StartIsSound(base: string, sub: Label, level: Level)
    ensures SoundAt(Init(base), sub, level)
  {
  }

  /** In every run in which no row is deleted that belongs to a connection of the label at some level, at most one
    * connection of the label is at that level. */
  lemma ExclusiveOwnership(base: string, steps: seq<Step>, sub: Label, level: Level, k1: ConnId, k2: ConnId)
    requires Legal(Init(base), steps) && SparesRun(Init(base), steps, sub, level)
    requires var t := Play(Init(base), steps); Binds(t, k1, sub, level) && Binds(t, k2, sub, level)
    ensures k1 == k2
  {
    StartIsSound(base, sub, level);
    SparesRunKeeps(Init(base), steps, sub, level);
    SameLabelSameConn(Play(Init(base), steps), sub, level, k1, k2);
  }

  /** If only rows of connections that left the registries for good are deleted, the label is in at most one registry,
    * and in none when a connection is about to be listed under it: `add` never replaces. */
  lemma OneRegistry(base: string, steps: seq<Step>, sub: Label)
    requires Legal(Init(base), steps) && SparesRun(Init(base), steps, sub, Claiming)
    ensures var t := Play(Init(base), steps);
      && !TwoRegistries(t, sub)
      && (forall k, i | Enabled(t, List(k)) && t.conns[k].sub == sub && i in t.regs :: sub !in t.regs[i])
  {
    var t := Play(Init(base), steps);
    StartIsSound(base, sub, Claiming);
    SparesRunKeeps(Init(base), steps, sub, Claiming);
    NotTwice(t, sub);
    forall k | Enabled(t, List(k)) && t.conns[k].sub == sub
      ensures forall i | i in t.regs :: sub !in t.regs[i]
    {
      NeverReplaces(t, k);
    }
  }

  ghost predicate TwoRegistries(t: State, sub: Label) {
    exists i, j :: i != j && i in t.regs && j in t.regs && sub in t.regs[i] && sub in t.regs[j]
  }

  predicate IsListed(t: State, k: ConnId, sub: Label) {
    k in t.conns && t.conns[k].sub == sub && ListedPhase(t.conns[k].phase)
  }

  /** A connection is listed beside another one of the label at this level. */
  ghost predicate SecondListed(t: State, sub: Label, level: Level) {
    exists k1, k2 :: k1 != k2 && Binds(t, k1, sub, level) && IsListed(t, k2, sub)
  }

  lemma NotTwice(t: State, sub: Label)
    requires RegistryOk(t) && RowsOk(t) && ExclusiveAt(t, sub, Claiming)
    ensures !TwoRegistries(t, sub)
  {
    forall i, j | i in t.regs && j in t.regs && sub in t.regs[i] && sub in t.regs[j]
      ensures i == j
    {
      assert Binds(t, t.regs[i][sub], sub, Claiming) && Binds(t, t.regs[j][sub], sub, Claiming);
      SameLabelSameConn(t, sub, Claiming, t.regs[i][sub], t.regs[j][sub]);
    }
  }

  /** Exactly the connections whose read loop ended are closed; a row is disconnected only when its connection ran to
    * the end, and then is unless a status write failed. One whose registration could not be confirmed is never
    * closed. */
  lemma ClosedIffReadLoopEnded(base: string, steps: seq<Step>, k: ConnId, level: Level)
    requires Legal(Init(base), steps) && k in Play(Init(base), steps).conns
    requires SparesRun(Init(base), steps, Play(Init(base), steps).conns[k].sub, level)
    ensures var t := Play(Init(base), steps); var c := t.conns[k];
      && (c.closed <==> EndedPhase(c.phase))
      && (Bound(c.phase, level) ==> OwnsRow(t, k))
      && (forall url | url in t.rows && t.rows[url].tunnel == c.tunnel ::
        && (t.rows[url].status == Disconnected ==> c.phase == Gone)
        && (c.statusOk && c.phase == Gone ==> t.rows[url].status == Disconnected))
  {
    var t := Play(Init(base), steps);
    StartIsSound(base, t.conns[k].sub, level);
    SparesRunKeeps(Init(base), steps, t.conns[k].sub, level);
    assert HeldOf(t, k);
    assert Bound(t.conns[k].phase, level) ==> Binds(t, k, t.conns[k].sub, level);
  }

  // ---- All labels together -----------------------------------------------------------------------

  ghost predicate ExclusiveOk(s: State) {
    forall sub :: ExclusiveAt(s, sub, Claiming) && HeldAt(s, sub)
  }

  /** The step does not delete the row of a connection that is in a registry or still to be listed. */
  ghost predicate Careful(s: State, step: Step) {
    forall sub :: Spares(s, step, sub, Claiming)
  }

  lemma ExclusiveOkKept(s: State, step: Step)
    requires RegistryOk(s) && RowsOk(s) && ExclusiveOk(s) && Enabled(s, step) && Careful(s, step)
    ensures ExclusiveOk(Apply(s, step))
  {
    hide RegistryOk, RowsOk, ExclusiveAt, HeldAt, Spares, Apply, Enabled;
    forall sub
      ensures ExclusiveAt(Apply(s, step), sub, Claiming) && HeldAt(Apply(s, step), sub)
    {
      ExclusiveKept(s, step, sub, Claiming);
      HeldKept(s, step, sub);
    }
  }

  // ---- What deleting the row of a connection leads to --------------------------------------------

  /** Nothing is deleted, Redis takes and keeps what it is given, and no time passes. */
  predicate Smooth(step: Step) {
    match step
    case ApiDelete(_) => false
    case Announce(_, ok) => ok
    case Rewrite(_, _, ok) => ok
    case Tick(_) => false
    case Corrupt(_) => false
    case _ => true
  }

  ghost predicate AllSmooth(steps: seq<Step>) {
    forall st | st in steps :: Smooth(st)
  }

  ghost predicate Reaches(s: State, t: State) {
    exists more :: Legal(s, more) && Play(s, more) == t && AllSmooth(more)
  }

  lemma ReachesItself(s: State)
    ensures Reaches(s, s)
  {
    assert Legal(s, []) && Play(s, []) == s;
  }

  lemma ReachesNext(s: State, t: State, step: Step)
    requires Reaches(s, t) && Enabled(t, step) && Smooth(step)
    ensures Reaches(s, Apply(t, step))
  {
    var more :| Legal(s, more) && Play(s, more) == t && AllSmooth(more);
    hide Legal, Play, Enabled, Apply;
    Append(s, more, step);
    assert Play(s, more + [step]) == Apply(t, step);
  }

  lemma {:induction false} SmoothSpares(s: State, steps: seq<Step>, sub: Label, level: Level)
    requires Legal(s, steps) && AllSmooth(steps)
    ensures SparesRun(s, steps, sub, level)
    decreases |steps|
  {
    if steps != [] {
      hide Enabled, Apply, Binds;
      assert steps[|steps| - 1] in steps;
      SmoothSpares(s, steps[..|steps| - 1], sub, level);
    }
  }

  /** A connection with a claim to the label can be brought into its registry. */
  lemma GetsListed(s: State, k: ConnId, sub: Label) returns (t: State)
    requires RegistryOk(s) && Binds(s, k, sub, Claiming) && HeldOf(s, k) && Address.PublicUrl(sub, s.base) !in s.rows
    ensures Reaches(s, t) && t.base == s.base && t.refresh == s.refresh && t.regs.Keys == s.regs.Keys
    ensures s.conns[k].inst in t.regs && sub in t.regs[s.conns[k].inst] && Address.PublicUrl(sub, t.base) !in t.rows
  {
    assert s.conns[k].inst in s.regs;
    hide RegistryOk, Address.PublicUrl, Reaches, FreshTunnel;
    t := s;
    ReachesItself(s);
    if s.conns[k].phase.RowCreated? {
      ReachesNext(s, t, Activate(k, true));
      t := Apply(t, Activate(k, true));
    }
    if t.conns[k].phase.RowActive? {
      ReachesNext(s, t, List(k));
      t := Apply(t, List(k));
    }
  }

  lemma FreshTunnelId(s: State) returns (tunnel: Uuid)
    ensures FreshTunnel(s, tunnel)
  {
    var used := (set url | url in s.rows :: s.rows[url].tunnel) + (set k | k in s.conns :: s.conns[k].tunnel);
    tunnel := FreshUuid(used);
    assert forall url | url in s.rows :: s.rows[url].tunnel in used;
    assert forall k | k in s.conns :: s.conns[k].tunnel in used;
  }

  /** With no row in the way a new instance can register the label. */
  lemma AnotherRegisters(s: State, t: State, sub: Label) returns (u: State, j: InstanceId, x: ConnId)
    requires Reaches(s, t) && t.regs.Keys == t.refresh.Keys && Address.PublicUrl(sub, t.base) !in t.rows
    ensures Reaches(s, u) && j !in t.regs && x !in t.conns
    ensures u.regs == t.regs[j := map[]] && x in u.conns && u.conns == t.conns[x := u.conns[x]]
    ensures u.conns[x].inst == j && u.conns[x].sub == sub && u.conns[x].phase == RowCreated
    ensures forall i | i in t.refresh :: i in u.refresh && u.refresh[i] == t.refresh[i]
  {
    hide Address.PublicUrl, Reaches, FreshTunnel;
    j := FreshUuid(t.regs.Keys);
    x := FreshUuid(t.conns.Keys);
    ReachesNext(s, t, Boot(j));
    u := Apply(t, Boot(j));
    var tunnel := FreshTunnelId(u);
    ReachesNext(s, u, CreateRow(x, j, sub, tunnel));
    u := Apply(u, CreateRow(x, j, sub, tunnel));
  }

  lemma AnotherListed(s: State, t: State, sub: Label) returns (u: State, j: InstanceId, x: ConnId)
    requires Reaches(s, t) && t.regs.Keys == t.refresh.Keys && Address.PublicUrl(sub, t.base) !in t.rows
    ensures Reaches(s, u) && j !in t.regs && j in u.regs && sub in u.regs[j]
    ensures forall i | i in t.regs :: i in u.regs && u.regs[i] == t.regs[i]
    ensures forall i | i in t.refresh :: i in u.refresh && u.refresh[i] == t.refresh[i]
    ensures x !in t.conns && x in u.conns && u.conns == t.conns[x := u.conns[x]]
    ensures u.conns[x].inst == j && u.conns[x].sub == sub && u.conns[x].phase == Listed
  {
    u, j, x := AnotherRegisters(s, t, sub);
    hide Address.PublicUrl, Reaches;
    ReachesNext(s, u, Activate(x, true));
    u := Apply(u, Activate(x, true));
    ReachesNext(s, u, List(x));
    u := Apply(u, List(x));
  }

  lemma SoundWithoutClaims(s: State, sub: Label, level: Level, more: seq<Step>)
    requires SoundAt(s, sub, level) && Enabled(s, ApiDelete(Address.PublicUrl(sub, s.base)))
    requires forall k :: !Binds(s, k, sub, level)
    requires Legal(Apply(s, ApiDelete(Address.PublicUrl(sub, s.base))), more)
    requires SparesRun(Apply(s, ApiDelete(Address.PublicUrl(sub, s.base))), more, sub, level)
    ensures SoundAt(Play(Apply(s, ApiDelete(Address.PublicUrl(sub, s.base))), more), sub, level)
  {
    var step := ApiDelete(Address.PublicUrl(sub, s.base));
    hide Address.PublicUrl, RegistryOk, RowsOk, ExclusiveAt, HeldAt, Apply, Enabled;
    Weaker(s, sub, level);
    RegistryKept(s, step);
    RowsKept(s, step);
    ExclusiveKept(s, step, sub, level);
    HeldKept(s, step, sub);
    SparesRunKeeps(Apply(s, step), more, sub, level);
  }

  lemma ClaimsShareRegistry(s: State, sub: Label, k: ConnId)
    requires SoundAt(s, sub, Claiming) && Enabled(s, ApiDelete(Address.PublicUrl(sub, s.base)))
    requires Binds(s, k, sub, Claiming)
    ensures var t := Apply(s, ApiDelete(Address.PublicUrl(sub, s.base)));
      exists more :: Legal(t, more) && SparesRun(t, more, sub, Claiming) && TwoRegistries(Play(t, more), sub)
  {
    var step := ApiDelete(Address.PublicUrl(sub, s.base));
    var t := Apply(s, step);
    assert HeldOf(s, k);
    hide Address.PublicUrl, RowsOk, ExclusiveAt, HeldAt;
    RegistryKept(s, step);
    var u := GetsListed(t, k, sub);
    var v, j, x := AnotherListed(t, u, sub);
    assert TwoRegistries(v, sub);
    var more :| Legal(t, more) && Play(t, more) == v && AllSmooth(more);
    SmoothSpares(t, more, sub, Claiming);
  }

  /** The first deletion of a label's row that lets two registries share it: some continuation without further
    * deletions of this kind leads there if and only if the row deleted belongs to a connection that is in a registry
    * or still to be listed. */
  lemma DeletionSharesRegistry(base: string, steps: seq<Step>, sub: Label)
    requires Legal(Init(base), steps) && SparesRun(Init(base), steps, sub, Claiming)
    requires Enabled(Play(Init(base), steps), ApiDelete(Address.PublicUrl(sub, Play(Init(base), steps).base)))
    ensures var s := Play(Init(base), steps); var t := Apply(s, ApiDelete(Address.PublicUrl(sub, s.base)));
      (exists more :: Legal(t, more) && SparesRun(t, more, sub, Claiming) && TwoRegistries(Play(t, more), sub))
      <==> exists k :: Binds(s, k, sub, Claiming)
  {
    StartIsSound(base, sub, Claiming);
    SparesRunKeeps(Init(base), steps, sub, Claiming);
    var s := Play(Init(base), steps);
    var t := Apply(s, ApiDelete(Address.PublicUrl(sub, s.base)));
    hide Init, Apply, Enabled, Play, Legal, SparesRun, TwoRegistries, RegistryOk, RowsOk, ExclusiveAt, HeldAt;
    hide Address.PublicUrl;
    if k :| Binds(s, k, sub, Claiming) {
      ClaimsShareRegistry(s, sub, k);
    } else {
      forall more | Legal(t, more) && SparesRun(t, more, sub, Claiming)
        ensures !TwoRegistries(Play(t, more), sub)
      {
        SoundWithoutClaims(s, sub, Claiming, more);
        NotTwice(Play(t, more), sub);
      }
    }
  }

  lemma ClaimsShareLabel(s: State, sub: Label, level: Level, k: ConnId)
    requires RegistryOk(s) && Enabled(s, ApiDelete(Address.PublicUrl(sub, s.base))) && Binds(s, k, sub, level)
    ensures var t := Apply(s, ApiDelete(Address.PublicUrl(sub, s.base)));
      exists more :: Legal(t, more) && SparesRun(t, more, sub, level) && SecondListed(Play(t, more), sub, level)
  {
    var t := Apply(s, ApiDelete(Address.PublicUrl(sub, s.base)));
    hide Address.PublicUrl;
    ReachesItself(t);
    var u, j, x := AnotherListed(t, t, sub);
    assert Binds(u, k, sub, level) && IsListed(u, x, sub);
    var more :| Legal(t, more) && Play(t, more) == u && AllSmooth(more);
    SmoothSpares(t, more, sub, level);
  }

  lemma ListedBinds(s: State, k: ConnId, sub: Label, level: Level)
    requires IsListed(s, k, sub)
    ensures Binds(s, k, sub, level)
  {
  }

  /** The same at any level, for a connection that gets listed beside another one of the label. */
  lemma DeletionSharesLabel(base: string, steps: seq<Step>, sub: Label, level: Level)
    requires Legal(Init(base), steps) && SparesRun(Init(base), steps, sub, level)
    requires Enabled(Play(Init(base), steps), ApiDelete(Address.PublicUrl(sub, Play(Init(base), steps).base)))
    ensures var s := Play(Init(base), steps); var t := Apply(s, ApiDelete(Address.PublicUrl(sub, s.base)));
      (exists more :: Legal(t, more) && SparesRun(t, more, sub, level) && SecondListed(Play(t, more), sub, level))
      <==> exists k :: Binds(s, k, sub, level)
  {
    StartIsSound(base, sub, level);
    SparesRunKeeps(Init(base), steps, sub, level);
    var s := Play(Init(base), steps);
    var t := Apply(s, ApiDelete(Address.PublicUrl(sub, s.base)));
    hide Init, Apply, Enabled, Play, Legal, SparesRun, Binds, IsListed, RegistryOk, RowsOk, ExclusiveAt;
    hide HeldAt, Address.PublicUrl;
    if k :| Binds(s, k, sub, level) {
      ClaimsShareLabel(s, sub, level, k);
    } else {
      forall more | Legal(t, more) && SparesRun(t, more, sub, level)
        ensures !SecondListed(Play(t, more), sub, level)
      {
        SoundWithoutClaims(s, sub, level, more);
        var u := Play(t, more);
        forall k1, k2 | Binds(u, k1, sub, level) && IsListed(u, k2, sub)
          ensures k1 == k2
        {
          ListedBinds(u, k2, sub, level);
          SameLabelSameConn(u, sub, level, k1, k2);
        }
      }
    }
  }
}
