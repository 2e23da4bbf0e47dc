/** What the state of the control plane says about the run that led to it. Every table and every connection is told
  * here from the steps of the run alone: which goroutine got how far, which rows there are and in which status,
  * whom the registries and route keys name, and what a refresher has yet to write.
  */
module History {
  import opened TunnelProto
  import opened Ownership
  import Address
  import R = Registry

  // ---- Connections -----------------------------------------------------------------------------

  /** The steps of the goroutine of connection k, in order. */
  function Own(steps: seq<Step>, k: ConnId): seq<Step> {
    if steps == [] then []
    else
      var n := |steps| - 1;
      Own(steps[..n], k) + if Concerns(steps[n], k) then [steps[n]] else []
  }

  /** The n-th step of the goroutine: `register`, then the end of the read loop if the REGISTERED message was sent, or
    * else the removal by `register` itself. */
  predicate IsNth(step: Step, k: ConnId, n: nat, sent: bool) {
    match step
    case CreateRow(x, _, _, _) => x == k && n == 0
    case Activate(x, _) => x == k && n == 1
    case List(x) => x == k && n == 2
    case Announce(x, _) => x == k && n == 3
    case Confirm(x, ok) => x == k && n == 4 && ok == sent
    case EndRead(x) => x == k && n == 5 && sent
    case Unlist(x) => x == k && n == 6 && sent
    case Unroute(x, _) => x == k && n == 7 && sent
    case MarkDisconnected(x, _) => x == k && n == 8 && sent
    case UnlistRejected(x) => x == k && n == 5 && !sent
    case UnrouteRejected(x, _) => x == k && n == 6 && !sent
    case _ => false
  }

  const READS := [RowCreated, RowActive, Listed, Routed, Reading, Closed, Unlisted, Unrouted, Gone]

  const REJECTS := [RowCreated, RowActive, Listed, Routed, Rejected, RejectUnlisted, Abandoned]

  predicate Sent(own: seq<Step>, k: ConnId) {
    |own| <= 4 || own[4] == Confirm(k, true)
  }

  predicate StatusWritten(step: Step) {
    step.Activate? || step.MarkDisconnected? ==> step.ok
  }

  /** The connection is where its own steps have brought it. */
  ghost predicate Lives(s: State, k: ConnId, own: seq<Step>) {
    var phases := if Sent(own, k) then READS else REJECTS;
    && (k in s.conns <==> own != [])
    && |own| <= |phases|
    && (forall n | 0 <= n < |own| :: IsNth(own[n], k, n, Sent(own, k)))
    && (own != [] ==>
      && s.conns[k].inst == own[0].i && s.conns[k].sub == own[0].sub && s.conns[k].tunnel == own[0].tunnel
      && s.conns[k].phase == phases[|own| - 1]
      && (s.conns[k].statusOk <==> forall n | 0 <= n < |own| :: StatusWritten(own[n])))
  }

  /** The phase a step brings its own connection to. */
  function Target(step: Step): Phase {
    match step
    case CreateRow(_, _, _, _) => RowCreated
    case Activate(_, _) => RowActive
    case List(_) => Listed
    case Announce(_, _) => Routed
    case Confirm(_, ok) => if ok then Reading else Rejected
    case EndRead(_) => Closed
    case Unlist(_) => Unlisted
    case Unroute(_, _) => Unrouted
    case UnlistRejected(_) => RejectUnlisted
    case UnrouteRejected(_, _) => Abandoned
    case _ => Gone
  }

  lemma OwnStepMoves(s: State, step: Step, k: ConnId)
    requires Enabled(s, step) && Concerns(step, k)
    ensures k in s.conns <==> !step.CreateRow?
    ensures var t := Apply(s, step);
      && k in t.conns && t.conns[k].phase == Target(step)
      && (k in s.conns ==>
        && t.conns[k].inst == s.conns[k].inst && t.conns[k].sub == s.conns[k].sub
        && t.conns[k].tunnel == s.conns[k].tunnel
        && t.conns[k].statusOk == (s.conns[k].statusOk && StatusWritten(step)))
      && (k !in s.conns ==>
        && t.conns[k].inst == step.i && t.conns[k].sub == step.sub && t.conns[k].tunnel == step.tunnel
        && t.conns[k].statusOk)
  {
    hide FreshTunnel, SetStatus, Address.PublicUrl, R.Added, R.Removed, R.SetRoute;
  }

  /** Where the connection is says which of its steps this one is. */
  lemma OwnStepIsNext(s: State, step: Step, k: ConnId, own: seq<Step>)
    requires Lives(s, k, own) && Enabled(s, step) && Concerns(step, k)
    ensures var now := own + [step]; var sent := Sent(now, k);
      && IsNth(step, k, |own|, sent) && (|own| > 4 ==> sent == Sent(own, k))
      && |own| < |if sent then READS else REJECTS| && (if sent then READS else REJECTS)[|own|] == Target(step)
  {
    assert own != [] ==> s.conns[k].phase == (if Sent(own, k) then READS else REJECTS)[|own| - 1];
    assert own == [] <==> step.CreateRow?;
    hide Lives, FreshTunnel, Address.PublicUrl;
  }

  lemma OwnStepLives(s: State, step: Step, k: ConnId, own: seq<Step>)
    requires Lives(s, k, own) && Enabled(s, step) && Concerns(step, k)
    ensures Lives(Apply(s, step), k, own + [step])
  {
    OwnStepMoves(s, step, k);
    OwnStepIsNext(s, step, k, own);
    hide Apply, Enabled, Concerns, StatusWritten, Target;
    var now := own + [step];
    forall n | 0 <= n < |own|
      ensures IsNth(now[n], k, n, Sent(now, k))
    {
      assert now[n] == own[n] && IsNth(own[n], k, n, Sent(own, k));
    }
    assert now[|own|] == step;
    AllWritten(own, step);
  }

  lemma AllWritten(own: seq<Step>, step: Step)
    ensures (forall n | 0 <= n < |own + [step]| :: StatusWritten((own + [step])[n]))
       <==> StatusWritten(step) && forall n | 0 <= n < |own| :: StatusWritten(own[n])
  {
    hide StatusWritten;
    var now := own + [step];
    assert now[|own|] == step && forall n | 0 <= n < |own| :: now[n] == own[n];
  }

  /** Other goroutines may close a connection, and change nothing else of it. */
  lemma OthersOnlyClose(s: State, step: Step, k: ConnId)
    requires Enabled(s, step) && !Concerns(step, k)
    ensures var t := Apply(s, step);
      && (k in t.conns <==> k in s.conns)
      && (k in s.conns ==> t.conns[k] == s.conns[k].(closed := t.conns[k].closed))
  {
    hide FreshTunnel, SetStatus, Address.PublicUrl, R.Added, R.Removed, R.SetRoute;
    if !step.List? {
      hide Apply, Enabled, Concerns;
      OthersLeaveAlone(s, step, k);
    }
  }

  lemma OtherStepLives(s: State, step: Step, k: ConnId, own: seq<Step>)
    requires Lives(s, k, own) && Enabled(s, step) && !Concerns(step, k)
    ensures Lives(Apply(s, step), k, own)
  {
    hide Apply, Enabled, Concerns, IsNth, StatusWritten;
    OthersOnlyClose(s, step, k);
  }

  /** In every run each connection has gone through the steps of `register` and `readLoop` in their order, is in the
    * phase after the last of them, and knows whether all its status writes succeeded. */
  lemma {:induction false} LifeOfConnection(base: string, steps: seq<Step>, k: ConnId)
    requires Legal(Init(base), steps)
    ensures Lives(Play(Init(base), steps), k, Own(steps, k))
    decreases |steps|
  {
    if steps != [] {
      var n := |steps| - 1;
      hide Apply, Enabled, Lives, Concerns;
      LifeOfConnection(base, steps[..n], k);
      if Concerns(steps[n], k) {
        OwnStepLives(Play(Init(base), steps[..n]), steps[n], k, Own(steps[..n], k));
      } else {
        OtherStepLives(Play(Init(base), steps[..n]), steps[n], k, Own(steps[..n], k));
        assert Own(steps, k) == Own(steps[..n], k);
      }
    }
  }

  lemma {:induction false} OwnIsFilter(steps: seq<Step>, k: ConnId, step: Step)
    requires Concerns(step, k)
    ensures step in Own(steps, k) <==> step in steps
  {
    if steps != [] {
      var n := |steps| - 1;
      hide Concerns;
      OwnIsFilter(steps[..n], k, step);
      assert steps == steps[..n] + [steps[n]];
    }
  }

  predicate Served(p: Phase) {
    p == Reading || EndedPhase(p)
  }

  predicate TurnedAway(p: Phase) {
    p == Rejected || p == RejectUnlisted || p == Abandoned
  }

  lemma FifthStep(s: State, k: ConnId, own: seq<Step>, ok: bool)
    requires Lives(s, k, own)
    ensures Confirm(k, ok) in own <==> |own| > 4 && Sent(own, k) == ok
  {
    if |own| > 4 {
      assert IsNth(own[4], k, 4, Sent(own, k));
      assert own[4] in own;
    }
    if Confirm(k, ok) in own {
      var n :| 0 <= n < |own| && own[n] == Confirm(k, ok);
      assert IsNth(own[n], k, n, Sent(own, k));
    }
  }

  /** A connection has come into its read loop exactly when its REGISTERED message was sent, and was turned away exactly
    * when it could not be. */
  lemma ReadsIffConfirmed(base: string, steps: seq<Step>, k: ConnId)
    requires Legal(Init(base), steps)
    ensures var t := Play(Init(base), steps);
      && (k in t.conns && Served(t.conns[k].phase) <==> Confirm(k, true) in steps)
      && (k in t.conns && TurnedAway(t.conns[k].phase) <==> Confirm(k, false) in steps)
  {
    var t, own := Play(Init(base), steps), Own(steps, k);
    hide Lives, Own, Legal, Play, Served, TurnedAway, Sent;
    LifeOfConnection(base, steps, k);
    OwnIsFilter(steps, k, Confirm(k, true));
    OwnIsFilter(steps, k, Confirm(k, false));
    FifthStep(t, k, own, true);
    FifthStep(t, k, own, false);
    PhaseTells(t, k, own);
  }

  lemma PhaseTells(s: State, k: ConnId, own: seq<Step>)
    requires Lives(s, k, own)
    ensures k in s.conns && Served(s.conns[k].phase) <==> |own| > 4 && Sent(own, k)
    ensures k in s.conns && TurnedAway(s.conns[k].phase) <==> |own| > 4 && !Sent(own, k)
  {
    hide IsNth, StatusWritten;
  }

  // ---- Rows ------------------------------------------------------------------------------------

  predicate Inserts(step: Step, base: string, url: string) {
    (step.CreateRow? && Address.PublicUrl(step.sub, base) == url) || (step.ApiCreate? && step.url == url)
  }

  /** Step j inserted the row of the URL, and no step deleted it since. */
  ghost predicate InsertedAt(base: string, steps: seq<Step>, j: int, url: string) {
    && 0 <= j < |steps| && Inserts(steps[j], base, url)
    && forall m | j < m < |steps| :: steps[m] != ApiDelete(url)
  }

  lemma InsertedSnoc(base: string, steps: seq<Step>, j: int, url: string)
    requires steps != []
    ensures var n := |steps| - 1;
      InsertedAt(base, steps, j, url)
      <==> ((j == n && Inserts(steps[n], base, url))
            || (InsertedAt(base, steps[..n], j, url) && steps[n] != ApiDelete(url)))
  {
    hide Inserts;
    var n := |steps| - 1;
    assert forall m | 0 <= m < n :: steps[..n][m] == steps[m];
    assert j < n && InsertedAt(base, steps, j, url) ==> steps[n] != ApiDelete(url);
  }

  lemma RowStep(s: State, step: Step, url: string)
    requires Enabled(s, step)
    ensures Apply(s, step).base == s.base
    ensures var t := Apply(s, step);
      && (url in t.rows <==> Inserts(step, s.base, url) || (url in s.rows && step != ApiDelete(url)))
      && (Inserts(step, s.base, url) ==> url !in s.rows && t.rows[url] == Row(step.tunnel, Created))
      && (url in s.rows && url in t.rows ==> t.rows[url].tunnel == s.rows[url].tunnel)
  {
    hide FreshTunnel, Address.PublicUrl, R.Added, R.Removed, R.SetRoute;
  }

  lemma {:induction false} BaseIsFixed(base: string, steps: seq<Step>)
    requires Legal(Init(base), steps)
    ensures Play(Init(base), steps).base == base
    decreases |steps|
  {
    if steps != [] {
      hide Apply, Enabled;
      BaseIsFixed(base, steps[..|steps| - 1]);
      RowStep(Play(Init(base), steps[..|steps| - 1]), steps[|steps| - 1], "");
    }
  }

  /** In every run a URL has a row exactly when one was inserted for it and not deleted since, and it is that row. */
  lemma {:induction false} RowMeaning(base: string, steps: seq<Step>, url: string)
    requires Legal(Init(base), steps)
    ensures var t := Play(Init(base), steps);
      && (url in t.rows <==> exists j :: InsertedAt(base, steps, j, url))
      && (forall j | InsertedAt(base, steps, j, url) :: t.rows[url].tunnel == steps[j].tunnel)
    decreases |steps|
  {
    if steps != [] {
      var n := |steps| - 1;
      hide Apply, Enabled, Inserts, InsertedAt;
      RowMeaning(base, steps[..n], url);
      BaseIsFixed(base, steps[..n]);
      RowStep(Play(Init(base), steps[..n]), steps[n], url);
      forall j
        ensures InsertedAt(base, steps, j, url)
          <==> ((j == n && Inserts(steps[n], base, url))
                || (InsertedAt(base, steps[..n], j, url) && steps[n] != ApiDelete(url)))
        ensures InsertedAt(base, steps[..n], j, url) ==> 0 <= j < n && steps[..n][j] == steps[j]
      {
        InsertedSnoc(base, steps, j, url);
        InsertedInside(base, steps[..n], j, url);
      }
      assert InsertedAt(base, steps, n, url) <==> Inserts(steps[n], base, url) by {
        InsertedInside(base, steps[..n], n, url);
      }
    } else {
      forall j ensures !InsertedAt(base, steps, j, url) { InsertedInside(base, steps, j, url); }
    }
  }

  lemma InsertedInside(base: string, steps: seq<Step>, j: int, url: string)
    ensures InsertedAt(base, steps, j, url) ==> 0 <= j < |steps|
  {
  }

  /** The step by which a connection writes this status. */
  function StatusStep(k: ConnId, status: Status): Step {
    if status == Active then Activate(k, true) else MarkDisconnected(k, true)
  }

  /** The connection with this tunnel id has written the status. */
  ghost predicate Wrote(s: State, steps: seq<Step>, tunnel: Uuid, status: Status) {
    exists k :: k in s.conns && s.conns[k].tunnel == tunnel && StatusStep(k, status) in steps
  }

  ghost function StatusFrom(s: State, steps: seq<Step>, tunnel: Uuid): Status {
    if Wrote(s, steps, tunnel, Disconnected) then Disconnected
    else if Wrote(s, steps, tunnel, Active) then Active
    else Created
  }

  /** Step k's own status writes, told from its phase. */
  lemma StatusStepsDone(s: State, steps: seq<Step>, k: ConnId)
    requires Lives(s, k, Own(steps, k))
    ensures k !in s.conns ==> StatusStep(k, Active) !in steps && StatusStep(k, Disconnected) !in steps
    ensures k in s.conns && s.conns[k].phase == RowCreated ==> StatusStep(k, Disconnected) !in steps
  {
    var own := Own(steps, k);
    OwnIsFilter(steps, k, StatusStep(k, Active));
    OwnIsFilter(steps, k, StatusStep(k, Disconnected));
    if StatusStep(k, Disconnected) in own {
      var n :| 0 <= n < |own| && own[n] == StatusStep(k, Disconnected);
      assert IsNth(own[n], k, n, Sent(own, k));
    }
  }

  /** The step is a status write that takes effect on rows with this tunnel id. */
  ghost predicate Sets(s: State, step: Step, tunnel: Uuid, status: Status) {
    exists k :: k in s.conns && s.conns[k].tunnel == tunnel && step == StatusStep(k, status)
  }

  lemma SameTunnels(s: State, step: Step)
    requires Enabled(s, step)
    ensures forall k | k in s.conns :: k in Apply(s, step).conns && Apply(s, step).conns[k].tunnel == s.conns[k].tunnel
    ensures forall k | k in Apply(s, step).conns && k !in s.conns :: step.CreateRow? && step.k == k
  {
    hide Apply, Enabled;
    forall k | k in s.conns
      ensures k in Apply(s, step).conns && Apply(s, step).conns[k].tunnel == s.conns[k].tunnel
    {
      ConnStable(s, step, k);
    }
    forall k | k in Apply(s, step).conns && k !in s.conns
      ensures step.CreateRow? && step.k == k
    {
      NewConn(s, step, k);
    }
  }

  lemma NewConn(s: State, step: Step, k: ConnId)
    requires Enabled(s, step) && k in Apply(s, step).conns && k !in s.conns
    ensures step.CreateRow? && step.k == k
  {
    hide FreshTunnel, SetStatus, Address.PublicUrl, R.Added, R.Removed, R.SetRoute;
  }

  lemma WroteStep(s: State, steps: seq<Step>, step: Step, tunnel: Uuid, status: Status)
    requires Enabled(s, step) && status != Created && (step.CreateRow? ==> Lives(s, step.k, Own(steps, step.k)))
    ensures Wrote(Apply(s, step), steps + [step], tunnel, status)
       <==> (Wrote(s, steps, tunnel, status) || Sets(s, step, tunnel, status))
  {
    hide Apply, Enabled, Lives;
    var t, all := Apply(s, step), steps + [step];
    SameTunnels(s, step);
    if step.CreateRow? { StatusStepsDone(s, steps, step.k); }
    WroteAfter(s, t, steps, step, tunnel, status);
  }

  lemma NotAStatusStep(k: ConnId, status: Status, step: Step)
    requires step.CreateRow?
    ensures step != StatusStep(k, status)
  {
  }

  lemma WroteAfter(s: State, t: State, steps: seq<Step>, step: Step, tunnel: Uuid, status: Status)
    requires forall k | k in s.conns :: k in t.conns && t.conns[k].tunnel == s.conns[k].tunnel
    requires forall k | k in t.conns && k !in s.conns :: step.CreateRow? && StatusStep(k, status) !in steps
    ensures Wrote(t, steps + [step], tunnel, status)
       <==> (Wrote(s, steps, tunnel, status) || Sets(s, step, tunnel, status))
  {
    var all := steps + [step];
    hide StatusStep;
    assert forall x :: x in all <==> x in steps || x == step;
    if Wrote(t, all, tunnel, status) {
      var k :| k in t.conns && t.conns[k].tunnel == tunnel && StatusStep(k, status) in all;
      assert StatusStep(k, status) in steps || step == StatusStep(k, status);
      if step.CreateRow? { NotAStatusStep(k, status, step); }
    }
    if Wrote(s, steps, tunnel, status) {
      var k :| k in s.conns && s.conns[k].tunnel == tunnel && StatusStep(k, status) in steps;
      assert k in t.conns && StatusStep(k, status) in all;
    }
    if Sets(s, step, tunnel, status) {
      var k :| k in s.conns && s.conns[k].tunnel == tunnel && step == StatusStep(k, status);
      assert k in t.conns && StatusStep(k, status) in all;
    }
  }

  lemma StatusSet(s: State, step: Step, url: string)
    requires Enabled(s, step) && url in s.rows && url in Apply(s, step).rows
    ensures var tunnel := s.rows[url].tunnel;
      Apply(s, step).rows[url].status
        == if Sets(s, step, tunnel, Active) then Active
           else if Sets(s, step, tunnel, Disconnected) then Disconnected else s.rows[url].status
  {
    hide FreshTunnel, Address.PublicUrl, R.Added, R.Removed, R.SetRoute;
  }

  /** In every run the status of a row is the last that a connection with its tunnel id has written to it: a status
    * write that fails, or one for another tunnel, leaves it alone. */
  lemma {:induction false} StatusMeaning(base: string, steps: seq<Step>, url: string)
    requires Legal(Init(base), steps) && url in Play(Init(base), steps).rows
    ensures var t := Play(Init(base), steps); t.rows[url].status == StatusFrom(t, steps, t.rows[url].tunnel)
    decreases |steps|
  {
    var n := |steps| - 1;
    var s, step := Play(Init(base), steps[..n]), steps[n];
    hide Apply, Enabled, Lives, RegistryOk, RowsOk, Inserts, StatusStep, Wrote, Sets;
    RunKeeps(Init(base), steps[..n]);
    RowStep(s, step, url);
    if url in s.rows { StatusMeaning(base, steps[..n], url); }
    assert steps == steps[..n] + [step];
    StatusMeaningStep(base, s, steps[..n], step, url);
  }

  lemma StatusMeaningStep(base: string, s: State, steps: seq<Step>, step: Step, url: string)
    requires Legal(Init(base), steps) && s == Play(Init(base), steps) && RowsOk(s) && Enabled(s, step)
    requires url in Apply(s, step).rows
    requires url in s.rows ==> s.rows[url].status == StatusFrom(s, steps, s.rows[url].tunnel)
    ensures var t := Apply(s, step); t.rows[url].status == StatusFrom(t, steps + [step], t.rows[url].tunnel)
  {
    var t := Apply(s, step);
    var tunnel := t.rows[url].tunnel;
    if step.CreateRow? || step.Activate? { LifeOfConnection(base, steps, step.k); }
    WroteStep(s, steps, step, tunnel, Active);
    WroteStep(s, steps, step, tunnel, Disconnected);
    RowStep(s, step, url);
    if url in s.rows {
      StatusSet(s, step, url);
      if Sets(s, step, tunnel, Active) {
        StatusStepsDone(s, steps, step.k);
        OnlyWriter(s, steps, step.k, tunnel);
      }
    } else {
      assert FreshTunnel(s, tunnel);
    }
  }

  lemma OnlyWriter(s: State, steps: seq<Step>, k: ConnId, tunnel: Uuid)
    requires RowsOk(s) && k in s.conns && s.conns[k].tunnel == tunnel && StatusStep(k, Disconnected) !in steps
    ensures !Wrote(s, steps, tunnel, Disconnected)
  {
  }

  // ---- Registries ------------------------------------------------------------------------------

  /** What `add` and `remove` did to the map of instance i, in order. */
  ghost function Ops(base: string, steps: seq<Step>, i: R.InstanceId): seq<R.Op<ConnId>>
    requires Legal(Init(base), steps)
    decreases |steps|
  {
    if steps == [] then []
    else
      var n := |steps| - 1;
      Ops(base, steps[..n], i) + OpOf(Play(Init(base), steps[..n]), steps[n], i)
  }

  function OpOf(s: State, step: Step, i: R.InstanceId): (ops: seq<R.Op<ConnId>>)
    ensures |ops| <= 1
  {
    match step
    case List(k) => if k in s.conns && s.conns[k].inst == i then [R.Add(s.conns[k].sub, k)] else []
    case Unlist(k) => if k in s.conns && s.conns[k].inst == i then [R.Remove(s.conns[k].sub, k)] else []
    case UnlistRejected(k) => if k in s.conns && s.conns[k].inst == i then [R.Remove(s.conns[k].sub, k)] else []
    case _ => []
  }

  /** The map of instance i is what these operations make of an empty one. */
  ghost predicate Keeps(s: State, i: R.InstanceId, l: R.Local<ConnId>) {
    if i in s.regs then s.regs[i] == l.bySub else l == R.Local(map[], [])
  }

  function StepAll(l: R.Local<ConnId>, ops: seq<R.Op<ConnId>>): R.Local<ConnId>
    requires |ops| <= 1
  {
    if ops == [] then l else R.Step(l, ops[0])
  }

  predicate OnMap(step: Step) {
    step.List? || step.Unlist? || step.UnlistRejected?
  }

  lemma KeepsList(s: State, k: ConnId, i: R.InstanceId, l: R.Local<ConnId>)
    requires RegistryOk(s) && InPhase(s, k, RowActive) && Keeps(s, i, l)
    ensures Keeps(DoList(s, k), i, StepAll(l, OpOf(s, List(k), i))) && DoList(s, k).regs.Keys == s.regs.Keys
    ensures forall x | x in StepAll(l, OpOf(s, List(k), i)).closed :: x in l.closed || x in s.conns
  {
    if i in s.regs && s.conns[k].inst == i && s.conns[k].sub in s.regs[i] {
      assert s.regs[i][s.conns[k].sub] in s.conns;
    }
    hide RegistryOk;
  }

  lemma KeepsUnlist(s: State, k: ConnId, next: Phase, i: R.InstanceId, l: R.Local<ConnId>)
    requires k in s.conns && s.conns[k].inst in s.regs && Keeps(s, i, l)
    ensures Keeps(DoUnlist(s, k, next), i, if s.conns[k].inst == i then R.Step(l, R.Remove(s.conns[k].sub, k)) else l)
    ensures DoUnlist(s, k, next).regs.Keys == s.regs.Keys
  {
  }

  lemma OtherMaps(s: State, step: Step)
    requires Enabled(s, step) && !OnMap(step)
    ensures Apply(s, step).regs == if step.Boot? then s.regs[step.i := map[]] else s.regs
    ensures step.Boot? ==> step.i !in s.regs
  {
    hide FreshTunnel, SetStatus, Address.PublicUrl, R.SetRoute;
  }

  lemma KeepsOther(s: State, step: Step, i: R.InstanceId, l: R.Local<ConnId>)
    requires Enabled(s, step) && !OnMap(step) && Keeps(s, i, l)
    ensures Keeps(Apply(s, step), i, l) && (i in Apply(s, step).regs <==> i in s.regs || step == Boot(i))
    ensures OpOf(s, step, i) == []
  {
    hide Apply, Enabled;
    OtherMaps(s, step);
  }

  lemma KeepsStep(s: State, step: Step, i: R.InstanceId, l: R.Local<ConnId>)
    requires RegistryOk(s) && Enabled(s, step) && Keeps(s, i, l)
    ensures Keeps(Apply(s, step), i, StepAll(l, OpOf(s, step, i)))
    ensures i in Apply(s, step).regs <==> i in s.regs || step == Boot(i)
    ensures forall x | x in StepAll(l, OpOf(s, step, i)).closed :: x in l.closed || x in s.conns
  {
    hide RegistryOk, Keeps, DoList, DoUnlist, FreshTunnel, SetStatus, Address.PublicUrl, R.SetRoute;
    match step
    case List(k) => KeepsList(s, k, i, l);
    case Unlist(k) => KeepsUnlist(s, k, Unlisted, i, l);
    case UnlistRejected(k) => KeepsUnlist(s, k, RejectUnlisted, i, l);
    case _ =>
      hide Apply, Enabled, OpOf;
      KeepsOther(s, step, i, l);
  }

  lemma RunSnoc(ops: seq<R.Op<ConnId>>, more: seq<R.Op<ConnId>>)
    requires |more| <= 1
    ensures R.Run(ops + more) == StepAll(R.Run(ops), more)
  {
    if more == [] { assert ops + more == ops; } else { assert (ops + more)[..|ops|] == ops; }
  }

  lemma ClosedList(s: State, x: ConnId, k: ConnId, l: R.Local<ConnId>)
    requires RegistryOk(s) && InPhase(s, x, RowActive) && k in s.conns && Keeps(s, s.conns[k].inst, l)
    requires k in l.closed ==> s.conns[k].closed
    ensures k in DoList(s, x).conns
    ensures DoList(s, x).conns[k].closed
       <==> (s.conns[k].closed || k in StepAll(l, OpOf(s, List(x), s.conns[k].inst)).closed)
  {
    var i, sub := s.conns[x].inst, s.conns[x].sub;
    if sub in s.regs[i] { assert s.regs[i][sub] in s.conns && s.conns[s.regs[i][sub]].inst == i; }
    hide RegistryOk;
  }

  lemma ClosedOther(s: State, step: Step, k: ConnId)
    requires Enabled(s, step) && !step.List? && k in s.conns
    ensures k in Apply(s, step).conns
    ensures Apply(s, step).conns[k].closed <==> s.conns[k].closed || step == EndRead(k)
  {
    hide FreshTunnel, SetStatus, Address.PublicUrl, R.Removed, R.SetRoute;
    if !Concerns(step, k) {
      OthersLeaveAlone(s, step, k);
      hide Apply, Enabled;
    }
  }

  lemma ClosedStep(s: State, step: Step, k: ConnId, l: R.Local<ConnId>)
    requires RegistryOk(s) && Enabled(s, step) && k in s.conns && Keeps(s, s.conns[k].inst, l)
    requires k in l.closed ==> s.conns[k].closed
    ensures k in Apply(s, step).conns
    ensures Apply(s, step).conns[k].closed
       <==> (s.conns[k].closed || step == EndRead(k) || k in StepAll(l, OpOf(s, step, s.conns[k].inst)).closed)
  {
    hide RegistryOk, Keeps, DoList;
    if step.List? {
      ClosedList(s, step.k, k, l);
    } else {
      hide Apply, Enabled;
      ClosedOther(s, step, k);
    }
  }

  lemma NotEnded(s: State, steps: seq<Step>, k: ConnId)
    requires Lives(s, k, Own(steps, k)) && k !in s.conns
    ensures EndRead(k) !in steps
  {
    OwnIsFilter(steps, k, EndRead(k));
  }

  lemma StartsOpen(s: State, step: Step, k: ConnId)
    requires Enabled(s, step) && k !in s.conns && k in Apply(s, step).conns
    ensures !Apply(s, step).conns[k].closed && step.CreateRow?
  {
    NewConn(s, step, k);
    hide FreshTunnel, Address.PublicUrl;
  }

  /** The map of instance i is the one of `Registry` after the operations l comes from; and connection k of that
    * instance is closed exactly when its read loop has ended or an addition took its place. */
  ghost predicate RegistryTold(s: State, steps: seq<Step>, i: R.InstanceId, k: ConnId, l: R.Local<ConnId>) {
    && (i in s.regs <==> Boot(i) in steps)
    && Keeps(s, i, l)
    && (k in s.conns && s.conns[k].inst == i ==> (s.conns[k].closed <==> EndRead(k) in steps || k in l.closed))
    && (forall x | x in l.closed :: x in s.conns)
  }

  lemma TellsOn(s: State, steps: seq<Step>, step: Step, i: R.InstanceId, k: ConnId, l: R.Local<ConnId>)
    requires RegistryOk(s) && Enabled(s, step) && RegistryTold(s, steps, i, k, l) && Lives(s, k, Own(steps, k))
    ensures RegistryTold(Apply(s, step), steps + [step], i, k, StepAll(l, OpOf(s, step, i)))
  {
    hide RegistryOk, Keeps, OpOf, Lives, Own;
    var now := StepAll(l, OpOf(s, step, i));
    assert forall x :: x in l.closed ==> x in now.closed;
    SameTunnels(s, step);
    KeepsStep(s, step, i, l);
    if k in s.conns {
      hide Apply, Enabled, StepAll;
      ConnStable(s, step, k);
      if s.conns[k].inst == i { ClosedStep(s, step, k, l); }
    } else {
      NotEnded(s, steps, k);
      if k in Apply(s, step).conns { StartsOpen(s, step, k); }
      hide Apply, Enabled, StepAll;
    }
  }

  /** In every run the map of an instance is the one of `Registry` after its own additions and removals, so
    * `LookupMeaning` tells whom each label leads to; and a connection is closed exactly when its read loop ended or an
    * addition took its place. */
  lemma {:induction false} RegistryMeaning(base: string, steps: seq<Step>, i: R.InstanceId, k: ConnId)
    requires Legal(Init(base), steps)
    ensures RegistryTold(Play(Init(base), steps), steps, i, k, R.Run(Ops(base, steps, i)))
    decreases |steps|
  {
    if steps != [] {
      var n := |steps| - 1;
      var s, step := Play(Init(base), steps[..n]), steps[n];
      hide Apply, Enabled, RegistryOk, RowsOk, RegistryTold, OpOf, StepAll, R.Run, Lives;
      RegistryMeaning(base, steps[..n], i, k);
      RunKeeps(Init(base), steps[..n]);
      LifeOfConnection(base, steps[..n], k);
      TellsOn(s, steps[..n], step, i, k, R.Run(Ops(base, steps[..n], i)));
      RunSnoc(Ops(base, steps[..n], i), OpOf(s, step, i));
      assert steps == steps[..n] + [step];
    }
  }
}
