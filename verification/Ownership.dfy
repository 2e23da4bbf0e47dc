/** Who may serve a subdomain: agents registering and leaving, the tunnel rows in the
  * shared database, the per-instance registries, and the route keys that instances keep
  * in Redis. Each step is one atomic action of one party; a run is any sequence of them.
  */
module Ownership {
  import opened TunnelProto
  import opened Registry
  import Address

  type ConnId = nat

  datatype Status = Created | Active | Disconnected

  /** A row of the tunnels table; the table is keyed by its unique public_url. */
  datatype Row = Row(tunnel: Uuid, status: Status)

  /** How far the goroutine of an agent connection has come. */
  datatype Phase =
    | RowCreated   // tunnel row inserted
    | RowActive    // its status write done
    | Listed       // in bySub of its instance
    | Routed       // route key written
    | Reading      // REGISTERED sent, in the read loop
    | Rejected     // REGISTERED could not be sent
    | RejectUnlisted
    | Abandoned    // register returned an error
    | Closed       // the read loop ended: `closed` is closed
    | Unlisted
    | Unrouted
    | Gone         // final status write done

  /** statusOk records whether all status writes of this connection have succeeded so far. */
  datatype Conn = Conn(inst: InstanceId, sub: Label, tunnel: Uuid, phase: Phase, closed: bool, statusOk: bool)

  /** refreshLoop: the names still to write in this pass, when it took its snapshot, and when the last finished pass
    * took its own. */
  datatype Refresher = Refresher(todo: set<Label>, started: nat, done: nat)

  datatype State = State(
    now: nat,
    base: string,
    rows: map<string, Row>,
    conns: map<ConnId, Conn>,
    regs: map<InstanceId, map<Label, ConnId>>,
    routes: Routes,
    refresh: map<InstanceId, Refresher>)

  function Init(base: string): State {
    State(0, base, map[], map[], map[], map[], map[])
  }

  /** `ok` says whether the database or Redis write of the step succeeds. */
  datatype Step =
    | Boot(i: InstanceId)
    | CreateRow(k: ConnId, i: InstanceId, sub: Label, tunnel: Uuid)
    | Activate(k: ConnId, ok: bool)
    | List(k: ConnId)
    | Announce(k: ConnId, ok: bool)
    | Confirm(k: ConnId, ok: bool)
    | UnlistRejected(k: ConnId)
    | UnrouteRejected(k: ConnId, ok: bool)
    | EndRead(k: ConnId)
    | Unlist(k: ConnId)
    | Unroute(k: ConnId, ok: bool)
    | MarkDisconnected(k: ConnId, ok: bool)
    | ApiCreate(url: string, tunnel: Uuid)
    | ApiDelete(url: string)
    | Snapshot(i: InstanceId)
    | Rewrite(i: InstanceId, sub: Label, ok: bool)
    | Tick(d: nat)
    | Corrupt(routes: Routes)   // Redis may lose or hold anything

  // ---- The shared tables --------------------------------------------------------------

  /** UPDATE tunnels SET status WHERE id: no row, no effect. */
  function SetStatus(rows: map<string, Row>, tunnel: Uuid, status: Status): map<string, Row> {
    map url | url in rows :: if rows[url].tunnel == tunnel then rows[url].(status := status) else rows[url]
  }

  predicate FreshTunnel(s: State, tunnel: Uuid) {
    && (forall url | url in s.rows :: s.rows[url].tunnel != tunnel)
    && (forall k | k in s.conns :: s.conns[k].tunnel != tunnel)
  }

  function At(s: State, k: ConnId, phase: Phase): State
    requires k in s.conns
  {
    s.(conns := s.conns[k := s.conns[k].(phase := phase)])
  }

  function WithStatus(s: State, k: ConnId, status: Status, ok: bool, phase: Phase): State
    requires k in s.conns
  {
    var c := s.conns[k];
    s.(conns := s.conns[k := c.(phase := phase, statusOk := c.statusOk && ok)],
       rows := if ok then SetStatus(s.rows, c.tunnel, status) else s.rows)
  }

  // ---- Steps ----------------------------------------------------------------------------

  predicate InPhase(s: State, k: ConnId, phase: Phase) {
    k in s.conns && s.conns[k].phase == phase && s.conns[k].inst in s.regs
  }

  predicate Enabled(s: State, step: Step) {
    match step
    case Boot(i) => i !in s.regs && i !in s.refresh
    case CreateRow(k, i, sub, tunnel) =>
      k !in s.conns && i in s.regs && FreshTunnel(s, tunnel) && Address.PublicUrl(sub, s.base) !in s.rows
    case Activate(k, _) => InPhase(s, k, RowCreated)
    case List(k) => InPhase(s, k, RowActive)
    case Announce(k, _) => InPhase(s, k, Listed)
    case Confirm(k, _) => InPhase(s, k, Routed)
    case UnlistRejected(k) => InPhase(s, k, Rejected)
    case UnrouteRejected(k, _) => InPhase(s, k, RejectUnlisted)
    case EndRead(k) => InPhase(s, k, Reading)
    case Unlist(k) => InPhase(s, k, Closed)
    case Unroute(k, _) => InPhase(s, k, Unlisted)
    case MarkDisconnected(k, _) => InPhase(s, k, Unrouted)
    case ApiCreate(url, tunnel) => url !in s.rows && FreshTunnel(s, tunnel)
    case ApiDelete(url) => url in s.rows
    case Snapshot(i) => i in s.regs && i in s.refresh && s.refresh[i].todo == {}
    case Rewrite(i, sub, _) => i in s.refresh && sub in s.refresh[i].todo
    case Tick(_) => true
    case Corrupt(_) => true
  }

  /** Registry.add under its lock: a connection that already holds the label is closed. */
  function DoList(s: State, k: ConnId): State
    requires InPhase(s, k, RowActive)
  {
    var c := s.conns[k];
    var bySub := s.regs[c.inst];
    var conns := if c.sub in bySub && bySub[c.sub] in s.conns
      then s.conns[bySub[c.sub] := s.conns[bySub[c.sub]].(closed := true)] else s.conns;
    s.(regs := s.regs[c.inst := Added(bySub, c.sub, k)],
       conns := conns[k := conns[k].(phase := Listed)])
  }

  function DoUnlist(s: State, k: ConnId, next: Phase): State
    requires k in s.conns && s.conns[k].inst in s.regs
  {
    var c := s.conns[k];
    At(s, k, next).(regs := s.regs[c.inst := Removed(s.regs[c.inst], c.sub, k)])
  }

  /** Registry.remove deletes the key whoever wrote it. */
  function DoUnroute(s: State, k: ConnId, ok: bool, next: Phase): State
    requires k in s.conns
  {
    At(s, k, next).(routes := if ok then s.routes - {s.conns[k].sub} else s.routes)
  }

  function DoSnapshot(s: State, i: InstanceId): State
    requires i in s.regs && i in s.refresh
  {
    var names := s.regs[i].Keys;
    s.(refresh := s.refresh[i := Refresher(names, s.now, if names == {} then s.now else s.refresh[i].done)])
  }

  /** The route is written after the lock was released, for a name that may be gone by now. */
  function DoRewrite(s: State, i: InstanceId, sub: Label, ok: bool): State
    requires i in s.refresh
  {
    var r := s.refresh[i];
    var todo := r.todo - {sub};
    s.(refresh := s.refresh[i := Refresher(todo, r.started, if todo == {} then r.started else r.done)],
       routes := if ok then SetRoute(s.routes, sub, i, s.now) else s.routes)
  }

  function Apply(s: State, step: Step): State
    requires Enabled(s, step)
  {
    match step
    case Boot(i) =>
      s.(regs := s.regs[i := map[]], refresh := s.refresh[i := Refresher({}, s.now, s.now)])
    case CreateRow(k, i, sub, tunnel) =>
      s.(rows := s.rows[Address.PublicUrl(sub, s.base) := Row(tunnel, Created)],
         conns := s.conns[k := Conn(i, sub, tunnel, RowCreated, false, true)])
    case Activate(k, ok) => WithStatus(s, k, Active, ok, RowActive)
    case List(k) => DoList(s, k)
    case Announce(k, ok) =>
      At(s, k, Routed).(routes := if ok then SetRoute(s.routes, s.conns[k].sub, s.conns[k].inst, s.now) else s.routes)
    case Confirm(k, ok) => At(s, k, if ok then Reading else Rejected)
    case UnlistRejected(k) => DoUnlist(s, k, RejectUnlisted)
    case UnrouteRejected(k, ok) => DoUnroute(s, k, ok, Abandoned)
    case EndRead(k) => s.(conns := s.conns[k := s.conns[k].(phase := Closed, closed := true)])
    case Unlist(k) => DoUnlist(s, k, Unlisted)
    case Unroute(k, ok) => DoUnroute(s, k, ok, Unrouted)
    case MarkDisconnected(k, ok) => WithStatus(s, k, Disconnected, ok, Gone)
    case ApiCreate(url, tunnel) => s.(rows := s.rows[url := Row(tunnel, Created)])
    case ApiDelete(url) => s.(rows := s.rows - {url})
    case Snapshot(i) => DoSnapshot(s, i)
    case Rewrite(i, sub, ok) => DoRewrite(s, i, sub, ok)
    case Tick(d) => s.(now := s.now + d)
    case Corrupt(routes) => s.(routes := routes)
  }

  // ---- Runs ----------------------------------------------------------------------------

  ghost predicate Legal(s: State, steps: seq<Step>)
    decreases |steps|, 0
  {
    steps == [] || (Legal(s, steps[..|steps| - 1]) && Enabled(Play(s, steps[..|steps| - 1]), steps[|steps| - 1]))
  }

  ghost function Play(s: State, steps: seq<Step>): State
    requires Legal(s, steps)
    decreases |steps|, 1
  {
    if steps == [] then s else Apply(Play(s, steps[..|steps| - 1]), steps[|steps| - 1])
  }

  // ---- What every step keeps -------------------------------------------------------------

  predicate ListedPhase(p: Phase) {
    p in {Listed, Routed, Reading, Rejected, Closed}
  }

  predicate EndedPhase(p: Phase) {
    p in {Closed, Unlisted, Unrouted, Gone}
  }

  function Rank(st: Status): nat {
    match st case Created => 0 case Active => 1 case Disconnected => 2
  }

  /** The status a row has at a phase of its connection when all status writes succeed. */
  function StatusAt(p: Phase): Status {
    if p == RowCreated then Created else if p == Gone then Disconnected else Active
  }

  /** An entry of a registry is a connection of that instance, registered with that very label and not yet removed. */
  ghost predicate RegistryOk(s: State) {
    && s.regs.Keys == s.refresh.Keys
    && (forall k | k in s.conns :: s.conns[k].inst in s.regs)
    && (forall i, sub | i in s.regs && sub in s.regs[i] ::
      && s.regs[i][sub] in s.conns
      && s.conns[s.regs[i][sub]].inst == i && s.conns[s.regs[i][sub]].sub == sub
      && ListedPhase(s.conns[s.regs[i][sub]].phase))
    && (forall k | k in s.conns && EndedPhase(s.conns[k].phase) :: s.conns[k].closed)
    && (forall k | k in s.conns && ListedPhase(s.conns[k].phase) && !s.conns[k].closed ::
      s.conns[k].sub in s.regs[s.conns[k].inst] && s.regs[s.conns[k].inst][s.conns[k].sub] == k)
  }

  /** Tunnel ids are unique, and a row's status is what its connection has written. */
  ghost predicate RowsOk(s: State) {
    && (forall k1, k2 | k1 in s.conns && k2 in s.conns && s.conns[k1].tunnel == s.conns[k2].tunnel :: k1 == k2)
    && (forall u1, u2 | u1 in s.rows && u2 in s.rows && s.rows[u1].tunnel == s.rows[u2].tunnel :: u1 == u2)
    && (forall k, url | k in s.conns && url in s.rows && s.rows[url].tunnel == s.conns[k].tunnel ::
      && Rank(s.rows[url].status) <= Rank(StatusAt(s.conns[k].phase))
      && (s.conns[k].statusOk ==> s.rows[url].status == StatusAt(s.conns[k].phase)))
  }

  /** A connection moves on without entering or leaving the registry. */
  lemma RegistryKeptMove(s: State, t: State, k: ConnId, c: Conn)
    requires RegistryOk(s) && k in s.conns && t.conns == s.conns[k := c] && t.regs == s.regs
    requires t.refresh.Keys == s.refresh.Keys
    requires c.inst == s.conns[k].inst && c.sub == s.conns[k].sub
    requires ListedPhase(s.conns[k].phase) == ListedPhase(c.phase)
    requires EndedPhase(c.phase) ==> EndedPhase(s.conns[k].phase) || c.closed
    requires s.conns[k].closed ==> c.closed
    ensures RegistryOk(t)
  {
  }

  lemma ListKeepsEntries(s: State, k: ConnId, i: InstanceId, sub: Label)
    requires RegistryOk(s) && InPhase(s, k, RowActive) && i in DoList(s, k).regs && sub in DoList(s, k).regs[i]
    ensures var t := DoList(s, k);
      && t.regs[i][sub] in t.conns && t.conns[t.regs[i][sub]].inst == i && t.conns[t.regs[i][sub]].sub == sub
      && ListedPhase(t.conns[t.regs[i][sub]].phase)
  {
    var t, c := DoList(s, k), s.conns[k];
    if i != c.inst || sub != c.sub { assert sub in s.regs[i] && t.regs[i][sub] == s.regs[i][sub]; }
  }

  lemma ListKeepsHeld(s: State, k: ConnId, x: ConnId)
    requires RegistryOk(s) && InPhase(s, k, RowActive) && x in DoList(s, k).conns
    requires ListedPhase(DoList(s, k).conns[x].phase) && !DoList(s, k).conns[x].closed
    ensures var t := DoList(s, k);
      && t.conns[x].inst in t.regs && t.conns[x].sub in t.regs[t.conns[x].inst]
      && t.regs[t.conns[x].inst][t.conns[x].sub] == x
  {
    if x != k { assert s.regs[s.conns[x].inst][s.conns[x].sub] == x; }
  }

  lemma ListKeepsRest(s: State, k: ConnId)
    requires RegistryOk(s) && InPhase(s, k, RowActive)
    ensures var t := DoList(s, k);
      && t.regs.Keys == t.refresh.Keys
      && (forall x | x in t.conns :: t.conns[x].inst in t.regs && (EndedPhase(t.conns[x].phase) ==> t.conns[x].closed))
  {
  }

  lemma RegistryKeptList(s: State, k: ConnId)
    requires RegistryOk(s) && InPhase(s, k, RowActive)
    ensures RegistryOk(DoList(s, k))
  {
    var t := DoList(s, k);
    ListKeepsRest(s, k);
    forall i, sub | i in t.regs && sub in t.regs[i]
      ensures t.regs[i][sub] in t.conns && t.conns[t.regs[i][sub]].inst == i && t.conns[t.regs[i][sub]].sub == sub
      ensures ListedPhase(t.conns[t.regs[i][sub]].phase)
    {
      ListKeepsEntries(s, k, i, sub);
    }
    forall x | x in t.conns && ListedPhase(t.conns[x].phase) && !t.conns[x].closed
      ensures t.conns[x].inst in t.regs && t.conns[x].sub in t.regs[t.conns[x].inst]
      ensures t.regs[t.conns[x].inst][t.conns[x].sub] == x
    {
      ListKeepsHeld(s, k, x);
    }
    hide DoList;
  }

  lemma RegistryKeptUnlist(s: State, k: ConnId, next: Phase)
    requires RegistryOk(s) && k in s.conns && ListedPhase(s.conns[k].phase)
    requires !ListedPhase(next) && (EndedPhase(next) ==> EndedPhase(s.conns[k].phase))
    ensures RegistryOk(DoUnlist(s, k, next))
  {
    var t, c := DoUnlist(s, k, next), s.conns[k];
    forall i, sub | i in t.regs && sub in t.regs[i]
      ensures t.regs[i][sub] in t.conns
      ensures t.conns[t.regs[i][sub]].inst == i && t.conns[t.regs[i][sub]].sub == sub
      ensures ListedPhase(t.conns[t.regs[i][sub]].phase)
    {
      assert sub in s.regs[i] && t.regs[i][sub] == s.regs[i][sub];
    }
  }

  lemma RegistryKeptBoot(s: State, step: Step)
    requires RegistryOk(s) && step.Boot? && Enabled(s, step)
    ensures RegistryOk(Apply(s, step))
  {
  }

  lemma RegistryKeptCreate(s: State, step: Step)
    requires RegistryOk(s) && step.CreateRow? && Enabled(s, step)
    ensures RegistryOk(Apply(s, step))
  {
  }

  lemma RegistryKeptSame(s: State, t: State)
    requires RegistryOk(s) && t.conns == s.conns && t.regs == s.regs && t.refresh.Keys == s.refresh.Keys
    ensures RegistryOk(t)
  {
  }

  /** The steps that leave the registries alone and move connection k to another phase. */
  predicate MovesOutside(step: Step, k: ConnId) {
    match step
    case Activate(x, _) => x == k
    case Announce(x, _) => x == k
    case Confirm(x, _) => x == k
    case UnrouteRejected(x, _) => x == k
    case EndRead(x) => x == k
    case Unroute(x, _) => x == k
    case MarkDisconnected(x, _) => x == k
    case _ => false
  }

  lemma RegistryKeptPhase(s: State, step: Step, k: ConnId)
    requires RegistryOk(s) && Enabled(s, step) && MovesOutside(step, k)
    ensures RegistryOk(Apply(s, step))
  {
    hide RegistryOk, FreshTunnel, SetStatus;
    RegistryKeptMove(s, Apply(s, step), k, Apply(s, step).conns[k]);
  }

  /** No step whatever, not even a deleted row or a corrupted Redis, breaks the registries. */
  lemma RegistryKept(s: State, step: Step)
    requires RegistryOk(s) && Enabled(s, step)
    ensures RegistryOk(Apply(s, step))
  {
    hide RegistryOk, FreshTunnel, SetStatus;
    match step
    case List(k) => RegistryKeptList(s, k);
    case UnlistRejected(k) => RegistryKeptUnlist(s, k, RejectUnlisted);
    case Unlist(k) => RegistryKeptUnlist(s, k, Unlisted);
    case Activate(k, _) => RegistryKeptPhase(s, step, k);
    case Announce(k, _) => RegistryKeptPhase(s, step, k);
    case Confirm(k, _) => RegistryKeptPhase(s, step, k);
    case UnrouteRejected(k, _) => RegistryKeptPhase(s, step, k);
    case EndRead(k) => RegistryKeptPhase(s, step, k);
    case Unroute(k, _) => RegistryKeptPhase(s, step, k);
    case MarkDisconnected(k, _) => RegistryKeptPhase(s, step, k);
    case Boot(i) => RegistryKeptBoot(s, step);
    case CreateRow(k, i, sub, tunnel) => RegistryKeptCreate(s, step);
    case _ => RegistryKeptSame(s, Apply(s, step));
  }

  lemma RowsKeptStatus(s: State, k: ConnId, status: Status, ok: bool, phase: Phase)
    requires RowsOk(s) && k in s.conns
    requires status == StatusAt(phase) && Rank(StatusAt(s.conns[k].phase)) <= Rank(status)
    ensures RowsOk(WithStatus(s, k, status, ok, phase))
  {
  }

  lemma RowsKeptMove(s: State, t: State, k: ConnId, c: Conn)
    requires RowsOk(s) && k in s.conns && t.conns == s.conns[k := c] && t.rows == s.rows
    requires c.tunnel == s.conns[k].tunnel && c.statusOk == s.conns[k].statusOk
    requires StatusAt(c.phase) == StatusAt(s.conns[k].phase)
    ensures RowsOk(t)
  {
  }

  lemma RowsKeptList(s: State, k: ConnId)
    requires RowsOk(s) && InPhase(s, k, RowActive)
    ensures RowsOk(DoList(s, k))
  {
    hide RowsOk;
    var t, c := DoList(s, k), s.conns[k];
    var bySub := s.regs[c.inst];
    if c.sub in bySub && bySub[c.sub] in s.conns {
      var prev := bySub[c.sub];
      var mid := s.(conns := s.conns[prev := s.conns[prev].(closed := true)]);
      RowsKeptMove(s, mid, prev, mid.conns[prev]);
      RowsKeptMove(mid, t, k, t.conns[k]);
    } else {
      RowsKeptMove(s, t, k, t.conns[k]);
    }
  }

  lemma RowsKeptInsert(s: State, step: Step)
    requires RowsOk(s) && (step.CreateRow? || step.ApiCreate?) && Enabled(s, step)
    ensures RowsOk(Apply(s, step))
  {
  }

  lemma RowsKeptDelete(s: State, url: string)
    requires RowsOk(s)
    ensures RowsOk(s.(rows := s.rows - {url}))
  {
  }

  lemma RowsKeptSame(s: State, t: State)
    requires RowsOk(s) && t.conns == s.conns && t.rows == s.rows
    ensures RowsOk(t)
  {
  }

  /** The steps that only move connection k to a later phase. */
  predicate MovesOnly(step: Step, k: ConnId) {
    match step
    case Announce(x, _) => x == k
    case Confirm(x, _) => x == k
    case UnlistRejected(x) => x == k
    case UnrouteRejected(x, _) => x == k
    case EndRead(x) => x == k
    case Unlist(x) => x == k
    case Unroute(x, _) => x == k
    case _ => false
  }

  lemma RowsKeptPhase(s: State, step: Step, k: ConnId)
    requires RowsOk(s) && Enabled(s, step) && MovesOnly(step, k)
    ensures RowsOk(Apply(s, step))
  {
    hide RowsOk, FreshTunnel;
    RowsKeptMove(s, Apply(s, step), k, Apply(s, step).conns[k]);
  }

  lemma RowsKept(s: State, step: Step)
    requires RowsOk(s) && Enabled(s, step)
    ensures RowsOk(Apply(s, step))
  {
    hide RowsOk, SetStatus, FreshTunnel;
    match step
    case Activate(k, ok) => RowsKeptStatus(s, k, Active, ok, RowActive);
    case MarkDisconnected(k, ok) => RowsKeptStatus(s, k, Disconnected, ok, Gone);
    case List(k) => RowsKeptList(s, k);
    case Announce(k, _) => RowsKeptPhase(s, step, k);
    case Confirm(k, _) => RowsKeptPhase(s, step, k);
    case UnlistRejected(k) => RowsKeptPhase(s, step, k);
    case UnrouteRejected(k, _) => RowsKeptPhase(s, step, k);
    case EndRead(k) => RowsKeptPhase(s, step, k);
    case Unlist(k) => RowsKeptPhase(s, step, k);
    case Unroute(k, _) => RowsKeptPhase(s, step, k);
    case CreateRow(k, i, sub, tunnel) => RowsKeptInsert(s, step);
    case ApiCreate(url, tunnel) => RowsKeptInsert(s, step);
    case ApiDelete(url) => RowsKeptDelete(s, url);
    case _ => assert Apply(s, step).conns == s.conns && Apply(s, step).rows == s.rows; RowsKeptSame(s, Apply(s, step));
  }

  predicate WasListed(p: Phase) {
    p != RowCreated && p != RowActive
  }

  /** The step belongs to the goroutine of connection k. */
  predicate Concerns(step: Step, k: ConnId) {
    match step
    case CreateRow(x, _, _, _) => x == k
    case List(x) => x == k
    case UnlistRejected(x) => x == k
    case Unlist(x) => x == k
    case _ => MovesOutside(step, k)
  }

  /** Other goroutines leave a connection alone, but for closing it when they list another under its label. */
  lemma OthersLeaveAlone(s: State, step: Step, k: ConnId)
    requires Enabled(s, step) && !Concerns(step, k) && !step.List?
    ensures var t := Apply(s, step); (k in t.conns <==> k in s.conns) && (k in s.conns ==> t.conns[k] == s.conns[k])
  {
    hide FreshTunnel, SetStatus, Address.PublicUrl, Added, Removed, SetRoute;
  }

  lemma ListedStable(s: State, x: ConnId, k: ConnId)
    requires Enabled(s, List(x)) && k in s.conns
    ensures var t := DoList(s, x);
      && k in t.conns && t.conns[k].inst == s.conns[k].inst && t.conns[k].sub == s.conns[k].sub
      && t.conns[k].tunnel == s.conns[k].tunnel
      && (WasListed(s.conns[k].phase) ==> WasListed(t.conns[k].phase))
      && (s.conns[k].closed ==> t.conns[k].closed)
  {
    hide FreshTunnel, Added;
  }

  /** A connection keeps its instance, label and tunnel; it is never unlisted into the past nor reopened. */
  lemma ConnStable(s: State, step: Step, k: ConnId)
    requires Enabled(s, step) && k in s.conns
    ensures var t := Apply(s, step);
      && k in t.conns && t.conns[k].inst == s.conns[k].inst && t.conns[k].sub == s.conns[k].sub
      && t.conns[k].tunnel == s.conns[k].tunnel
      && (WasListed(s.conns[k].phase) ==> WasListed(t.conns[k].phase))
      && (s.conns[k].closed ==> t.conns[k].closed)
  {
    hide FreshTunnel, SetStatus, Address.PublicUrl, Added, Removed, SetRoute;
    if step.List? {
      hide DoList, WasListed;
      ListedStable(s, step.k, k);
    } else if !Concerns(step, k) {
      hide Apply, Enabled, Concerns;
      OthersLeaveAlone(s, step, k);
    }
  }

  // ---- What every run keeps ----------------------------------------------------------------

  lemma {:induction false} RunKeeps(s: State, steps: seq<Step>)
    requires RegistryOk(s) && RowsOk(s) && Legal(s, steps)
    ensures RegistryOk(Play(s, steps)) && RowsOk(Play(s, steps))
    decreases |steps|
  {
    if steps != [] {
      hide RegistryOk, RowsOk, Apply, Enabled;
      var init, step := steps[..|steps| - 1], steps[|steps| - 1];
      RunKeeps(s, init);
      RegistryKept(Play(s, init), step);
      RowsKept(Play(s, init), step);
    }
  }

  lemma Append(s: State, steps: seq<Step>, step: Step)
    requires Legal(s, steps) && Enabled(Play(s, steps), step)
    ensures Legal(s, steps + [step]) && Play(s, steps + [step]) == Apply(Play(s, steps), step)
  {
    assert (steps + [step])[..|steps|] == steps;
  }

  // ---- Lifecycle -----------------------------------------------------------------------------

  /** A row stays, under its URL and with its id, until it is deleted. */
  lemma RowStays(s: State, step: Step, url: string)
    requires Enabled(s, step) && step != ApiDelete(url) && url in s.rows
    ensures url in Apply(s, step).rows && Apply(s, step).rows[url].tunnel == s.rows[url].tunnel
  {
    hide FreshTunnel;
  }

  lemma StatusAdvances(s: State, step: Step, url: string)
    requires RowsOk(s) && Enabled(s, step) && step != ApiDelete(url) && url in s.rows
    ensures var t := Apply(s, step);
      url in t.rows && t.rows[url].tunnel == s.rows[url].tunnel && Rank(s.rows[url].status) <= Rank(t.rows[url].status)
  {
    hide FreshTunnel;
  }

  lemma {:induction false} StatusAdvancesOver(s: State, steps: seq<Step>, url: string)
    requires RegistryOk(s) && RowsOk(s) && Legal(s, steps) && ApiDelete(url) !in steps && url in s.rows
    ensures var t := Play(s, steps);
      url in t.rows && t.rows[url].tunnel == s.rows[url].tunnel && Rank(s.rows[url].status) <= Rank(t.rows[url].status)
    decreases |steps|
  {
    if steps != [] {
      var init, step := steps[..|steps| - 1], steps[|steps| - 1];
      assert steps == init + [step];
      hide RegistryOk, RowsOk, Apply, Enabled, Rank;
      StatusAdvancesOver(s, init, url);
      RunKeeps(s, init);
      StatusAdvances(Play(s, init), step, url);
    }
  }

  /** Over any stretch of a run a row that is not deleted in it keeps its id, and its status only moves from created
    * to active to disconnected, even when status writes fail. */
  lemma StatusOnlyAdvances(base: string, before: seq<Step>, after: seq<Step>, url: string)
    requires Legal(Init(base), before) && Legal(Play(Init(base), before), after) && ApiDelete(url) !in after
    requires url in Play(Init(base), before).rows
    ensures var s := Play(Init(base), before); var t := Play(s, after);
      url in t.rows && t.rows[url].tunnel == s.rows[url].tunnel && Rank(s.rows[url].status) <= Rank(t.rows[url].status)
  {
    RunKeeps(Init(base), before);
    StatusAdvancesOver(Play(Init(base), before), after, url);
  }

  /** A connection whose read loop has run to its end is closed, in no registry, and its row - if its status
    * writes succeeded and the row was not deleted - is disconnected. */
  lemma GoneIsClean(base: string, steps: seq<Step>, k: ConnId)
    requires Legal(Init(base), steps)
    requires var t := Play(Init(base), steps); k in t.conns && t.conns[k].phase == Gone
    ensures var t := Play(Init(base), steps);
      && t.conns[k].closed
      && (forall i, sub | i in t.regs && sub in t.regs[i] :: t.regs[i][sub] != k)
      && (forall url | url in t.rows && t.rows[url].tunnel == t.conns[k].tunnel && t.conns[k].statusOk ::
        t.rows[url].status == Disconnected)
  {
    RunKeeps(Init(base), steps);
  }
}
