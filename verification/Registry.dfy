/** One gateway instance's registry of connected agents, its route keys in Redis, and
  * what the registry means after any history of registrations and removals.
  */
module Registry {
  import opened Pending
  import opened TunnelProto
  import opened Wrappers

  type InstanceId = nat

  // ---- Route keys with expiry ------------------------------------------------------

  const ROUTE_TTL := 90

  datatype Route = Route(owner: InstanceId, expires: nat)

  type Routes = map<Label, Route>

  function SetRoute(routes: Routes, sub: Label, owner: InstanceId, now: nat): Routes {
    routes[sub := Route(owner, now + ROUTE_TTL)]
  }

  function LiveRoute(routes: Routes, sub: Label, now: nat): Option<InstanceId> {
    if sub in routes && now < routes[sub].expires then Some(routes[sub].owner) else None
  }

  // ---- Messages between instances -----------------------------------------------------

  datatype ClusterRequest = ClusterRequest(requestID: Uuid, origin: InstanceId, sub: Label, req: ForwardedRequest)

  /** The reply to a ClusterRequest: a response, or a non-empty error. */
  datatype ClusterResponse = ClusterResponse(requestID: Uuid, resp: Option<ForwardedResponse>, error: string)

  // ---- The subdomain map -------------------------------------------------------------

  function Added<K>(bySub: map<Label, K>, sub: Label, conn: K): map<Label, K> {
    bySub[sub := conn]
  }

  /** Only the connection itself can remove its entry. */
  function Removed<K(==)>(bySub: map<Label, K>, sub: Label, conn: K): map<Label, K> {
    if sub in bySub && bySub[sub] == conn then bySub - {sub} else bySub
  }

  // ---- Histories -----------------------------------------------------------------------

  datatype Op<K> = Add(sub: Label, conn: K) | Remove(sub: Label, conn: K)

  /** The map, and the connections `add` has closed because another took their place, in order. */
  datatype Local<K> = Local(bySub: map<Label, K>, closed: seq<K>)

  function Step<K(==)>(l: Local<K>, op: Op<K>): Local<K> {
    match op
    case Add(sub, conn) =>
      Local(Added(l.bySub, sub, conn), if sub in l.bySub then l.closed + [l.bySub[sub]] else l.closed)
    case Remove(sub, conn) =>
      Local(Removed(l.bySub, sub, conn), l.closed)
  }

  function Run<K(==)>(ops: seq<Op<K>>): Local<K> {
    if ops == [] then Local(map[], []) else Step(Run(ops[..|ops| - 1]), ops[|ops| - 1])
  }

  /** The connection added at position j has neither been replaced nor removed itself before position n. */
  ghost predicate HoldsUntil<K>(ops: seq<Op<K>>, j: int, n: int) {
    0 <= j < n <= |ops| && ops[j].Add?
    && forall l | j < l < n :: ops[l].sub == ops[j].sub ==> ops[l].Remove? && ops[l].conn != ops[j].conn
  }

  /** The connection added at position j is replaced at position n. */
  ghost predicate ReplacedAt<K>(ops: seq<Op<K>>, j: int, n: int) {
    HoldsUntil(ops, j, n) && n < |ops| && ops[n].Add? && ops[n].sub == ops[j].sub
  }

  ghost predicate Current<K>(ops: seq<Op<K>>, sub: Label, conn: K) {
    exists j :: HoldsUntil(ops, j, |ops|) && ops[j] == Add(sub, conn)
  }

  lemma HoldsPrefix<K>(init: seq<Op<K>>, op: Op<K>, j: int, n: int)
    requires n <= |init|
    ensures HoldsUntil(init + [op], j, n) <==> HoldsUntil(init, j, n)
  {
    var ops := init + [op];
    assert forall l | 0 <= l < |init| :: ops[l] == init[l];
  }

  lemma HoldsStep<K>(init: seq<Op<K>>, op: Op<K>, j: int)
    requires 0 <= j < |init|
    ensures HoldsUntil(init + [op], j, |init| + 1)
       <==> HoldsUntil(init, j, |init|) && (op.sub == init[j].sub ==> op.Remove? && op.conn != init[j].conn)
  {
    var ops := init + [op];
    assert ops[|init|] == op;
    assert forall l | 0 <= l < |init| :: ops[l] == init[l];
  }

  lemma CurrentStep<K>(init: seq<Op<K>>, op: Op<K>, sub: Label, conn: K)
    ensures Current(init + [op], sub, conn)
       <==> op == Add(sub, conn) || (Current(init, sub, conn) && (op.sub == sub ==> op.Remove? && op.conn != conn))
  {
    var ops := init + [op];
    assert ops[|init|] == op && forall l | 0 <= l < |init| :: ops[l] == init[l];
    if Current(ops, sub, conn) {
      var j :| HoldsUntil(ops, j, |ops|) && ops[j] == Add(sub, conn);
      if j < |init| { HoldsStep(init, op, j); }
    }
    if Current(init, sub, conn) && (op.sub == sub ==> op.Remove? && op.conn != conn) {
      var j :| HoldsUntil(init, j, |init|) && init[j] == Add(sub, conn);
      HoldsStep(init, op, j);
      assert HoldsUntil(ops, j, |ops|) && ops[j] == Add(sub, conn);
    }
    if op == Add(sub, conn) { assert HoldsUntil(ops, |init|, |ops|); }
  }

  /** A label leads to a connection exactly when that is the last one added for it and it has not been
    * removed since; removals on behalf of other connections never matter. */
  lemma {:induction false} LookupMeaning<K>(ops: seq<Op<K>>, sub: Label, conn: K)
    ensures (sub in Run(ops).bySub && Run(ops).bySub[sub] == conn) <==> Current(ops, sub, conn)
  {
    if ops != [] {
      var init, op := ops[..|ops| - 1], ops[|ops| - 1];
      assert ops == init + [op];
      LookupMeaning(init, sub, conn);
      CurrentStep(init, op, sub, conn);
    }
  }

  /** Every connection is registered at most once. */
  ghost predicate AddsOnce<K>(ops: seq<Op<K>>) {
    forall i, j | 0 <= i < j < |ops| && ops[i].Add? && ops[j].Add? :: ops[i].conn != ops[j].conn
  }

  ghost predicate Replaced<K>(ops: seq<Op<K>>, c: K) {
    exists j, n :: ReplacedAt(ops, j, n) && ops[j].conn == c
  }

  lemma ReplacedStep<K>(init: seq<Op<K>>, op: Op<K>, c: K)
    ensures Replaced(init + [op], c) <==> Replaced(init, c) || (op.Add? && Current(init, op.sub, c))
  {
    var ops := init + [op];
    assert ops[|init|] == op && forall l | 0 <= l < |init| :: ops[l] == init[l];
    if Replaced(ops, c) {
      var j, n :| ReplacedAt(ops, j, n) && ops[j].conn == c;
      HoldsPrefix(init, op, j, n);
      if n < |init| { assert ReplacedAt(init, j, n); } else { assert init[j] == Add(op.sub, c); }
    }
    if Replaced(init, c) {
      var j, n :| ReplacedAt(init, j, n) && init[j].conn == c;
      HoldsPrefix(init, op, j, n);
      assert ReplacedAt(ops, j, n);
    }
    if op.Add? && Current(init, op.sub, c) {
      var j :| HoldsUntil(init, j, |init|) && init[j] == Add(op.sub, c);
      HoldsPrefix(init, op, j, |init|);
      assert ReplacedAt(ops, j, |init|);
    }
  }

  /** A connection in the map has not been replaced, when every connection is added once. */
  lemma CurrentNotReplaced<K>(ops: seq<Op<K>>, sub: Label, c: K)
    requires AddsOnce(ops) && Current(ops, sub, c)
    ensures !Replaced(ops, c)
  {
  }

  /** `add` closes exactly the connections that another one replaced, and none of them twice. */
  lemma {:induction false} ReplacedAreClosedOnce<K>(ops: seq<Op<K>>, c: K)
    requires AddsOnce(ops)
    ensures multiset(Run(ops).closed)[c] == if Replaced(ops, c) then 1 else 0
  {
    if ops != [] {
      var init, op := ops[..|ops| - 1], ops[|ops| - 1];
      assert ops == init + [op];
      ReplacedAreClosedOnce(init, c);
      ReplacedStep(init, op, c);
      LookupMeaning(init, op.sub, c);
      if Current(init, op.sub, c) { CurrentNotReplaced(init, op.sub, c); }
    }
  }

  // ---- In memory ------------------------------------------------------------------------

  class Redis {
    var routes: Routes
    var now: nat

    constructor ()
      ensures routes == map[] && now == 0
    {
      routes, now := map[], 0;
    }

    /** SET with the route TTL; a failed write leaves the key alone. */
    method Set(sub: Label, owner: InstanceId, ok: bool)
      modifies this`routes
      ensures routes == if ok then old(routes)[sub := Route(owner, now + 90)] else old(routes)
    {
      if ok {
        routes := routes[sub := Route(owner, now + ROUTE_TTL)];
      }
    }

    method Del(sub: Label, ok: bool)
      modifies this`routes
      ensures routes == if ok then old(routes) - {sub} else old(routes)
    {
      if ok {
        routes := routes - {sub};
      }
    }

    method Get(sub: Label) returns (owner: Option<InstanceId>)
      ensures owner == LiveRoute(routes, sub, now)
    {
      if sub in routes && now < routes[sub].expires {
        return Some(routes[sub].owner);
      }
      return None;
    }
  }

  /** `closings` counts how often the channel `closed` has been closed; a second time would panic. */
  class AgentConn {
    const subdomain: Label
    const pending: PendingCalls<ForwardedResponse>
    var once: bool
    var closings: nat

    ghost predicate Valid()
      reads this
    {
      closings == if once then 1 else 0
    }

    predicate Closed()
      reads this
    {
      closings > 0
    }

    constructor (subdomain: Label)
      ensures this.subdomain == subdomain && Valid() && !Closed()
      ensures fresh(pending) && pending.Valid() && pending.View() == map[]
    {
      this.subdomain := subdomain;
      pending := new PendingCalls();
      once, closings := false, 0;
    }

    /** However often and by whomever it is called, the channel is closed exactly once. */
    method Close()
      requires Valid()
      modifies this`once, this`closings
      ensures Valid() && Closed() && closings == 1
    {
      if !once {
        once := true;
        closings := closings + 1;
      }
    }

    method Deliver(requestID: Uuid, resp: ForwardedResponse)
      requires pending.Valid()
      modifies pending.chans.Values
      ensures pending.Valid() && pending.View() == Delivered(old(pending.View()), requestID, resp)
    {
      pending.Deliver(requestID, resp);
    }
  }

  class Registry {
    const instanceID: InstanceId
    const redis: Redis?
    const pending: PendingCalls<ClusterResponse>
    var bySub: map<Label, AgentConn>

    constructor (instanceID: InstanceId, redis: Redis?)
      ensures this.instanceID == instanceID && this.redis == redis && bySub == map[]
      ensures fresh(pending) && pending.Valid() && pending.View() == map[]
    {
      this.instanceID, this.redis := instanceID, redis;
      pending := new PendingCalls();
      bySub := map[];
    }

    method Add(sub: Label, conn: AgentConn, redisOk: bool)
      requires sub in bySub ==> bySub[sub].Valid()
      modifies this`bySub
      modifies (if sub in bySub then {bySub[sub]} else {})`once, (if sub in bySub then {bySub[sub]} else {})`closings
      modifies (if redis != null then {redis} else {})`routes
      ensures bySub == Added(old(bySub), sub, conn)
      ensures sub in old(bySub) ==> old(bySub)[sub].Valid() && old(bySub)[sub].Closed()
      ensures redis != null && redisOk ==> redis.routes == old(redis.routes)[sub := Route(instanceID, redis.now + 90)]
      ensures redis != null && !redisOk ==> redis.routes == old(redis.routes)
    {
      if sub in bySub {
        bySub[sub].Close();
      }
      bySub := bySub[sub := conn];
      if redis != null {
        redis.Set(sub, instanceID, redisOk);
      }
    }

    /** The entry goes only if it is this connection's own; the route key goes in any case. */
    method Remove(sub: Label, conn: AgentConn, redisOk: bool)
      modifies this`bySub, (if redis != null then {redis} else {})`routes
      ensures bySub == Removed(old(bySub), sub, conn)
      ensures redis != null ==> redis.routes == if redisOk then old(redis.routes) - {sub} else old(redis.routes)
    {
      if sub in bySub && bySub[sub] == conn {
        bySub := bySub - {sub};
      }
      if redis != null {
        redis.Del(sub, redisOk);
      }
    }

    method LocalLookup(sub: Label) returns (conn: Option<AgentConn>)
      ensures conn == if sub in bySub then Some(bySub[sub]) else None
    {
      if sub in bySub {
        return Some(bySub[sub]);
      }
      return None;
    }

    /** Without Redis, without a key or with an expired one there is no owner. */
    method OwnerInstance(sub: Label) returns (owner: Option<InstanceId>)
      ensures owner == if redis == null then None else LiveRoute(redis.routes, sub, redis.now)
    {
      if redis == null {
        return None;
      }
      owner := redis.Get(sub);
    }

    method DeliverReply(cr: ClusterResponse)
      requires pending.Valid()
      modifies pending.chans.Values
      ensures pending.Valid() && pending.View() == Delivered(old(pending.View()), cr.requestID, cr)
    {
      pending.Deliver(cr.requestID, cr);
    }

    /** One tick of refreshLoop: every name of the snapshot is written again, except where the write fails. */
    method RefreshPass(failing: set<Label>)
      requires redis != null
      modifies redis`routes
      ensures forall sub :: sub in redis.routes <==> sub in old(redis.routes) || sub in bySub.Keys - failing
      ensures forall sub | sub in redis.routes ::
        redis.routes[sub] == if sub in bySub.Keys - failing then Route(instanceID, redis.now + 90)
          else old(redis.routes)[sub]
    {
      var subs := bySub.Keys;
      ghost var all := subs;
      while subs != {}
        invariant subs <= all
        invariant forall sub :: sub in redis.routes <==> sub in old(redis.routes) || sub in (all - subs) - failing
        invariant forall sub | sub in redis.routes ::
          redis.routes[sub] == if sub in (all - subs) - failing then Route(instanceID, redis.now + 90)
            else old(redis.routes)[sub]
        decreases |subs|
      {
        var sub :| sub in subs;
        redis.Set(sub, instanceID, sub !in failing);
        subs := subs - {sub};
      }
    }
  }
}
