/** What the clock, the route keys and the refreshers say about the run that led to them, told from its steps. */
module RouteHistory {
  import opened TunnelProto
  import opened Ownership
  import Address
  import R = Registry

  // ---- The clock -------------------------------------------------------------------------------

  function Elapsed(steps: seq<Step>): nat {
    if steps == [] then 0
    else
      var n := |steps| - 1;
      Elapsed(steps[..n]) + if steps[n].Tick? then steps[n].d else 0
  }

  lemma ClockStep(s: State, step: Step)
    requires Enabled(s, step)
    ensures Apply(s, step).now == s.now + if step.Tick? then step.d else 0
  {
    hide FreshTunnel, SetStatus, Address.PublicUrl, R.Added, R.Removed, R.SetRoute;
  }

  lemma {:induction false} ClockMeaning(base: string, steps: seq<Step>)
    requires Legal(Init(base), steps)
    ensures Play(Init(base), steps).now == Elapsed(steps)
    decreases |steps|
  {
    if steps != [] {
      var n := |steps| - 1;
      hide Apply, Enabled;
      ClockMeaning(base, steps[..n]);
      ClockStep(Play(Init(base), steps[..n]), steps[n]);
    }
  }

  // ---- Keys ------------------------------------------------------------------------------------

  /** The step gives the label's key this value: a gateway writes its own instance with 90 seconds to live, and a
    * corrupted Redis holds what it holds. */
  predicate Writes(s: State, step: Step, sub: Label, r: R.Route) {
    match step
    case Announce(k, true) => k in s.conns && s.conns[k].sub == sub && r == R.Route(s.conns[k].inst, s.now + 90)
    case Rewrite(i, x, true) => x == sub && r == R.Route(i, s.now + 90)
    case Corrupt(routes) => sub in routes && routes[sub] == r
    case _ => false
  }

  /** The step writes the label's key or deletes it. */
  predicate Touches(s: State, step: Step, sub: Label) {
    match step
    case Announce(k, true) => k in s.conns && s.conns[k].sub == sub
    case Rewrite(_, x, true) => x == sub
    case Unroute(k, true) => k in s.conns && s.conns[k].sub == sub
    case UnrouteRejected(k, true) => k in s.conns && s.conns[k].sub == sub
    case Corrupt(_) => true
    case _ => false
  }

  lemma KeyStep(s: State, step: Step, sub: Label, r: R.Route)
    requires Enabled(s, step)
    ensures var t := Apply(s, step);
      sub in t.routes && t.routes[sub] == r
      <==> Writes(s, step, sub, r) || (sub in s.routes && s.routes[sub] == r && !Touches(s, step, sub))
  {
    hide FreshTunnel, SetStatus, Address.PublicUrl, R.Added, R.Removed;
  }

  lemma {:induction false} PrefixIsLegal(base: string, steps: seq<Step>, j: nat)
    requires Legal(Init(base), steps) && j <= |steps|
    ensures Legal(Init(base), steps[..j])
    decreases |steps|
  {
    if j < |steps| {
      assert steps[..|steps| - 1][..j] == steps[..j];
      PrefixIsLegal(base, steps[..|steps| - 1], j);
    } else {
      assert steps[..j] == steps;
    }
  }

  /** The state in which step j was taken. */
  ghost function Before(base: string, steps: seq<Step>, j: nat): State
    requires Legal(Init(base), steps) && j <= |steps|
  {
    PrefixIsLegal(base, steps, j);
    Play(Init(base), steps[..j])
  }

  /** Step j gave the label's key this value, and none has touched the key since. */
  ghost predicate WrittenAt(base: string, steps: seq<Step>, j: int, sub: Label, r: R.Route)
    requires Legal(Init(base), steps)
  {
    && 0 <= j < |steps| && Writes(Before(base, steps, j), steps[j], sub, r)
    && forall m | j < m < |steps| :: !Touches(Before(base, steps, m), steps[m], sub)
  }

  lemma BeforePrefix(base: string, steps: seq<Step>, j: nat)
    requires Legal(Init(base), steps) && j < |steps|
    ensures Legal(Init(base), steps[..|steps| - 1])
    ensures Before(base, steps, j) == Before(base, steps[..|steps| - 1], j)
  {
    assert steps[..|steps| - 1][..j] == steps[..j];
  }

  lemma WrittenSnoc(base: string, steps: seq<Step>, j: int, sub: Label, r: R.Route)
    requires Legal(Init(base), steps) && steps != []
    ensures var n := |steps| - 1; var s := Play(Init(base), steps[..n]);
      WrittenAt(base, steps, j, sub, r)
      <==> ((j == n && Writes(s, steps[n], sub, r))
            || (WrittenAt(base, steps[..n], j, sub, r) && !Touches(s, steps[n], sub)))
  {
    hide Writes, Touches, Before, Legal, Play;
    var n := |steps| - 1;
    assert Before(base, steps, n) == Play(Init(base), steps[..n]) by { BeforeLast(base, steps); }
    forall m: nat | m < n
      ensures Before(base, steps, m) == Before(base, steps[..n], m) && steps[..n][m] == steps[m]
    {
      BeforePrefix(base, steps, m);
    }
    assert j < n && WrittenAt(base, steps, j, sub, r) ==> !Touches(Before(base, steps, n), steps[n], sub);
  }

  lemma BeforeLast(base: string, steps: seq<Step>)
    requires Legal(Init(base), steps) && steps != []
    ensures Legal(Init(base), steps[..|steps| - 1])
    ensures Before(base, steps, |steps| - 1) == Play(Init(base), steps[..|steps| - 1])
  {
  }

  /** In every run a route key holds what was written to it last, unless it was deleted since. */
  lemma {:induction false} KeyMeaning(base: string, steps: seq<Step>, sub: Label, r: R.Route)
    requires Legal(Init(base), steps)
    ensures var t := Play(Init(base), steps);
      sub in t.routes && t.routes[sub] == r <==> exists j :: WrittenAt(base, steps, j, sub, r)
    decreases |steps|
  {
    if steps != [] {
      var n := |steps| - 1;
      var s := Play(Init(base), steps[..n]);
      hide Apply, Enabled, Writes, Touches, WrittenAt;
      KeyMeaning(base, steps[..n], sub, r);
      KeyStep(s, steps[n], sub, r);
      WrittenSnoc(base, steps, n, sub, r);
      forall j
        ensures WrittenAt(base, steps, j, sub, r)
          <==> ((j == n && Writes(s, steps[n], sub, r))
                || (WrittenAt(base, steps[..n], j, sub, r) && !Touches(s, steps[n], sub)))
      {
        WrittenSnoc(base, steps, j, sub, r);
      }
      if j :| WrittenAt(base, steps[..n], j, sub, r) {
        WrittenSnoc(base, steps, j, sub, r);
      }
    }
  }

  // ---- Refreshers ------------------------------------------------------------------------------

  /** The step that starts a pass of the refresher of instance i, its start with nothing to write included. */
  predicate StartsPass(step: Step, i: R.InstanceId) {
    step == Boot(i) || step == Snapshot(i)
  }

  /** The last pass of instance i began with step j. */
  ghost predicate PassFrom(steps: seq<Step>, i: R.InstanceId, j: int) {
    && 0 <= j < |steps| && StartsPass(steps[j], i)
    && forall m | j < m < |steps| :: !StartsPass(steps[m], i)
  }

  /** Some step since step j tried to write this name for instance i. */
  ghost predicate RewrittenSince(steps: seq<Step>, j: int, i: R.InstanceId, sub: Label) {
    exists m :: 0 <= m < |steps| && j < m && steps[m].Rewrite? && steps[m].i == i && steps[m].sub == sub
  }

  lemma StartStep(s: State, i: R.InstanceId, step: Step)
    requires Enabled(s, step) && StartsPass(step, i)
    ensures var t := Apply(s, step);
      && i in t.refresh && t.refresh[i].started == s.now
      && t.refresh[i].todo == (if step.Boot? then {} else s.regs[i].Keys)
      && (step.Boot? <==> i !in s.refresh)
      && t.refresh[i].done == if t.refresh[i].todo == {} then s.now else s.refresh[i].done
  {
  }

  lemma PassStep(s: State, i: R.InstanceId, step: Step)
    requires Enabled(s, step) && !StartsPass(step, i) && i in s.refresh
    ensures var t := Apply(s, step); var mine := step.Rewrite? && step.i == i;
      && i in t.refresh && t.refresh[i].started == s.refresh[i].started
      && t.refresh[i].todo == s.refresh[i].todo - (if mine then {step.sub} else {})
      && t.refresh[i].done
         == if mine && t.refresh[i].todo == {} then s.refresh[i].started else s.refresh[i].done
  {
    hide FreshTunnel, SetStatus, Address.PublicUrl, R.Added, R.Removed, R.SetRoute;
    if !(step.Rewrite? && step.i == i) {
      NotRefreshed(s, i, step);
      hide Apply, Enabled;
    }
  }

  lemma NotRefreshed(s: State, i: R.InstanceId, step: Step)
    requires Enabled(s, step) && !StartsPass(step, i) && i in s.refresh && !(step.Rewrite? && step.i == i)
    ensures i in Apply(s, step).refresh && Apply(s, step).refresh[i] == s.refresh[i]
  {
    hide FreshTunnel, SetStatus, Address.PublicUrl, R.Added, R.Removed, R.SetRoute;
  }

  lemma NoRefresher(s: State, i: R.InstanceId, step: Step)
    requires Enabled(s, step) && !StartsPass(step, i) && i !in s.refresh
    ensures i !in Apply(s, step).refresh
  {
    hide FreshTunnel, SetStatus, Address.PublicUrl, R.Added, R.Removed, R.SetRoute;
  }

  lemma PassSnoc(steps: seq<Step>, i: R.InstanceId, j: int)
    requires steps != []
    ensures var n := |steps| - 1;
      PassFrom(steps, i, j)
      <==> if StartsPass(steps[n], i) then j == n else PassFrom(steps[..n], i, j)
  {
    var n := |steps| - 1;
    assert forall m | 0 <= m < n :: steps[..n][m] == steps[m];
    assert j < n && PassFrom(steps, i, j) ==> !StartsPass(steps[n], i);
  }

  lemma RewrittenSnoc(steps: seq<Step>, j: int, i: R.InstanceId, sub: Label)
    requires steps != [] && j < |steps| - 1
    ensures var n := |steps| - 1;
      RewrittenSince(steps, j, i, sub)
      <==> (RewrittenSince(steps[..n], j, i, sub)
            || (steps[n].Rewrite? && steps[n].i == i && steps[n].sub == sub))
  {
    var n := |steps| - 1;
    assert forall m | 0 <= m < n :: steps[..n][m] == steps[m];
    if RewrittenSince(steps[..n], j, i, sub) {
      var m :| 0 <= m < n && j < m && steps[..n][m].Rewrite? && steps[..n][m].i == i && steps[..n][m].sub == sub;
      assert steps[m].Rewrite? && steps[m].i == i && steps[m].sub == sub;
    }
    if RewrittenSince(steps, j, i, sub) && !(steps[n].Rewrite? && steps[n].i == i && steps[n].sub == sub) {
      var m :| 0 <= m < |steps| && j < m && steps[m].Rewrite? && steps[m].i == i && steps[m].sub == sub;
      assert steps[..n][m].Rewrite? && steps[..n][m].i == i && steps[..n][m].sub == sub;
    }
  }

  /** What a refresher holds after the pass that began with step j in state s. */
  ghost predicate InPass(s: State, t: State, steps: seq<Step>, i: R.InstanceId, j: int)
    requires 0 <= j < |steps|
  {
    && i in t.refresh && t.refresh[i].started == s.now
    && (forall sub :: sub in t.refresh[i].todo <==>
      steps[j].Snapshot? && i in s.regs && sub in s.regs[i] && !RewrittenSince(steps, j, i, sub))
    && (steps[j].Snapshot? ==> i in s.refresh)
    && t.refresh[i].done == if t.refresh[i].todo == {} then s.now else s.refresh[i].done
  }

  /** In every run a refresher's clock is the start of its last pass; still to write are the names its registry held
    * then and that it has not tried since; and its last finished pass is this one exactly when nothing is left. */
  lemma {:induction false} RefresherMeaning(base: string, steps: seq<Step>, i: R.InstanceId, j: int)
    requires Legal(Init(base), steps)
    ensures i in Play(Init(base), steps).refresh <==> exists x :: PassFrom(steps, i, x)
    ensures PassFrom(steps, i, j) ==> Legal(Init(base), steps[..j])
    ensures PassFrom(steps, i, j) ==> InPass(Play(Init(base), steps[..j]), Play(Init(base), steps), steps, i, j)
    decreases |steps|
  {
    if steps != [] {
      var n := |steps| - 1;
      var s := Play(Init(base), steps[..n]);
      PassSnoc(steps, i, j);
      RefresherMeaning(base, steps[..n], i, j);
      hide Apply, Enabled, PassFrom, StartsPass;
      if StartsPass(steps[n], i) {
        StartStep(s, i, steps[n]);
        assert PassFrom(steps, i, n) by { PassSnoc(steps, i, n); }
        if j == n { NothingSince(steps, i); }
      } else {
        forall x ensures PassFrom(steps, i, x) <==> PassFrom(steps[..n], i, x) { PassSnoc(steps, i, x); }
        if i in s.refresh { PassStep(s, i, steps[n]); } else { NoRefresher(s, i, steps[n]); }
        if PassFrom(steps[..n], i, j) {
          PassBefore(steps[..n], i, j);
          assert steps[..n][..j] == steps[..j];
          forall sub { RewrittenSnoc(steps, j, i, sub); }
          PassGoesOn(Play(Init(base), steps[..j]), s, Play(Init(base), steps), steps, i, j);
        }
      }
    } else {
      forall x ensures !PassFrom(steps, i, x) { }
    }
  }

  lemma PassBefore(steps: seq<Step>, i: R.InstanceId, j: int)
    requires PassFrom(steps, i, j)
    ensures 0 <= j < |steps|
  {
  }

  lemma NothingSince(steps: seq<Step>, i: R.InstanceId)
    ensures var n := |steps| - 1; forall sub :: !RewrittenSince(steps, n, i, sub)
  {
  }

  lemma PassGoesOn(a: State, s: State, t: State, steps: seq<Step>, i: R.InstanceId, j: int)
    requires 0 <= j < |steps| - 1 && InPass(a, s, steps[..|steps| - 1], i, j) && i in t.refresh
    requires var step := steps[|steps| - 1]; var mine := step.Rewrite? && step.i == i;
      && t.refresh[i].started == s.refresh[i].started
      && t.refresh[i].todo == s.refresh[i].todo - (if mine then {step.sub} else {})
      && t.refresh[i].done
         == if mine && t.refresh[i].todo == {} then s.refresh[i].started else s.refresh[i].done
    requires forall sub :: var n := |steps| - 1;
      RewrittenSince(steps, j, i, sub)
      <==> (RewrittenSince(steps[..n], j, i, sub)
            || (steps[n].Rewrite? && steps[n].i == i && steps[n].sub == sub))
    ensures InPass(a, t, steps, i, j)
  {
    hide RewrittenSince;
  }
}
