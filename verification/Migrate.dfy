/** The migration runner: each file is applied in one transaction together with its row in
  * schema_migrations, whose primary key is the version. Modelled first for any number of
  * runners interleaved transaction by transaction and failing anywhere, then as the loop
  * of one runner. `exec` is the effect of a file's SQL on a schema, None being an error.
  */
module Migrate {
  import opened Wrappers

  type Exec<!S> = (S, string) -> Option<S>

  /** `versions` are the rows of schema_migrations in commit order. */
  datatype Db<S> = Db(tracked: bool, versions: seq<string>, schema: S)

  /** One transaction: the file's SQL, then the version row; if either fails the transaction is rolled back. */
  function Transaction<S>(exec: Exec<S>, db: Db<S>, name: string): Option<Db<S>> {
    match exec(db.schema, name)
    case None => None
    case Some(s) => if name in db.versions then None else Some(db.(versions := db.versions + [name], schema := s))
  }

  function Fold<S>(exec: Exec<S>, s: S, names: seq<string>): Option<S> {
    if names == [] then Some(s)
    else match Fold(exec, s, names[..|names| - 1])
      case None => None
      case Some(t) => exec(t, names[|names| - 1])
  }

  ghost predicate Distinct(files: seq<string>) {
    forall i, j | 0 <= i < j < |files| :: files[i] != files[j]
  }

  /** The committed versions are a prefix of the files, in order, and the schema is what these files make of s0. */
  ghost predicate Consistent<S>(exec: Exec<S>, s0: S, files: seq<string>, db: Db<S>) {
    && |db.versions| <= |files| && db.versions == files[..|db.versions|]
    && Fold(exec, s0, db.versions) == Some(db.schema)
  }

  /** A transaction for a file whose predecessors are all committed extends the prefix, or does not commit. */
  lemma TransactionExtends<S>(exec: Exec<S>, s0: S, files: seq<string>, db: Db<S>, next: nat)
    requires Distinct(files) && Consistent(exec, s0, files, db) && next < |files| && next <= |db.versions|
    requires Transaction(exec, db, files[next]).Some?
    ensures next == |db.versions| && Consistent(exec, s0, files, Transaction(exec, db, files[next]).value)
  {
  }

  // ---- Concurrent runners ---------------------------------------------------------------

  datatype Runner = New | Prepared | Running(applied: set<string>, next: nat) | Succeeded | Failed

  datatype State<S> = State(db: Db<S>, runners: map<nat, Runner>)

  datatype Step =
    | Join(r: nat)
    | CreateTable(r: nat)
    | Snapshot(r: nat)            // read schema_migrations, outside any transaction
    | Skip(r: nat)
    | Commit(r: nat, acked: bool) // the commit happens; its confirmation may be lost
    | Finish(r: nat)
    | Fail(r: nat)                // any error, or the process dies; nothing is committed

  predicate IsRunning(runners: map<nat, Runner>, r: nat, files: seq<string>) {
    r in runners && runners[r].Running? && runners[r].next < |files|
  }

  ghost predicate Enabled<S>(exec: Exec<S>, files: seq<string>, s: State<S>, step: Step) {
    match step
    case Join(r) => r !in s.runners
    case CreateTable(r) => r in s.runners && s.runners[r] == New
    case Snapshot(r) => r in s.runners && s.runners[r] == Prepared
    case Skip(r) => IsRunning(s.runners, r, files) && files[s.runners[r].next] in s.runners[r].applied
    case Commit(r, _) =>
      && IsRunning(s.runners, r, files) && files[s.runners[r].next] !in s.runners[r].applied
      && Transaction(exec, s.db, files[s.runners[r].next]).Some?
    case Finish(r) => r in s.runners && s.runners[r].Running? && s.runners[r].next == |files|
    case Fail(r) => r in s.runners && !s.runners[r].Succeeded?
  }

  ghost function Apply<S>(exec: Exec<S>, files: seq<string>, s: State<S>, step: Step): State<S>
    requires Enabled(exec, files, s, step)
  {
    match step
    case Join(r) => s.(runners := s.runners[r := New])
    case CreateTable(r) => s.(runners := s.runners[r := Prepared], db := s.db.(tracked := true))
    case Snapshot(r) => s.(runners := s.runners[r := Running(set v | v in s.db.versions, 0)])
    case Skip(r) => s.(runners := s.runners[r := s.runners[r].(next := s.runners[r].next + 1)])
    case Commit(r, acked) =>
      State(Transaction(exec, s.db, files[s.runners[r].next]).value,
            s.runners[r := if acked then s.runners[r].(next := s.runners[r].next + 1) else Failed])
    case Finish(r) => s.(runners := s.runners[r := Succeeded])
    case Fail(r) => s.(runners := s.runners[r := Failed])
  }

  ghost predicate Legal<S>(exec: Exec<S>, files: seq<string>, s: State<S>, steps: seq<Step>)
    decreases |steps|, 0
  {
    steps == [] ||
    (Legal(exec, files, s, steps[..|steps| - 1])
     && Enabled(exec, files, Play(exec, files, s, steps[..|steps| - 1]), steps[|steps| - 1]))
  }

  ghost function Play<S>(exec: Exec<S>, files: seq<string>, s: State<S>, steps: seq<Step>): State<S>
    requires Legal(exec, files, s, steps)
    decreases |steps|, 1
  {
    if steps == [] then s else Apply(exec, files, Play(exec, files, s, steps[..|steps| - 1]), steps[|steps| - 1])
  }

  /** A runner knows its predecessors are committed: it saw them in its snapshot or committed them itself. */
  ghost predicate RunnerOk(files: seq<string>, versions: seq<string>, r: Runner) {
    match r
    case Running(applied, next) => next <= |versions| <= |files| && forall v | v in applied :: v in versions
    case Succeeded => versions == files
    case _ => true
  }

  ghost predicate Inv<S>(exec: Exec<S>, s0: S, files: seq<string>, s: State<S>) {
    Consistent(exec, s0, files, s.db) && forall r | r in s.runners :: RunnerOk(files, s.db.versions, s.runners[r])
  }

  lemma StepKeeps<S>(exec: Exec<S>, s0: S, files: seq<string>, s: State<S>, step: Step)
    requires Distinct(files) && Inv(exec, s0, files, s) && Enabled(exec, files, s, step)
    ensures Inv(exec, s0, files, Apply(exec, files, s, step))
    ensures s.db.versions <= Apply(exec, files, s, step).db.versions
  {
  }

  lemma SkipIsCommitted<S>(exec: Exec<S>, s0: S, files: seq<string>, s: State<S>, r: nat)
    requires Distinct(files) && Inv(exec, s0, files, s) && Enabled(exec, files, s, Skip(r))
    ensures s.runners[r].next < |s.db.versions|
  {
  }

  /** With any number of runners, interleaved and failing anywhere: committed versions are always a prefix of the
    * sorted files, each committed once, the schema is the fold of that prefix, and a runner that reports
    * success finds all files committed. */
  lemma {:induction false} CommittedIsPrefix<S>(exec: Exec<S>, s0: S, files: seq<string>, steps: seq<Step>)
    requires Distinct(files) && Legal(exec, files, State(Db(false, [], s0), map[]), steps)
    ensures Inv(exec, s0, files, Play(exec, files, State(Db(false, [], s0), map[]), steps))
    ensures Distinct(Play(exec, files, State(Db(false, [], s0), map[]), steps).db.versions)
    decreases |steps|
  {
    if steps != [] {
      hide Enabled, Apply;
      CommittedIsPrefix(exec, s0, files, steps[..|steps| - 1]);
      StepKeeps(exec, s0, files, Play(exec, files, State(Db(false, [], s0), map[]), steps[..|steps| - 1]),
        steps[|steps| - 1]);
    }
  }

  lemma Append<S>(exec: Exec<S>, files: seq<string>, s: State<S>, steps: seq<Step>, step: Step)
    requires Legal(exec, files, s, steps) && Enabled(exec, files, Play(exec, files, s, steps), step)
    ensures Legal(exec, files, s, steps + [step])
    ensures Play(exec, files, s, steps + [step]) == Apply(exec, files, Play(exec, files, s, steps), step)
  {
    hide Enabled, Apply;
    assert (steps + [step])[..|steps|] == steps;
  }

  /** t comes after s. */
  ghost predicate Leads<S>(exec: Exec<S>, files: seq<string>, s: State<S>, t: State<S>) {
    exists more :: Legal(exec, files, s, more) && Play(exec, files, s, more) == t
  }

  lemma LeadsOn<S>(exec: Exec<S>, files: seq<string>, s: State<S>, t: State<S>, step: Step)
    requires Leads(exec, files, s, t) && Enabled(exec, files, t, step)
    ensures Leads(exec, files, s, Apply(exec, files, t, step))
  {
    var more :| Legal(exec, files, s, more) && Play(exec, files, s, more) == t;
    hide Legal, Play, Enabled, Apply;
    Append(exec, files, s, more, step);
    assert Play(exec, files, s, more + [step]) == Apply(exec, files, t, step);
  }

  /** A runner that has taken its snapshot can go through the rest of the files when they apply. */
  lemma {:induction false} RunnerFinishes<S>(exec: Exec<S>, s0: S, files: seq<string>, s: State<S>, t: State<S>, r: nat)
    returns (u: State<S>)
    requires Distinct(files) && Inv(exec, s0, files, t) && Fold(exec, s0, files).Some? && Leads(exec, files, s, t)
    requires r in t.runners && t.runners[r].Running?
    requires forall j | t.runners[r].next <= j < |t.db.versions| :: t.db.versions[j] in t.runners[r].applied
    ensures Leads(exec, files, s, u) && r in u.runners && u.runners[r] == Succeeded
    decreases |files| - t.runners[r].next
  {
    assert RunnerOk(files, t.db.versions, t.runners[r]);
    var k := t.runners[r].next;
    var step := if k == |files| then Finish(r)
                else if files[k] in t.runners[r].applied then Skip(r) else Commit(r, true);
    if step.Commit? { CommitEnabled(exec, s0, files, t, r); }
    hide Leads, Inv, Distinct, Fold;
    LeadsOn(exec, files, s, t, step);
    u := Apply(exec, files, t, step);
    StepKeeps(exec, s0, files, t, step);
    if k < |files| { u := RunnerFinishes(exec, s0, files, s, u, r); }
  }

  lemma CommitEnabled<S>(exec: Exec<S>, s0: S, files: seq<string>, t: State<S>, r: nat)
    requires Distinct(files) && Inv(exec, s0, files, t) && Fold(exec, s0, files).Some?
    requires IsRunning(t.runners, r, files) && files[t.runners[r].next] !in t.runners[r].applied
    requires forall j | t.runners[r].next <= j < |t.db.versions| :: t.db.versions[j] in t.runners[r].applied
    ensures Enabled(exec, files, t, Commit(r, true)) && t.runners[r].next == |t.db.versions|
  {
    assert RunnerOk(files, t.db.versions, t.runners[r]);
    hide Distinct, Fold;
    NotYet(exec, s0, files, t.db, t.runners[r].applied, t.runners[r].next);
    FoldPrefix(exec, s0, files, t.runners[r].next + 1);
    NextApplies(exec, s0, files, t.db);
    hide Inv, Consistent, Transaction, RunnerOk;
  }

  lemma NextApplies<S>(exec: Exec<S>, s0: S, files: seq<string>, db: Db<S>)
    requires Distinct(files) && Consistent(exec, s0, files, db) && |db.versions| < |files|
    requires Fold(exec, s0, files[..|db.versions| + 1]).Some?
    ensures Transaction(exec, db, files[|db.versions|]).Some?
  {
    hide Distinct, Fold, Consistent, Transaction;
    AppliesNext(exec, s0, files, db, map[]);
  }

  ghost predicate Succeeds<S>(exec: Exec<S>, files: seq<string>, s: State<S>, more: seq<Step>, r: nat) {
    && Legal(exec, files, s, more)
    && r in Play(exec, files, s, more).runners && Play(exec, files, s, more).runners[r] == Succeeded
  }

  lemma FreshRunner(used: set<nat>) returns (r: nat)
    ensures forall x | x in used :: x < r
  {
    if used == {} {
      r := 0;
    } else {
      var x :| x in used;
      var y := FreshRunner(used - {x});
      r := if x < y then y else x + 1;
      forall z | z in used ensures z < r { assert z == x || z in used - {x}; }
    }
  }

  lemma NewRunner<S>(exec: Exec<S>, s0: S, files: seq<string>, s: State<S>) returns (t: State<S>, r: nat)
    requires Distinct(files) && Inv(exec, s0, files, s)
    ensures Leads(exec, files, s, t) && Inv(exec, s0, files, t)
    ensures r in t.runners && t.runners[r] == Running(set v | v in t.db.versions, 0)
  {
    assert Leads(exec, files, s, s) by { assert Legal(exec, files, s, []) && Play(exec, files, s, []) == s; }
    hide Leads, Inv;
    r := FreshRunner(s.runners.Keys);
    LeadsOn(exec, files, s, s, Join(r));
    StepKeeps(exec, s0, files, s, Join(r));
    t := Apply(exec, files, s, Join(r));
    LeadsOn(exec, files, s, t, CreateTable(r));
    StepKeeps(exec, s0, files, t, CreateTable(r));
    t := Apply(exec, files, t, CreateTable(r));
    LeadsOn(exec, files, s, t, Snapshot(r));
    StepKeeps(exec, s0, files, t, Snapshot(r));
    t := Apply(exec, files, t, Snapshot(r));
  }

  /** Whatever the runners before it did and however they died, some runner can still succeed, from every reachable
    * state, if and only if the files apply in order. */
  lemma SomeRunnerCanSucceed<S>(exec: Exec<S>, s0: S, files: seq<string>, steps: seq<Step>)
    requires Distinct(files) && Legal(exec, files, State(Db(false, [], s0), map[]), steps)
    ensures var s := Play(exec, files, State(Db(false, [], s0), map[]), steps);
      (exists more, r :: Succeeds(exec, files, s, more, r)) <==> Fold(exec, s0, files).Some?
  {
    var s := Play(exec, files, State(Db(false, [], s0), map[]), steps);
    CommittedIsPrefix(exec, s0, files, steps);
    hide Legal, Play, Distinct, Fold, Inv;
    if Fold(exec, s0, files).Some? {
      var t, r := NewRunner(exec, s0, files, s);
      var u := RunnerFinishes(exec, s0, files, s, t, r);
      var more :| Legal(exec, files, s, more) && Play(exec, files, s, more) == u;
      assert Succeeds(exec, files, s, more, r);
    }
    forall more, r | Succeeds(exec, files, s, more, r)
      ensures Fold(exec, s0, files).Some?
    {
      InvOver(exec, s0, files, s, more);
      SuccessMeansAll(exec, s0, files, Play(exec, files, s, more), r);
    }
  }

  lemma SuccessMeansAll<S>(exec: Exec<S>, s0: S, files: seq<string>, s: State<S>, r: nat)
    requires Inv(exec, s0, files, s) && r in s.runners && s.runners[r] == Succeeded
    ensures Fold(exec, s0, files) == Some(s.db.schema)
  {
    assert RunnerOk(files, s.db.versions, s.runners[r]);
  }

  lemma {:induction false} InvOver<S>(exec: Exec<S>, s0: S, files: seq<string>, s: State<S>, more: seq<Step>)
    requires Distinct(files) && Inv(exec, s0, files, s) && Legal(exec, files, s, more)
    ensures Inv(exec, s0, files, Play(exec, files, s, more))
    decreases |more|
  {
    if more != [] {
      hide Enabled, Apply, Inv, Distinct;
      InvOver(exec, s0, files, s, more[..|more| - 1]);
      StepKeeps(exec, s0, files, Play(exec, files, s, more[..|more| - 1]), more[|more| - 1]);
    }
  }

  /** Something went wrong for runner r: an error, its death, or a commit whose confirmation it did not get. */
  predicate Hurts(step: Step, r: nat) {
    step == Fail(r) || step == Commit(r, false)
  }

  /** A runner that reports success met no error and lost no confirmation, in every run; one that did can only fail. */
  lemma {:induction false} SuccessIsClean<S>(exec: Exec<S>, s0: S, files: seq<string>, steps: seq<Step>, r: nat)
    requires Legal(exec, files, State(Db(false, [], s0), map[]), steps)
    ensures var t := Play(exec, files, State(Db(false, [], s0), map[]), steps);
      && (r in t.runners <==> Join(r) in steps)
      && (r in t.runners && t.runners[r] == Failed <==> exists step :: step in steps && Hurts(step, r))
      && (r in t.runners && t.runners[r] == Succeeded <==> Finish(r) in steps)
    decreases |steps|
  {
    if steps != [] {
      var init, step := steps[..|steps| - 1], steps[|steps| - 1];
      assert steps == init + [step];
      SuccessIsClean(exec, s0, files, init, r);
      hide Hurts;
      RunnerStep(exec, files, Play(exec, files, State(Db(false, [], s0), map[]), init), step, r);
      assert forall x :: x in steps <==> x in init || x == step;
    }
  }

  /** The table of versions is there exactly when some runner has created it, and no runner reads it before that. */
  lemma {:induction false} TableIsCreatedFirst<S>(exec: Exec<S>, s0: S, files: seq<string>, steps: seq<Step>)
    requires Legal(exec, files, State(Db(false, [], s0), map[]), steps)
    ensures var t := Play(exec, files, State(Db(false, [], s0), map[]), steps);
      && (t.db.tracked <==> exists r :: CreateTable(r) in steps)
      && (forall r | r in t.runners && (t.runners[r].Prepared? || t.runners[r].Running?) :: t.db.tracked)
    decreases |steps|
  {
    if steps != [] {
      var init, step := steps[..|steps| - 1], steps[|steps| - 1];
      assert steps == init + [step];
      TableIsCreatedFirst(exec, s0, files, init);
      TrackedStep(exec, files, Play(exec, files, State(Db(false, [], s0), map[]), init), step);
      hide Enabled, Apply;
      assert forall x :: x in steps <==> x in init || x == step;
      if r :| CreateTable(r) in init { assert CreateTable(r) in steps; }
      if step.CreateTable? { assert CreateTable(step.r) in steps; }
    }
  }

  lemma TrackedStep<S>(exec: Exec<S>, files: seq<string>, s: State<S>, step: Step)
    requires Enabled(exec, files, s, step)
    requires forall r | r in s.runners && (s.runners[r].Prepared? || s.runners[r].Running?) :: s.db.tracked
    ensures var t := Apply(exec, files, s, step);
      && (t.db.tracked <==> s.db.tracked || step.CreateTable?)
      && (forall r | r in t.runners && (t.runners[r].Prepared? || t.runners[r].Running?) :: t.db.tracked)
  {
  }

  lemma RunnerStep<S>(exec: Exec<S>, files: seq<string>, s: State<S>, step: Step, r: nat)
    requires Enabled(exec, files, s, step)
    ensures var t := Apply(exec, files, s, step);
      && (r in t.runners <==> r in s.runners || step == Join(r))
      && (r in t.runners && t.runners[r] == Failed
          <==> (r in s.runners && s.runners[r] == Failed) || Hurts(step, r))
      && (r in t.runners && t.runners[r] == Succeeded
          <==> (r in s.runners && s.runners[r] == Succeeded) || step == Finish(r))
  {
    hide Transaction;
  }

  // ---- One runner's loop ----------------------------------------------------------------

  /** What the environment does to one file's transaction: lost before commit, or committed with the confirmation
    * lost. */
  datatype Fault = NotCommitted | LostAck

  /** The environment of one run: whether creating the table and reading it work, and the faults by file. */
  datatype Env = Env(creates: bool, queries: bool, faults: map<string, Fault>)

  const CLEAN := Env(true, true, map[])

  datatype Outcome<S> = Outcome(db: Db<S>, ok: bool)

  function ApplyFile<S>(exec: Exec<S>, db: Db<S>, name: string, faults: map<string, Fault>): Outcome<S> {
    if name in faults && faults[name] == NotCommitted then Outcome(db, false)
    else match Transaction(exec, db, name)
      case None => Outcome(db, false)
      case Some(d) => Outcome(d, name !in faults)
  }

  function UpFrom<S>(exec: Exec<S>, db: Db<S>, applied: set<string>, files: seq<string>, faults: map<string, Fault>)
    : Outcome<S>
    decreases |files|
  {
    if files == [] then Outcome(db, true)
    else if files[0] in applied then UpFrom(exec, db, applied, files[1..], faults)
    else
      var o := ApplyFile(exec, db, files[0], faults);
      if o.ok then UpFrom(exec, o.db, applied, files[1..], faults) else o
  }

  /** One run of the migrator as a function of the database it finds. */
  function RunOnce<S>(exec: Exec<S>, db: Db<S>, files: seq<string>, env: Env): Outcome<S> {
    if !env.creates then Outcome(db, false)
    else if !env.queries then Outcome(db.(tracked := true), false)
    else UpFrom(exec, db.(tracked := true), (set v | v in db.versions), files, env.faults)
  }

  /** The database behind the pool, changed in place by the runner. */
  class Database<S> {
    const exec: Exec<S>
    var db: Db<S>

    constructor (exec: Exec<S>, s0: S)
      ensures this.exec == exec && db == Db(false, [], s0)
    {
      this.exec, db := exec, Db(false, [], s0);
    }

    method AppliedVersions() returns (applied: set<string>)
      ensures forall v :: v in applied <==> v in db.versions
    {
      applied := {};
      var i := 0;
      while i < |db.versions|
        invariant 0 <= i <= |db.versions|
        invariant forall v :: v in applied <==> v in db.versions[..i]
      {
        applied := applied + {db.versions[i]};
        i := i + 1;
      }
      assert db.versions[..i] == db.versions;
    }

    method Up(files: seq<string>, env: Env) returns (ok: bool)
      modifies this`db
      ensures Outcome(db, ok) == RunOnce(exec, old(db), files, env)
    {
      if !env.creates { return false; }
      db := db.(tracked := true);
      if !env.queries { return false; }
      var applied := AppliedVersions();
      assert applied == (set v | v in old(db).versions);
      var i := 0;
      while i < |files|
        invariant 0 <= i <= |files|
        invariant UpFrom(exec, db, applied, files[i..], env.faults)
               == UpFrom(exec, old(db).(tracked := true), applied, files, env.faults)
      {
        if files[i] !in applied {
          if files[i] in env.faults && env.faults[files[i]] == NotCommitted { return false; }
          var done := Transaction(exec, db, files[i]);
          if done.None? { return false; }
          db := done.value;
          if files[i] in env.faults { return false; }
        }
        i := i + 1;
      }
      ok := true;
    }
  }

  /** What a run, whatever happens to it, does to a consistent database. */
  ghost predicate Advanced<S>(exec: Exec<S>, s0: S, files: seq<string>, db: Db<S>, o: Outcome<S>) {
    && Consistent(exec, s0, files, o.db) && db.versions <= o.db.versions && o.db.tracked == db.tracked
    && (o.ok ==> o.db.versions == files)
  }

  lemma AdvancedThrough<S>(exec: Exec<S>, s0: S, files: seq<string>, db: Db<S>, mid: Db<S>, o: Outcome<S>)
    requires db.versions <= mid.versions && mid.tracked == db.tracked && Advanced(exec, s0, files, mid, o)
    ensures Advanced(exec, s0, files, db, o)
  {
    assert forall j | 0 <= j < |db.versions| :: db.versions[j] == mid.versions[j] == o.db.versions[j];
  }

  /** With files[..k] committed, the loop keeps the database consistent, only adds versions, and when it ends
    * well has committed every file. */
  lemma {:induction false} UpFromKeeps<S>(exec: Exec<S>, s0: S, files: seq<string>, db: Db<S>, applied: set<string>,
                                          k: nat, faults: map<string, Fault>)
    requires Distinct(files) && Consistent(exec, s0, files, db)
    requires k <= |db.versions| && forall v | v in applied :: v in db.versions
    ensures Advanced(exec, s0, files, db, UpFrom(exec, db, applied, files[k..], faults))
    decreases |files| - k
  {
    if k == |files| {
      assert db.versions == files;
    } else {
      assert files[k..][0] == files[k] && files[k..][1..] == files[k + 1..];
      if files[k] in applied {
        CommittedIsBehind(files, db.versions, k);
        UpFromKeeps(exec, s0, files, db, applied, k + 1, faults);
      } else {
        hide Consistent, Distinct, ApplyFile, Advanced;
        var o := ApplyFile(exec, db, files[k], faults);
        ApplyFileKeeps(exec, s0, files, db, k, faults);
        if o.ok {
          UpFromKeeps(exec, s0, files, o.db, applied, k + 1, faults);
          AdvancedThrough(exec, s0, files, db, o.db, UpFrom(exec, o.db, applied, files[k + 1..], faults));
        }
      }
    }
  }

  lemma ApplyFileKeeps<S>(exec: Exec<S>, s0: S, files: seq<string>, db: Db<S>, k: nat, faults: map<string, Fault>)
    requires Distinct(files) && Consistent(exec, s0, files, db) && k < |files| && k <= |db.versions|
    ensures var o := ApplyFile(exec, db, files[k], faults);
      && Consistent(exec, s0, files, o.db) && db.versions <= o.db.versions && o.db.tracked == db.tracked
      && (if o.ok then k < |o.db.versions| else Advanced(exec, s0, files, db, o))
  {
    if Transaction(exec, db, files[k]).Some? { TransactionExtends(exec, s0, files, db, k); }
  }

  lemma CommittedIsBehind(files: seq<string>, versions: seq<string>, k: nat)
    requires Distinct(files) && versions <= files && k < |files| && files[k] in versions
    ensures k < |versions|
  {
  }

  lemma {:induction false} FoldPrefix<S>(exec: Exec<S>, s: S, names: seq<string>, n: nat)
    requires n <= |names| && Fold(exec, s, names).Some?
    ensures Fold(exec, s, names[..n]).Some?
    decreases |names|
  {
    if n < |names| {
      assert names[..|names| - 1][..n] == names[..n];
      FoldPrefix(exec, s, names[..|names| - 1], n);
    } else {
      assert names[..n] == names;
    }
  }

  /** The next file is committed by a run that applies it without a fault. */
  lemma AppliesNext<S>(exec: Exec<S>, s0: S, files: seq<string>, db: Db<S>, faults: map<string, Fault>)
    requires Distinct(files) && Consistent(exec, s0, files, db) && |db.versions| < |files|
    ensures var k := |db.versions|; var o := ApplyFile(exec, db, files[k], faults);
      && (o.ok ==>
        Consistent(exec, s0, files, o.db) && o.db.versions == db.versions + [files[k]] && files[k] !in faults)
      && (Fold(exec, s0, files[..k + 1]).Some? && files[k] !in faults ==> o.ok)
  {
    var k := |db.versions|;
    assert files[..k + 1][..k] == db.versions && files[k] !in db.versions;
    if Transaction(exec, db, files[k]).Some? { TransactionExtends(exec, s0, files, db, k); }
  }

  lemma NotYet<S>(exec: Exec<S>, s0: S, files: seq<string>, db: Db<S>, applied: set<string>, k: nat)
    requires Consistent(exec, s0, files, db) && k < |files| && k <= |db.versions| && files[k] !in applied
    requires forall j | k <= j < |db.versions| :: db.versions[j] in applied
    ensures k == |db.versions|
  {
  }

  /** Without a fault at a file that is still to be applied, the loop ends well. */
  lemma {:induction false} UpFromSucceeds<S>(exec: Exec<S>, s0: S, files: seq<string>, db: Db<S>, applied: set<string>,
                                             k: nat, faults: map<string, Fault>)
    requires Distinct(files) && Consistent(exec, s0, files, db) && Fold(exec, s0, files).Some?
    requires k <= |db.versions| && forall v | v in applied :: v in db.versions
    requires forall j | k <= j < |db.versions| :: db.versions[j] in applied
    requires forall j | k <= j < |files| :: files[j] in faults ==> files[j] in applied
    ensures UpFrom(exec, db, applied, files[k..], faults).ok
    decreases |files| - k
  {
    if k < |files| {
      assert files[k..][0] == files[k] && files[k..][1..] == files[k + 1..];
      if files[k] in applied {
        CommittedIsBehind(files, db.versions, k);
        UpFromSucceeds(exec, s0, files, db, applied, k + 1, faults);
      } else {
        NotYet(exec, s0, files, db, applied, k);
        FoldPrefix(exec, s0, files, k + 1);
        AppliesNext(exec, s0, files, db, faults);
        hide Consistent, Distinct, Fold, ApplyFile;
        UpFromSucceeds(exec, s0, files, ApplyFile(exec, db, files[k], faults).db, applied, k + 1, faults);
      }
    }
  }

  /** The loop ends well only past files without a fault. */
  lemma {:induction false} SuccessMeetsNoFault<S>(exec: Exec<S>, db: Db<S>, applied: set<string>, files: seq<string>,
                                                  faults: map<string, Fault>)
    requires UpFrom(exec, db, applied, files, faults).ok
    ensures forall f | f in files && f in faults :: f in applied
    decreases |files|
  {
    if files != [] {
      assert files == [files[0]] + files[1..];
      SuccessMeetsNoFault(exec, if files[0] in applied then db else ApplyFile(exec, db, files[0], faults).db, applied,
        files[1..], faults);
    }
  }

  /** None of files[from..n] meets a fault. */
  ghost predicate NoFaults(files: seq<string>, faults: map<string, Fault>, from: nat, n: nat) {
    forall j | from <= j < n && j < |files| :: files[j] !in faults
  }

  /** Why a run ended after n committed files, having found `from` of them: all files are there; or the confirmation of
    * the last one it committed was lost; or the next one does not apply or its transaction was lost. No file it went
    * past had a fault. */
  ghost predicate StopsAt<S>(exec: Exec<S>, s0: S, files: seq<string>, faults: map<string, Fault>, from: nat, n: nat,
                             ok: bool)
    requires from <= n <= |files|
  {
    && (forall j | from <= j < n && files[j] in faults :: j == n - 1 && !ok && faults[files[j]] == LostAck)
    && (ok ==> n == |files|)
    && (!ok ==>
      || (from < n && files[n - 1] in faults)
      || (n < |files| && files[n] in faults && faults[files[n]] == NotCommitted)
      || (n < |files| && Fold(exec, s0, files[..n + 1]) == None))
  }

  /** What a file that ends the loop leaves behind. */
  lemma StopsHere<S>(exec: Exec<S>, s0: S, files: seq<string>, db: Db<S>, faults: map<string, Fault>, from: nat)
    requires Distinct(files) && Consistent(exec, s0, files, db) && from <= |db.versions| < |files|
    requires !ApplyFile(exec, db, files[|db.versions|], faults).ok
    requires NoFaults(files, faults, from, |db.versions|)
    ensures var o := ApplyFile(exec, db, files[|db.versions|], faults);
      |db.versions| <= |o.db.versions| <= |files|
      && StopsAt(exec, s0, files, faults, from, |o.db.versions|, false)
  {
    var k := |db.versions|;
    assert files[..k + 1][..k] == db.versions;
    assert files[k] !in db.versions;
  }

  /** The loop's turn at file k. */
  lemma UpFromAt<S>(exec: Exec<S>, db: Db<S>, applied: set<string>, files: seq<string>, k: nat,
                    faults: map<string, Fault>)
    requires k < |files|
    ensures var o := ApplyFile(exec, db, files[k], faults);
      UpFrom(exec, db, applied, files[k..], faults)
      == if files[k] in applied then UpFrom(exec, db, applied, files[k + 1..], faults)
         else if o.ok then UpFrom(exec, o.db, applied, files[k + 1..], faults) else o
  {
    hide ApplyFile;
    assert files[k..][0] == files[k] && files[k..][1..] == files[k + 1..];
  }

  lemma {:induction false} UpFromStops<S>(exec: Exec<S>, s0: S, files: seq<string>, db: Db<S>, applied: set<string>,
                                          k: nat, faults: map<string, Fault>, from: nat)
    requires Distinct(files) && Consistent(exec, s0, files, db)
    requires k <= |db.versions| && (forall v | v in applied :: v in db.versions)
    requires forall j | k <= j < |db.versions| :: db.versions[j] in applied
    requires from <= |db.versions| && NoFaults(files, faults, from, |db.versions|)
    ensures var o := UpFrom(exec, db, applied, files[k..], faults);
      from <= |o.db.versions| <= |files| && StopsAt(exec, s0, files, faults, from, |o.db.versions|, o.ok)
    decreases |files| - k
  {
    if k < |files| {
      UpFromAt(exec, db, applied, files, k, faults);
      hide UpFrom, ApplyFile, StopsAt, NoFaults, Distinct, Fold;
      if files[k] in applied {
        CommittedIsBehind(files, db.versions, k);
        hide Consistent;
        UpFromStops(exec, s0, files, db, applied, k + 1, faults, from);
      } else {
        NotYet(exec, s0, files, db, applied, k);
        AppliesNext(exec, s0, files, db, faults);
        hide Consistent;
        var o := ApplyFile(exec, db, files[k], faults);
        if o.ok {
          NoFaultsSnoc(files, faults, from, k);
          UpFromStops(exec, s0, files, o.db, applied, k + 1, faults, from);
        } else {
          StopsHere(exec, s0, files, db, faults, from);
        }
      }
    }
  }

  lemma NoFaultsSnoc(files: seq<string>, faults: map<string, Fault>, from: nat, n: nat)
    requires NoFaults(files, faults, from, n) && n < |files| && files[n] !in faults
    ensures NoFaults(files, faults, from, n + 1)
  {
  }

  /** Whatever fails, a run leaves a committed prefix that only grows, and it reports success exactly when it could
    * create and read its table, the files apply in order, and no file that was still to be applied met a fault. */
  lemma UpKeeps<S>(exec: Exec<S>, s0: S, files: seq<string>, db: Db<S>, env: Env)
    requires Distinct(files) && Consistent(exec, s0, files, db)
    ensures var o := RunOnce(exec, db, files, env);
      && Consistent(exec, s0, files, o.db) && db.versions <= o.db.versions
      && (o.ok ==> o.db == Db(true, files, o.db.schema) && Fold(exec, s0, files) == Some(o.db.schema))
    ensures RunOnce(exec, db, files, env).ok
       <==> (env.creates && env.queries && Fold(exec, s0, files).Some?
             && forall f | f in files && f in env.faults :: f in db.versions)
  {
    var applied := set v | v in db.versions;
    assert files[0..] == files;
    UpFromKeeps(exec, s0, files, db.(tracked := true), applied, 0, env.faults);
    if env.creates && env.queries {
      if RunOnce(exec, db, files, env).ok {
        SuccessMeetsNoFault(exec, db.(tracked := true), applied, files, env.faults);
      } else if Fold(exec, s0, files).Some? && forall f | f in files && f in env.faults :: f in db.versions {
        UpFromSucceeds(exec, s0, files, db.(tracked := true), applied, 0, env.faults);
      }
    }
  }

  /** A run applies files until the first one that stops it, and stops there: it goes past no fault, and what it left is
    * in the table exactly up to that file. */
  lemma UpStopsAtFirstFailure<S>(exec: Exec<S>, s0: S, files: seq<string>, db: Db<S>, env: Env)
    requires Distinct(files) && Consistent(exec, s0, files, db)
    ensures var o := RunOnce(exec, db, files, env);
      if !env.creates then o == Outcome(db, false)
      else if !env.queries then o == Outcome(db.(tracked := true), false)
      else
        && |db.versions| <= |o.db.versions| <= |files|
        && StopsAt(exec, s0, files, env.faults, |db.versions|, |o.db.versions|, o.ok)
  {
    var applied := set v | v in db.versions;
    assert files[0..] == files;
    UpFromStops(exec, s0, files, db.(tracked := true), applied, 0, env.faults, |db.versions|);
  }

  /** Runs one after another, each in its own environment. */
  function Runs<S>(exec: Exec<S>, db: Db<S>, files: seq<string>, envs: seq<Env>): Outcome<S>
    requires envs != []
    decreases |envs|
  {
    var o := RunOnce(exec, db, files, envs[0]);
    if |envs| == 1 then o else Runs(exec, o.db, files, envs[1..])
  }

  lemma {:induction false} RunsKeep<S>(exec: Exec<S>, s0: S, files: seq<string>, db: Db<S>, envs: seq<Env>)
    requires Distinct(files) && Consistent(exec, s0, files, db) && envs != []
    ensures var o := Runs(exec, db, files, envs);
      && Consistent(exec, s0, files, o.db)
      && (o.ok ==> o.db == Db(true, files, o.db.schema) && Fold(exec, s0, files) == Some(o.db.schema))
    decreases |envs|
  {
    UpKeeps(exec, s0, files, db, envs[0]);
    if |envs| > 1 { RunsKeep(exec, s0, files, RunOnce(exec, db, files, envs[0]).db, envs[1..]); }
  }

  /** Runs that fail at arbitrary files, the last of which succeeds, end with the schema and the version table of
    * one clean run on an empty database, and the next run, whatever its faults, changes nothing. */
  lemma ResumedEqualsUninterrupted<S>(exec: Exec<S>, s0: S, files: seq<string>, envs: seq<Env>, later: Env)
    requires Distinct(files) && envs != [] && Runs(exec, Db(false, [], s0), files, envs).ok
    ensures Runs(exec, Db(false, [], s0), files, envs) == RunOnce(exec, Db(false, [], s0), files, CLEAN)
    ensures RunOnce(exec, Runs(exec, Db(false, [], s0), files, envs).db, files, later).db
         == Runs(exec, Db(false, [], s0), files, envs).db
  {
    var empty := Db(false, [], s0);
    RunsKeep(exec, s0, files, empty, envs);
    UpKeeps(exec, s0, files, empty, CLEAN);
    var done := Runs(exec, empty, files, envs).db;
    AllSkipped(exec, done, (set v | v in files), files, later.faults);
  }

  lemma {:induction false} AllSkipped<S>(exec: Exec<S>, db: Db<S>, applied: set<string>, files: seq<string>,
                                         faults: map<string, Fault>)
    requires forall v | v in files :: v in applied
    ensures UpFrom(exec, db, applied, files, faults) == Outcome(db, true)
  {
    if files != [] { AllSkipped(exec, db, applied, files[1..], faults); }
  }

  // ---- The file list ----------------------------------------------------------------------

  datatype Entry = Entry(name: string, isDir: bool)

  predicate IsMigration(e: Entry) {
    !e.isDir && |e.name| > 4 && e.name[|e.name| - 4..] == ".sql"
  }

  /** A name with something before ".sql". */
  ghost predicate NamesMigration(name: string) {
    exists stem :: stem != "" && name == stem + ".sql"
  }

  lemma IsMigrationMeans(e: Entry)
    ensures IsMigration(e) <==> !e.isDir && NamesMigration(e.name)
  {
    if |e.name| > 4 && e.name[|e.name| - 4..] == ".sql" { assert e.name == e.name[..|e.name| - 4] + ".sql"; }
    forall stem | stem != "" && e.name == stem + ".sql"
      ensures |e.name| > 4 && e.name[|e.name| - 4..] == ".sql"
    {
    }
  }

  /** Lexical order, as it is computed. */
  predicate Before(a: string, b: string) {
    b != [] && (a == [] || a[0] < b[0] || (a[0] == b[0] && Before(a[1..], b[1..])))
  }

  /** The strings agree up to position n, where a ends or has the smaller character. */
  predicate DiffersAt(a: string, b: string, n: int) {
    0 <= n <= |a| && n < |b| && a[..n] == b[..n] && (n == |a| || a[n] < b[n])
  }

  /** Lexical order: a is a proper prefix of b, or has the smaller character where they first differ. */
  ghost predicate Lexical(a: string, b: string) {
    exists n :: DiffersAt(a, b, n)
  }

  ghost predicate Sorted(names: seq<string>) {
    forall i, j | 0 <= i < j < |names| :: Lexical(names[i], names[j])
  }

  lemma {:induction false} BeforeIsLexical(a: string, b: string)
    ensures Before(a, b) <==> Lexical(a, b)
  {
    if b != [] && (a == [] || a[0] < b[0]) {
      assert DiffersAt(a, b, 0);
    } else if a != [] && b != [] && a[0] == b[0] {
      BeforeIsLexical(a[1..], b[1..]);
      if n :| DiffersAt(a[1..], b[1..], n) {
        assert a[..n + 1] == [a[0]] + a[1..][..n] && b[..n + 1] == [b[0]] + b[1..][..n];
        assert DiffersAt(a, b, n + 1);
      }
      if n :| DiffersAt(a, b, n) {
        assert a[1..][..n - 1] == a[1..n] == a[..n][1..] && b[1..][..n - 1] == b[1..n] == b[..n][1..];
        assert DiffersAt(a[1..], b[1..], n - 1);
      }
    } else {
      forall n
        ensures !DiffersAt(a, b, n)
      {
        if 0 < n <= |a| && n < |b| { assert a[..n][0] == a[0] && b[..n][0] == b[0]; }
      }
    }
  }

  lemma LexicalTransitive(a: string, b: string, c: string)
    requires Lexical(a, b) && Lexical(b, c)
    ensures Lexical(a, c)
  {
    var m, n :| DiffersAt(a, b, m) && DiffersAt(b, c, n);
    if m <= n {
      assert a[..m] == b[..n][..m] == c[..n][..m] == c[..m];
      assert m < n ==> b[m] == b[..n][m] == c[..n][m] == c[m];
      assert DiffersAt(a, c, m);
    } else {
      assert a[..n] == b[..m][..n] == c[..n] && a[n] == b[..m][n] == b[n];
      assert DiffersAt(a, c, n);
    }
  }

  lemma {:induction false} LexicalTotal(a: string, b: string)
    ensures a == b || Lexical(a, b) || Lexical(b, a)
    ensures !Lexical(a, a)
  {
    BeforeIsLexical(a, b);
    BeforeIsLexical(b, a);
    BeforeIsTotal(a, b);
  }

  lemma {:induction false} BeforeIsTotal(a: string, b: string)
    ensures a == b || Before(a, b) || Before(b, a)
  {
    if a != [] && b != [] { BeforeIsTotal(a[1..], b[1..]); }
  }

  /** Sorted names are distinct, which is all the runner needs of the list. */
  lemma SortedIsDistinct(names: seq<string>)
    requires Sorted(names)
    ensures Distinct(names)
  {
    forall i, j | 0 <= i < j < |names| ensures names[i] != names[j] { LexicalTotal(names[i], names[j]); }
  }

  function Insert(name: string, names: seq<string>): (r: seq<string>)
    ensures multiset(r) == multiset(names) + multiset{name}
    ensures forall n :: n in r <==> n == name || n in names
  {
    if names == [] then [name]
    else if Before(names[0], name) then
      assert names == [names[0]] + names[1..];
      [names[0]] + Insert(name, names[1..])
    else [name] + names
  }

  lemma {:induction false} InsertSorts(name: string, names: seq<string>)
    requires Sorted(names) && name !in names
    ensures Sorted(Insert(name, names))
  {
    if names != [] {
      LexicalTotal(names[0], name);
      BeforeIsLexical(names[0], name);
      hide Lexical, Before;
      if Before(names[0], name) {
        InsertSorts(name, names[1..]);
        var r := Insert(name, names[1..]);
        forall j | 0 <= j < |r| ensures Lexical(names[0], r[j]) {
          assert r[j] in r;
        }
      } else {
        forall j | 0 <= j < |names| ensures Lexical(name, names[j]) {
          if 0 < j { LexicalTransitive(name, names[0], names[j]); }
        }
      }
    }
  }

  /** The migration files of a directory, whose entries have distinct names: exactly the plain files whose name
    * ends in ".sql" with something before it, in lexical order. */
  method SortedMigrationFiles(entries: seq<Entry>) returns (names: seq<string>)
    requires forall i, j | 0 <= i < j < |entries| :: entries[i].name != entries[j].name
    ensures forall i, j | 0 <= i < j < |names| :: Lexical(names[i], names[j])
    ensures Distinct(names)
    ensures forall n :: n in names <==> Entry(n, false) in entries && NamesMigration(n)
  {
    names := [];
    var i := 0;
    while i < |entries|
      invariant 0 <= i <= |entries|
      invariant Sorted(names)
      invariant forall n :: n in names <==> Entry(n, false) in entries[..i] && IsMigration(Entry(n, false))
    {
      assert entries[..i + 1] == entries[..i] + [entries[i]];
      if IsMigration(entries[i]) {
        InsertSorts(entries[i].name, names);
        names := Insert(entries[i].name, names);
      }
      i := i + 1;
    }
    assert entries[..i] == entries;
    SortedIsDistinct(names);
    forall n ensures IsMigration(Entry(n, false)) <==> NamesMigration(n) { IsMigrationMeans(Entry(n, false)); }
  }
}
