/** The authentication service over the tables of Sessions: each call as the statements it issues, then runs of
  * calls made one at a time. The user directory is fixed; e-mail addresses are already normalised.
  */
module Auth {
  import opened Wrappers
  import opened Sessions
  import opened Password
  import Base64

  /** `hash` is the token digest, `users` maps addresses to users. */
  datatype Config = Config(hash: string -> string, kdf: Kdf, users: map<string, nat>, refreshTtl: int)

  const PASSWORD_RESET_TTL := 3600
  const MIN_PASSWORD := 8

  datatype AuthError = NotFound | InvalidCredentials | WeakPassword | InvalidRefresh | InvalidToken | Failed

  /** Which statements of a call work: the first look-up, the revocation, loading the profile, the insert. */
  datatype Env = Env(lookup: bool, revoke: bool, load: bool, insert: bool)

  const WORKING := Env(true, true, true, true)

  datatype Reply = Reply(t: Tables, result: Result<string, AuthError>)

  datatype Call =
    | LoginCall(email: string, password: string, minted: string, env: Env)
    | RefreshCall(token: string, minted: string, env: Env)
    | LogoutCall(token: string, env: Env)
    | RequestResetCall(email: string, minted: string, env: Env)
    | ResetCall(token: string, newPassword: string, salt: seq<Base64.Byte>, commits: bool)
    | VerifyCall(token: string, commits: bool)
    | Wait(seconds: nat)

  // ---- Calls as functions of the tables -------------------------------------------------

  function IssueReply(c: Config, t: Tables, user: nat, minted: string, env: Env): Reply {
    if env.insert && c.hash(minted) !in t.sessions
    then Reply(Exec(t, CreateSession(c.hash(minted), user, t.now + c.refreshTtl)), Ok(minted))
    else Reply(t, Err(Failed))
  }

  function LoginReply(c: Config, t: Tables, email: string, password: string, minted: string, env: Env): Reply {
    if !env.lookup then Reply(t, Err(Failed))
    else if email !in c.users then Reply(t, Err(InvalidCredentials))
    else
      var user := c.users[email];
      if user !in t.passwords || VerifyPassword(c.kdf, password, t.passwords[user]) != Some(true)
      then Reply(t, Err(InvalidCredentials))
      else if !env.load then Reply(t, Err(Failed))
      else IssueReply(c, t, user, minted, env)
  }

  /** The session is revoked before the profile is loaded, so a later failure leaves the client without a session. */
  function RefreshReply(c: Config, t: Tables, token: string, minted: string, env: Env): Reply {
    if !env.lookup then Reply(t, Err(Failed))
    else match Lookup(t, c.hash(token))
      case None => Reply(t, Err(InvalidRefresh))
      case Some(user) =>
        if !env.revoke then Reply(t, Err(Failed))
        else
          var revoked := Exec(t, RevokeByHash(c.hash(token)));
          if !env.load then Reply(revoked, Err(Failed)) else IssueReply(c, revoked, user, minted, env)
  }

  function LogoutReply(c: Config, t: Tables, token: string, env: Env): Reply {
    if token == "" then Reply(t, Ok(""))
    else if !env.revoke then Reply(t, Err(Failed))
    else Reply(Exec(t, RevokeByHash(c.hash(token))), Ok(""))
  }

  function RequestResetReply(c: Config, t: Tables, email: string, minted: string, env: Env): Reply {
    if !env.lookup then Reply(t, Err(Failed))
    else if email !in c.users then Reply(t, Err(InvalidCredentials))
    else if !env.insert then Reply(t, Err(Failed))
    else Reply(Exec(t, CreateToken(Reset, c.hash(minted), c.users[email], t.now + PASSWORD_RESET_TTL)), Ok(minted))
  }

  function ResetReply(c: Config, t: Tables, token: string, newPassword: string, salt: seq<Base64.Byte>, commits: bool)
    : Reply
  {
    if |newPassword| < MIN_PASSWORD then Reply(t, Err(WeakPassword))
    else if Owner(t.resets, c.hash(token), t.now).None? then Reply(t, Err(InvalidToken))
    else Reply(Exec(t, ResetPassword(c.hash(token), HashPassword(c.kdf, newPassword, salt), commits)),
               if commits then Ok("") else Err(Failed))
  }

  function VerifyReply(c: Config, t: Tables, token: string, commits: bool): Reply {
    if Owner(t.verifications, c.hash(token), t.now).None? then Reply(t, Err(NotFound))
    else Reply(Exec(t, Verify(c.hash(token), commits)), if commits then Ok("") else Err(Failed))
  }

  function Serve(c: Config, t: Tables, call: Call): Reply {
    match call
    case LoginCall(email, password, minted, env) => LoginReply(c, t, email, password, minted, env)
    case RefreshCall(token, minted, env) => RefreshReply(c, t, token, minted, env)
    case LogoutCall(token, env) => LogoutReply(c, t, token, env)
    case RequestResetCall(email, minted, env) => RequestResetReply(c, t, email, minted, env)
    case ResetCall(token, newPassword, salt, commits) => ResetReply(c, t, token, newPassword, salt, commits)
    case VerifyCall(token, commits) => VerifyReply(c, t, token, commits)
    case Wait(seconds) => Reply(Exec(t, Elapse(seconds)), Ok(""))
  }

  // ---- The repository and the service ---------------------------------------------------

  class Repository {
    var t: Tables

    constructor (t: Tables)
      ensures this.t == t
    {
      this.t := t;
    }

    method CreateSession(user: nat, hash: string, expires: int) returns (ok: bool)
      modifies this
      ensures ok == (hash !in old(t).sessions)
      ensures t == Exec(old(t), Statement.CreateSession(hash, user, expires))
      ensures t == if ok then old(t).(sessions := old(t).sessions[hash := Session(user, expires, None)]) else old(t)
    {
      ok := hash !in t.sessions;
      if ok { t := t.(sessions := t.sessions[hash := Session(user, expires, None)]); }
    }

    method GetActiveSessionByHash(hash: string) returns (s: Option<Session>)
      ensures s == if Active(t, hash) then Some(t.sessions[hash]) else None
    {
      s := None;
      if hash in t.sessions {
        var row := t.sessions[hash];
        if row.revoked.None? && row.expires > t.now { s := Some(row); }
      }
    }

    method RevokeSessionByHash(hash: string)
      modifies this
      ensures t == Exec(old(t), RevokeByHash(hash)) && t.sessions.Keys == old(t).sessions.Keys
      ensures forall h | h in t.sessions ::
        var was := old(t).sessions[h]; t.sessions[h] == if h == hash then was.(revoked := Some(old(t).now)) else was
    {
      if hash in t.sessions { t := t.(sessions := t.sessions[hash := t.sessions[hash].(revoked := Some(t.now))]); }
    }

    method CreatePasswordReset(user: nat, hash: string, expires: int)
      modifies this
      ensures t == Exec(old(t), CreateToken(Reset, hash, user, expires))
    {
      t := t.(resets := t.resets + [Token(user, hash, expires, None)]);
    }

    method ConsumeEmailVerification(hash: string) returns (user: Option<nat>)
      modifies this
      ensures user == Owner(old(t).verifications, hash, old(t).now)
      ensures t == old(t).(verifications := Consumed(old(t).verifications, hash, old(t).now))
      ensures forall k | 0 <= k < |t.verifications| :: var was := old(t).verifications[k];
        t.verifications[k]
        == if was.hash == hash && was.used == None && old(t).now < was.expires then was.(used := Some(old(t).now))
           else was
    {
      user := Owner(t.verifications, hash, t.now);
      t := t.(verifications := Consumed(t.verifications, hash, t.now));
    }

    method ConsumePasswordReset(hash: string) returns (user: Option<nat>)
      modifies this
      ensures user == Owner(old(t).resets, hash, old(t).now)
      ensures t == old(t).(resets := Consumed(old(t).resets, hash, old(t).now))
      ensures forall k | 0 <= k < |t.resets| :: var was := old(t).resets[k];
        t.resets[k]
        == if was.hash == hash && was.used == None && old(t).now < was.expires then was.(used := Some(old(t).now))
           else was
    {
      user := Owner(t.resets, hash, t.now);
      t := t.(resets := Consumed(t.resets, hash, t.now));
    }

    method UpsertPasswordHash(user: nat, passwordHash: string)
      modifies this
      ensures t == old(t).(passwords := old(t).passwords[user := passwordHash])
    {
      t := t.(passwords := t.passwords[user := passwordHash]);
    }

    method RevokeAllUserSessions(user: nat)
      modifies this
      ensures t == old(t).(sessions := RevokedAll(old(t).sessions, user, old(t).now))
      ensures t.sessions.Keys == old(t).sessions.Keys
      ensures forall h | h in t.sessions :: var was := old(t).sessions[h];
        t.sessions[h] == if was.user == user && was.revoked == None then was.(revoked := Some(old(t).now)) else was
    {
      t := t.(sessions := RevokedAll(t.sessions, user, t.now));
    }

    method SetUserEmailVerified(user: nat)
      modifies this
      ensures t == old(t).(verified := old(t).verified + {user})
    {
      t := t.(verified := t.verified + {user});
    }

    /** Undo everything since the transaction began. */
    method Rollback(began: Tables)
      modifies this
      ensures t == began
    {
      t := began;
    }
  }

  class Service {
    const cfg: Config
    const repo: Repository

    constructor (cfg: Config, repo: Repository)
      ensures this.cfg == cfg && this.repo == repo
    {
      this.cfg, this.repo := cfg, repo;
    }

    method IssueTokens(user: nat, minted: string, env: Env) returns (r: Result<string, AuthError>)
      modifies repo
      ensures Reply(repo.t, r) == IssueReply(cfg, old(repo.t), user, minted, env)
    {
      if !env.insert { return Err(Failed); }
      var ok := repo.CreateSession(user, cfg.hash(minted), repo.t.now + cfg.refreshTtl);
      r := if ok then Ok(minted) else Err(Failed);
    }

    method Login(email: string, password: string, minted: string, env: Env) returns (r: Result<string, AuthError>)
      modifies repo
      ensures Reply(repo.t, r) == LoginReply(cfg, old(repo.t), email, password, minted, env)
    {
      if !env.lookup { return Err(Failed); }
      if email !in cfg.users { return Err(InvalidCredentials); }
      var user := cfg.users[email];
      if user !in repo.t.passwords { return Err(InvalidCredentials); }
      var ok := VerifyPassword(cfg.kdf, password, repo.t.passwords[user]);
      if ok != Some(true) { return Err(InvalidCredentials); }
      if !env.load { return Err(Failed); }
      r := IssueTokens(user, minted, env);
    }

    method Refresh(token: string, minted: string, env: Env) returns (r: Result<string, AuthError>)
      modifies repo
      ensures Reply(repo.t, r) == RefreshReply(cfg, old(repo.t), token, minted, env)
    {
      if !env.lookup { return Err(Failed); }
      var session := repo.GetActiveSessionByHash(cfg.hash(token));
      if session.None? { return Err(InvalidRefresh); }
      if !env.revoke { return Err(Failed); }
      repo.RevokeSessionByHash(cfg.hash(token));
      if !env.load { return Err(Failed); }
      r := IssueTokens(session.value.user, minted, env);
    }

    method Logout(token: string, env: Env) returns (r: Result<string, AuthError>)
      modifies repo
      ensures Reply(repo.t, r) == LogoutReply(cfg, old(repo.t), token, env)
    {
      if token == "" { return Ok(""); }
      if !env.revoke { return Err(Failed); }
      repo.RevokeSessionByHash(cfg.hash(token));
      r := Ok("");
    }

    method RequestPasswordReset(email: string, minted: string, env: Env) returns (r: Result<string, AuthError>)
      modifies repo
      ensures Reply(repo.t, r) == RequestResetReply(cfg, old(repo.t), email, minted, env)
    {
      if !env.lookup { return Err(Failed); }
      if email !in cfg.users { return Err(InvalidCredentials); }
      if !env.insert { return Err(Failed); }
      repo.CreatePasswordReset(cfg.users[email], cfg.hash(minted), repo.t.now + PASSWORD_RESET_TTL);
      r := Ok(minted);
    }

    /** One transaction; `commits` says whether everything after the token is consumed works. */
    method ResetPassword(token: string, newPassword: string, salt: seq<Base64.Byte>, commits: bool)
      returns (r: Result<string, AuthError>)
      modifies repo
      ensures Reply(repo.t, r) == ResetReply(cfg, old(repo.t), token, newPassword, salt, commits)
    {
      if |newPassword| < MIN_PASSWORD { return Err(WeakPassword); }
      var passwordHash := HashPassword(cfg.kdf, newPassword, salt);
      var began := repo.t;
      var user := repo.ConsumePasswordReset(cfg.hash(token));
      if user.None? {
        repo.Rollback(began);
        return Err(InvalidToken);
      }
      repo.UpsertPasswordHash(user.value, passwordHash);
      repo.RevokeAllUserSessions(user.value);
      if !commits {
        repo.Rollback(began);
        return Err(Failed);
      }
      r := Ok("");
    }

    method VerifyEmail(token: string, commits: bool) returns (r: Result<string, AuthError>)
      modifies repo
      ensures Reply(repo.t, r) == VerifyReply(cfg, old(repo.t), token, commits)
    {
      var began := repo.t;
      var user := repo.ConsumeEmailVerification(cfg.hash(token));
      if user.None? {
        repo.Rollback(began);
        return Err(NotFound);
      }
      repo.SetUserEmailVerified(user.value);
      if !commits {
        repo.Rollback(began);
        return Err(Failed);
      }
      r := Ok("");
    }
  }

  // ---- Runs of calls, one at a time -------------------------------------------------------

  function AfterCalls(c: Config, t: Tables, calls: seq<Call>): Tables {
    if calls == [] then t else Serve(c, AfterCalls(c, t, calls[..|calls| - 1]), calls[|calls| - 1]).t
  }

  /** The reply to call k of a run. */
  function ReplyTo(c: Config, t: Tables, calls: seq<Call>, k: nat): Result<string, AuthError>
    requires k < |calls|
  {
    Serve(c, AfterCalls(c, t, calls[..k]), calls[k]).result
  }

  /** The statements and transactions a call issues, in order. */
  function Statements(c: Config, t: Tables, call: Call): seq<Statement> {
    match call
    case LoginCall(email, _, minted, _) =>
      if Serve(c, t, call).result.Ok? then [CreateSession(c.hash(minted), c.users[email], t.now + c.refreshTtl)] else []
    case RefreshCall(token, minted, env) =>
      if !env.lookup || !env.revoke || Lookup(t, c.hash(token)).None? then []
      else
        [RevokeByHash(c.hash(token))]
        + if Serve(c, t, call).result.Err? then []
          else [CreateSession(c.hash(minted), Lookup(t, c.hash(token)).value, t.now + c.refreshTtl)]
    case LogoutCall(token, env) => if token == "" || !env.revoke then [] else [RevokeByHash(c.hash(token))]
    case RequestResetCall(email, minted, _) =>
      if Serve(c, t, call).result.Err? then []
      else [CreateToken(Reset, c.hash(minted), c.users[email], t.now + PASSWORD_RESET_TTL)]
    case ResetCall(token, newPassword, salt, commits) =>
      if |newPassword| < MIN_PASSWORD then []
      else [ResetPassword(c.hash(token), HashPassword(c.kdf, newPassword, salt), commits)]
    case VerifyCall(token, commits) => [Verify(c.hash(token), commits)]
    case Wait(seconds) => [Elapse(seconds)]
  }

  lemma One(t: Tables, s: Statement)
    ensures After(t, [s]) == Exec(t, s)
  {
  }

  lemma RefreshIsStatements(c: Config, t: Tables, call: Call)
    requires call.RefreshCall?
    ensures Serve(c, t, call).t == After(t, Statements(c, t, call))
  {
    var revoke := RevokeByHash(c.hash(call.token));
    hide After, Exec;
    assert After(t, []) == t by { NoStatements(t); }
    One(t, revoke);
    if Serve(c, t, call).result.Ok? {
      var open := CreateSession(c.hash(call.minted), Lookup(t, c.hash(call.token)).value, t.now + c.refreshTtl);
      AfterConcat(t, [revoke], [open]);
      One(Exec(t, revoke), open);
      assert Exec(t, revoke).now == t.now by { RevokeKeepsClock(t, call.token, c); }
    }
  }

  lemma NoStatements(t: Tables)
    ensures After(t, []) == t
  {
  }

  lemma RevokeKeepsClock(t: Tables, token: string, c: Config)
    ensures Exec(t, RevokeByHash(c.hash(token))).now == t.now
  {
  }

  lemma CallIsStatements(c: Config, t: Tables, call: Call)
    ensures Serve(c, t, call).t == After(t, Statements(c, t, call))
  {
    hide After, VerifyPassword, HashPassword, RevokedAll, Consumed, Owner;
    NoStatements(t);
    if call.RefreshCall? {
      RefreshIsStatements(c, t, call);
    } else if Statements(c, t, call) != [] {
      One(t, Statements(c, t, call)[0]);
    }
  }

  function AllStatements(c: Config, t: Tables, calls: seq<Call>): seq<Statement> {
    if calls == [] then []
    else
      var n := |calls| - 1;
      AllStatements(c, t, calls[..n]) + Statements(c, AfterCalls(c, t, calls[..n]), calls[n])
  }

  /** A run of calls is a run of statements, so everything proved of those in Sessions holds of the service. */
  lemma {:induction false} RunIsStatements(c: Config, t: Tables, calls: seq<Call>)
    ensures AfterCalls(c, t, calls) == After(t, AllStatements(c, t, calls))
  {
    if calls != [] {
      hide Statements, Serve;
      var n := |calls| - 1;
      RunIsStatements(c, t, calls[..n]);
      CallIsStatements(c, AfterCalls(c, t, calls[..n]), calls[n]);
      AfterConcat(t, AllStatements(c, t, calls[..n]), Statements(c, AfterCalls(c, t, calls[..n]), calls[n]));
    }
  }

  predicate Spent(t: Tables, hash: string) {
    hash in t.sessions && t.sessions[hash].revoked.Some?
  }

  lemma SpentStays(t: Tables, s: Statement, hash: string)
    requires Spent(t, hash)
    ensures Spent(Exec(t, s), hash)
  {
    RowStep(t, s, hash);
  }

  lemma CallKeepsSpent(c: Config, t: Tables, call: Call, hash: string)
    requires Spent(t, hash)
    ensures Spent(Serve(c, t, call).t, hash)
  {
    hide Spent, Exec;
    forall u: Tables, s | Spent(u, hash) ensures Spent(Exec(u, s), hash) { SpentStays(u, s, hash); }
  }

  lemma {:induction false} RunKeepsSpent(c: Config, t: Tables, calls: seq<Call>, a: nat, hash: string)
    requires a <= |calls| && Spent(AfterCalls(c, t, calls[..a]), hash)
    ensures Spent(AfterCalls(c, t, calls), hash)
    decreases |calls|
  {
    if a == |calls| {
      assert calls[..a] == calls;
    } else {
      hide Spent, Serve;
      var n := |calls| - 1;
      assert calls[..n][..a] == calls[..a];
      RunKeepsSpent(c, t, calls[..n], a, hash);
      CallKeepsSpent(c, AfterCalls(c, t, calls[..n]), calls[n], hash);
    }
  }

  /** Over every run of calls made one at a time, a refresh token is accepted at most once. */
  lemma RefreshedAtMostOnce(c: Config, t: Tables, calls: seq<Call>, p: nat, q: nat)
    requires p < q < |calls| && calls[p].RefreshCall? && calls[q].RefreshCall? && calls[p].token == calls[q].token
    requires ReplyTo(c, t, calls, p).Ok?
    ensures ReplyTo(c, t, calls, q).Err? && AfterCalls(c, t, calls[..q + 1]) == AfterCalls(c, t, calls[..q])
  {
    var h := c.hash(calls[p].token);
    assert calls[..p + 1][..p] == calls[..p] && calls[..q][..p + 1] == calls[..p + 1]
      && calls[..q + 1][..q] == calls[..q];
    RotationKeepsUser(c, AfterCalls(c, t, calls[..p]), calls[p].token, calls[p].minted, calls[p].env);
    RunKeepsSpent(c, t, calls[..q], p + 1, h);
  }

  /** An accepted refresh spends the presented token and opens one session, for the same user, under a new token. */
  lemma RotationKeepsUser(c: Config, t: Tables, token: string, minted: string, env: Env)
    requires RefreshReply(c, t, token, minted, env).result.Ok?
    ensures var r := RefreshReply(c, t, token, minted, env);
      && Lookup(t, c.hash(token)).Some? && r.result == Ok(minted) && c.hash(minted) != c.hash(token)
      && Spent(r.t, c.hash(token))
      && r.t.sessions[c.hash(minted)] == Session(Lookup(t, c.hash(token)).value, t.now + c.refreshTtl, None)
      && forall h | h != c.hash(token) && h != c.hash(minted) :: Lookup(r.t, h) == Lookup(t, h)
  {
  }

  /** After an accepted logout the token is refused for the rest of the run. */
  lemma LoggedOutStaysOut(c: Config, t: Tables, calls: seq<Call>, p: nat, q: nat)
    requires p < q < |calls| && calls[p].LogoutCall? && calls[q].RefreshCall? && calls[p].token == calls[q].token != ""
    requires ReplyTo(c, t, calls, p).Ok? && c.hash(calls[p].token) in AfterCalls(c, t, calls[..p]).sessions
    ensures ReplyTo(c, t, calls, q).Err?
  {
    assert calls[..p + 1][..p] == calls[..p] && calls[..q][..p + 1] == calls[..p + 1];
    RunKeepsSpent(c, t, calls[..q], p + 1, c.hash(calls[p].token));
  }

  /** A token from an accepted login or refresh, presented after some seconds and nothing else, is accepted exactly
    * while the configured lifetime lasts. */
  lemma SessionLastsItsLifetime(c: Config, t: Tables, user: nat, token: string, seconds: nat, minted: string)
    requires IssueReply(c, t, user, token, WORKING).result.Ok?
    requires c.hash(minted) !in t.sessions && c.hash(minted) != c.hash(token)
    ensures var waited := Exec(IssueReply(c, t, user, token, WORKING).t, Elapse(seconds));
      RefreshReply(c, waited, token, minted, WORKING).result
        == if seconds < c.refreshTtl then Ok(minted) else Err(InvalidRefresh)
  {
  }

  // ---- Active sessions against logins ---------------------------------------------------

  function ActiveOf(t: Tables, user: nat): set<string> {
    set h | h in t.sessions && Active(t, h) && t.sessions[h].user == user
  }

  /** The accepted logins of a user in a run. */
  function Logins(c: Config, t: Tables, calls: seq<Call>, user: nat): nat {
    if calls == [] then 0
    else
      var n := |calls| - 1;
      Logins(c, t, calls[..n], user)
      + if calls[n].LoginCall? && ReplyTo(c, t, calls, n).Ok? && c.users[calls[n].email] == user then 1 else 0
  }

  lemma Smaller(a: set<string>, b: set<string>)
    requires a <= b
    ensures |a| <= |b|
  {
    assert b == a + (b - a);
  }

  /** What a statement can add to the active sessions of a user: only the session it opens for that user. */
  lemma StatementActive(t: Tables, s: Statement, user: nat)
    ensures s.CreateSession? && s.user == user ==> ActiveOf(Exec(t, s), user) <= ActiveOf(t, user) + {s.hash}
    ensures !(s.CreateSession? && s.user == user) ==> ActiveOf(Exec(t, s), user) <= ActiveOf(t, user)
    ensures s.RevokeByHash? ==> s.hash !in ActiveOf(Exec(t, s), user)
  {
  }

  /** Opening one session adds at most one to the active ones of its user, and none to those of others. */
  lemma IssueActive(c: Config, t: Tables, owner: nat, minted: string, env: Env, user: nat)
    ensures |ActiveOf(IssueReply(c, t, owner, minted, env).t, user)|
         <= |ActiveOf(t, user)| + if owner == user && IssueReply(c, t, owner, minted, env).result.Ok? then 1 else 0
  {
    if IssueReply(c, t, owner, minted, env).result.Ok? {
      var s := CreateSession(c.hash(minted), owner, t.now + c.refreshTtl);
      hide ActiveOf, Exec;
      StatementActive(t, s, user);
      if owner == user { Smaller(ActiveOf(Exec(t, s), user), ActiveOf(t, user) + {s.hash}); }
      else { Smaller(ActiveOf(Exec(t, s), user), ActiveOf(t, user)); }
    }
  }

  lemma RefreshActive(c: Config, t: Tables, token: string, minted: string, env: Env, user: nat)
    ensures |ActiveOf(RefreshReply(c, t, token, minted, env).t, user)| <= |ActiveOf(t, user)|
  {
    var h := c.hash(token);
    var revoked := Exec(t, RevokeByHash(h));
    assert Lookup(t, h) == Some(user) ==> h in ActiveOf(t, user);
    hide ActiveOf, Exec, IssueReply;
    StatementActive(t, RevokeByHash(h), user);
    Smaller(ActiveOf(revoked, user), ActiveOf(t, user) - {h});
    Smaller(ActiveOf(t, user) - {h}, ActiveOf(t, user));
    if Lookup(t, h).Some? { IssueActive(c, revoked, Lookup(t, h).value, minted, env, user); }
  }

  lemma CallActive(c: Config, t: Tables, call: Call, user: nat)
    ensures |ActiveOf(Serve(c, t, call).t, user)| <= |ActiveOf(t, user)|
      + if call.LoginCall? && Serve(c, t, call).result.Ok? && c.users[call.email] == user then 1 else 0
  {
    hide ActiveOf, Exec, IssueReply;
    match call
    case LoginCall(email, _, minted, env) =>
      if email in c.users { IssueActive(c, t, c.users[email], minted, env, user); }
    case RefreshCall(token, minted, env) => RefreshActive(c, t, token, minted, env, user);
    case _ =>
      forall s: Statement | !s.CreateSession? ensures |ActiveOf(Exec(t, s), user)| <= |ActiveOf(t, user)| {
        StatementActive(t, s, user);
        Smaller(ActiveOf(Exec(t, s), user), ActiveOf(t, user));
      }
  }

  /** Over every run of calls made one at a time, a user never has more active sessions than accepted logins. */
  lemma {:induction false} SessionsWithinLogins(c: Config, t: Tables, calls: seq<Call>, user: nat)
    requires NoRows(t)
    ensures |ActiveOf(AfterCalls(c, t, calls), user)| <= Logins(c, t, calls, user)
  {
    if calls != [] {
      var n := |calls| - 1;
      hide ActiveOf, Serve;
      SessionsWithinLogins(c, t, calls[..n], user);
      CallActive(c, AfterCalls(c, t, calls[..n]), calls[n], user);
    } else {
      assert ActiveOf(t, user) == {};
    }
  }

  // ---- After a password reset -------------------------------------------------------------

  /** An accepted reset at call p: every session the user had is refused from then on. */
  lemma ResetLogsOut(c: Config, t: Tables, calls: seq<Call>, p: nat, hash: string)
    requires p < |calls| && calls[p].ResetCall? && ReplyTo(c, t, calls, p).Ok?
    requires var before := AfterCalls(c, t, calls[..p]);
      hash in before.sessions && Owner(before.resets, c.hash(calls[p].token), before.now)
        == Some(before.sessions[hash].user)
    ensures Lookup(AfterCalls(c, t, calls), hash).None?
  {
    assert calls[..p + 1][..p] == calls[..p];
    RunKeepsSpent(c, t, calls, p + 1, hash);
  }

  lemma RevokedKeys(sessions: map<string, Session>, user: nat, now: int)
    ensures RevokedAll(sessions, user, now).Keys == sessions.Keys
  {
  }

  /** Right after an accepted reset, a login of that user is accepted exactly when its password derives the same key
    * as the new one; the new password itself always does. */
  lemma LoginAfterReset(c: Config, t: Tables, token: string, newPassword: string, salt: seq<Base64.Byte>,
                        email: string, attempt: string, minted: string)
    requires forall w, s, a, m, l, k :: |c.kdf(w, s, a, m, l, k)| == k
    requires ResetReply(c, t, token, newPassword, salt, true).result.Ok?
    requires email in c.users && Owner(t.resets, c.hash(token), t.now) == Some(c.users[email])
    requires c.hash(minted) !in t.sessions
    ensures var after := ResetReply(c, t, token, newPassword, salt, true).t;
      var login := LoginReply(c, after, email, attempt, minted, WORKING);
      && (login.result.Ok? <==> c.kdf(attempt, salt, 3, 65536, 2, 32) == c.kdf(newPassword, salt, 3, 65536, 2, 32))
      && (attempt == newPassword ==> login.result == Ok(minted))
  {
    hide VerifyPassword, HashPassword, RevokedAll, Consumed, Owner;
    VerifyAfterHash(c.kdf, newPassword, salt, attempt);
    var after := ResetReply(c, t, token, newPassword, salt, true).t;
    assert after.passwords[c.users[email]] == HashPassword(c.kdf, newPassword, salt);
    assert c.hash(minted) !in after.sessions by { RevokedKeys(t.sessions, c.users[email], t.now); }
  }

  lemma OnlyLastUsable(rows: seq<Token>, row: Token, now: int)
    requires forall k | 0 <= k < |rows| :: rows[k].hash != row.hash
    ensures Owner(rows + [row], row.hash, now) == if row.used.None? && row.expires > now then Some(row.user) else None
  {
    var all := rows + [row];
    assert all[|rows|] == row;
    assert forall k | 0 <= k < |all| && Usable(all[k], row.hash, now) :: k == |rows|;
  }

  /** A requested reset token, presented after some seconds, sets the password of the address it was requested for
    * exactly while its 3600 seconds last. */
  lemma ResetWithinTheHour(c: Config, t: Tables, email: string, token: string, seconds: nat, newPassword: string,
                           salt: seq<Base64.Byte>)
    requires email in c.users && |newPassword| >= 8
    requires forall k | 0 <= k < |t.resets| :: t.resets[k].hash != c.hash(token)
    ensures var waited := Exec(RequestResetReply(c, t, email, token, WORKING).t, Elapse(seconds));
      var reset := ResetReply(c, waited, token, newPassword, salt, true);
      if seconds < 3600 then
        && reset.result == Ok("")
        && reset.t.passwords == t.passwords[c.users[email] := HashPassword(c.kdf, newPassword, salt)]
      else reset == Reply(waited, Err(InvalidToken))
  {
    hide Owner, HashPassword, RevokedAll, Consumed;
    OnlyLastUsable(t.resets, Token(c.users[email], c.hash(token), t.now + PASSWORD_RESET_TTL, None), t.now + seconds);
  }

  /** A verification token marks a user's address verified exactly when its transaction commits with the token
    * usable, and then it is the user the token belongs to and no other. */
  lemma VerificationTakesEffect(c: Config, t: Tables, token: string, commits: bool)
    ensures var r := VerifyReply(c, t, token, commits); var owner := Owner(t.verifications, c.hash(token), t.now);
      && (r.result.Ok? <==> commits && owner.Some?)
      && r.t.verified == t.verified + (if r.result.Ok? then {owner.value} else {})
      && (r.result.Ok? ==> Owner(r.t.verifications, c.hash(token), r.t.now) == None)
      && (r.result.Err? ==> r.t == t)
  {
  }

  /** An issued verification token, presented after some seconds, verifies the address of the user it was issued to
    * exactly while its lifetime lasts. */
  lemma VerificationWithinLifetime(c: Config, t: Tables, user: nat, token: string, lifetime: nat, seconds: nat)
    requires forall k | 0 <= k < |t.verifications| :: t.verifications[k].hash != c.hash(token)
    ensures var issued := Exec(t, CreateToken(Verification, c.hash(token), user, t.now + lifetime));
      var waited := Exec(issued, Elapse(seconds));
      var r := VerifyReply(c, waited, token, true);
      if seconds < lifetime then r.result == Ok("") && r.t.verified == t.verified + {user}
      else r == Reply(waited, Err(NotFound))
  {
    hide Owner, Consumed;
    OnlyLastUsable(t.verifications, Token(user, c.hash(token), t.now + lifetime, None), t.now + seconds);
  }

  // ---- Who is let in ----------------------------------------------------------------------

  /** The password derives the key of this stored hash. */
  ghost predicate Derives(c: Config, password: string, stored: string) {
    exists d :: DecodeHash(stored) == Some(d)
      && c.kdf(password, d.salt, d.params.iterations, d.params.memory, d.params.parallelism, |d.key| % 0x1_0000_0000)
         == d.key
  }

  lemma DerivesIsVerified(c: Config, password: string, stored: string)
    ensures VerifyPassword(c.kdf, password, stored) == Some(true) <==> Derives(c, password, stored)
  {
    hide DecodeHash;
  }

  /** The address has a user with a stored password whose key this one derives. */
  ghost predicate Knows(c: Config, t: Tables, email: string, password: string) {
    email in c.users && c.users[email] in t.passwords && Derives(c, password, t.passwords[c.users[email]])
  }

  /** t and u differ in nothing but that u has this one new session. */
  predicate Opens(c: Config, t: Tables, u: Tables, user: nat, token: string) {
    c.hash(token) !in t.sessions
    && u == t.(sessions := t.sessions[c.hash(token) := Session(user, t.now + c.refreshTtl, None)])
  }

  lemma IssueMeaning(c: Config, t: Tables, user: nat, minted: string, env: Env)
    ensures var r := IssueReply(c, t, user, minted, env);
      if env.insert && c.hash(minted) !in t.sessions then r.result == Ok(minted) && Opens(c, t, r.t, user, minted)
      else r == Reply(t, Err(Failed))
  {
  }

  /** A login is accepted exactly when all its statements work, the token is new, and the password derives the key
    * stored for the user of the address; it opens one session for that user and changes nothing else. A refused one
    * changes nothing, and says "invalid credentials" exactly when the look-up worked and the password did not fit: no
    * such user, no stored password - an account made through OAuth -, a stored hash that does not decode, or another
    * key. */
  lemma LoginMeaning(c: Config, t: Tables, email: string, password: string, minted: string, env: Env)
    ensures var r := LoginReply(c, t, email, password, minted, env); var fits := Knows(c, t, email, password);
      && (r.result.Ok? <==> env.lookup && fits && env.load && env.insert && c.hash(minted) !in t.sessions)
      && (r.result.Ok? ==> r.result == Ok(minted) && Opens(c, t, r.t, c.users[email], minted))
      && (r.result.Err? ==> r.t == t && (r.result == Err(InvalidCredentials) <==> env.lookup && !fits))
  {
    if email in c.users && c.users[email] in t.passwords {
      DerivesIsVerified(c, password, t.passwords[c.users[email]]);
      IssueMeaning(c, t, c.users[email], minted, env);
    }
    hide VerifyPassword, Derives, IssueReply, Opens;
  }

  /** Without a stored password, or with one that does not decode, nobody logs in, whatever password is tried. */
  lemma NoPasswordNoLogin(c: Config, t: Tables, email: string, password: string, minted: string, env: Env)
    requires env.lookup && email in c.users
    requires c.users[email] in t.passwords ==> DecodeHash(t.passwords[c.users[email]]) == None
    ensures LoginReply(c, t, email, password, minted, env) == Reply(t, Err(InvalidCredentials))
  {
    hide DecodeHash;
    LoginMeaning(c, t, email, password, minted, env);
  }

  /** Against a stored hash of w exactly the passwords that derive w's key are accepted. */
  lemma LoginWithHash(c: Config, t: Tables, email: string, w: string, salt: seq<Base64.Byte>, attempt: string,
                      minted: string)
    requires forall p, s, a, m, l, k :: |c.kdf(p, s, a, m, l, k)| == k
    requires email in c.users && c.users[email] in t.passwords
    requires t.passwords[c.users[email]] == HashPassword(c.kdf, w, salt) && c.hash(minted) !in t.sessions
    ensures var r := LoginReply(c, t, email, attempt, minted, WORKING);
      if c.kdf(attempt, salt, 3, 65536, 2, 32) == c.kdf(w, salt, 3, 65536, 2, 32)
      then r.result == Ok(minted) && Opens(c, t, r.t, c.users[email], minted)
      else r == Reply(t, Err(InvalidCredentials))
  {
    VerifyAfterHash(c.kdf, w, salt, attempt);
    IssueMeaning(c, t, c.users[email], minted, WORKING);
    hide VerifyPassword, HashPassword, IssueReply, Opens;
  }

  // ---- The other calls --------------------------------------------------------------------

  /** Refresh accepts exactly an active session's token, with working statements and a new token. As soon as look-up and
    * revocation have worked the presented session is spent, even when the call fails after that; otherwise nothing has
    * changed. "Invalid refresh" means exactly that the look-up worked and found no active session. */
  lemma RefreshMeaning(c: Config, t: Tables, token: string, minted: string, env: Env)
    ensures var r := RefreshReply(c, t, token, minted, env); var found := Lookup(t, c.hash(token)).Some?;
      var spends := env.lookup && env.revoke && found;
      && (r.result.Ok? <==> spends && env.load && env.insert && c.hash(minted) !in t.sessions)
      && (r.result == Err(InvalidRefresh) <==> env.lookup && !found)
      && (if spends then Spent(r.t, c.hash(token)) else r.t == t)
      && (r.result.Err? ==> forall h | h != c.hash(token) :: Lookup(r.t, h) == Lookup(t, h))
  {
  }

  /** Logout with a working statement is accepted and ends exactly the session of its token; an empty token is accepted
    * and ends none; a statement that fails is reported and ends none. */
  lemma LogoutMeaning(c: Config, t: Tables, token: string, env: Env)
    ensures var r := LogoutReply(c, t, token, env);
      && (r.result.Ok? <==> token == "" || env.revoke)
      && (token == "" || !env.revoke ==> r.t == t)
      && (token != "" && env.revoke ==>
        Lookup(r.t, c.hash(token)) == None && forall h | h != c.hash(token) :: Lookup(r.t, h) == Lookup(t, h))
  {
  }

  /** A reset is requested exactly for a known address with working statements, and then its token is good for the user
    * of that address when no other token with its hash is; a refused request changes nothing. */
  lemma RequestResetMeaning(c: Config, t: Tables, email: string, minted: string, env: Env)
    ensures var r := RequestResetReply(c, t, email, minted, env);
      && (r.result.Ok? <==> env.lookup && email in c.users && env.insert)
      && (r.result.Err? ==> r.t == t)
      && (r.result == Err(InvalidCredentials) <==> env.lookup && email !in c.users)
      && (r.result.Ok? && Owner(t.resets, c.hash(minted), t.now) == None ==>
        Owner(r.t.resets, c.hash(minted), t.now) == Some(c.users[email]))
  {
    if email in c.users {
      var row := Token(c.users[email], c.hash(minted), t.now + PASSWORD_RESET_TTL, None);
      OwnerSnoc(t.resets, row, c.hash(minted), t.now);
    }
    hide Owner;
  }

  /** A reset is accepted exactly with a password of at least eight characters, a usable token and a commit. It then
    * sets the password of the token's user and of no other, ends that user's sessions and no other, and uses the token
    * up; a refused one changes nothing. */
  lemma ResetMeaning(c: Config, t: Tables, token: string, newPassword: string, salt: seq<Base64.Byte>, commits: bool)
    ensures var r := ResetReply(c, t, token, newPassword, salt, commits);
      var owner := Owner(t.resets, c.hash(token), t.now);
      && (r.result.Ok? <==> |newPassword| >= 8 && owner.Some? && commits)
      && (r.result == Err(WeakPassword) <==> |newPassword| < 8)
      && (r.result == Err(InvalidToken) <==> |newPassword| >= 8 && owner.None?)
      && (r.result.Err? ==> r.t == t)
      && (r.result.Ok? ==>
        && r.t.passwords == t.passwords[owner.value := HashPassword(c.kdf, newPassword, salt)]
        && Owner(r.t.resets, c.hash(token), r.t.now) == None
        && forall h :: Lookup(r.t, h) == if Lookup(t, h) == owner then None else Lookup(t, h))
  {
    hide HashPassword;
    OwnerConsumed(t.resets, c.hash(token), t.now, c.hash(token), t.now);
    hide Owner, Consumed;
  }

  /** The seconds that pass in a run. */
  function Waited(calls: seq<Call>): nat {
    if calls == [] then 0
    else
      var n := |calls| - 1;
      Waited(calls[..n]) + if calls[n].Wait? then calls[n].seconds else 0
  }

  lemma CallTakesNoTime(c: Config, t: Tables, call: Call)
    ensures Serve(c, t, call).t.now == t.now + if call.Wait? then call.seconds else 0
  {
    hide VerifyPassword, HashPassword, RevokedAll, Consumed, Owner;
  }

  /** The calls themselves take no time: the clock of a run is that of its waits. */
  lemma {:induction false} ClockOfRun(c: Config, t: Tables, calls: seq<Call>)
    ensures AfterCalls(c, t, calls).now == t.now + Waited(calls)
  {
    if calls != [] {
      var n := |calls| - 1;
      hide Serve;
      ClockOfRun(c, t, calls[..n]);
      CallTakesNoTime(c, AfterCalls(c, t, calls[..n]), calls[n]);
    }
  }

  // ---- Logins over runs ---------------------------------------------------------------------

  /** The call is a reset that is accepted and sets the password of the user. */
  predicate ResetsPassword(c: Config, t: Tables, call: Call, user: nat) {
    call.ResetCall? && Serve(c, t, call).result.Ok? && Owner(t.resets, c.hash(call.token), t.now) == Some(user)
  }

  /** The hash a user's password is checked against after the calls: that of the last accepted reset, or the one from
    * before the run. */
  function StoredHash(c: Config, t: Tables, calls: seq<Call>, user: nat): Option<string> {
    if calls == [] then PasswordOf(t, user)
    else
      var n := |calls| - 1;
      if ResetsPassword(c, AfterCalls(c, t, calls[..n]), calls[n], user)
      then Some(HashPassword(c.kdf, calls[n].newPassword, calls[n].salt))
      else StoredHash(c, t, calls[..n], user)
  }

  function PasswordOf(t: Tables, user: nat): Option<string> {
    if user in t.passwords then Some(t.passwords[user]) else None
  }

  lemma CallKeepsPassword(c: Config, t: Tables, call: Call, user: nat)
    ensures PasswordOf(Serve(c, t, call).t, user)
         == if ResetsPassword(c, t, call, user) then Some(HashPassword(c.kdf, call.newPassword, call.salt))
            else PasswordOf(t, user)
  {
    hide VerifyPassword, HashPassword, RevokedAll, Consumed, Owner;
  }

  lemma {:induction false} StoredHashMeaning(c: Config, t: Tables, calls: seq<Call>, user: nat)
    ensures StoredHash(c, t, calls, user) == PasswordOf(AfterCalls(c, t, calls), user)
  {
    if calls != [] {
      var n := |calls| - 1;
      hide Serve, ResetsPassword, HashPassword, PasswordOf;
      StoredHashMeaning(c, t, calls[..n], user);
      CallKeepsPassword(c, AfterCalls(c, t, calls[..n]), calls[n], user);
    }
  }

  /** In every run of calls made one at a time: a login whose statements work and whose token is new is accepted exactly
    * when its password derives the key of the hash that the last accepted reset of that user stored, or of the one from
    * before the run if there was none. */
  lemma LoginFollowsPassword(c: Config, t: Tables, calls: seq<Call>, p: nat)
    requires p < |calls| && calls[p].LoginCall?
    ensures var call := calls[p];
      var stored := if call.email in c.users then StoredHash(c, t, calls[..p], c.users[call.email]) else None;
      var fits := stored.Some? && Derives(c, call.password, stored.value);
      && (ReplyTo(c, t, calls, p).Ok? ==> fits)
      && (call.env == WORKING && c.hash(call.minted) !in AfterCalls(c, t, calls[..p]).sessions ==>
        ReplyTo(c, t, calls, p) == if fits then Ok(call.minted) else Err(InvalidCredentials))
  {
    var call := calls[p];
    hide Derives, StoredHash, LoginReply;
    if call.email in c.users { StoredHashMeaning(c, t, calls[..p], c.users[call.email]); }
    LoginMeaning(c, AfterCalls(c, t, calls[..p]), call.email, call.password, call.minted, call.env);
  }
}
