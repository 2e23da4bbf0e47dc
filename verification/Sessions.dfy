/** The session and one-time-token tables, and the statements and transactions that touch them.
  * Calls of different clients interleave between statements; a transaction is one step, and one that rolls
  * back leaves no trace. `now` is the database clock. Refresh tokens and one-time tokens appear only as hashes.
  */
module Sessions {
  import opened Wrappers

  datatype Session = Session(user: nat, expires: int, revoked: Option<int>)
  datatype Token = Token(user: nat, hash: string, expires: int, used: Option<int>)
  datatype Kind = Verification | Reset

  /** `sessions` is keyed by the refresh token hash, which has a unique index; token hashes have none. */
  datatype Tables = Tables(now: int, sessions: map<string, Session>, verifications: seq<Token>, resets: seq<Token>,
                           passwords: map<nat, string>, verified: set<nat>)

  datatype Statement =
    | CreateSession(hash: string, user: nat, expires: int)
    | RevokeByHash(hash: string)
    | CreateToken(kind: Kind, hash: string, user: nat, expires: int)
    | Verify(hash: string, commits: bool)
    | ResetPassword(hash: string, password: string, commits: bool)
    | Elapse(seconds: nat)

  predicate Active(t: Tables, hash: string) {
    hash in t.sessions && t.sessions[hash].revoked.None? && t.sessions[hash].expires > t.now
  }

  /** The user of the active session with this hash. */
  function Lookup(t: Tables, hash: string): Option<nat> {
    if Active(t, hash) then Some(t.sessions[hash].user) else None
  }

  predicate Usable(row: Token, hash: string, now: int) {
    row.hash == hash && row.used.None? && row.expires > now
  }

  /** The user of the first usable row; the update marks all usable rows. */
  function Owner(rows: seq<Token>, hash: string, now: int): (r: Option<nat>)
    ensures r.Some? <==> exists k :: 0 <= k < |rows| && Usable(rows[k], hash, now)
    ensures r.Some? ==> exists k :: 0 <= k < |rows| && Usable(rows[k], hash, now) && rows[k].user == r.value
  {
    if rows == [] then None
    else if Usable(rows[0], hash, now) then Some(rows[0].user)
    else
      var r := Owner(rows[1..], hash, now);
      assert forall k :: 0 < k < |rows| ==> rows[k] == rows[1..][k - 1];
      assert forall k :: 0 <= k < |rows| - 1 ==> rows[1..][k] == rows[k + 1];
      r
  }

  function Consumed(rows: seq<Token>, hash: string, now: int): seq<Token> {
    seq(|rows|, k requires 0 <= k < |rows| =>
      if Usable(rows[k], hash, now) then rows[k].(used := Some(now)) else rows[k])
  }

  function RevokedAll(sessions: map<string, Session>, user: nat, now: int): map<string, Session> {
    map h | h in sessions ::
      if sessions[h].user == user && sessions[h].revoked.None? then sessions[h].(revoked := Some(now)) else sessions[h]
  }

  function Rows(t: Tables, kind: Kind): seq<Token> {
    if kind == Verification then t.verifications else t.resets
  }

  function Exec(t: Tables, s: Statement): Tables {
    match s
    case CreateSession(hash, user, expires) =>
      if hash in t.sessions then t else t.(sessions := t.sessions[hash := Session(user, expires, None)])
    case RevokeByHash(hash) =>
      if hash in t.sessions then t.(sessions := t.sessions[hash := t.sessions[hash].(revoked := Some(t.now))]) else t
    case CreateToken(kind, hash, user, expires) =>
      var row := Token(user, hash, expires, None);
      if kind == Verification then t.(verifications := t.verifications + [row]) else t.(resets := t.resets + [row])
    case Verify(hash, commits) =>
      (match Owner(t.verifications, hash, t.now)
       case None => t
       case Some(u) =>
         if commits then t.(verifications := Consumed(t.verifications, hash, t.now), verified := t.verified + {u})
           else t)
    case ResetPassword(hash, password, commits) =>
      (match Owner(t.resets, hash, t.now)
       case None => t
       case Some(u) =>
         if commits then t.(resets := Consumed(t.resets, hash, t.now), passwords := t.passwords[u := password],
                            sessions := RevokedAll(t.sessions, u, t.now))
         else t)
    case Elapse(seconds) => t.(now := t.now + seconds)
  }

  /** The user on whom this statement has the effect of a token of this kind, in a committed transaction. */
  function UsedFor(t: Tables, s: Statement, kind: Kind): Option<nat> {
    match s
    case Verify(hash, true) => if kind == Verification then Owner(t.verifications, hash, t.now) else None
    case ResetPassword(hash, _, true) => if kind == Reset then Owner(t.resets, hash, t.now) else None
    case _ => None
  }

  /** The tables after the statements, in order. */
  function After(t: Tables, stmts: seq<Statement>): Tables {
    if stmts == [] then t else Exec(After(t, stmts[..|stmts| - 1]), stmts[|stmts| - 1])
  }

  lemma {:induction false} AfterConcat(t: Tables, a: seq<Statement>, b: seq<Statement>)
    ensures After(t, a + b) == After(After(t, a), b)
    decreases |b|
  {
    if b == [] {
      assert a + b == a;
    } else {
      hide Exec;
      assert (a + b)[..|a + b| - 1] == a + b[..|b| - 1];
      AfterConcat(t, a, b[..|b| - 1]);
    }
  }

  predicate NoRows(t: Tables) {
    t.sessions == map[] && t.verifications == [] && t.resets == []
  }

  // ---- Sessions over a run --------------------------------------------------------------

  /** The statement that inserted the session of this hash: the first, since later ones violate the index. */
  function OpenedAt(stmts: seq<Statement>, hash: string): (r: Option<nat>)
    ensures r.Some? ==> r.value < |stmts| && stmts[r.value].CreateSession? && stmts[r.value].hash == hash
    ensures forall j :: 0 <= j < (if r.Some? then r.value else |stmts|) ==>
      !(stmts[j].CreateSession? && stmts[j].hash == hash)
  {
    if stmts == [] then None
    else
      var n := |stmts| - 1;
      var earlier := OpenedAt(stmts[..n], hash);
      if earlier.Some? then earlier
      else if stmts[n].CreateSession? && stmts[n].hash == hash then Some(n) else None
  }

  /** Statement j ends the sessions of `user` with this hash: a revocation, or a committed password reset of the
    * user. */
  predicate Ends(t0: Tables, stmts: seq<Statement>, j: nat, hash: string, user: nat)
    requires j < |stmts|
  {
    stmts[j] == RevokeByHash(hash) || UsedFor(After(t0, stmts[..j]), stmts[j], Reset) == Some(user)
  }

  ghost predicate Unended(t0: Tables, stmts: seq<Statement>, from: nat, hash: string, user: nat) {
    forall j :: from <= j < |stmts| ==> !Ends(t0, stmts, j, hash, user)
  }

  lemma EndsNow(t0: Tables, stmts: seq<Statement>, hash: string, user: nat)
    requires stmts != []
    ensures var n := |stmts| - 1;
      Ends(t0, stmts, n, hash, user)
      <==> stmts[n] == RevokeByHash(hash) || UsedFor(After(t0, stmts[..n]), stmts[n], Reset) == Some(user)
  {
  }

  lemma UnendedSplits(t0: Tables, stmts: seq<Statement>, from: nat, hash: string, user: nat)
    requires stmts != [] && from < |stmts|
    ensures Unended(t0, stmts, from, hash, user)
       <==> Unended(t0, stmts[..|stmts| - 1], from, hash, user) && !Ends(t0, stmts, |stmts| - 1, hash, user)
  {
    var front := stmts[..|stmts| - 1];
    forall j | 0 <= j < |front| ensures Ends(t0, front, j, hash, user) == Ends(t0, stmts, j, hash, user) {
      assert front[..j] == stmts[..j];
    }
  }

  /** One statement on a session row that exists: it stays, keeps its user and expiry, and is revoked exactly by an
    * end. */
  lemma RowStep(t: Tables, s: Statement, hash: string)
    requires hash in t.sessions
    ensures hash in Exec(t, s).sessions
    ensures var was, row := t.sessions[hash], Exec(t, s).sessions[hash];
      && row.user == was.user && row.expires == was.expires
      && (row.revoked.None? <==> was.revoked.None? && s != RevokeByHash(hash) && UsedFor(t, s, Reset) != Some(was.user))
  {
  }

  lemma RowOpens(t: Tables, s: Statement, hash: string)
    requires hash !in t.sessions
    ensures hash in Exec(t, s).sessions <==> s.CreateSession? && s.hash == hash
    ensures s.CreateSession? && s.hash == hash ==> Exec(t, s).sessions[hash] == Session(s.user, s.expires, None)
  {
  }

  /** The row of a hash, told from the history alone. */
  lemma {:induction false} RowMeaning(t0: Tables, stmts: seq<Statement>, hash: string)
    requires NoRows(t0)
    ensures hash in After(t0, stmts).sessions <==> OpenedAt(stmts, hash).Some?
    ensures OpenedAt(stmts, hash).Some? ==>
      var i := OpenedAt(stmts, hash).value;
      var row := After(t0, stmts).sessions[hash];
      && row.user == stmts[i].user && row.expires == stmts[i].expires
      && (row.revoked.None? <==> Unended(t0, stmts, i + 1, hash, stmts[i].user))
  {
    if stmts != [] {
      var n := |stmts| - 1;
      hide Exec, Ends;
      RowMeaning(t0, stmts[..n], hash);
      if hash in After(t0, stmts[..n]).sessions {
        RowStep(After(t0, stmts[..n]), stmts[n], hash);
      } else {
        RowOpens(After(t0, stmts[..n]), stmts[n], hash);
      }
      if OpenedAt(stmts[..n], hash).Some? {
        var i := OpenedAt(stmts[..n], hash).value;
        UnendedSplits(t0, stmts, i + 1, hash, stmts[i].user);
        EndsNow(t0, stmts, hash, stmts[i].user);
      }
    }
  }

  /** In every run, whatever the interleaving: a refresh token is accepted, for the user it was issued to, exactly
    * when its session was opened, has not expired, and no revocation of it and no committed password reset of its
    * user came after. */
  lemma LookupMeaning(t0: Tables, stmts: seq<Statement>, hash: string)
    requires NoRows(t0)
    ensures Lookup(After(t0, stmts), hash) ==
      match OpenedAt(stmts, hash)
      case None => None
      case Some(i) =>
        if After(t0, stmts).now < stmts[i].expires && Unended(t0, stmts, i + 1, hash, stmts[i].user)
        then Some(stmts[i].user) else None
  {
    RowMeaning(t0, stmts, hash);
  }

  lemma ClockStep(t: Tables, s: Statement)
    ensures t.now <= Exec(t, s).now
  {
  }

  lemma {:induction false} ClockAdvances(t0: Tables, stmts: seq<Statement>, a: nat)
    requires a <= |stmts|
    ensures After(t0, stmts[..a]).now <= After(t0, stmts).now
    decreases |stmts|
  {
    if a == |stmts| {
      assert stmts[..a] == stmts;
    } else {
      assert stmts[..|stmts| - 1][..a] == stmts[..a];
      ClockAdvances(t0, stmts[..|stmts| - 1], a);
      hide Exec;
      ClockStep(After(t0, stmts[..|stmts| - 1]), stmts[|stmts| - 1]);
    }
  }

  /** A row seen at point a of a run, at the end of it. */
  lemma {:induction false} RowLater(t0: Tables, stmts: seq<Statement>, a: nat, hash: string)
    requires a <= |stmts| && hash in After(t0, stmts[..a]).sessions
    ensures hash in After(t0, stmts).sessions
    ensures var was, row := After(t0, stmts[..a]).sessions[hash], After(t0, stmts).sessions[hash];
      && row.user == was.user && row.expires == was.expires
      && (row.revoked.None? <==> was.revoked.None? && Unended(t0, stmts, a, hash, was.user))
    decreases |stmts|
  {
    if a == |stmts| {
      assert stmts[..a] == stmts;
    } else {
      var n := |stmts| - 1;
      assert stmts[..n][..a] == stmts[..a];
      RowLater(t0, stmts[..n], a, hash);
      RowStep(After(t0, stmts[..n]), stmts[n], hash);
      UnendedSplits(t0, stmts, a, hash, After(t0, stmts[..a]).sessions[hash].user);
    }
  }

  /** When a token is accepted a second time: two refreshes that present it are both accepted exactly when no
    * revocation of it, the first refresh's own included, comes between their look-ups, no committed reset of the
    * user does, and it has not expired. One at a time, each refresh revokes before the next looks up. */
  lemma AcceptedAgain(t0: Tables, stmts: seq<Statement>, a: nat, hash: string)
    requires a <= |stmts| && Lookup(After(t0, stmts[..a]), hash).Some?
    ensures Lookup(After(t0, stmts), hash) ==
      if Unended(t0, stmts, a, hash, After(t0, stmts[..a]).sessions[hash].user)
         && After(t0, stmts).now < After(t0, stmts[..a]).sessions[hash].expires
      then Lookup(After(t0, stmts[..a]), hash) else None
  {
    RowLater(t0, stmts, a, hash);
  }

  /** A session that is revoked or expired never becomes active again. */
  lemma NeverActiveAgain(t0: Tables, stmts: seq<Statement>, a: nat, hash: string)
    requires a <= |stmts| && hash in After(t0, stmts[..a]).sessions && Lookup(After(t0, stmts[..a]), hash).None?
    ensures Lookup(After(t0, stmts), hash).None?
  {
    RowLater(t0, stmts, a, hash);
    ClockAdvances(t0, stmts, a);
  }

  /** After a committed reset at statement j, no session of the user that existed then is ever accepted. */
  lemma ResetEndsEarlierSessions(t0: Tables, stmts: seq<Statement>, j: nat, hash: string)
    requires j < |stmts| && hash in After(t0, stmts[..j]).sessions
    requires UsedFor(After(t0, stmts[..j]), stmts[j], Reset) == Some(After(t0, stmts[..j]).sessions[hash].user)
    ensures Lookup(After(t0, stmts), hash).None?
  {
    RowLater(t0, stmts, j, hash);
    assert Ends(t0, stmts, j, hash, After(t0, stmts[..j]).sessions[hash].user);
  }

  // ---- One-time tokens over a run -------------------------------------------------------

  predicate Issues(s: Statement, kind: Kind, hash: string) {
    s.CreateToken? && s.kind == kind && s.hash == hash
  }

  /** Statement s has the effect of the token, in a committed transaction. */
  predicate Uses(t: Tables, s: Statement, kind: Kind, hash: string) {
    UsedFor(t, s, kind).Some? && s.hash == hash
  }

  function Issued(stmts: seq<Statement>, kind: Kind, hash: string): nat {
    if stmts == [] then 0
    else Issued(stmts[..|stmts| - 1], kind, hash) + if Issues(stmts[|stmts| - 1], kind, hash) then 1 else 0
  }

  function Effects(t0: Tables, stmts: seq<Statement>, kind: Kind, hash: string): nat {
    if stmts == [] then 0
    else
      var n := |stmts| - 1;
      Effects(t0, stmts[..n], kind, hash) + if Uses(After(t0, stmts[..n]), stmts[n], kind, hash) then 1 else 0
  }

  /** Rows of a hash that are not used yet, expired or not. */
  function Unused(rows: seq<Token>, hash: string): nat {
    if rows == [] then 0
    else
      var n := |rows| - 1;
      Unused(rows[..n], hash) + if rows[n].hash == hash && rows[n].used.None? then 1 else 0
  }

  lemma {:induction false} ConsumeUses(rows: seq<Token>, hash: string, now: int, other: string)
    ensures Unused(Consumed(rows, hash, now), other) <= Unused(rows, other)
    ensures Owner(rows, hash, now).Some? ==> Unused(Consumed(rows, hash, now), hash) < Unused(rows, hash)
  {
    if rows != [] {
      var n := |rows| - 1;
      assert Consumed(rows, hash, now)[..n] == Consumed(rows[..n], hash, now);
      ConsumeUses(rows[..n], hash, now, other);
      ConsumeUses(rows[..n], hash, now, hash);
      if Owner(rows, hash, now).Some? && !Usable(rows[n], hash, now) {
        var k :| 0 <= k < |rows| && Usable(rows[k], hash, now);
        assert Usable(rows[..n][k], hash, now);
      }
    }
  }

  lemma AppendUnused(rows: seq<Token>, row: Token, hash: string)
    ensures Unused(rows + [row], hash) == Unused(rows, hash) + if row.hash == hash && row.used.None? then 1 else 0
  {
    assert (rows + [row])[..|rows|] == rows;
  }

  lemma EffectStep(t: Tables, s: Statement, kind: Kind, hash: string)
    ensures Unused(Rows(Exec(t, s), kind), hash) + (if Uses(t, s, kind, hash) then 1 else 0)
         <= Unused(Rows(t, kind), hash) + if Issues(s, kind, hash) then 1 else 0
  {
    match s
    case CreateToken(k, h, u, e) => AppendUnused(Rows(t, kind), Token(u, h, e, None), hash);
    case Verify(h, _) => ConsumeUses(t.verifications, h, t.now, hash);
    case ResetPassword(h, _, _) => ConsumeUses(t.resets, h, t.now, hash);
    case _ =>
  }

  lemma {:induction false} EffectsAreIssues(t0: Tables, stmts: seq<Statement>, kind: Kind, hash: string)
    requires NoRows(t0)
    ensures Effects(t0, stmts, kind, hash) + Unused(Rows(After(t0, stmts), kind), hash) <= Issued(stmts, kind, hash)
  {
    if stmts != [] {
      var n := |stmts| - 1;
      hide Exec, Uses, Issues;
      EffectsAreIssues(t0, stmts[..n], kind, hash);
      EffectStep(After(t0, stmts[..n]), stmts[n], kind, hash);
    }
  }

  /** Each reset or verification token, issued once, takes effect in at most one committed transaction, however
    * transactions interleave, repeat and roll back. */
  lemma OneTime(t0: Tables, stmts: seq<Statement>, kind: Kind, hash: string)
    requires NoRows(t0) && Issued(stmts, kind, hash) <= 1
    ensures Effects(t0, stmts, kind, hash) <= 1
  {
    EffectsAreIssues(t0, stmts, kind, hash);
  }

  /** Each row was issued by some statement. */
  ghost predicate Issuer(stmts: seq<Statement>, kind: Kind, row: Token) {
    exists j :: 0 <= j < |stmts| && stmts[j] == CreateToken(kind, row.hash, row.user, row.expires)
  }

  lemma RowsStep(t: Tables, s: Statement, kind: Kind, k: nat)
    requires k < |Rows(Exec(t, s), kind)|
    ensures var row := Rows(Exec(t, s), kind)[k];
      if k < |Rows(t, kind)|
      then row == Rows(t, kind)[k].(used := row.used)
      else s == CreateToken(kind, row.hash, row.user, row.expires)
  {
  }

  lemma {:induction false} RowsWereIssued(t0: Tables, stmts: seq<Statement>, kind: Kind, k: nat)
    requires NoRows(t0) && k < |Rows(After(t0, stmts), kind)|
    ensures Issuer(stmts, kind, Rows(After(t0, stmts), kind)[k])
    decreases |stmts|
  {
    var n := |stmts| - 1;
    hide Exec;
    var t, row := After(t0, stmts[..n]), Rows(After(t0, stmts), kind)[k];
    RowsStep(t, stmts[n], kind, k);
    if k < |Rows(t, kind)| {
      RowsWereIssued(t0, stmts[..n], kind, k);
      var j :| 0 <= j < n && stmts[..n][j] == CreateToken(kind, row.hash, row.user, row.expires);
      assert stmts[j] == CreateToken(kind, row.hash, row.user, row.expires);
    } else {
      assert stmts[n] == CreateToken(kind, row.hash, row.user, row.expires);
    }
  }

  /** A token takes effect only on a user it was issued to, before the expiry it was issued with. */
  lemma EffectWasIssued(t0: Tables, stmts: seq<Statement>, i: nat, kind: Kind)
    requires NoRows(t0) && i < |stmts| && UsedFor(After(t0, stmts[..i]), stmts[i], kind).Some?
    ensures exists j ::
      && 0 <= j < i && Issues(stmts[j], kind, stmts[i].hash)
      && stmts[j].user == UsedFor(After(t0, stmts[..i]), stmts[i], kind).value
      && After(t0, stmts[..i]).now < stmts[j].expires
  {
    var t := After(t0, stmts[..i]);
    var u := UsedFor(t, stmts[i], kind).value;
    var k :| 0 <= k < |Rows(t, kind)| && Usable(Rows(t, kind)[k], stmts[i].hash, t.now) && Rows(t, kind)[k].user == u;
    RowsWereIssued(t0, stmts[..i], kind, k);
    var row := Rows(t, kind)[k];
    var j :| 0 <= j < i && stmts[..i][j] == CreateToken(kind, row.hash, row.user, row.expires);
    assert Issues(stmts[j], kind, stmts[i].hash);
  }

  // ---- What a token is good for ---------------------------------------------------------

  /** Statement j issued the token with an expiry after `time`, and it has not been used since. */
  ghost predicate LiveFrom(t0: Tables, stmts: seq<Statement>, j: int, kind: Kind, hash: string, time: int) {
    && 0 <= j < |stmts| && Issues(stmts[j], kind, hash) && time < stmts[j].expires
    && forall m | j < m < |stmts| :: !Uses(After(t0, stmts[..m]), stmts[m], kind, hash)
  }

  lemma LiveSnoc(t0: Tables, stmts: seq<Statement>, j: int, kind: Kind, hash: string, time: int)
    requires stmts != []
    ensures var n := |stmts| - 1;
      LiveFrom(t0, stmts, j, kind, hash, time)
      <==> ((j == n && Issues(stmts[n], kind, hash) && time < stmts[n].expires)
            || (LiveFrom(t0, stmts[..n], j, kind, hash, time) && !Uses(After(t0, stmts[..n]), stmts[n], kind, hash)))
  {
    hide After, Uses, Issues;
    var n := |stmts| - 1;
    forall m | 0 <= m < n
      ensures stmts[..n][m] == stmts[m] && stmts[..n][..m] == stmts[..m]
    {
    }
    assert 0 <= j < n && LiveFrom(t0, stmts, j, kind, hash, time)
      ==> !Uses(After(t0, stmts[..n]), stmts[n], kind, hash);
  }

  lemma {:induction false} OwnerSnoc(rows: seq<Token>, row: Token, hash: string, time: int)
    ensures Owner(rows + [row], hash, time)
         == if Owner(rows, hash, time).Some? then Owner(rows, hash, time)
            else if Usable(row, hash, time) then Some(row.user) else None
  {
    if rows == [] {
      assert rows + [row] == [row];
    } else {
      assert (rows + [row])[1..] == rows[1..] + [row];
      OwnerSnoc(rows[1..], row, hash, time);
    }
  }

  lemma {:induction false} OwnerConsumed(rows: seq<Token>, used: string, now: int, hash: string, time: int)
    requires now <= time
    ensures Owner(Consumed(rows, used, now), hash, time) == if used == hash then None else Owner(rows, hash, time)
  {
    if rows != [] {
      assert Consumed(rows, used, now)[1..] == Consumed(rows[1..], used, now);
      OwnerConsumed(rows[1..], used, now, hash, time);
    }
  }

  /** What one statement does to the user a token is good for, at any later time. */
  lemma OwnerStep(t: Tables, s: Statement, kind: Kind, hash: string, time: int)
    requires Exec(t, s).now <= time
    ensures t.now <= time
    ensures Owner(Rows(Exec(t, s), kind), hash, time)
         == if Uses(t, s, kind, hash) then None
            else if Owner(Rows(t, kind), hash, time).Some? then Owner(Rows(t, kind), hash, time)
            else if Issues(s, kind, hash) && time < s.expires then Some(s.user) else None
  {
    ClockStep(t, s);
    hide Owner, Consumed, RevokedAll;
    match s
    case CreateToken(k, h, u, e) => OwnerSnoc(Rows(t, kind), Token(u, h, e, None), hash, time);
    case Verify(h, _) => OwnerConsumed(t.verifications, h, t.now, hash, time);
    case ResetPassword(h, _, _) => OwnerConsumed(t.resets, h, t.now, hash, time);
    case _ =>
  }

  /** Statement j is the first from which the token is live. */
  ghost predicate FirstLive(t0: Tables, stmts: seq<Statement>, j: int, kind: Kind, hash: string, time: int) {
    LiveFrom(t0, stmts, j, kind, hash, time) && forall i | i < j :: !LiveFrom(t0, stmts, i, kind, hash, time)
  }

  lemma LiveInside(t0: Tables, stmts: seq<Statement>, j: int, kind: Kind, hash: string, time: int)
    ensures LiveFrom(t0, stmts, j, kind, hash, time) ==> 0 <= j < |stmts|
  {
  }

  lemma LiveSnocAll(t0: Tables, stmts: seq<Statement>, kind: Kind, hash: string, time: int)
    requires stmts != []
    ensures var n := |stmts| - 1;
      forall j :: LiveFrom(t0, stmts, j, kind, hash, time)
        <==> ((j == n && Issues(stmts[n], kind, hash) && time < stmts[n].expires)
              || (LiveFrom(t0, stmts[..n], j, kind, hash, time) && !Uses(After(t0, stmts[..n]), stmts[n], kind, hash)))
  {
    hide LiveFrom, After, Uses;
    var n := |stmts| - 1;
    forall j
      ensures LiveFrom(t0, stmts, j, kind, hash, time)
        <==> ((j == n && Issues(stmts[n], kind, hash) && time < stmts[n].expires)
              || (LiveFrom(t0, stmts[..n], j, kind, hash, time) && !Uses(After(t0, stmts[..n]), stmts[n], kind, hash)))
    {
      LiveSnoc(t0, stmts, j, kind, hash, time);
    }
  }

  lemma {:induction false} OwnerIsFirst(t0: Tables, stmts: seq<Statement>, kind: Kind, hash: string, time: int)
    returns (j: int)
    requires NoRows(t0) && After(t0, stmts).now <= time
    ensures match Owner(Rows(After(t0, stmts), kind), hash, time)
      case Some(u) => FirstLive(t0, stmts, j, kind, hash, time) && stmts[j].user == u
      case None => forall i :: !LiveFrom(t0, stmts, i, kind, hash, time)
    decreases |stmts|
  {
    if stmts != [] {
      var n := |stmts| - 1;
      var t := After(t0, stmts[..n]);
      OwnerStep(t, stmts[n], kind, hash, time);
      j := OwnerIsFirst(t0, stmts[..n], kind, hash, time);
      UsesIssuesNothing(t, stmts[n], kind, hash);
      LiveSnocAll(t0, stmts, kind, hash, time);
      forall i ensures LiveFrom(t0, stmts[..n], i, kind, hash, time) ==> 0 <= i < n {
        LiveInside(t0, stmts[..n], i, kind, hash, time);
      }
      hide Exec, Rows, Owner, LiveFrom, Uses, Issues;
      if Owner(Rows(t, kind), hash, time).None? { j := n; }
    } else {
      j := 0;
    }
  }

  lemma UsesIssuesNothing(t: Tables, s: Statement, kind: Kind, hash: string)
    ensures Uses(t, s, kind, hash) ==> !Issues(s, kind, hash)
  {
  }

  /** In every run, whatever the interleaving: a token is good at the end, or at any later time, for the user u exactly
    * when some statement issued it with an expiry after that time and it took no effect since, and u is the user of
    * the first such statement. */
  lemma TokenMeaning(t0: Tables, stmts: seq<Statement>, kind: Kind, hash: string, time: int, u: nat)
    requires NoRows(t0) && After(t0, stmts).now <= time
    ensures Owner(Rows(After(t0, stmts), kind), hash, time) == Some(u)
       <==> exists j :: FirstLive(t0, stmts, j, kind, hash, time) && stmts[j].user == u
  {
    var j := OwnerIsFirst(t0, stmts, kind, hash, time);
    hide After, Owner, Rows, LiveFrom;
    forall i | FirstLive(t0, stmts, i, kind, hash, time) && FirstLive(t0, stmts, j, kind, hash, time)
      ensures i == j
    {
      assert i < j ==> !LiveFrom(t0, stmts, i, kind, hash, time);
      assert j < i ==> !LiveFrom(t0, stmts, j, kind, hash, time);
    }
  }

  // ---- Passwords and verified addresses -------------------------------------------------

  /** Statement j set the password of the user. */
  predicate SetsPassword(t0: Tables, stmts: seq<Statement>, j: nat, user: nat)
    requires j < |stmts|
  {
    UsedFor(After(t0, stmts[..j]), stmts[j], Reset) == Some(user)
  }

  /** The last statement that set the password of the user. */
  function LastSet(t0: Tables, stmts: seq<Statement>, user: nat): (r: Option<nat>)
    ensures r.Some? ==> r.value < |stmts| && stmts[r.value].ResetPassword?
  {
    if stmts == [] then None
    else
      var n := |stmts| - 1;
      if SetsPassword(t0, stmts, n, user) then Some(n) else LastSet(t0, stmts[..n], user)
  }

  lemma SameSets(t0: Tables, stmts: seq<Statement>, j: nat, user: nat)
    requires j < |stmts| - 1
    ensures SetsPassword(t0, stmts[..|stmts| - 1], j, user) == SetsPassword(t0, stmts, j, user)
  {
    assert stmts[..|stmts| - 1][..j] == stmts[..j];
  }

  /** No statement from position `from` on set the password of the user. */
  ghost predicate NoneSets(t0: Tables, stmts: seq<Statement>, from: nat, user: nat) {
    forall j: nat | from <= j < |stmts| :: !SetsPassword(t0, stmts, j, user)
  }

  lemma NoneSetsSnoc(t0: Tables, stmts: seq<Statement>, from: nat, user: nat)
    requires stmts != [] && NoneSets(t0, stmts[..|stmts| - 1], from, user)
    requires !SetsPassword(t0, stmts, |stmts| - 1, user)
    ensures NoneSets(t0, stmts, from, user)
  {
    hide SetsPassword;
    forall j: nat | from <= j < |stmts|
      ensures !SetsPassword(t0, stmts, j, user)
    {
      if j < |stmts| - 1 { SameSets(t0, stmts, j, user); }
    }
  }

  lemma {:induction false} LastSetIsLast(t0: Tables, stmts: seq<Statement>, user: nat)
    ensures match LastSet(t0, stmts, user)
      case Some(j) => SetsPassword(t0, stmts, j, user) && NoneSets(t0, stmts, j + 1, user)
      case None => NoneSets(t0, stmts, 0, user)
  {
    if stmts != [] {
      var n := |stmts| - 1;
      hide SetsPassword, NoneSets;
      if SetsPassword(t0, stmts, n, user) {
        NothingAfter(t0, stmts, user);
      } else {
        LastSetIsLast(t0, stmts[..n], user);
        var r := LastSet(t0, stmts[..n], user);
        NoneSetsSnoc(t0, stmts, if r.Some? then r.value + 1 else 0, user);
        if r.Some? { SameSets(t0, stmts, r.value, user); }
      }
    }
  }

  lemma NothingAfter(t0: Tables, stmts: seq<Statement>, user: nat)
    ensures NoneSets(t0, stmts, |stmts|, user)
  {
  }

  lemma PasswordStep(t: Tables, s: Statement, user: nat)
    ensures var sets := UsedFor(t, s, Reset) == Some(user);
      && (user in Exec(t, s).passwords <==> sets || user in t.passwords)
      && (sets ==> s.ResetPassword?)
      && (user in Exec(t, s).passwords ==>
        Exec(t, s).passwords[user] == if sets then s.password else t.passwords[user])
  {
  }

  /** In every run a user's stored password is that of the last committed reset of the user, or the one from before the
    * run if there was none. */
  lemma {:induction false} PasswordMeaning(t0: Tables, stmts: seq<Statement>, user: nat)
    ensures match LastSet(t0, stmts, user)
      case Some(j) => user in After(t0, stmts).passwords && After(t0, stmts).passwords[user] == stmts[j].password
      case None =>
        && (user in After(t0, stmts).passwords <==> user in t0.passwords)
        && (user in t0.passwords ==> After(t0, stmts).passwords[user] == t0.passwords[user])
  {
    if stmts != [] {
      var n := |stmts| - 1;
      hide Exec, UsedFor;
      PasswordMeaning(t0, stmts[..n], user);
      PasswordStep(After(t0, stmts[..n]), stmts[n], user);
    }
  }

  /** Statement j verified the address of the user. */
  ghost predicate VerifiedBy(t0: Tables, stmts: seq<Statement>, j: int, user: nat) {
    0 <= j < |stmts| && UsedFor(After(t0, stmts[..j]), stmts[j], Verification) == Some(user)
  }

  lemma VerifiedSnoc(t0: Tables, stmts: seq<Statement>, j: int, user: nat)
    requires stmts != []
    ensures var n := |stmts| - 1;
      VerifiedBy(t0, stmts, j, user)
      <==> (VerifiedBy(t0, stmts[..n], j, user)
            || (j == n && UsedFor(After(t0, stmts[..n]), stmts[n], Verification) == Some(user)))
  {
    hide UsedFor, After;
    if 0 <= j < |stmts| - 1 { assert stmts[..|stmts| - 1][..j] == stmts[..j]; }
  }

  /** In every run an address is verified exactly when it was before or a committed verification was for its user. */
  lemma {:induction false} VerifiedMeaning(t0: Tables, stmts: seq<Statement>, user: nat)
    ensures user in After(t0, stmts).verified
       <==> (user in t0.verified || exists j :: VerifiedBy(t0, stmts, j, user))
  {
    if stmts != [] {
      var n := |stmts| - 1;
      VerifiedMeaning(t0, stmts[..n], user);
      VerifiedStep(After(t0, stmts[..n]), stmts[n], user);
      hide Exec, UsedFor, VerifiedBy;
      VerifiedSnoc(t0, stmts, n, user);
      forall j { VerifiedSnoc(t0, stmts, j, user); }
      if j :| VerifiedBy(t0, stmts[..n], j, user) { VerifiedSnoc(t0, stmts, j, user); }
    }
  }

  lemma VerifiedStep(t: Tables, s: Statement, user: nat)
    ensures user in Exec(t, s).verified <==> user in t.verified || UsedFor(t, s, Verification) == Some(user)
  {
  }
}
