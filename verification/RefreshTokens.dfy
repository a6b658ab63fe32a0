/** Refresh tokens: issue at login, rotation with reuse detection, revocation. The token hash is
    taken as injective, so a record is found by its raw token. */
module RefreshTokens {
  import opened Common

  datatype Record = Record(user: nat, expires: int, revokedAt: Option<int>) {
    predicate Active() { revokedAt.None? }
  }

  /** `origin` remembers the login each token descends from; `logins` counts logins so far. */
  datatype Tokens = Tokens(records: map<nat, Record>, origin: map<nat, nat>, logins: nat)

  datatype TokenReply = Issued(token: nat) | InvalidToken | TokenExpired | AccountInactive | Collision

  /** Lifetime of a refresh token: seven days, in seconds. */
  const LIFETIME := 604_800

  function Empty(): Tokens { Tokens(map[], map[], 0) }

  predicate ActiveToken(s: Tokens, t: nat) { t in s.records && s.records[t].Active() }

  function RevokeOne(records: map<nat, Record>, t: nat, now: int): map<nat, Record>
    requires t in records
  {
    records[t := records[t].(revokedAt := Some(now))]
  }

  /** Every active token of the user is revoked. */
  function RevokeUser(records: map<nat, Record>, user: nat, now: int): map<nat, Record> {
    map t | t in records ::
      if records[t].user == user && records[t].Active() then records[t].(revokedAt := Some(now)) else records[t]
  }

  // ---------- operations ----------

  /** A successful login; `next` is the newly generated token. */
  function Login(s: Tokens, user: nat, next: nat, now: int): (Tokens, TokenReply) {
    if next in s.records then (s, Collision)
    else (Tokens(s.records[next := Record(user, now + LIFETIME, None)], s.origin[next := s.logins], s.logins + 1),
          Issued(next))
  }

  function Rotate(s: Tokens, token: nat, next: nat, now: int, userActive: bool): (Tokens, TokenReply) {
    if token !in s.records then (s, InvalidToken)
    else
      var record := s.records[token];
      if record.revokedAt.Some? then (s.(records := RevokeUser(s.records, record.user, now)), InvalidToken)
      else if record.expires <= now then (s.(records := RevokeOne(s.records, token, now)), TokenExpired)
      else if !userActive then (s.(records := RevokeOne(s.records, token, now)), AccountInactive)
      else if next in s.records then (s, Collision)
      else
        var origin := if token in s.origin then s.origin[next := s.origin[token]] else s.origin;
        (Tokens(RevokeOne(s.records, token, now)[next := Record(record.user, now + LIFETIME, None)], origin, s.logins),
         Issued(next))
  }

  /** Logout: true when the token was there and still active. */
  function Revoke(s: Tokens, token: nat, now: int): (Tokens, bool) {
    if !ActiveToken(s, token) then (s, false)
    else (s.(records := RevokeOne(s.records, token, now)), true)
  }

  function RevokeAll(s: Tokens, user: nat, now: int): Tokens { s.(records := RevokeUser(s.records, user, now)) }

  datatype TokenOp =
    | LoginOp(user: nat, next: nat, now: int)
    | RotateOp(token: nat, next: nat, now: int, userActive: bool)
    | RevokeOp(token: nat, now: int)
    | RevokeAllOp(user: nat, now: int)

  function Step(s: Tokens, op: TokenOp): Tokens {
    match op
    case LoginOp(user, next, now) => Login(s, user, next, now).0
    case RotateOp(token, next, now, active) => Rotate(s, token, next, now, active).0
    case RevokeOp(token, now) => Revoke(s, token, now).0
    case RevokeAllOp(user, now) => RevokeAll(s, user, now)
  }

  function Run(ops: seq<TokenOp>): Tokens {
    if ops == [] then Empty() else Step(Run(ops[..|ops| - 1]), ops[|ops| - 1])
  }

  // ---------- the service ----------

  class TokenService {
    var records: map<nat, Record>
    ghost var origin: map<nat, nat>
    ghost var logins: nat

    constructor ()
      ensures State() == Empty()
    {
      records, origin, logins := map[], map[], 0;
    }

    ghost function State(): Tokens
      reads this
    {
      Tokens(records, origin, logins)
    }

    method IssueAtLogin(user: nat, next: nat, now: int) returns (r: TokenReply)
      modifies this
      ensures (State(), r) == Login(old(State()), user, next, now)
    {
      if next in records { return Collision; }
      records := records[next := Record(user, now + LIFETIME, None)];
      origin, logins := origin[next := logins], logins + 1;
      return Issued(next);
    }

    method RotateRefreshToken(token: nat, next: nat, now: int, userActive: bool) returns (r: TokenReply)
      modifies this
      ensures (State(), r) == Rotate(old(State()), token, next, now, userActive)
    {
      if token !in records { return InvalidToken; }
      var record := records[token];
      if record.revokedAt.Some? {
        var count := RevokeAllUserTokens(record.user, now);
        return InvalidToken;
      }
      if record.expires <= now {
        records := records[token := record.(revokedAt := Some(now))];
        return TokenExpired;
      }
      if !userActive {
        records := records[token := record.(revokedAt := Some(now))];
        return AccountInactive;
      }
      if next in records { return Collision; }
      records := records[token := record.(revokedAt := Some(now))];
      records := records[next := Record(record.user, now + LIFETIME, None)];
      origin := if token in origin then origin[next := origin[token]] else origin;
      return Issued(next);
    }

    method RevokeRefreshToken(token: nat, now: int) returns (revoked: bool)
      modifies this
      ensures (State(), revoked) == Revoke(old(State()), token, now)
    {
      if token !in records || records[token].revokedAt.Some? { return false; }
      records := records[token := records[token].(revokedAt := Some(now))];
      return true;
    }

    /** The bulk update, and how many rows it touched. */
    method RevokeAllUserTokens(user: nat, now: int) returns (count: nat)
      modifies this
      ensures State() == RevokeAll(old(State()), user, now)
      ensures count == |set t | t in old(records) && old(records)[t].user == user && old(records)[t].Active()|
    {
      count := |set t | t in records && records[t].user == user && records[t].Active()|;
      records := map t | t in records ::
        if records[t].user == user && records[t].Active() then records[t].(revokedAt := Some(now)) else records[t];
    }
  }

  // ---------- when a token is exchanged ----------

  /** A token is exchanged exactly while it is active and before its expiry, for an active account
      and a fresh successor; then it is revoked, and the successor lives seven days for the same
      user. */
  lemma TokenIsRotatedWhen(s: Tokens, token: nat, next: nat, now: int, userActive: bool)
    ensures var (s', reply) := Rotate(s, token, next, now, userActive);
            && (reply == Issued(next) <==>
                  && token in s.records && s.records[token].revokedAt == None && now < s.records[token].expires
                  && userActive && next !in s.records)
            && (reply.Issued? ==> reply == Issued(next))
            && (reply == Issued(next) ==>
                  && s'.records.Keys == s.records.Keys + {next} && s'.logins == s.logins
                  && s'.records[token] == Record(s.records[token].user, s.records[token].expires, Some(now))
                  && s'.records[next] == Record(s.records[token].user, now + 7 * 24 * 60 * 60, None)
                  && (token in s.origin ==> s'.origin == s.origin[next := s.origin[token]])
                  && forall t :: t in s.records && t != token ==> s'.records[t] == s.records[t])
  {
  }

  /** What each refusal attests, and what it does to the records. */
  lemma RefusedRotationMeans(s: Tokens, token: nat, next: nat, now: int, userActive: bool)
    requires !Rotate(s, token, next, now, userActive).1.Issued?
    ensures var (s', reply) := Rotate(s, token, next, now, userActive);
            && s'.records.Keys == s.records.Keys && s'.origin == s.origin && s'.logins == s.logins
            && match reply
               case InvalidToken => token in s.records ==> s.records[token].revokedAt.Some?
               case TokenExpired =>
                 && token in s.records && s.records[token].expires <= now
                 && s'.records == s.records[token := s.records[token].(revokedAt := Some(now))]
               case AccountInactive =>
                 && !userActive && token in s.records
                 && s'.records == s.records[token := s.records[token].(revokedAt := Some(now))]
               case Collision => next in s.records && s' == s
               case _ => false
  {
  }

  /** A token issued at login is good for seven days to the second. */
  lemma LoginTokenRotatesFor(s: Tokens, user: nat, token: nat, next: nat, issued: int, now: int)
    requires Login(s, user, token, issued).1 == Issued(token)
    requires next !in Login(s, user, token, issued).0.records
    ensures var s' := Login(s, user, token, issued).0;
            Rotate(s', token, next, now, true).1 == Issued(next) <==> now < issued + 7 * 24 * 60 * 60
  {
  }

  lemma LoginIssuesWhen(s: Tokens, user: nat, next: nat, now: int)
    ensures var (s', reply) := Login(s, user, next, now);
            && (reply == Issued(next) <==> next !in s.records)
            && (if next in s.records then reply == Collision && s' == s
                else s' == Tokens(s.records[next := Record(user, now + 7 * 24 * 60 * 60, None)],
                                  s.origin[next := s.logins], s.logins + 1))
  {
  }

  /** Logout revokes an active token and no other; a global logout all of the user's. */
  lemma RevocationMeans(s: Tokens, token: nat, user: nat, now: int)
    ensures var (s', revoked) := Revoke(s, token, now);
            && (revoked <==> token in s.records && s.records[token].revokedAt == None)
            && (!revoked ==> s' == s)
            && (revoked ==> s' == s.(records := s.records[token := s.records[token].(revokedAt := Some(now))]))
    ensures var s' := RevokeAll(s, user, now);
            && s' == s.(records := s'.records) && s'.records.Keys == s.records.Keys
            && forall t :: t in s.records ==>
                 s'.records[t]
                 == (if s.records[t].user == user && s.records[t].revokedAt == None
                     then s.records[t].(revokedAt := Some(now)) else s.records[t])
  {
  }

  // ---------- what every run keeps ----------

  /** Distinct active tokens come from distinct logins. */
  ghost predicate ActiveApart(s: Tokens)
    requires s.origin.Keys == s.records.Keys
  {
    forall t, u :: ActiveToken(s, t) && ActiveToken(s, u) && t != u ==> s.origin[t] != s.origin[u]
  }

  /** Tokens of one login belong to one user. */
  ghost predicate OneUserPerLogin(s: Tokens)
    requires s.origin.Keys == s.records.Keys
  {
    forall t, u :: t in s.records && u in s.records && s.origin[t] == s.origin[u] ==>
      s.records[t].user == s.records[u].user
  }

  ghost predicate Sound(s: Tokens) {
    && s.origin.Keys == s.records.Keys
    && (forall t :: t in s.origin ==> s.origin[t] < s.logins)
    && OneUserPerLogin(s)
    && ActiveApart(s)
  }

  /** Revoking tokens, however many, keeps every run property. */
  lemma RevokingKeepsSound(s: Tokens, records: map<nat, Record>)
    requires Sound(s) && records.Keys == s.records.Keys
    requires forall t :: t in records ==> records[t].user == s.records[t].user
    requires forall t :: t in records && records[t].Active() ==> s.records[t].Active()
    ensures Sound(s.(records := records))
  {
    var s' := s.(records := records);
    forall t, u | ActiveToken(s', t) && ActiveToken(s', u) && t != u
      ensures s'.origin[t] != s'.origin[u]
    {
      assert ActiveToken(s, t) && ActiveToken(s, u);
    }
  }

  lemma LoginKeepsActiveApart(s: Tokens, user: nat, next: nat, now: int)
    requires Sound(s)
    ensures ActiveApart(Login(s, user, next, now).0)
  {
    var s' := Login(s, user, next, now).0;
    forall t, u | ActiveToken(s', t) && ActiveToken(s', u) && t != u
      ensures s'.origin[t] != s'.origin[u]
    {
      assert t != next ==> ActiveToken(s, t);
      assert u != next ==> ActiveToken(s, u);
    }
  }

  lemma LoginKeepsSound(s: Tokens, user: nat, next: nat, now: int)
    requires Sound(s)
    ensures Sound(Login(s, user, next, now).0)
  {
    LoginKeepsActiveApart(s, user, next, now);
    assert OneUserPerLogin(Login(s, user, next, now).0);
  }

  /** The records after an exchange: the old token revoked, the new one with the old one's user
      and login. */
  ghost predicate Exchanged(s: Tokens, s': Tokens, token: nat, next: nat) {
    && ActiveToken(s, token) && next !in s.records && token in s.origin
    && s'.logins == s.logins && s'.origin == s.origin[next := s.origin[token]]
    && s'.records.Keys == s.records.Keys + {next}
    && s'.records[next].user == s.records[token].user
    && !s'.records[token].Active() && s'.records[token].user == s.records[token].user
    && forall t :: t in s.records && t != token ==> s'.records[t] == s.records[t]
  }

  lemma IssuingExchanges(s: Tokens, token: nat, next: nat, now: int)
    requires Sound(s) && Rotate(s, token, next, now, true).1.Issued?
    ensures Exchanged(s, Rotate(s, token, next, now, true).0, token, next)
  {
  }

  lemma ExchangeKeepsActiveApart(s: Tokens, s': Tokens, token: nat, next: nat)
    requires Sound(s) && Exchanged(s, s', token, next)
    ensures ActiveApart(s')
  {
    forall t, u | ActiveToken(s', t) && ActiveToken(s', u) && t != u
      ensures s'.origin[t] != s'.origin[u]
    {
      assert t != token && u != token;
      assert ActiveToken(s, if t == next then token else t);
      assert ActiveToken(s, if u == next then token else u);
    }
  }

  lemma ExchangeKeepsUsers(s: Tokens, s': Tokens, token: nat, next: nat)
    requires Sound(s) && Exchanged(s, s', token, next)
    ensures OneUserPerLogin(s')
  {
    forall t, u | t in s'.records && u in s'.records && s'.origin[t] == s'.origin[u]
      ensures s'.records[t].user == s'.records[u].user
    {
      var t', u' := if t == next then token else t, if u == next then token else u;
      assert s.origin[t'] == s.origin[u'];
    }
  }

  /** The new token inherits the login of the one it replaces, which is revoked. */
  lemma IssuingKeepsSound(s: Tokens, token: nat, next: nat, now: int)
    requires Sound(s) && Rotate(s, token, next, now, true).1.Issued?
    ensures Sound(Rotate(s, token, next, now, true).0)
  {
    var s' := Rotate(s, token, next, now, true).0;
    IssuingExchanges(s, token, next, now);
    ExchangeKeepsActiveApart(s, s', token, next);
    ExchangeKeepsUsers(s, s', token, next);
  }

  /** Reuse, expiry and an inactive account only revoke. */
  lemma RefusedRotationKeepsSound(s: Tokens, token: nat, next: nat, now: int, userActive: bool)
    requires Sound(s) && !Rotate(s, token, next, now, userActive).1.Issued?
    ensures Sound(Rotate(s, token, next, now, userActive).0)
  {
    if ActiveToken(s, token) {
      RevokingKeepsSound(s, RevokeOne(s.records, token, now));
    } else if token in s.records {
      RevokingKeepsSound(s, RevokeUser(s.records, s.records[token].user, now));
    }
  }

  lemma RotationKeepsSound(s: Tokens, token: nat, next: nat, now: int, userActive: bool)
    requires Sound(s)
    ensures Sound(Rotate(s, token, next, now, userActive).0)
  {
    if Rotate(s, token, next, now, userActive).1.Issued? {
      IssuingKeepsSound(s, token, next, now);
    } else {
      RefusedRotationKeepsSound(s, token, next, now, userActive);
    }
  }

  lemma StepKeepsSound(s: Tokens, op: TokenOp)
    requires Sound(s)
    ensures Sound(Step(s, op))
  {
    match op
    case LoginOp(user, next, now) => LoginKeepsSound(s, user, next, now);
    case RotateOp(token, next, now, active) => RotationKeepsSound(s, token, next, now, active);
    case RevokeOp(token, now) => if ActiveToken(s, token) { RevokingKeepsSound(s, Step(s, op).records); }
    case RevokeAllOp(user, now) => RevokingKeepsSound(s, Step(s, op).records);
  }

  lemma {:induction false} RunIsSound(ops: seq<TokenOp>)
    ensures Sound(Run(ops))
  {
    if ops != [] {
      RunIsSound(ops[..|ops| - 1]);
      StepKeepsSound(Run(ops[..|ops| - 1]), ops[|ops| - 1]);
    }
  }

  /** Two active tokens, of one user or of two, always trace back to two different logins. */
  lemma ActiveTokensHaveDistinctLogins(ops: seq<TokenOp>, t: nat, u: nat)
    requires ActiveToken(Run(ops), t) && ActiveToken(Run(ops), u) && t != u
    ensures t in Run(ops).origin && u in Run(ops).origin
    ensures Run(ops).origin[t] != Run(ops).origin[u]
  {
    RunIsSound(ops);
  }

  lemma RevokedStaysRevoked(s: Tokens, op: TokenOp, t: nat)
    requires t in s.records && !s.records[t].Active()
    ensures t in Step(s, op).records && !Step(s, op).records[t].Active()
  {
  }

  ghost predicate Rotates(s: Tokens, op: TokenOp, t: nat) {
    op.RotateOp? && op.token == t && Rotate(s, op.token, op.next, op.now, op.userActive).1.Issued?
  }

  /** How often a run rotates a token successfully. */
  ghost function Rotations(ops: seq<TokenOp>, t: nat): nat {
    if ops == [] then 0
    else
      var before := ops[..|ops| - 1];
      Rotations(before, t) + (if Rotates(Run(before), ops[|ops| - 1], t) then 1 else 0)
  }

  /** Each token is exchanged at most once, and is revoked from then on. */
  lemma {:induction false} RotatedAtMostOnce(ops: seq<TokenOp>, t: nat)
    ensures Rotations(ops, t) <= 1
    ensures Rotations(ops, t) == 1 ==> t in Run(ops).records && !Run(ops).records[t].Active()
  {
    if ops != [] {
      var before, op := ops[..|ops| - 1], ops[|ops| - 1];
      RotatedAtMostOnce(before, t);
      if Rotations(before, t) == 1 {
        RevokedStaysRevoked(Run(before), op, t);
      }
    }
  }

  /** Presenting a token that was already revoked leaves its user without any active token. */
  lemma ReuseEndsAllSessions(s: Tokens, token: nat, next: nat, now: int, userActive: bool, t: nat)
    requires token in s.records && !s.records[token].Active()
    requires t in s.records && s.records[t].user == s.records[token].user
    ensures var (s', reply) := Rotate(s, token, next, now, userActive);
            && reply == InvalidToken
            && s'.records.Keys == s.records.Keys
            && !s'.records[t].Active()
            && forall u :: u in s.records && s.records[u].user != s.records[token].user ==>
                 s'.records[u] == s.records[u]
  {
  }

  /** A stolen token helps at most until both holders have used it: whoever rotates second ends
      every session of the user, the first holder's included. */
  lemma SecondUseEndsFirst(s: Tokens, token: nat, next: nat, next': nat, now: int, now': int)
    requires Sound(s) && Rotate(s, token, next, now, true).1 == Issued(next)
    ensures var s1 := Rotate(s, token, next, now, true).0;
            var (s2, reply) := Rotate(s1, token, next', now', true);
            && ActiveToken(s1, next)
            && reply == InvalidToken
            && forall t :: t in s2.records && s2.records[t].user == s.records[token].user ==> !s2.records[t].Active()
  {
  }
}
