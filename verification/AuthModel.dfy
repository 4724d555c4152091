/**
 * The OAuth authorization server as a state machine. A request reads rows outside its transaction and writes
 * conditionally inside it, so a request in flight is part of the state and every interleaving is a run.
 */
module AuthModel {
  import opened Prelude

  /** Nanoseconds. */
  type Time = int

  const SECOND: int := 1_000_000_000
  const CODE_TTL: int := 120 * SECOND
  const ACCESS_TOKEN_TTL: int := 3_600 * SECOND
  const GRANT_IDLE_TTL: int := 90 * 86_400 * SECOND
  const REFRESH_GRACE: int := 60 * SECOND
  const DEAD_RETENTION: int := 30 * 86_400 * SECOND

  /** Secrets are stored hashed, and different secrets hash differently. */
  datatype Hash = Hash(secret: nat)

  /** The challenge made from a verifier, section 4.6 of RFC 7636. */
  datatype Challenge = Challenge(verifier: nat)

  datatype Session = Session(user: Id, expires: Time, revoked: bool)

  datatype Code = Code(client: Id, user: Id, redirect: nat, challenge: Challenge, generation: nat, expires: Time)

  datatype Grant = Grant(
    user: Id, client: Id, refresh: Hash, prev: Option<Hash>, rotatedAt: Option<Time>, expires: Time,
    revoked: Option<Time>)

  datatype Token = Token(user: Id, grant: Id, expires: Time, revoked: Option<Time>)

  /** A request between its reads and its transaction; `at` is the clock it read when it began. */
  datatype Request =
    | Exchange(at: Time, client: Id, hash: Hash, code: Code)
    | Refresh(at: Time, client: Id, hash: Hash, grant: Id, user: Id)
    | Lookup(at: Time, client: Id, hash: Hash)
    | Revoke(at: Time, grant: Id, user: Id)

  datatype Approval = Approval(code: Hash, generation: nat)

  /**
   * The stored rows and requests in flight, and after them what the rows alone forget: every code and refresh hash ever
   * issued, what each grant was made from, and the refresh hashes rotated away, in order.
   */
  datatype State = State(
    now: Time, generations: map<Id, nat>, sessions: map<Id, Session>, codes: map<Hash, Code>,
    grants: map<Id, Grant>, spent: map<Hash, Id>, tokens: map<Id, Token>, requests: map<Id, Request>,
    approved: set<Hash>, issued: map<Hash, Id>, approvals: map<Id, Approval>, rotations: seq<Hash>)

  function Start(generations: map<Id, nat>): State {
    State(0, generations, map[], map[], map[], map[], map[], map[], {}, map[], map[], [])
  }

  predicate GrantLive(g: Grant, at: Time) {
    g.revoked.None? && g.expires > at
  }

  predicate TokenLive(t: Token, now: Time) {
    t.revoked.None? && t.expires > now
  }

  predicate SessionLive(s: State, user: Id, session: Id) {
    session in s.sessions && s.sessions[session].user == user && !s.sessions[session].revoked
      && s.sessions[session].expires > s.now
  }

  function RevokeGrants(grants: map<Id, Grant>, ids: set<Id>, at: Time): map<Id, Grant> {
    map g | g in grants :: if g in ids && grants[g].revoked.None? then grants[g].(revoked := Some(at)) else grants[g]
  }

  function RevokeTokens(tokens: map<Id, Token>, grants: set<Id>, now: Time): map<Id, Token> {
    map t | t in tokens :: if tokens[t].grant in grants && tokens[t].revoked.None? then tokens[t].(revoked := Some(now))
                           else tokens[t]
  }

  /** The user's other unrevoked grants for the client. */
  function OtherGrants(grants: map<Id, Grant>, user: Id, client: Id): set<Id> {
    set g | g in grants && grants[g].user == user && grants[g].client == client && grants[g].revoked.None?
  }

  function GrantsOf(grants: map<Id, Grant>, user: Id): set<Id> {
    set g | g in grants && grants[g].user == user
  }

  /** The two states hold the same rows; they may differ in codes, sessions and requests. */
  ghost predicate SameRows(s: State, next: State) {
    && next.generations == s.generations && next.grants == s.grants && next.spent == s.spent && next.tokens == s.tokens
    && next.issued == s.issued && next.approvals == s.approvals && next.rotations == s.rotations
  }

  /** No code is issued, redeemed or moved between the two states. */
  ghost predicate SameCodes(s: State, next: State) {
    && next.generations == s.generations && next.codes == s.codes && next.approved == s.approved
      && next.approvals == s.approvals
    && forall r :: r in next.requests && next.requests[r].Exchange? ==>
        r in s.requests && next.requests[r] == s.requests[r]
  }

  /** At most the request is gone; codes, spent hashes and sessions are as they were. */
  ghost predicate EndsRequest(s: State, next: State, req: Id) {
    && next.codes == s.codes && next.approved == s.approved && next.rotations == s.rotations
    && next.sessions == s.sessions && (next.requests == s.requests || next.requests == s.requests - {req})
  }

  datatype Action =
    | Tick(elapsed: nat)
    | SignIn(session: Id, user: Id, expires: Time)
    | Approve(at: Time, user: Id, session: Id, client: Id, secret: nat, redirect: nat, challenge: Challenge)
    | BeginExchange(req: Id, at: Time, client: Id, secret: nat, redirect: nat, verifier: nat, resourceOk: bool)
    | CommitExchange(req: Id, grant: Id, secret: nat, token: Id)
    | BeginRefresh(req: Id, at: Time, client: Id, secret: nat)
    | CommitRefresh(req: Id, secret: nat, token: Id)
    | LookupSpent(req: Id)
    | RevokeApp(req: Id, user: Id, grant: Id)
    | CommitRevoke(req: Id)
    | Reclaim(user: Id)
    | PurgeCodes(at: Time)
    | DeleteDeadGrants(at: Time)
    | PurgeTokens(at: Time)
    | Drop(req: Id)

  /** Approval under the user lock: the presenting session must still be live, and the code carries the generation read.
      The code's lifetime counts from the clock read before the transaction. */
  function ApproveStep(s: State, at: Time, user: Id, session: Id, client: Id, secret: nat, redirect: nat,
                       challenge: Challenge): (n: State)
    ensures SameRows(s, n) && n.now == s.now && s.approved <= n.approved
  {
    var h := Hash(secret);
    if at <= s.now && user in s.generations && SessionLive(s, user, session) && h !in s.approved then
      s.(codes := s.codes[h := Code(client, user, redirect, challenge, s.generations[user], at + CODE_TTL)],
         approved := s.approved + {h})
    else s
  }

  predicate Redeemable(code: Code, at: Time, client: Id, redirect: nat, verifier: nat, resourceOk: bool) {
    at < code.expires && code.client == client && code.redirect == redirect && code.challenge == Challenge(verifier)
      && resourceOk
  }

  /** The code is consumed before any check, so every attempt burns it. */
  function BeginExchangeStep(s: State, req: Id, at: Time, client: Id, secret: nat, redirect: nat, verifier: nat,
                             resourceOk: bool): (n: State)
    ensures SameRows(s, n) && n.now == s.now && n.approved == s.approved
  {
    var h := Hash(secret);
    if req in s.requests || at > s.now || h !in s.codes then s
    else
      var burned := s.(codes := s.codes - {h});
      if Redeemable(s.codes[h], at, client, redirect, verifier, resourceOk) then
        burned.(requests := s.requests[req := Exchange(at, client, h, s.codes[h])])
      else burned
  }

  /** A new secret, grant or token id is one never seen before. */
  predicate FreshSecret(s: State, secret: nat) {
    Hash(secret) !in s.issued
  }

  /**
   * The grant replaces the user's earlier ones for the client; nothing is written if the generation moved since
   * approval.
   */
  function CommitExchangeStep(s: State, req: Id, grant: Id, secret: nat, token: Id): (n: State)
    ensures EndsRequest(s, n, req)
  {
    hide RevokeGrants, RevokeTokens, OtherGrants, FreshSecret;
    if req in s.requests && s.requests[req].Exchange? && FreshSecret(s, secret) && grant !in s.approvals
       && token !in s.tokens then
      var p := s.requests[req];
      var user := p.code.user;
      var done := s.(requests := s.requests - {req});
      if user in s.generations && s.generations[user] == p.code.generation then
        var others := OtherGrants(s.grants, user, p.client);
        done.(grants := RevokeGrants(s.grants, others, p.at)
                [grant := Grant(user, p.client, Hash(secret), None, None, p.at + GRANT_IDLE_TTL, None)],
              tokens := RevokeTokens(s.tokens, others,
                                     s.now)[token := Token(user, grant, s.now + ACCESS_TOKEN_TTL, None)],
              issued := s.issued[Hash(secret) := grant],
              approvals := s.approvals[grant := Approval(p.hash, p.code.generation)])
      else done
    else s
  }

  ghost predicate Holds(grants: map<Id, Grant>, h: Hash, g: Id) {
    g in grants && grants[g].refresh == h
  }

  /** The grant whose current refresh hash this is, if any. */
  ghost function Holder(grants: map<Id, Grant>, h: Hash): (found: Option<Id>)
    ensures found.Some? ==> Holds(grants, h, found.value)
    ensures found.None? ==> forall g :: !Holds(grants, h, g)
  {
    if exists g :: Holds(grants, h, g) then
      var g :| Holds(grants, h, g);
      Some(g)
    else None
  }

  /** The first read of a refresh: by the current hash; a hash no grant holds goes on to the spent ones. */
  ghost function BeginRefreshStep(s: State, req: Id, at: Time, client: Id, secret: nat): (n: State)
    ensures SameRows(s, n) && SameCodes(s, n) && n.now == s.now
  {
    if req in s.requests || at > s.now then s
    else Looked(s, req, at, client, Hash(secret), Holder(s.grants, Hash(secret)))
  }

  function Looked(s: State, req: Id, at: Time, client: Id, h: Hash, found: Option<Id>): (n: State)
    requires found.Some? ==> found.value in s.grants
    ensures SameRows(s, n) && SameCodes(s, n) && n.now == s.now
  {
    if found.None? then s.(requests := s.requests[req := Lookup(at, client, h)])
    else
      var g := s.grants[found.value];
      if g.client == client && GrantLive(g, at) then
        s.(requests := s.requests[req := Refresh(at, client, h, found.value, g.user)])
      else s
  }

  /** Of all refreshes in flight for one hash at most one finds it in place; a revoked grant gives it to none. */
  function CommitRefreshStep(s: State, req: Id, secret: nat, token: Id): (n: State)
    ensures SameCodes(s, n)
  {
    if req in s.requests && s.requests[req].Refresh? && FreshSecret(s, secret) && token !in s.tokens then
      var p := s.requests[req];
      var done := s.(requests := s.requests - {req});
      if p.user in s.generations && p.grant in s.grants && s.grants[p.grant].refresh == p.hash
         && s.grants[p.grant].revoked.None? && p.hash !in s.spent then
        var g := s.grants[p.grant];
        done.(grants := s.grants[p.grant := g.(refresh := Hash(secret), prev := Some(p.hash), rotatedAt := Some(p.at),
                                               expires := p.at + GRANT_IDLE_TTL)],
              spent := s.spent[p.hash := p.grant],
              tokens := s.tokens[token := Token(p.user, p.grant, s.now + ACCESS_TOKEN_TTL, None)],
              issued := s.issued[Hash(secret) := p.grant],
              rotations := s.rotations + [p.hash])
      else done
    else s
  }

  /** The grant's previous token, presented within a minute of its rotation. */
  predicate Tolerated(g: Grant, h: Hash, at: Time) {
    && g.prev == Some(h) && g.rotatedAt.Some?
    && (if at >= g.rotatedAt.value then at - g.rotatedAt.value else g.rotatedAt.value - at) <= REFRESH_GRACE
  }

  /** A replayed token that is not the last one rotated away, or comes outside the grace window, on the client's own
      unrevoked grant. */
  predicate Replay(s: State, p: Request) {
    && p.Lookup? && p.hash in s.spent && s.spent[p.hash] in s.grants
    && s.grants[s.spent[p.hash]].client == p.client && s.grants[s.spent[p.hash]].revoked.None?
    && !Tolerated(s.grants[s.spent[p.hash]], p.hash, p.at)
  }

  /** The second read of a refresh whose hash no grant holds: a replay condemns its grant. */
  function LookupSpentStep(s: State, req: Id): (n: State)
    ensures SameRows(s, n) && SameCodes(s, n) && n.now == s.now && n.sessions == s.sessions
  {
    if req in s.requests && s.requests[req].Lookup? then
      var p := s.requests[req];
      if Replay(s, p) then
        s.(requests := s.requests[req := Revoke(p.at, s.spent[p.hash], s.grants[s.spent[p.hash]].user)])
      else s.(requests := s.requests - {req})
    else s
  }

  /** The settings page revoking one of the user's own grants. */
  function RevokeAppStep(s: State, req: Id, user: Id, grant: Id): (n: State)
    ensures SameRows(s, n) && SameCodes(s, n) && n.now == s.now
  {
    if req !in s.requests && grant in s.grants && s.grants[grant].user == user && s.grants[grant].revoked.None? then
      s.(requests := s.requests[req := Revoke(s.now, grant, user)])
    else s
  }

  function CommitRevokeStep(s: State, req: Id): (n: State)
    ensures SameCodes(s, n)
  {
    if req in s.requests && s.requests[req].Revoke? then
      var p := s.requests[req];
      var done := s.(requests := s.requests - {req});
      if p.user in s.generations then
        done.(grants := RevokeGrants(s.grants, {p.grant}, p.at), tokens := RevokeTokens(s.tokens, {p.grant}, s.now))
      else done
    else s
  }

  function SessionsEnded(sessions: map<Id, Session>, user: Id): map<Id, Session> {
    map x | x in sessions :: if sessions[x].user == user then sessions[x].(revoked := true) else sessions[x]
  }

  function TokensEnded(tokens: map<Id, Token>, user: Id, now: Time): map<Id, Token> {
    map t | t in tokens :: if tokens[t].user == user && tokens[t].revoked.None? then tokens[t].(revoked := Some(now))
                           else tokens[t]
  }

  /** An account reclaim: the generation moves, and every session, token and grant of the user is revoked with it. */
  function ReclaimStep(s: State, user: Id): State {
    if user in s.generations then
      s.(generations := s.generations[user := s.generations[user] + 1],
         sessions := SessionsEnded(s.sessions, user),
         tokens := TokensEnded(s.tokens, user, s.now),
         grants := RevokeGrants(s.grants, GrantsOf(s.grants, user), s.now))
    else s
  }

  predicate DeadGrant(g: Grant, cutoff: Time) {
    (g.revoked.Some? && g.revoked.value < cutoff) || g.expires < cutoff
  }

  predicate DeadToken(t: Token, cutoff: Time) {
    (t.revoked.Some? && t.revoked.value < cutoff) || t.expires < cutoff
  }

  function GrantsKept(grants: map<Id, Grant>, cutoff: Time): map<Id, Grant> {
    map g | g in grants && !DeadGrant(grants[g], cutoff) :: grants[g]
  }

  function SpentKept(spent: map<Hash, Id>, grants: map<Id, Grant>): map<Hash, Id> {
    map h | h in spent && spent[h] in grants :: spent[h]
  }

  function TokensKept(tokens: map<Id, Token>, cutoff: Time): map<Id, Token> {
    map t | t in tokens && !DeadToken(tokens[t], cutoff) :: tokens[t]
  }

  /** Housekeeping for a request that began at `at`: dead grants go, and their spent hashes with them. */
  function DeleteDeadGrantsStep(s: State, at: Time): (n: State)
    ensures SameCodes(s, n)
  {
    if at > s.now then s
    else
      var kept := GrantsKept(s.grants, at - DEAD_RETENTION);
      s.(grants := kept, spent := SpentKept(s.spent, kept))
  }

  function PurgeTokensStep(s: State, at: Time): (n: State)
    ensures SameCodes(s, n)
  {
    if at > s.now then s else s.(tokens := TokensKept(s.tokens, at - DEAD_RETENTION))
  }

  ghost function Apply(s: State, a: Action): State {
    match a
    case Tick(elapsed) => s.(now := s.now + elapsed)
    case SignIn(session, user, expires) =>
      if session in s.sessions then s else s.(sessions := s.sessions[session := Session(user, expires, false)])
    case Approve(at, user, session, client, secret, redirect,
                 challenge) => ApproveStep(s, at, user, session, client, secret, redirect, challenge)
    case BeginExchange(req, at, client, secret, redirect, verifier,
                       ok) => BeginExchangeStep(s, req, at, client, secret, redirect, verifier, ok)
    case CommitExchange(req, grant, secret, token) => CommitExchangeStep(s, req, grant, secret, token)
    case BeginRefresh(req, at, client, secret) => BeginRefreshStep(s, req, at, client, secret)
    case CommitRefresh(req, secret, token) => CommitRefreshStep(s, req, secret, token)
    case LookupSpent(req) => LookupSpentStep(s, req)
    case RevokeApp(req, user, grant) => RevokeAppStep(s, req, user, grant)
    case CommitRevoke(req) => CommitRevokeStep(s, req)
    case Reclaim(user) => ReclaimStep(s, user)
    case PurgeCodes(at) => s.(codes := map h | h in s.codes && s.codes[h].expires >= at :: s.codes[h])
    case DeleteDeadGrants(at) => DeleteDeadGrantsStep(s, at)
    case PurgeTokens(at) => PurgeTokensStep(s, at)
    case Drop(req) => s.(requests := s.requests - {req})
  }

  /** The state after a run. */
  ghost function Run(s: State, actions: seq<Action>): State {
    if actions == [] then s else Apply(Run(s, actions[..|actions| - 1]), actions[|actions| - 1])
  }
}
