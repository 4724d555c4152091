/**
 * What each step does to each stored row: which grants, tokens, sessions and codes it ends or removes, and no others.
 */
module AuthEffects {
  import opened Prelude
  import opened AuthModel
  import opened AuthInvariant

  /** The exchange's transaction goes through: its identifiers are new and the generation is still the code's. */
  predicate Goes(s: State, req: Id, grant: Id, secret: nat, token: Id) {
    && req in s.requests && s.requests[req].Exchange?
    && Hash(secret) !in s.issued && grant !in s.approvals && token !in s.tokens
    && s.requests[req].code.user in s.generations
    && s.generations[s.requests[req].code.user] == s.requests[req].code.generation
  }

  predicate RevokeGoes(s: State, req: Id) {
    req in s.requests && s.requests[req].Revoke? && s.requests[req].user in s.generations
  }

  /** The step ends this unrevoked grant: a newer one of the same user and client, its revocation, or a reclaim. */
  predicate EndsGrant(s: State, a: Action, g: Id)
    requires g in s.grants
  {
    s.grants[g].revoked.None? &&
      match a
      case CommitExchange(req, grant, secret, token) =>
        && Goes(s, req, grant, secret, token)
        && s.grants[g].user == s.requests[req].code.user && s.grants[g].client == s.requests[req].client
      case CommitRevoke(req) => RevokeGoes(s, req) && s.requests[req].grant == g
      case Reclaim(user) => user in s.generations && s.grants[g].user == user
      case _ => false
  }

  function EndOf(s: State, a: Action): Time {
    if (a.CommitExchange? || a.CommitRevoke?) && a.req in s.requests then s.requests[a.req].at else s.now
  }

  /** A row is swept once it has been revoked, or past its end, for more than thirty days of the sweep's clock. */
  predicate LongDead(revoked: Option<Time>, expires: Time, at: Time) {
    (revoked.Some? && revoked.value + 30 * 86_400 * SECOND < at) || expires + 30 * 86_400 * SECOND < at
  }

  predicate SweepsGrant(s: State, a: Action, g: Id)
    requires g in s.grants
  {
    a.DeleteDeadGrants? && a.at <= s.now && LongDead(s.grants[g].revoked, s.grants[g].expires, a.at)
  }

  /** The refresh rotates this grant. */
  predicate TurnsGrant(s: State, a: Action, g: Id)
    requires g in s.grants
  {
    && a.CommitRefresh? && a.req in s.requests && s.requests[a.req].Refresh? && s.requests[a.req].grant == g
    && Hash(a.secret) !in s.issued && a.token !in s.tokens && s.requests[a.req].user in s.generations
    && s.grants[g].refresh == s.requests[a.req].hash && s.grants[g].revoked.None?
    && s.requests[a.req].hash !in s.spent
  }

  /** What becomes of a stored grant, step by step: swept, ended, rotated, or left as it is. */
  lemma GrantFate(s: State, a: Action, g: Id)
    requires g in s.grants && (a.CommitExchange? ==> g in s.approvals)
    ensures g in Apply(s, a).grants <==> !SweepsGrant(s, a, g)
    ensures g in Apply(s, a).grants && EndsGrant(s, a, g) ==>
              Apply(s, a).grants[g] == s.grants[g].(revoked := Some(EndOf(s, a)))
    ensures g in Apply(s, a).grants && TurnsGrant(s, a, g) ==>
              Apply(s, a).grants[g]
              == s.grants[g].(refresh := Hash(a.secret), prev := Some(s.grants[g].refresh),
                              rotatedAt := Some(s.requests[a.req].at),
                              expires := s.requests[a.req].at + 90 * 86_400 * SECOND)
    ensures g in Apply(s, a).grants && !EndsGrant(s, a, g) && !TurnsGrant(s, a, g) ==>
              Apply(s, a).grants[g] == s.grants[g]
  {
    match a {
      case CommitExchange(req, grant, secret, token) => ExchangeGrant(s, req, grant, secret, token, g);
      case CommitRevoke(req) => RevokeGrantFate(s, req, g);
      case CommitRefresh(req, secret, token) => RefreshGrant(s, req, secret, token, g);
      case Reclaim(user) => ReclaimGrant(s, user, g);
      case DeleteDeadGrants(at) => SweepGrant(s, at, g);
      case _ => OtherGrantsStay(s, a);
    }
    hide Apply, Goes, RevokeGoes, LongDead;
  }

  lemma ExchangeGrant(s: State, req: Id, grant: Id, secret: nat, token: Id, g: Id)
    requires g in s.grants && g in s.approvals
    ensures var n := CommitExchangeStep(s, req, grant, secret, token);
      g in n.grants && n.grants[g] == if EndsGrant(s, CommitExchange(req, grant, secret, token), g)
                                      then s.grants[g].(revoked := Some(s.requests[req].at)) else s.grants[g]
  {
    hide RevokeTokens;
  }

  lemma RevokeGrantFate(s: State, req: Id, g: Id)
    requires g in s.grants
    ensures var n := CommitRevokeStep(s, req);
      g in n.grants && n.grants[g] == if EndsGrant(s, CommitRevoke(req), g)
                                      then s.grants[g].(revoked := Some(s.requests[req].at)) else s.grants[g]
  {
    hide RevokeTokens;
  }

  lemma RefreshGrant(s: State, req: Id, secret: nat, token: Id, g: Id)
    requires g in s.grants
    ensures var n := CommitRefreshStep(s, req, secret, token);
      g in n.grants && n.grants[g] ==
        if TurnsGrant(s, CommitRefresh(req, secret, token), g) then
          s.grants[g].(refresh := Hash(secret), prev := Some(s.grants[g].refresh),
                       rotatedAt := Some(s.requests[req].at),
                       expires := s.requests[req].at + 90 * 86_400 * SECOND)
        else s.grants[g]
  {
  }

  lemma ReclaimGrant(s: State, user: Id, g: Id)
    requires g in s.grants
    ensures var n := ReclaimStep(s, user);
      g in n.grants && n.grants[g] == if EndsGrant(s, Reclaim(user), g) then s.grants[g].(revoked := Some(s.now))
                                      else s.grants[g]
  {
    hide SessionsEnded, TokensEnded;
  }

  lemma SweepGrant(s: State, at: Time, g: Id)
    requires g in s.grants
    ensures var n := DeleteDeadGrantsStep(s, at);
      && (g in n.grants <==> !SweepsGrant(s, DeleteDeadGrants(at), g))
      && (g in n.grants ==> n.grants[g] == s.grants[g])
  {
    hide SpentKept;
  }

  lemma OtherGrantsStay(s: State, a: Action)
    requires !a.CommitExchange? && !a.CommitRevoke? && !a.CommitRefresh? && !a.Reclaim? && !a.DeleteDeadGrants?
    ensures Apply(s, a).grants == s.grants
  {
    hide SessionLive, Redeemable, TokensKept;
  }

  /** The step ends this unrevoked token: with its grant, or with its user's account reclaimed. */
  predicate EndsToken(s: State, a: Action, t: Id)
    requires t in s.tokens
  {
    s.tokens[t].revoked.None? &&
      match a
      case CommitExchange(req, grant, secret, token) =>
        && Goes(s, req, grant, secret, token) && s.tokens[t].grant in s.grants
        && s.grants[s.tokens[t].grant].revoked.None? && s.grants[s.tokens[t].grant].user == s.requests[req].code.user
        && s.grants[s.tokens[t].grant].client == s.requests[req].client
      case CommitRevoke(req) => RevokeGoes(s, req) && s.tokens[t].grant == s.requests[req].grant
      case Reclaim(user) => user in s.generations && s.tokens[t].user == user
      case _ => false
  }

  /** What becomes of a stored token: swept, ended now, or left as it is. */
  lemma TokenFate(s: State, a: Action, t: Id)
    requires t in s.tokens
    ensures t in Apply(s, a).tokens <==>
      !(a.PurgeTokens? && a.at <= s.now && LongDead(s.tokens[t].revoked, s.tokens[t].expires, a.at))
    ensures t in Apply(s, a).tokens ==>
      Apply(s, a).tokens[t] == if EndsToken(s, a, t) then s.tokens[t].(revoked := Some(s.now)) else s.tokens[t]
  {
    match a {
      case CommitExchange(req, grant, secret, token) => ExchangeToken(s, req, grant, secret, token, t);
      case CommitRevoke(req) => RevokeTokenFate(s, req, t);
      case CommitRefresh(req, secret, token) => RefreshToken(s, req, secret, token, t);
      case Reclaim(user) => ReclaimToken(s, user, t);
      case PurgeTokens(at) => PurgeToken(s, at, t);
      case _ => OtherTokensStay(s, a);
    }
    hide Apply, Goes, RevokeGoes, LongDead;
  }

  lemma ExchangeToken(s: State, req: Id, grant: Id, secret: nat, token: Id, t: Id)
    requires t in s.tokens
    ensures var n := CommitExchangeStep(s, req, grant, secret, token);
      t in n.tokens && n.tokens[t] == if EndsToken(s, CommitExchange(req, grant, secret, token), t)
                                      then s.tokens[t].(revoked := Some(s.now)) else s.tokens[t]
  {
    if Goes(s, req, grant, secret, token) {
      assert FreshSecret(s, secret);
    }
    hide RevokeGrants;
  }

  lemma RevokeTokenFate(s: State, req: Id, t: Id)
    requires t in s.tokens
    ensures var n := CommitRevokeStep(s, req);
      t in n.tokens && n.tokens[t] == if EndsToken(s, CommitRevoke(req), t) then s.tokens[t].(revoked := Some(s.now))
                                      else s.tokens[t]
  {
    hide RevokeGrants;
  }

  lemma RefreshToken(s: State, req: Id, secret: nat, token: Id, t: Id)
    requires t in s.tokens
    ensures var n := CommitRefreshStep(s, req, secret, token); t in n.tokens && n.tokens[t] == s.tokens[t]
  {
  }

  lemma ReclaimToken(s: State, user: Id, t: Id)
    requires t in s.tokens
    ensures var n := ReclaimStep(s, user);
      t in n.tokens && n.tokens[t] == if EndsToken(s, Reclaim(user), t) then s.tokens[t].(revoked := Some(s.now))
                                      else s.tokens[t]
  {
    hide SessionsEnded, RevokeGrants;
  }

  lemma PurgeToken(s: State, at: Time, t: Id)
    requires t in s.tokens
    ensures var n := PurgeTokensStep(s, at);
      && (t in n.tokens <==> !(at <= s.now && LongDead(s.tokens[t].revoked, s.tokens[t].expires, at)))
      && (t in n.tokens ==> n.tokens[t] == s.tokens[t])
  {
  }

  lemma OtherTokensStay(s: State, a: Action)
    requires !a.CommitExchange? && !a.CommitRevoke? && !a.CommitRefresh? && !a.Reclaim? && !a.PurgeTokens?
    ensures Apply(s, a).tokens == s.tokens
  {
    hide SessionLive, Redeemable, GrantsKept;
  }

  /** A session is ended by its user's reclaim and by nothing else; no session is removed. */
  lemma SessionFate(s: State, a: Action, x: Id)
    requires x in s.sessions
    ensures x in Apply(s, a).sessions && Apply(s, a).sessions[x] ==
      if a.Reclaim? && a.user in s.generations && s.sessions[x].user == a.user then s.sessions[x].(revoked := true)
      else s.sessions[x]
  {
    if a.Reclaim? {
      ReclaimSession(s, a.user, x);
      hide ReclaimStep;
    } else if !a.SignIn? {
      SessionsStay(s, a);
      hide Apply;
    }
  }

  lemma ReclaimSession(s: State, user: Id, x: Id)
    requires x in s.sessions
    ensures var n := ReclaimStep(s, user);
      x in n.sessions && n.sessions[x] == if user in s.generations && s.sessions[x].user == user
                                          then s.sessions[x].(revoked := true) else s.sessions[x]
  {
    hide TokensEnded, RevokeGrants, GrantsOf;
  }

  lemma SessionsStay(s: State, a: Action)
    requires !a.Reclaim? && !a.SignIn?
    ensures Apply(s, a).sessions == s.sessions
  {
    hide BeginExchangeStep, CommitExchangeStep, BeginRefreshStep, CommitRefreshStep, LookupSpentStep, RevokeAppStep;
    hide CommitRevokeStep, DeleteDeadGrantsStep, PurgeTokensStep, SessionLive;
    match a {
      case CommitExchange(req, grant, secret, token) => SessionsSame(s, req, grant, secret, token);
      case CommitRefresh(req, secret, token) => RefreshSessions(s, req, secret, token);
      case CommitRevoke(req) => RevokeSessions(s, req);
      case BeginExchange(_, _, _, _, _, _, _) => BeginSessions(s, a);
      case BeginRefresh(req, at, client, secret) => LookSessions(s, req, at, client, secret);
      case LookupSpent(req) => LookupSessions(s, req);
      case RevokeApp(req, user, grant) => AppSessions(s, req, user, grant);
      case DeleteDeadGrants(at) => SweepSessions(s, at);
      case PurgeTokens(at) => PurgeSessions(s, at);
      case _ =>
    }
  }

  lemma SessionsSame(s: State, req: Id, grant: Id, secret: nat, token: Id)
    ensures CommitExchangeStep(s, req, grant, secret, token).sessions == s.sessions
  {
    hide CommitExchangeStep;
  }

  lemma RefreshSessions(s: State, req: Id, secret: nat, token: Id)
    ensures CommitRefreshStep(s, req, secret, token).sessions == s.sessions
  {
  }

  lemma RevokeSessions(s: State, req: Id)
    ensures CommitRevokeStep(s, req).sessions == s.sessions
  {
    hide RevokeGrants, RevokeTokens;
  }

  lemma BeginSessions(s: State, b: Action)
    requires b.BeginExchange?
    ensures Apply(s, b).sessions == s.sessions
  {
    hide Redeemable;
  }

  lemma LookSessions(s: State, req: Id, at: Time, client: Id, secret: nat)
    ensures BeginRefreshStep(s, req, at, client, secret).sessions == s.sessions
  {
    hide GrantLive;
  }

  lemma LookupSessions(s: State, req: Id)
    ensures LookupSpentStep(s, req).sessions == s.sessions
  {
    hide LookupSpentStep;
  }

  lemma AppSessions(s: State, req: Id, user: Id, grant: Id)
    ensures RevokeAppStep(s, req, user, grant).sessions == s.sessions
  {
  }

  lemma SweepSessions(s: State, at: Time)
    ensures DeleteDeadGrantsStep(s, at).sessions == s.sessions
  {
    hide GrantsKept, SpentKept;
  }

  lemma PurgeSessions(s: State, at: Time)
    ensures PurgeTokensStep(s, at).sessions == s.sessions
  {
    hide TokensKept;
  }

  /**
   * Housekeeping by a clock up to now leaves exactly the codes not past their end, the grants and tokens not long dead,
   * and the spent hashes of the grants it leaves.
   */
  lemma HousekeepingLeaves(s: State, at: Time)
    requires at <= s.now
    ensures var n := Run(s, [PurgeCodes(at), DeleteDeadGrants(at), PurgeTokens(at)]);
      && (forall h :: h in n.codes <==> h in s.codes && at <= s.codes[h].expires)
      && (forall g :: g in n.grants <==> g in s.grants && !LongDead(s.grants[g].revoked, s.grants[g].expires, at))
      && (forall t :: t in n.tokens <==> t in s.tokens && !LongDead(s.tokens[t].revoked, s.tokens[t].expires, at))
      && (forall h :: h in n.spent <==> h in s.spent && s.spent[h] in n.grants)
  {
    ThreeSteps(s, PurgeCodes(at), DeleteDeadGrants(at), PurgeTokens(at));
    hide Run;
    var first := Apply(s, PurgeCodes(at));
    var second := Apply(first, DeleteDeadGrants(at));
    SweepLeaves(first, at);
    PurgeLeaves(second, at);
    hide LongDead, DeleteDeadGrantsStep, PurgeTokensStep;
  }

  lemma SweepLeaves(s: State, at: Time)
    requires at <= s.now
    ensures var n := DeleteDeadGrantsStep(s, at);
      && n == s.(grants := n.grants, spent := n.spent)
      && (forall g :: g in n.grants <==> g in s.grants && !LongDead(s.grants[g].revoked, s.grants[g].expires, at))
      && (forall h :: h in n.spent <==> h in s.spent && s.spent[h] in n.grants)
  {
    var n := DeleteDeadGrantsStep(s, at);
    forall g ensures g in n.grants <==> g in s.grants && !LongDead(s.grants[g].revoked, s.grants[g].expires, at) {
      if g in s.grants { SweepGrant(s, at, g); }
    }
    hide SameCodes, DeadGrant, LongDead;
  }

  lemma PurgeLeaves(s: State, at: Time)
    requires at <= s.now
    ensures var n := PurgeTokensStep(s, at);
      && n == s.(tokens := n.tokens)
      && (forall t :: t in n.tokens <==> t in s.tokens && !LongDead(s.tokens[t].revoked, s.tokens[t].expires, at))
  {
    var n := PurgeTokensStep(s, at);
    forall t ensures t in n.tokens <==> t in s.tokens && !LongDead(s.tokens[t].revoked, s.tokens[t].expires, at) {
      if t in s.tokens { PurgeToken(s, at, t); }
    }
    hide SameCodes, DeadToken, LongDead;
  }

  lemma ThreeSteps(s: State, a: Action, b: Action, c: Action)
    ensures Run(s, [a, b, c]) == Apply(Apply(Apply(s, a), b), c)
  {
    hide Apply;
    assert [a, b, c][..2] == [a, b] && [a, b][..1] == [a] && [a][..0] == [];
    assert Run(s, [a]) == Apply(s, a);
    assert Run(s, [a, b]) == Apply(Run(s, [a]), b);
  }
}
