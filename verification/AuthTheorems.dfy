/** What the authorization server promises over whole runs, under every interleaving of its requests. */
module AuthTheorems {
  import opened Prelude
  import opened AuthModel
  import opened AuthInvariant

  /** A successful refresh is one rotation of the presented hash, and no hash is rotated twice in any run. */
  lemma RotatedAtMostOnce(generations: map<Id, nat>, actions: seq<Action>)
    ensures var r := Run(Start(generations), actions).rotations;
      forall i, j :: 0 <= i < j < |r| ==> r[i] != r[j]
  {
    RunKeeps(generations, actions);
    hide Run;
  }

  lemma RefreshIsRotation(s: State, req: Id, secret: nat, token: Id)
    ensures var n := CommitRefreshStep(s, req, secret, token);
      && (token in n.tokens && token !in s.tokens ==>
            req in s.requests && s.requests[req].Refresh? && n.rotations == s.rotations + [s.requests[req].hash])
      && (n.rotations != s.rotations ==> token in n.tokens && token !in s.tokens)
  {
  }

  /** Every refresh hash ever issued for a stored grant is its current one or a spent one, never both. */
  lemma CurrentOrSpent(generations: map<Id, nat>, actions: seq<Action>, h: Hash)
    ensures var s := Run(Start(generations), actions);
      h in s.issued && s.issued[h] in s.grants ==>
        ((h == s.grants[s.issued[h]].refresh) <==> (h !in s.spent))
        && (h in s.spent ==> s.spent[h] == s.issued[h])
  {
    RunKeeps(generations, actions);
    hide Run;
  }

  /** A user has at most one unrevoked grant per client, and it was approved under the user's present generation. */
  lemma OneGrantPerClient(generations: map<Id, nat>, actions: seq<Action>, g: Id, k: Id)
    ensures var s := Run(Start(generations), actions);
      && (g in s.grants && k in s.grants && g != k && s.grants[g].revoked.None? && s.grants[k].revoked.None? ==>
            s.grants[g].user != s.grants[k].user || s.grants[g].client != s.grants[k].client)
      && (g in s.grants && s.grants[g].revoked.None? ==>
            g in s.approvals && s.grants[g].user in s.generations
              && s.approvals[g].generation == s.generations[s.grants[g].user])
  {
    RunKeeps(generations, actions);
    hide Run;
  }

  /** An authorization code makes at most one grant, section 4.1.2 of RFC 6749. */
  lemma CodeUsedOnce(generations: map<Id, nat>, actions: seq<Action>, g: Id, k: Id)
    ensures var s := Run(Start(generations), actions);
      g in s.approvals && k in s.approvals && s.approvals[g].code == s.approvals[k].code ==>
          g == k && s.approvals[g].code !in s.codes
  {
    RunKeeps(generations, actions);
    hide Run;
  }

  /** The commit mints its access token. */
  ghost predicate Mints(s: State, a: Action) {
    (a.CommitExchange? || a.CommitRefresh?) && a.token !in s.tokens && a.token in Apply(s, a).tokens
  }

  /** A commit close enough to the clock its request read for the grant's row to outlive the token it mints. */
  predicate InTime(s: State, req: Id)
    requires req in s.requests
  {
    s.now + ACCESS_TOKEN_TTL <= s.requests[req].at + GRANT_IDLE_TTL + DEAD_RETENTION + 1
  }

  /** What is asked of a step: only of one that mints. */
  ghost predicate Prompt(s: State, a: Action) {
    Mints(s, a) && a.req in s.requests ==> InTime(s, a.req)
  }

  ghost predicate PromptRun(s: State, actions: seq<Action>) {
    actions == [] || (PromptRun(s, actions[..|actions| - 1])
                      && Prompt(Run(s, actions[..|actions| - 1]), actions[|actions| - 1]))
  }

  /** No token outlives the hour, and a live one's grant is stored long enough to cover it. */
  ghost predicate Present(s: State) {
    && (forall t :: t in s.tokens ==> s.tokens[t].expires <= s.now + ACCESS_TOKEN_TTL)
    && (forall t :: t in s.tokens && TokenLive(s.tokens[t], s.now) ==> Covered(s, s.tokens[t]))
  }

  ghost predicate Covered(s: State, t: Token) {
    t.grant in s.grants && t.expires <= s.grants[t.grant].expires + DEAD_RETENTION + 1
  }

  lemma PresentKept(s: State, a: Action)
    requires Inv(s) && Present(s) && Prompt(s, a)
    ensures Present(Apply(s, a))
  {
    hide ApproveStep, BeginExchangeStep, CommitExchangeStep, BeginRefreshStep, CommitRefreshStep, LookupSpentStep,
         RevokeAppStep,
      CommitRevokeStep, ReclaimStep, DeleteDeadGrantsStep, PurgeTokensStep, Inv, Prompt;
    if a.Tick? {
      PresentTick(s, a.elapsed);
    } else {
      hide Present;
      match a {
        case CommitExchange(req, grant, secret, token) =>
          MintHasRequest(s, a);
          PresentExchange(s, req, grant, secret, token);
        case CommitRefresh(req, secret, token) =>
          MintHasRequest(s, a);
          PresentRefresh(s, req, secret, token);
        case CommitRevoke(req) => PresentRevoke(s, req);
        case Reclaim(user) => PresentReclaim(s, user);
        case DeleteDeadGrants(at) => PresentDelete(s, at);
        case PurgeTokens(at) => PresentPurge(s, at);
        case _ => PresentFramed(s, Apply(s, a));
      }
    }
  }

  /** A step that mints commits a request, and the token is that request's grant's for an hour. */
  lemma MintHasRequest(s: State, a: Action)
    requires Prompt(s, a) && (a.CommitExchange? || a.CommitRefresh?)
    ensures Mints(s, a) ==> a.req in s.requests && InTime(s, a.req)
  {
    hide InTime, SameCodes;
  }

  lemma PresentTick(s: State, elapsed: nat)
    requires Present(s)
    ensures Present(s.(now := s.now + elapsed))
  {
  }

  lemma PresentFramed(s: State, n: State)
    requires Present(s) && n.now == s.now && n.tokens == s.tokens && n.grants == s.grants
    ensures Present(n)
  {
  }

  lemma PresentExchange(s: State, req: Id, grant: Id, secret: nat, token: Id)
    requires Inv(s) && Present(s)
    requires Mints(s, CommitExchange(req, grant, secret, token)) ==> req in s.requests && InTime(s, req)
    ensures Present(CommitExchangeStep(s, req, grant, secret, token))
  {
    hide Inv, Present, RevokeGrants, RevokeTokens, OtherGrants, InTime;
    if req in s.requests && s.requests[req].Exchange? && FreshSecret(s, secret) && grant !in s.approvals
       && token !in s.tokens {
      var p := s.requests[req];
      ExchangeIs(s, req, grant, secret, token);
      ClearedTokens(s, p);
      GrantsRecorded(s, grant);
      PresentCleared(s, p);
      hide CommitExchangeStep, Inserted;
      if p.code.user in s.generations && s.generations[p.code.user] == p.code.generation {
        assert InTime(Cleared(s, p), req) by { SameClock(s, Cleared(s, p), req); }
        PresentInserted(Cleared(s, p), req, grant, secret, token);
      } else {
        PresentFramed(s, s.(requests := s.requests - {req}));
      }
    }
  }

  lemma SameClock(s: State, n: State, req: Id)
    requires req in s.requests && InTime(s, req) && n.now == s.now && n.requests == s.requests
    ensures InTime(n, req)
  {
  }

  lemma GrantsRecorded(s: State, grant: Id)
    requires Inv(s) && grant !in s.approvals
    ensures grant !in s.grants
  {
  }

  lemma PresentRevoked(s: State, n: State)
    requires Present(s) && n.now == s.now && GrantsRevoked(s.grants, n.grants) && TokensRevoked(s.tokens, n.tokens)
    ensures Present(n)
  {
  }

  lemma PresentCleared(s: State, p: Request)
    requires Present(s) && p.Exchange?
    ensures Present(Cleared(s, p))
  {
    var others := OtherGrants(s.grants, p.code.user, p.client);
    RevokeGrantsRevokes(s.grants, others, p.at);
    RevokeTokensRevokes(s.tokens, others, s.now);
    hide RevokeGrants, RevokeTokens, OtherGrants, Present, GrantsRevoked, TokensRevoked;
    PresentRevoked(s, Cleared(s, p));
  }

  lemma PresentInserted(s: State, req: Id, grant: Id, secret: nat, token: Id)
    requires Present(s) && req in s.requests && s.requests[req].Exchange? && grant !in s.grants && InTime(s, req)
    ensures Present(Inserted(s, req, grant, secret, token))
  {
  }

  lemma PresentRefresh(s: State, req: Id, secret: nat, token: Id)
    requires Inv(s) && Present(s)
    requires Mints(s, CommitRefresh(req, secret, token)) ==> req in s.requests && InTime(s, req)
    ensures Present(CommitRefreshStep(s, req, secret, token))
  {
    hide Inv, SameCodes, FreshSecret, Present;
    var n := CommitRefreshStep(s, req, secret, token);
    if token in n.tokens && token !in s.tokens {
      hide CommitRefreshStep;
      PresentRotated(s, n, s.requests[req], token);
    } else {
      PresentFramed(s, n);
    }
  }

  lemma PresentRotated(s: State, n: State, p: Request, token: Id)
    requires Present(s) && p.Refresh? && p.grant in s.grants && p.grant in n.grants && n.now == s.now
    requires n.tokens == s.tokens[token := Token(p.user, p.grant, s.now + ACCESS_TOKEN_TTL, None)]
    requires n.grants == s.grants[p.grant := n.grants[p.grant]]
    requires s.now + ACCESS_TOKEN_TTL <= n.grants[p.grant].expires + DEAD_RETENTION + 1
    ensures Present(n)
  {
  }

  lemma PresentRevoke(s: State, req: Id)
    requires Present(s)
    ensures Present(CommitRevokeStep(s, req))
  {
    hide Present, RevokeGrants, RevokeTokens, GrantsRevoked, TokensRevoked;
    if req in s.requests && s.requests[req].Revoke? {
      var p := s.requests[req];
      if p.user in s.generations {
        RevokeGrantsRevokes(s.grants, {p.grant}, p.at);
        RevokeTokensRevokes(s.tokens, {p.grant}, s.now);
        PresentRevoked(s, CommitRevokeStep(s, req));
      } else {
        PresentFramed(s, CommitRevokeStep(s, req));
      }
    }
  }

  lemma PresentReclaim(s: State, user: Id)
    requires Present(s)
    ensures Present(ReclaimStep(s, user))
  {
    if user in s.generations {
      ReclaimRevokes(s, user);
      assert ReclaimStep(s, user).now == s.now;
      hide Present, ReclaimStep, GrantsRevoked, TokensRevoked;
      PresentRevoked(s, ReclaimStep(s, user));
    }
  }

  /** A grant is deleted only after every token it could still back is dead. */
  lemma PresentDelete(s: State, at: Time)
    requires Inv(s) && Present(s)
    ensures Present(DeleteDeadGrantsStep(s, at))
  {
    assert Backed(s);
    hide Inv;
  }

  lemma PresentPurge(s: State, at: Time)
    requires Present(s)
    ensures Present(PurgeTokensStep(s, at))
  {
  }

  lemma {:induction false} PresentThroughout(generations: map<Id, nat>, actions: seq<Action>)
    requires PromptRun(Start(generations), actions)
    ensures Present(Run(Start(generations), actions))
  {
    if actions != [] {
      var n := |actions| - 1;
      PresentThroughout(generations, actions[..n]);
      RunKeeps(generations, actions[..n]);
      hide Present, Inv, Prompt, Apply;
      PresentKept(Run(Start(generations), actions[..n]), actions[n]);
    }
  }

  /** A usable access token whose grant is not stored any more. */
  predicate Stranded(s: State, t: Id) {
    t in s.tokens && TokenLive(s.tokens[t], s.now) && s.tokens[t].grant !in s.grants
  }

  lemma PresentNotStranded(s: State, t: Id)
    requires Present(s)
    ensures !Stranded(s, t)
  {
  }

  /** The state some time after a step, once a sweep by a clock up to then has deleted the dead grants. */
  ghost function Swept(s: State, elapsed: nat, at: Time): State {
    Run(s, [Tick(elapsed), DeleteDeadGrants(at)])
  }

  lemma SweptIs(s: State, elapsed: nat, at: Time)
    ensures Swept(s, elapsed, at) == DeleteDeadGrantsStep(s.(now := s.now + elapsed), at)
  {
    hide DeleteDeadGrantsStep;
    var a: seq<Action> := [Tick(elapsed), DeleteDeadGrants(at)];
    assert a[..1] == [Tick(elapsed)];
    assert [Tick(elapsed)][..0] == [];
    assert Run(s, [Tick(elapsed)]) == s.(now := s.now + elapsed);
    assert a[..|a| - 1] == [Tick(elapsed)];
  }

  /** The step answers a request with a token for a full hour, on a grant that lasts from the request's clock. */
  ghost predicate MintedFor(s: State, n: State, req: Id, token: Id) {
    && req in s.requests && n.now == s.now && token in n.tokens
    && var t := n.tokens[token];
    && t.revoked.None? && t.expires == s.now + ACCESS_TOKEN_TTL && t.grant in n.grants
    && n.grants[t.grant].expires == s.requests[req].at + GRANT_IDLE_TTL
  }

  lemma MintedExchange(s: State, req: Id, grant: Id, secret: nat, token: Id)
    requires token !in s.tokens && token in CommitExchangeStep(s, req, grant, secret, token).tokens
    ensures MintedFor(s, CommitExchangeStep(s, req, grant, secret, token), req, token)
  {
    hide RevokeGrants, RevokeTokens, OtherGrants, FreshSecret;
    var n := CommitExchangeStep(s, req, grant, secret, token);
    assert n != s;
    assert grant in n.grants && n.grants[grant].expires == s.requests[req].at + GRANT_IDLE_TTL;
    assert n.tokens[token].grant == grant && n.tokens[token].expires == s.now + ACCESS_TOKEN_TTL;
  }

  lemma MintedRefresh(s: State, req: Id, secret: nat, token: Id)
    requires token !in s.tokens && token in CommitRefreshStep(s, req, secret, token).tokens
    ensures MintedFor(s, CommitRefreshStep(s, req, secret, token), req, token)
  {
    hide FreshSecret, SameCodes;
  }

  lemma Minted(s: State, a: Action)
    requires Mints(s, a)
    ensures MintedFor(s, Apply(s, a), a.req, a.token)
  {
    hide MintedFor, CommitExchangeStep, CommitRefreshStep;
    match a {
      case CommitExchange(req, grant, secret, token) => MintedExchange(s, req, grant, secret, token);
      case CommitRefresh(req, secret, token) => MintedRefresh(s, req, secret, token);
      case _ =>
    }
  }

  /** The bound is exact: a step that mints beyond it is stranded by the next sweep at the last instant of the token. */
  lemma LateMintStrands(s: State, a: Action)
    requires Mints(s, a) && a.req in s.requests && !InTime(s, a.req)
    ensures Stranded(Swept(Apply(s, a), ACCESS_TOKEN_TTL - 1, s.now + ACCESS_TOKEN_TTL - 1), a.token)
  {
    Minted(s, a);
    SweptIs(Apply(s, a), ACCESS_TOKEN_TTL - 1, s.now + ACCESS_TOKEN_TTL - 1);
    hide Mints, Apply, SameCodes, Swept;
  }

  /** Nothing a sweep does in a run that keeps the bound strands a token; no sweep after any prefix of the run does. */
  ghost predicate NeverStranded(s: State, actions: seq<Action>) {
    forall k, elapsed: nat, at, t {:trigger Stranded(Swept(Run(s, actions[..k]), elapsed, at), t)} ::
      0 <= k <= |actions| ==> !Stranded(Swept(Run(s, actions[..k]), elapsed, at), t)
  }

  lemma {:induction false} PromptPrefix(s: State, actions: seq<Action>, k: int)
    requires PromptRun(s, actions) && 0 <= k <= |actions|
    ensures PromptRun(s, actions[..k])
  {
    if k == |actions| {
      assert actions[..k] == actions;
    } else {
      PromptPrefix(s, actions[..|actions| - 1], k);
      assert actions[..|actions| - 1][..k] == actions[..k];
    }
  }

  lemma SweptPresent(generations: map<Id, nat>, actions: seq<Action>, elapsed: nat, at: Time, t: Id)
    requires PromptRun(Start(generations), actions)
    ensures !Stranded(Swept(Run(Start(generations), actions), elapsed, at), t)
  {
    PresentThroughout(generations, actions);
    RunKeeps(generations, actions);
    hide *;
    SweepKeeps(Run(Start(generations), actions), elapsed, at, t);
  }

  lemma SweepKeeps(s: State, elapsed: nat, at: Time, t: Id)
    requires Inv(s) && Present(s)
    ensures !Stranded(Swept(s, elapsed, at), t)
  {
    hide Stranded, Present, Inv, DeleteDeadGrantsStep, Swept;
    SweptIs(s, elapsed, at);
    var later := s.(now := s.now + elapsed);
    PresentTick(s, elapsed);
    ClockMoves(s, later);
    PresentDelete(later, at);
    PresentNotStranded(Swept(s, elapsed, at), t);
  }

  /** A run keeps every usable token's grant through any sweep, after any of its steps, if and only if each of its steps
      that mints does so in time. */
  lemma {:induction false} PromptExactly(generations: map<Id, nat>, actions: seq<Action>)
    ensures PromptRun(Start(generations), actions) <==> NeverStranded(Start(generations), actions)
  {
    var s := Start(generations);
    if PromptRun(s, actions) {
      forall k, elapsed: nat, at, t {:trigger Stranded(Swept(Run(s, actions[..k]), elapsed, at),
                                                       t)} | 0 <= k <= |actions|
        ensures !Stranded(Swept(Run(s, actions[..k]), elapsed, at), t)
      {
        PromptPrefix(s, actions, k);
        SweptPresent(generations, actions[..k], elapsed, at, t);
      }
    } else {
      var n := |actions| - 1;
      LateInRun(generations, actions);
    }
  }

  lemma {:induction false} LateInRun(generations: map<Id, nat>, actions: seq<Action>)
    requires !PromptRun(Start(generations), actions)
    ensures !NeverStranded(Start(generations), actions)
  {
    var s, n := Start(generations), |actions| - 1;
    var before, a := Run(s, actions[..n]), actions[n];
    if PromptRun(s, actions[..n]) {
      LateMintStrands(before, a);
      assert actions[..n + 1] == actions;
      assert Stranded(Swept(Run(s, actions[..n + 1]), ACCESS_TOKEN_TTL - 1, before.now + ACCESS_TOKEN_TTL - 1),
                      a.token);
    } else {
      LateInRun(generations, actions[..n]);
      hide Stranded, Run, PromptRun, Swept;
      var k, elapsed: nat, at, t :| 0 <= k <= n && Stranded(Swept(Run(s, actions[..n][..k]), elapsed, at), t);
      assert actions[..n][..k] == actions[..k];
    }
  }

  /** While every step that mints does so in time, every live access token belongs to an unrevoked grant of its user. */
  lemma LiveTokensBacked(generations: map<Id, nat>, actions: seq<Action>, t: Id)
    requires PromptRun(Start(generations), actions)
    ensures var s := Run(Start(generations), actions);
      t in s.tokens && TokenLive(s.tokens[t], s.now) ==>
        && s.tokens[t].grant in s.grants && s.grants[s.tokens[t].grant].revoked.None?
        && s.grants[s.tokens[t].grant].user == s.tokens[t].user
  {
    PresentThroughout(generations, actions);
    RunKeeps(generations, actions);
    hide Run, PromptRun;
  }

  /** In time or not, a live token is never on a grant that is stored as revoked. */
  lemma LiveTokenNeverOnRevoked(generations: map<Id, nat>, actions: seq<Action>, t: Id)
    ensures var s := Run(Start(generations), actions);
      t in s.tokens && TokenLive(s.tokens[t], s.now) && s.tokens[t].grant in s.grants ==>
          s.grants[s.tokens[t].grant].revoked.None?
  {
    RunKeeps(generations, actions);
    hide Run;
  }

  /** The grant is over: revoked or gone, with no token of it left that could be used. */
  ghost predicate Condemned(s: State, g: Id) {
    && g in s.approvals && (g in s.grants ==> s.grants[g].revoked.Some?)
    && forall t :: t in s.tokens && s.tokens[t].grant == g ==> s.tokens[t].revoked.Some?
  }

  lemma CondemnedStays(s: State, a: Action, g: Id)
    requires Inv(s) && Condemned(s, g)
    ensures Condemned(Apply(s, a), g)
  {
    hide ApproveStep, BeginExchangeStep, CommitExchangeStep, BeginRefreshStep, CommitRefreshStep, LookupSpentStep,
         RevokeAppStep,
      CommitRevokeStep, ReclaimStep, DeleteDeadGrantsStep, PurgeTokensStep, Inv;
    match a {
      case CommitExchange(req, grant, secret, token) => CondemnedExchange(s, req, grant, secret, token, g);
      case CommitRefresh(req, secret, token) => CondemnedRefresh(s, req, secret, token, g);
      case CommitRevoke(req) => CondemnedRevoke(s, req, g);
      case Reclaim(user) => CondemnedReclaim(s, user, g);
      case DeleteDeadGrants(at) => CondemnedDelete(s, at, g);
      case PurgeTokens(at) => CondemnedPurge(s, at, g);
      case _ =>
    }
  }

  lemma CondemnedExchange(s: State, req: Id, grant: Id, secret: nat, token: Id, g: Id)
    requires Condemned(s, g)
    ensures Condemned(CommitExchangeStep(s, req, grant, secret, token), g)
  {
    if req in s.requests && s.requests[req].Exchange? {
      var p := s.requests[req];
      var others := OtherGrants(s.grants, p.code.user, p.client);
      RevokeGrantsRevokes(s.grants, others, p.at);
      RevokeTokensRevokes(s.tokens, others, s.now);
      hide RevokeGrants, RevokeTokens, OtherGrants;
    }
  }

  lemma CondemnedRefresh(s: State, req: Id, secret: nat, token: Id, g: Id)
    requires Condemned(s, g)
    ensures Condemned(CommitRefreshStep(s, req, secret, token), g)
  {
  }

  lemma CondemnedRevoke(s: State, req: Id, g: Id)
    requires Condemned(s, g)
    ensures Condemned(CommitRevokeStep(s, req), g)
  {
    if req in s.requests && s.requests[req].Revoke? {
      RevokeGrantsRevokes(s.grants, {s.requests[req].grant}, s.requests[req].at);
      RevokeTokensRevokes(s.tokens, {s.requests[req].grant}, s.now);
      hide RevokeGrants, RevokeTokens;
    }
  }

  lemma CondemnedReclaim(s: State, user: Id, g: Id)
    requires Condemned(s, g)
    ensures Condemned(ReclaimStep(s, user), g)
  {
    RevokeGrantsRevokes(s.grants, GrantsOf(s.grants, user), s.now);
    hide RevokeGrants, GrantsOf;
  }

  lemma CondemnedDelete(s: State, at: Time, g: Id)
    requires Condemned(s, g)
    ensures Condemned(DeleteDeadGrantsStep(s, at), g)
  {
    hide SameCodes, DeadGrant, SpentKept;
  }

  lemma CondemnedPurge(s: State, at: Time, g: Id)
    requires Condemned(s, g)
    ensures Condemned(PurgeTokensStep(s, at), g)
  {
    hide SameCodes, DeadToken;
  }

  /** Revocation is permanent. */
  lemma {:induction false} CondemnedForever(s: State, actions: seq<Action>, g: Id)
    requires Inv(s) && Condemned(s, g)
    ensures Inv(Run(s, actions)) && Condemned(Run(s, actions), g)
  {
    if actions != [] {
      var n := |actions| - 1;
      CondemnedForever(s, actions[..n], g);
      hide Inv, Condemned, Apply;
      StepKeeps(Run(s, actions[..n]), actions[n]);
      CondemnedStays(Run(s, actions[..n]), actions[n], g);
    }
  }

  /** Once its request to revoke commits, a grant is over. */
  lemma RevokeCondemns(s: State, req: Id)
    requires Inv(s) && req in s.requests && s.requests[req].Revoke? && s.requests[req].user in s.generations
    ensures Condemned(CommitRevokeStep(s, req), s.requests[req].grant)
  {
    var p := s.requests[req];
    assert Fits(s, p);
    RevokeGrantsRevokes(s.grants, {p.grant}, p.at);
    RevokeTokensRevokes(s.tokens, {p.grant}, s.now);
    hide Inv, RevokeGrants, RevokeTokens;
  }

  /** A spent token presented again: a replay turns into a revocation, anything else changes no grant and no token. */
  lemma ReplayDetected(s: State, req: Id)
    requires req in s.requests && s.requests[req].Lookup?
    ensures var p, n := s.requests[req], LookupSpentStep(s, req);
      && n.grants == s.grants && n.tokens == s.tokens
      && (Replay(s, p) ==> n.requests == s.requests[req := Revoke(p.at, s.spent[p.hash],
                                                                  s.grants[s.spent[p.hash]].user)])
      && (!Replay(s, p) ==> n.requests == s.requests - {req})
  {
  }

  /** However the other requests interleave, a detected replay that runs to its end leaves the grant over for good. */
  lemma ReplayEndsGrant(s: State, req: Id, between: seq<Action>, later: seq<Action>)
    requires Inv(s) && req in s.requests && s.requests[req].Lookup? && Replay(s, s.requests[req])
    requires s.grants[s.spent[s.requests[req].hash]].user in s.generations
    ensures var detected := LookupSpentStep(s, req);
      var mid := Run(detected, between);
      req in mid.requests && mid.requests[req] == detected.requests[req] ==>
        Condemned(Run(CommitRevokeStep(mid, req), later), s.spent[s.requests[req].hash])
  {
    ReplayDetected(s, req);
    LookupSpentKeeps(s, req);
    var detected := LookupSpentStep(s, req);
    hide LookupSpentStep, Inv, Replay, Tolerated;
    RunFrom(detected, between);
    var mid := Run(detected, between);
    if req in mid.requests && mid.requests[req] == detected.requests[req] {
      RevokeCondemns(mid, req);
      CommitRevokeKeeps(mid, req);
      CondemnedForever(CommitRevokeStep(mid, req), later, s.spent[s.requests[req].hash]);
    }
  }

  /** Runs keep the invariant, and no user disappears. */
  lemma {:induction false} RunFrom(s: State, actions: seq<Action>)
    requires Inv(s)
    ensures Inv(Run(s, actions)) && s.generations.Keys <= Run(s, actions).generations.Keys
  {
    if actions != [] {
      var n := |actions| - 1;
      RunFrom(s, actions[..n]);
      hide Inv;
      StepKeeps(Run(s, actions[..n]), actions[n]);
      UsersStay(Run(s, actions[..n]), actions[n]);
      hide Apply;
    }
  }

  lemma UsersStay(s: State, a: Action)
    ensures s.generations.Keys <= Apply(s, a).generations.Keys
  {
    hide ApproveStep, BeginExchangeStep, BeginRefreshStep, LookupSpentStep, RevokeAppStep, CommitExchangeStep,
         CommitRefreshStep,
      CommitRevokeStep, DeleteDeadGrantsStep, PurgeTokensStep;
    if a.CommitExchange? {
      UsersStayExchange(s, a.req, a.grant, a.secret, a.token);
    }
  }

  lemma UsersStayExchange(s: State, req: Id, grant: Id, secret: nat, token: Id)
    ensures CommitExchangeStep(s, req, grant, secret, token).generations == s.generations
  {
    if req in s.requests && s.requests[req].Exchange? && FreshSecret(s, secret) && grant !in s.approvals
       && token !in s.tokens {
      ExchangeIs(s, req, grant, secret, token);
      hide CommitExchangeStep, Cleared;
    }
  }

  /** A reclaim ends every grant of the user. */
  lemma ReclaimCondemns(s: State, user: Id, g: Id)
    requires Inv(s) && user in s.generations && g in s.grants && s.grants[g].user == user
    ensures Condemned(ReclaimStep(s, user), g)
  {
    RevokeGrantsRevokes(s.grants, GrantsOf(s.grants, user), s.now);
    hide RevokeGrants;
  }

  /** A code approved under a past generation, that has made no grant. */
  ghost predicate Outdated(s: State, h: Hash, user: Id) {
    && user in s.generations && h in s.approved
    && (h in s.codes ==> s.codes[h].user == user && s.codes[h].generation < s.generations[user])
    && (forall r :: r in s.requests && s.requests[r].Exchange? && s.requests[r].hash == h ==>
          s.requests[r].code.user == user && s.requests[r].code.generation < s.generations[user])
    && (forall g :: g in s.approvals ==> s.approvals[g].code != h)
  }

  lemma OutdatedStays(s: State, a: Action, h: Hash, user: Id)
    requires Outdated(s, h, user)
    ensures Outdated(Apply(s, a), h, user)
  {
    hide ApproveStep, BeginExchangeStep, CommitExchangeStep, BeginRefreshStep, CommitRefreshStep, LookupSpentStep,
         RevokeAppStep,
      CommitRevokeStep, ReclaimStep, DeleteDeadGrantsStep, PurgeTokensStep, Outdated;
    match a {
      case Approve(at, u, session, client, secret, redirect, challenge) =>
        OutdatedApprove(s, at, u, session, client, secret, redirect, challenge, h, user);
      case BeginExchange(req, at, client, secret, redirect, verifier, ok) =>
        OutdatedBegin(s, req, at, client, secret, redirect, verifier, ok, h, user);
      case CommitExchange(req, grant, secret, token) => OutdatedExchange(s, req, grant, secret, token, h, user);
      case Reclaim(u) => OutdatedReclaim(s, u, h, user);
      case _ => OutdatedFramed(s, Apply(s, a), h, user);
    }
  }

  lemma OutdatedFramed(s: State, n: State, h: Hash, user: Id)
    requires Outdated(s, h, user)
    requires n.generations == s.generations && n.approvals == s.approvals && s.approved <= n.approved
    requires forall k :: k in n.codes ==> k in s.codes && n.codes[k] == s.codes[k]
    requires forall r :: r in n.requests && n.requests[r].Exchange? ==>
               r in s.requests && n.requests[r] == s.requests[r]
    ensures Outdated(n, h, user)
  {
  }

  lemma OutdatedApprove(s: State, at: Time, u: Id, session: Id, client: Id, secret: nat, redirect: nat,
                        challenge: Challenge, h: Hash, user: Id)
    requires Outdated(s, h, user)
    ensures Outdated(ApproveStep(s, at, u, session, client, secret, redirect, challenge), h, user)
  {
    hide SessionLive;
  }

  lemma OutdatedBegin(s: State, req: Id, at: Time, client: Id, secret: nat, redirect: nat, verifier: nat,
                      resourceOk: bool, h: Hash, user: Id)
    requires Outdated(s, h, user)
    ensures Outdated(BeginExchangeStep(s, req, at, client, secret, redirect, verifier, resourceOk), h, user)
  {
    hide Redeemable;
  }

  lemma OutdatedExchange(s: State, req: Id, grant: Id, secret: nat, token: Id, h: Hash, user: Id)
    requires Outdated(s, h, user)
    ensures Outdated(CommitExchangeStep(s, req, grant, secret, token), h, user)
  {
    hide Outdated, Cleared, Inserted, SameCodes, EndsRequest, RevokeGrants, RevokeTokens, OtherGrants;
    if req in s.requests && s.requests[req].Exchange? && FreshSecret(s, secret) && grant !in s.approvals
       && token !in s.tokens {
      ExchangeIs(s, req, grant, secret, token);
      var p := s.requests[req];
      hide CommitExchangeStep;
      if p.code.user in s.generations && s.generations[p.code.user] == p.code.generation {
        OutdatedCleared(s, p, h, user);
        OutdatedInserted(Cleared(s, p), req, grant, secret, token, h, user);
      } else {
        OutdatedFramed(s, s.(requests := s.requests - {req}), h, user);
      }
    }
  }

  lemma OutdatedCleared(s: State, p: Request, h: Hash, user: Id)
    requires Outdated(s, h, user) && p.Exchange?
    ensures Outdated(Cleared(s, p), h, user) && Cleared(s, p).generations == s.generations
  {
    hide Outdated, Cleared;
    OutdatedFramed(s, Cleared(s, p), h, user);
  }

  lemma OutdatedInserted(s: State, req: Id, grant: Id, secret: nat, token: Id, h: Hash, user: Id)
    requires Outdated(s, h, user) && req in s.requests && s.requests[req].Exchange?
    requires s.requests[req].code.user in s.generations
             && s.generations[s.requests[req].code.user] == s.requests[req].code.generation
    ensures Outdated(Inserted(s, req, grant, secret, token), h, user)
  {
  }

  lemma OutdatedReclaim(s: State, u: Id, h: Hash, user: Id)
    requires Outdated(s, h, user)
    ensures Outdated(ReclaimStep(s, u), h, user)
  {
    hide RevokeGrants, GrantsOf;
  }

  lemma {:induction false} OutdatedForever(s: State, actions: seq<Action>, h: Hash, user: Id)
    requires Outdated(s, h, user)
    ensures Outdated(Run(s, actions), h, user)
  {
    if actions != [] {
      var n := |actions| - 1;
      OutdatedForever(s, actions[..n], h, user);
      hide Outdated, Apply;
      OutdatedStays(Run(s, actions[..n]), actions[n], h, user);
    }
  }

  /** A code outstanding when the account is reclaimed never becomes a grant, whatever happens afterwards. */
  lemma ReclaimOutlivesCode(s: State, h: Hash, actions: seq<Action>)
    requires Inv(s) && h in s.codes && s.codes[h].user in s.generations
             && s.codes[h].generation == s.generations[s.codes[h].user]
    ensures var n := Run(ReclaimStep(s, s.codes[h].user), actions);
      forall g :: g in n.approvals ==> n.approvals[g].code != h
  {
    var user := s.codes[h].user;
    OutstandingOnce(s, h);
    assert Outdated(ReclaimStep(s, user), h, user);
    hide ReclaimStep, Inv;
    OutdatedForever(ReclaimStep(s, user), actions, h, user);
    hide Run;
  }

  /** Nor does one whose exchange was already under way: its transaction finds the generation moved. */
  lemma ReclaimStopsExchange(s: State, req: Id, actions: seq<Action>)
    requires Inv(s) && req in s.requests && s.requests[req].Exchange?
    requires s.requests[req].code.user in s.generations
             && s.requests[req].code.generation == s.generations[s.requests[req].code.user]
    ensures var n := Run(ReclaimStep(s, s.requests[req].code.user), actions);
      forall g :: g in n.approvals ==> n.approvals[g].code != s.requests[req].hash
  {
    var p := s.requests[req];
    UnderWayOnce(s, req);
    assert Outdated(ReclaimStep(s, p.code.user), p.hash, p.code.user);
    hide ReclaimStep, Inv;
    OutdatedForever(ReclaimStep(s, p.code.user), actions, p.hash, p.code.user);
    hide Run;
  }

  lemma UnderWayOnce(s: State, req: Id)
    requires Inv(s) && req in s.requests && s.requests[req].Exchange?
    ensures var h := s.requests[req].hash;
      && h in s.approved && h !in s.codes && (forall g :: g in s.approvals ==> s.approvals[g].code != h)
      && (forall q :: q in s.requests && s.requests[q].Exchange? && s.requests[q].hash == h ==> q == req)
  {
  }

  /** A run of one exchange that sleeps 121 days between reading its clock and committing. */
  ghost function LateRun(): seq<Action> {
    [SignIn(1, 1, 200 * 86_400 * SECOND), Approve(0, 1, 1, 2, 3, 4, Challenge(5)),
     BeginExchange(6, 0, 2, 3, 4, 5, true),
     Tick(121 * 86_400 * SECOND), CommitExchange(6, 7, 8, 9), DeleteDeadGrants(121 * 86_400 * SECOND)]
  }

  /** Without prompt commits the promise fails: housekeeping deletes the late exchange's grant under its live token. */
  lemma LateCommitStrandsToken()
    ensures var s := Run(Start(map[1 := 0]), LateRun());
      9 in s.tokens && TokenLive(s.tokens[9], s.now) && s.tokens[9].grant !in s.grants
  {
    var a := LateRun();
    var s0 := Start(map[1 := 0]);
    var s1 := Apply(s0, a[0]);
    var s2 := Apply(s1, a[1]);
    var s3 := Apply(s2, a[2]);
    LateRedeemed(s0, s1, s2, s3);
    var s4 := Apply(s3, a[3]);
    assert s4 == s3.(now := s3.now + 121 * 86_400 * SECOND);
    hide Apply, Start;
    var s5 := Apply(s4, a[4]);
    LateCommitted(s4, s5);
    var s6 := Apply(s5, a[5]);
    LateDeleted(s5, s6);
    RunSix(s0, a);
  }

  lemma RunSix(s: State, a: seq<Action>)
    requires |a| == 6
    ensures Run(s, a) == Apply(Apply(Apply(Apply(Apply(Apply(s, a[0]), a[1]), a[2]), a[3]), a[4]), a[5])
  {
    hide Apply;
    assert a[..6] == a && a[..5][..4] == a[..4] && a[..4][..3] == a[..3] && a[..3][..2] == a[..2]
           && a[..2][..1] == a[..1] && a[..1][..0] == [];
    assert Run(s, a[..1]) == Apply(s, a[0]);
    assert Run(s, a[..2]) == Apply(Run(s, a[..1]), a[1]);
    assert Run(s, a[..3]) == Apply(Run(s, a[..2]), a[2]);
    assert Run(s, a[..4]) == Apply(Run(s, a[..3]), a[3]);
    assert Run(s, a[..5]) == Apply(Run(s, a[..4]), a[4]);
  }

  lemma LateDeleted(s5: State, s6: State)
    requires s5.grants == map[7 := Grant(1, 2, Hash(8), None, None, GRANT_IDLE_TTL, None)]
    requires s5.now == 121 * 86_400 * SECOND && s5.tokens == map[9 := Token(1, 7, s5.now + ACCESS_TOKEN_TTL, None)]
    requires s6 == Apply(s5, LateRun()[5])
    ensures s6.grants == map[] && s6.tokens == s5.tokens && s6.now == s5.now
  {
  }

  lemma LateRedeemed(s0: State, s1: State, s2: State, s3: State)
    requires s0 == Start(map[1 := 0]) && s1 == Apply(s0, LateRun()[0]) && s2 == Apply(s1, LateRun()[1])
             && s3 == Apply(s2, LateRun()[2])
    ensures s3.requests == map[6 := Exchange(0, 2, Hash(3), Code(2, 1, 4, Challenge(5), 0, CODE_TTL))]
    ensures s3.now == 0 && s3.generations == map[1 := 0] && s3.grants == map[] && s3.tokens == map[]
            && s3.issued == map[] && s3.approvals == map[]
  {
    assert s1 == s0.(sessions := map[1 := Session(1, 200 * 86_400 * SECOND, false)]);
    assert SessionLive(s1, 1, 1);
    assert s2.codes == map[Hash(3) := Code(2, 1, 4, Challenge(5), 0, CODE_TTL)] && s2.now == 0 && s2.requests == map[];
  }

  lemma LateCommitted(s4: State, s5: State)
    requires s4.requests == map[6 := Exchange(0, 2, Hash(3), Code(2, 1, 4, Challenge(5), 0, CODE_TTL))]
    requires s4.now == 121 * 86_400 * SECOND && s4.generations == map[1 := 0]
    requires s4.grants == map[] && s4.tokens == map[] && s4.issued == map[] && s4.approvals == map[]
    requires s5 == Apply(s4, LateRun()[4])
    ensures s5.grants == map[7 := Grant(1, 2, Hash(8), None, None, GRANT_IDLE_TTL, None)]
    ensures s5.tokens == map[9 := Token(1, 7, s4.now + ACCESS_TOKEN_TTL, None)] && s5.now == s4.now
  {
    assert OtherGrants(s4.grants, 1, 2) == {};
    assert RevokeGrants(map[], {}, 0) == map[] && RevokeTokens(map[], {}, s4.now) == map[];
  }
}
