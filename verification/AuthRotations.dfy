/** Where rotations, tokens and revocations come from, and what each step does to every stored row. */
module AuthRotations {
  import opened Prelude
  import opened AuthModel
  import opened AuthInvariant
  import opened AuthOrigins

  // ---- Refreshes and replays, traced ----

  /** Step j presented the current hash of a grant: its own client's, unrevoked, before its end. */
  ghost predicate RefreshedAt(generations: map<Id, nat>, actions: seq<Action>, j: int, h: Hash, g: Id) {
    && 0 <= j < |actions| && actions[j].BeginRefresh?
    && var b, s := actions[j], Met(generations, actions, j);
    && Hash(b.secret) == h && b.at <= s.now && g in s.grants && s.grants[g].refresh == h
    && s.grants[g].client == b.client && s.grants[g].revoked.None? && b.at < s.grants[g].expires
  }

  /** Step j presented a hash that no grant held. */
  ghost predicate MissedAt(generations: map<Id, nat>, actions: seq<Action>, j: int, h: Hash) {
    && 0 <= j < |actions| && actions[j].BeginRefresh?
    && var b, s := actions[j], Met(generations, actions, j);
    && Hash(b.secret) == h && b.at <= s.now && forall g :: g in s.grants ==> s.grants[g].refresh != h
  }

  /** Step k found the hash spent on the client's own unrevoked grant, and not the last one rotated away in the minute
      around the presentation. */
  ghost predicate ReplayedAt(generations: map<Id, nat>, actions: seq<Action>, k: int, client: Id, h: Hash, at: Time,
                             g: Id)
  {
    && 0 <= k < |actions| && actions[k].LookupSpent?
    && var s := Met(generations, actions, k);
    && h in s.spent && s.spent[h] == g && g in s.grants && s.grants[g].client == client && s.grants[g].revoked.None?
    && !(s.grants[g].prev == Some(h) && s.grants[g].rotatedAt.Some?
         && at - 60 * SECOND <= s.grants[g].rotatedAt.value <= at + 60 * SECOND)
  }

  /** Step k asked, for its owner, to revoke an unrevoked grant. */
  ghost predicate AskedAt(generations: map<Id, nat>, actions: seq<Action>, k: int, user: Id, g: Id) {
    && 0 <= k < |actions| && actions[k].RevokeApp? && actions[k].user == user && actions[k].grant == g
    && var s := Met(generations, actions, k);
    && g in s.grants && s.grants[g].user == user && s.grants[g].revoked.None?
  }

  ghost predicate RefreshFrom(generations: map<Id, nat>, actions: seq<Action>, r: Id, p: Request, j: int)
    requires p.Refresh?
  {
    && RefreshedAt(generations, actions, j, p.hash, p.grant)
    && actions[j].req == r && actions[j].at == p.at && actions[j].client == p.client
    && Met(generations, actions, j).grants[p.grant].user == p.user
  }

  ghost predicate LookupFrom(generations: map<Id, nat>, actions: seq<Action>, r: Id, p: Request, j: int)
    requires p.Lookup?
  {
    && MissedAt(generations, actions, j, p.hash)
    && actions[j].req == r && actions[j].at == p.at && actions[j].client == p.client
  }

  /** A revocation under way is its owner's, or follows a replay. */
  ghost predicate RevokeFrom(generations: map<Id, nat>, actions: seq<Action>, r: Id, p: Request, j: int, k: int)
    requires p.Revoke?
  {
    || (AskedAt(generations, actions, k, p.user, p.grant) && actions[k].req == r)
    || (&& 0 <= j < k && ReplayFrom(generations, actions, r, p, j, k))
  }

  ghost predicate ReplayFrom(generations: map<Id, nat>, actions: seq<Action>, r: Id, p: Request, j: int, k: int)
    requires p.Revoke?
  {
    && 0 <= j < k < |actions| && actions[j].BeginRefresh? && actions[k].LookupSpent?
    && MissedAt(generations, actions, j, Hash(actions[j].secret)) && actions[j].req == r && actions[j].at == p.at
    && actions[k].req == r
    && ReplayedAt(generations, actions, k, actions[j].client, Hash(actions[j].secret), p.at, p.grant)
    && Met(generations, actions, k).grants[p.grant].user == p.user
  }

  ghost predicate Origin(generations: map<Id, nat>, actions: seq<Action>, r: Id, p: Request) {
    match p
    case Exchange(_, _, _, _) => true
    case Refresh(_, _, _, _, _) => exists j :: RefreshFrom(generations, actions, r, p, j)
    case Lookup(_, _, _) => exists j :: LookupFrom(generations, actions, r, p, j)
    case Revoke(_, _, _) => exists j, k :: RevokeFrom(generations, actions, r, p, j, k)
  }

  /** Steps j and k rotated the hash away: presented, and committed while still current and unrevoked. The grant lasts
      ninety days more from the presentation, and the new token an hour from the commit. */
  ghost predicate RotatedBy(generations: map<Id, nat>, actions: seq<Action>, h: Hash, g: Id, j: int, k: int) {
    && RefreshedAt(generations, actions, j, h, g) && j < k < |actions| && actions[k].CommitRefresh?
    && actions[k].req == actions[j].req
    && Turned(Met(generations, actions, k), Apply(Met(generations, actions, k), actions[k]), h, g, actions[j].at,
              Met(generations, actions, j).grants[g].user, actions[k].secret, actions[k].token)
  }

  /** Between the two states the grant's hash gave way to a new secret's, with a token of its user for an hour. */
  ghost predicate Turned(s: State, n: State, h: Hash, g: Id, at: Time, user: Id, secret: nat, token: Id) {
    && g in s.grants && s.grants[g].refresh == h && s.grants[g].revoked.None? && user in s.generations
    && n.grants == s.grants[g := s.grants[g].(refresh := Hash(secret), prev := Some(h), rotatedAt := Some(at),
                                              expires := at + 90 * 86_400 * SECOND)]
    && n.spent == s.spent[h := g]
    && n.tokens == s.tokens[token := Token(user, g, s.now + 3_600 * SECOND, None)]
  }

  ghost predicate RotationOrigin(generations: map<Id, nat>, actions: seq<Action>, h: Hash) {
    exists g, j, k :: RotatedBy(generations, actions, h, g, j, k)
  }

  ghost predicate RefreshesTraced(generations: map<Id, nat>, actions: seq<Action>, s: State) {
    && (forall r :: r in s.requests ==> Origin(generations, actions, r, s.requests[r]))
    && (forall h :: h in s.rotations ==> RotationOrigin(generations, actions, h))
  }

  lemma RefreshedExtends(generations: map<Id, nat>, actions: seq<Action>, a: Action, j: int, h: Hash, g: Id)
    requires RefreshedAt(generations, actions, j, h, g)
    ensures RefreshedAt(generations, actions + [a], j, h, g)
    ensures Met(generations, actions + [a], j) == Met(generations, actions, j) && (actions + [a])[j] == actions[j]
  {
    MetExtends(generations, actions, a, j);
    hide Met;
  }

  lemma MissedExtends(generations: map<Id, nat>, actions: seq<Action>, a: Action, j: int, h: Hash)
    requires MissedAt(generations, actions, j, h)
    ensures MissedAt(generations, actions + [a], j, h) && (actions + [a])[j] == actions[j]
  {
    MetExtends(generations, actions, a, j);
    hide Met;
  }

  lemma RevokeExtends(generations: map<Id, nat>, actions: seq<Action>, a: Action, r: Id, p: Request, j: int, k: int)
    requires p.Revoke? && RevokeFrom(generations, actions, r, p, j, k)
    ensures RevokeFrom(generations, actions + [a], r, p, j, k)
  {
    MetExtends(generations, actions, a, k);
    if 0 <= j < k && ReplayFrom(generations, actions, r, p, j, k) {
      MissedExtends(generations, actions, a, j, Hash(actions[j].secret));
    }
    hide Met, MissedAt;
  }

  lemma OriginExtends(generations: map<Id, nat>, actions: seq<Action>, a: Action, r: Id, p: Request)
    requires Origin(generations, actions, r, p)
    ensures Origin(generations, actions + [a], r, p)
  {
    hide Met, RefreshedAt, MissedAt;
    match p {
      case Exchange(_, _, _, _) =>
      case Refresh(_, _, _, _, _) =>
        var j :| RefreshFrom(generations, actions, r, p, j);
        RefreshedExtends(generations, actions, a, j, p.hash, p.grant);
        assert RefreshFrom(generations, actions + [a], r, p, j);
      case Lookup(_, _, _) =>
        var j :| LookupFrom(generations, actions, r, p, j);
        MissedExtends(generations, actions, a, j, p.hash);
        assert LookupFrom(generations, actions + [a], r, p, j);
      case Revoke(_, _, _) =>
        var j, k :| RevokeFrom(generations, actions, r, p, j, k);
        RevokeExtends(generations, actions, a, r, p, j, k);
    }
  }

  lemma RotationExtends(generations: map<Id, nat>, actions: seq<Action>, a: Action, h: Hash)
    requires RotationOrigin(generations, actions, h)
    ensures RotationOrigin(generations, actions + [a], h)
  {
    hide Met, Turned;
    var g, j, k :| RotatedBy(generations, actions, h, g, j, k);
    RefreshedExtends(generations, actions, a, j, h, g);
    MetExtends(generations, actions, a, k);
    assert RotatedBy(generations, actions + [a], h, g, j, k);
  }

  lemma RefreshTracesExtend(generations: map<Id, nat>, actions: seq<Action>, a: Action, s: State)
    requires RefreshesTraced(generations, actions, s)
    ensures RefreshesTraced(generations, actions + [a], s)
  {
    hide Origin, RotationOrigin;
    forall r | r in s.requests ensures Origin(generations, actions + [a], r, s.requests[r]) {
      OriginExtends(generations, actions, a, r, s.requests[r]);
    }
    forall h | h in s.rotations ensures RotationOrigin(generations, actions + [a], h) {
      RotationExtends(generations, actions, a, h);
    }
  }

  /** The traces of the state before a step carry over to it, once what the step added is traced. */
  lemma StepTraced(generations: map<Id, nat>, actions: seq<Action>, a: Action, s: State, n: State)
    requires RefreshesTraced(generations, actions, s)
    requires forall r :: r in n.requests ==>
      (r in s.requests && n.requests[r] == s.requests[r]) || Origin(generations, actions + [a], r, n.requests[r])
    requires forall h :: h in n.rotations ==> h in s.rotations || RotationOrigin(generations, actions + [a], h)
    ensures RefreshesTraced(generations, actions + [a], n)
  {
    hide Origin, RotationOrigin;
    RefreshTracesExtend(generations, actions, a, s);
  }

  lemma BeginRefreshTraced(generations: map<Id, nat>, actions: seq<Action>, b: Action)
    requires b.BeginRefresh? && RefreshesTraced(generations, actions, Run(Start(generations), actions))
    ensures RefreshesTraced(generations, actions + [b], Apply(Run(Start(generations), actions), b))
  {
    var s := Run(Start(generations), actions);
    var n, h := Apply(s, b), Hash(b.secret);
    BegunExactly(s, b);
    MetExtends(generations, actions, b, |actions|);
    MetLast(generations, actions);
    hide Run, Met, Apply;
    if b.req !in s.requests && b.req in n.requests {
      var p := n.requests[b.req];
      assert (actions + [b])[|actions|] == b;
      if p.Lookup? {
        assert MissedAt(generations, actions + [b], |actions|, h);
        assert LookupFrom(generations, actions + [b], b.req, p, |actions|);
      } else {
        assert RefreshedAt(generations, actions + [b], |actions|, h, p.grant);
        assert RefreshFrom(generations, actions + [b], b.req, p, |actions|);
      }
      hide RefreshFrom, LookupFrom;
      assert Origin(generations, actions + [b], b.req, p);
    }
    hide Origin, RotationOrigin;
    StepTraced(generations, actions, b, s, n);
  }

  /** What a presented hash finds: its grant, for the grant's own client while it lasts, or no grant at all. */
  ghost predicate Finds(s: State, b: Action, p: Request)
    requires b.BeginRefresh?
  {
    && b.at <= s.now
    && ((&& p == Lookup(b.at, b.client, Hash(b.secret))
         && forall g :: g in s.grants ==> s.grants[g].refresh != Hash(b.secret))
        || (&& p.Refresh? && p.grant in s.grants
            && p == Refresh(b.at, b.client, Hash(b.secret), p.grant, s.grants[p.grant].user)
            && s.grants[p.grant].refresh == Hash(b.secret) && s.grants[p.grant].client == b.client
            && s.grants[p.grant].revoked.None? && b.at < s.grants[p.grant].expires))
  }

  lemma BegunExactly(s: State, b: Action)
    requires b.BeginRefresh?
    ensures var n := Apply(s, b);
      && n.rotations == s.rotations
      && (forall r :: r in n.requests && r != b.req ==> r in s.requests && n.requests[r] == s.requests[r])
      && (b.req in s.requests ==> n.requests == s.requests)
      && (b.req !in s.requests && b.req in n.requests ==> Finds(s, b, n.requests[b.req]))
  {
    BeginsWith(s, b.req, b.at, b.client, b.secret);
    hide BeginRefreshStep, Finds;
  }

  lemma BeginsWith(s: State, req: Id, at: Time, client: Id, secret: nat)
    ensures var n := BeginRefreshStep(s, req, at, client, secret);
      && n.rotations == s.rotations
      && (forall r :: r in n.requests && r != req ==> r in s.requests && n.requests[r] == s.requests[r])
      && (req in s.requests ==> n.requests == s.requests)
      && (req !in s.requests && req in n.requests ==>
            Finds(s, BeginRefresh(req, at, client, secret), n.requests[req]))
  {
    hide SameRows, SameCodes;
    NotHeld(s.grants, Hash(secret));
  }

  lemma NotHeld(grants: map<Id, Grant>, h: Hash)
    ensures Holder(grants, h).None? ==> forall g :: g in grants ==> grants[g].refresh != h
  {
    if Holder(grants, h).None? {
      forall g | g in grants ensures grants[g].refresh != h {
        assert !Holds(grants, h, g);
      }
    }
  }

  /** A spent hash of the client's own unrevoked grant, unless it is the last one rotated away and comes within a minute
      of its rotation, either way. */
  ghost predicate Condemns(s: State, p: Request)
    requires p.Lookup?
  {
    && p.hash in s.spent && s.spent[p.hash] in s.grants
    && var g := s.grants[s.spent[p.hash]];
    && g.client == p.client && g.revoked.None?
    && !(g.prev == Some(p.hash) && g.rotatedAt.Some?
         && p.at - 60 * SECOND <= g.rotatedAt.value <= p.at + 60 * SECOND)
  }

  /** The search among the spent hashes turns into a revocation for exactly these. */
  lemma ReplayExactly(s: State, req: Id)
    requires req in s.requests && s.requests[req].Lookup?
    ensures var p, n := s.requests[req], Apply(s, LookupSpent(req));
      && n.grants == s.grants && n.tokens == s.tokens && n.rotations == s.rotations
      && n.requests == if Condemns(s, p)
                       then s.requests[req := Revoke(p.at, s.spent[p.hash], s.grants[s.spent[p.hash]].user)]
                       else s.requests - {req}
  {
    assert Condemns(s, s.requests[req]) <==> Replay(s, s.requests[req]);
    hide Condemns, Replay, SameRows, SameCodes;
  }

  lemma RevokeOriginNow(generations: map<Id, nat>, actions: seq<Action>, a: Action, p: Request)
    requires a.LookupSpent? && p.Lookup? && Origin(generations, actions, a.req, p)
    requires Condemns(Met(generations, actions, |actions|), p)
    ensures var s := Met(generations, actions, |actions|);
      Origin(generations, actions + [a], a.req, Revoke(p.at, s.spent[p.hash], s.grants[s.spent[p.hash]].user))
  {
    hide Met;
    var s := Met(generations, actions, |actions|);
    var q := Revoke(p.at, s.spent[p.hash], s.grants[s.spent[p.hash]].user);
    var j :| LookupFrom(generations, actions, a.req, p, j);
    MissedExtends(generations, actions, a, j, p.hash);
    MetExtends(generations, actions, a, |actions|);
    assert Hash(actions[j].secret) == p.hash && (actions + [a])[|actions|] == a;
    hide MissedAt;
    assert ReplayedAt(generations, actions + [a], |actions|, p.client, p.hash, p.at, q.grant);
    assert ReplayFrom(generations, actions + [a], a.req, q, j, |actions|);
    hide ReplayFrom;
    assert RevokeFrom(generations, actions + [a], a.req, q, j, |actions|);
  }

  lemma LookupTraced(generations: map<Id, nat>, actions: seq<Action>, a: Action)
    requires a.LookupSpent? && RefreshesTraced(generations, actions, Run(Start(generations), actions))
    ensures RefreshesTraced(generations, actions + [a], Apply(Run(Start(generations), actions), a))
  {
    hide Run, Met, Apply, Origin, RotationOrigin, Condemns;
    var s := Run(Start(generations), actions);
    var n := Apply(s, a);
    LookupMoves(s, a);
    MetLast(generations, actions);
    if a.req in s.requests && s.requests[a.req].Lookup? && Condemns(s, s.requests[a.req]) {
      RevokeOriginNow(generations, actions, a, s.requests[a.req]);
    }
    StepTraced(generations, actions, a, s, n);
  }

  lemma LookupMoves(s: State, a: Action)
    requires a.LookupSpent?
    ensures var n := Apply(s, a);
      && n.rotations == s.rotations
      && forall r :: r in n.requests ==>
           || (r in s.requests && n.requests[r] == s.requests[r])
           || (r == a.req && r in s.requests && s.requests[r].Lookup? && Condemns(s, s.requests[r])
               && var p := s.requests[r];
                  n.requests[r] == Revoke(p.at, s.spent[p.hash], s.grants[s.spent[p.hash]].user))
  {
    if a.req in s.requests && s.requests[a.req].Lookup? {
      ReplayExactly(s, a.req);
    }
    hide Condemns, Replay;
  }

  lemma AppTraced(generations: map<Id, nat>, actions: seq<Action>, a: Action)
    requires a.RevokeApp? && RefreshesTraced(generations, actions, Run(Start(generations), actions))
    ensures RefreshesTraced(generations, actions + [a], Apply(Run(Start(generations), actions), a))
  {
    var s := Run(Start(generations), actions);
    var n := Apply(s, a);
    MetExtends(generations, actions, a, |actions|);
    MetLast(generations, actions);
    if a.req in n.requests && a.req !in s.requests {
      hide Met, Run;
      assert (actions + [a])[|actions|] == a;
      assert AskedAt(generations, actions + [a], |actions|, a.user, a.grant);
      hide AskedAt;
      assert RevokeFrom(generations, actions + [a], a.req, n.requests[a.req], 0, |actions|);
      assert Origin(generations, actions + [a], a.req, n.requests[a.req]);
    }
    hide Origin, RotationOrigin, Met, Run;
    StepTraced(generations, actions, a, s, n);
  }

  /** A refresh under way rotates its hash away, or the step leaves the rotations as they are. */
  lemma RefreshMoves(s: State, c: Action)
    requires c.CommitRefresh?
    ensures var n := Apply(s, c);
      && (forall r :: r in n.requests ==> r in s.requests && n.requests[r] == s.requests[r])
      && (n.rotations == s.rotations
          || (&& c.req in s.requests && s.requests[c.req].Refresh?
              && var p := s.requests[c.req];
              && n.rotations == s.rotations + [p.hash]
              && Turned(s, n, p.hash, p.grant, p.at, p.user, c.secret, c.token)))
  {
    hide SameCodes;
  }

  lemma RotationOriginNow(generations: map<Id, nat>, actions: seq<Action>, c: Action, p: Request)
    requires c.CommitRefresh? && p.Refresh? && Origin(generations, actions, c.req, p)
    requires var s := Met(generations, actions, |actions|);
      Turned(s, Apply(s, c), p.hash, p.grant, p.at, p.user, c.secret, c.token)
    ensures RotationOrigin(generations, actions + [c], p.hash)
  {
    hide Met, Turned, Apply;
    var j :| RefreshFrom(generations, actions, c.req, p, j);
    RefreshedExtends(generations, actions, c, j, p.hash, p.grant);
    MetExtends(generations, actions, c, |actions|);
    assert (actions + [c])[|actions|] == c;
    assert 0 <= j < |actions|;
    hide RefreshedAt;
    assert RotatedBy(generations, actions + [c], p.hash, p.grant, j, |actions|);
  }

  lemma CommitRefreshTraced(generations: map<Id, nat>, actions: seq<Action>, c: Action)
    requires c.CommitRefresh? && RefreshesTraced(generations, actions, Run(Start(generations), actions))
    ensures RefreshesTraced(generations, actions + [c], Apply(Run(Start(generations), actions), c))
  {
    hide Run, Met, Apply, Origin, RotationOrigin, Turned;
    var s := Run(Start(generations), actions);
    RefreshMoves(s, c);
    MetLast(generations, actions);
    if Apply(s, c).rotations != s.rotations {
      RotationOriginNow(generations, actions, c, s.requests[c.req]);
    }
    StepTraced(generations, actions, c, s, Apply(s, c));
  }

  lemma OtherRefreshTraced(generations: map<Id, nat>, actions: seq<Action>, a: Action)
    requires !a.BeginRefresh? && !a.LookupSpent? && !a.RevokeApp? && !a.CommitRefresh?
    requires RefreshesTraced(generations, actions, Run(Start(generations), actions))
    ensures RefreshesTraced(generations, actions + [a], Apply(Run(Start(generations), actions), a))
  {
    hide Run, Apply, Origin, RotationOrigin;
    var s := Run(Start(generations), actions);
    OtherMoves(s, a);
    var n := Apply(s, a);
    forall r | r in n.requests && n.requests[r].Exchange? ensures Origin(generations, actions + [a], r, n.requests[r]) {
      ExchangeHasOrigin(generations, actions + [a], r, n.requests[r]);
    }
    StepTraced(generations, actions, a, s, n);
  }

  lemma ExchangeHasOrigin(generations: map<Id, nat>, actions: seq<Action>, r: Id, p: Request)
    requires p.Exchange?
    ensures Origin(generations, actions, r, p)
  {
  }

  lemma OtherMoves(s: State, a: Action)
    requires !a.BeginRefresh? && !a.LookupSpent? && !a.RevokeApp? && !a.CommitRefresh?
    ensures Apply(s, a).rotations == s.rotations
    ensures forall r :: r in Apply(s, a).requests ==>
              (r in s.requests && Apply(s, a).requests[r] == s.requests[r]) || Apply(s, a).requests[r].Exchange?
  {
    if a.BeginExchange? {
      PresentMoves(s, a);
      hide Apply;
    } else if a.CommitExchange? {
      CommitMoves(s, a);
      hide Apply;
    } else {
      RestMoves(s, a);
      hide Apply;
    }
  }

  lemma RestMoves(s: State, a: Action)
    requires !a.BeginRefresh? && !a.LookupSpent? && !a.RevokeApp? && !a.CommitRefresh?
    requires !a.BeginExchange? && !a.CommitExchange?
    ensures Apply(s, a).rotations == s.rotations
    ensures Apply(s, a).requests == s.requests
            || ((a.Drop? || a.CommitRevoke?) && Apply(s, a).requests == s.requests - {a.req})
  {
    hide SameCodes, SameRows;
    if a.CommitRevoke? {
      RevokeRequests(s, a.req);
    } else if a.Reclaim? {
      ReclaimRequests(s, a.user);
    }
    hide SessionLive, GrantsKept, TokensKept, SpentKept, CommitRevokeStep, ReclaimStep;
    hide BeginExchangeStep, CommitExchangeStep, BeginRefreshStep, CommitRefreshStep, LookupSpentStep, RevokeAppStep;
  }

  lemma RevokeRequests(s: State, req: Id)
    ensures CommitRevokeStep(s, req).rotations == s.rotations
    ensures CommitRevokeStep(s, req).requests
            == if req in s.requests && s.requests[req].Revoke? then s.requests - {req} else s.requests
  {
    hide RevokeGrants, RevokeTokens;
  }

  lemma ReclaimRequests(s: State, user: Id)
    ensures ReclaimStep(s, user).rotations == s.rotations && ReclaimStep(s, user).requests == s.requests
  {
    hide RevokeGrants, SessionsEnded, TokensEnded, GrantsOf;
  }

  lemma {:induction false} RefreshRunTraced(generations: map<Id, nat>, actions: seq<Action>)
    ensures RefreshesTraced(generations, actions, Run(Start(generations), actions))
  {
    if actions != [] {
      var n := |actions| - 1;
      var a := actions[n];
      RefreshRunTraced(generations, actions[..n]);
      assert actions == actions[..n] + [a];
      hide RefreshesTraced, Apply;
      if a.BeginRefresh? {
        BeginRefreshTraced(generations, actions[..n], a);
      } else if a.LookupSpent? {
        LookupTraced(generations, actions[..n], a);
      } else if a.RevokeApp? {
        AppTraced(generations, actions[..n], a);
      } else if a.CommitRefresh? {
        CommitRefreshTraced(generations, actions[..n], a);
      } else {
        OtherRefreshTraced(generations, actions[..n], a);
      }
    }
  }

  /** Every rotation goes back to a presentation of the hash while it was a live grant's current one, by the grant's own
      client. */
  lemma RotationsWerePresented(generations: map<Id, nat>, actions: seq<Action>, h: Hash)
    requires h in Run(Start(generations), actions).rotations
    ensures exists g, j, k :: RotatedBy(generations, actions, h, g, j, k)
  {
    RefreshRunTraced(generations, actions);
  }

  /** Every revocation under way goes back to the owner asking, or to a replay. */
  lemma RevocationsHaveCause(generations: map<Id, nat>, actions: seq<Action>, r: Id)
    requires r in Run(Start(generations), actions).requests && Run(Start(generations), actions).requests[r].Revoke?
    ensures exists j, k :: RevokeFrom(generations, actions, r, Run(Start(generations), actions).requests[r], j, k)
  {
    RefreshRunTraced(generations, actions);
    assert Origin(generations, actions, r, Run(Start(generations), actions).requests[r]);
  }

  ghost predicate Live(s: State, g: Id, at: Time, client: Id, h: Hash) {
    && g in s.grants && s.grants[g].refresh == h && s.grants[g].client == client
    && s.grants[g].revoked.None? && at < s.grants[g].expires
  }

  /**
   * A presented hash is let on exactly when a grant holds it, is the client's, unrevoked and not past its end; a hash
   * no grant holds goes on to the spent ones.
   */
  lemma RefreshLetOn(generations: map<Id, nat>, actions: seq<Action>, b: Action)
    requires b.BeginRefresh?
    requires b.req !in Run(Start(generations), actions).requests && b.at <= Run(Start(generations), actions).now
    ensures var s := Run(Start(generations), actions);
      var n := Apply(s, b);
      && (b.req in n.requests && n.requests[b.req].Refresh? <==>
            exists g :: Live(s, g, b.at, b.client, Hash(b.secret)))
      && (b.req in n.requests && n.requests[b.req].Lookup? <==>
            forall g :: g in s.grants ==> s.grants[g].refresh != Hash(b.secret))
  {
    var s := Run(Start(generations), actions);
    RunKeeps(generations, actions);
    hide Run, Live, BeginRefreshStep, Hashes;
    assert Apply(s, b) == BeginRefreshStep(s, b.req, b.at, b.client, b.secret);
    hide Apply;
    LetOn(s, b.req, b.at, b.client, b.secret);
  }

  lemma LetOn(s: State, req: Id, at: Time, client: Id, secret: nat)
    requires Hashes(s) && req !in s.requests && at <= s.now
    ensures var n := BeginRefreshStep(s, req, at, client, secret);
      && (req in n.requests && n.requests[req].Refresh? <==> exists g :: Live(s, g, at, client, Hash(secret)))
      && (req in n.requests && n.requests[req].Lookup? <==> forall g :: g in s.grants ==>
            s.grants[g].refresh != Hash(secret))
  {
    hide SameRows, SameCodes;
    var h := Hash(secret);
    NotHeld(s.grants, h);
    var found := Holder(s.grants, h);
    if found.Some? {
      assert Holds(s.grants, h, found.value);
      forall g | Live(s, g, at, client, h) ensures g == found.value {
        assert s.issued[h] == g;
      }
      assert GrantLive(s.grants[found.value], at) && s.grants[found.value].client == client ==>
          Live(s, found.value, at, client, h);
    }
  }

  /** A refresh under way rotates exactly while its hash is current and its grant stored and unrevoked. */
  lemma RotatedExactly(generations: map<Id, nat>, actions: seq<Action>, c: Action)
    requires c.CommitRefresh?
    requires var s := Run(Start(generations), actions);
      && c.req in s.requests && s.requests[c.req].Refresh? && s.requests[c.req].user in s.generations
      && FreshSecret(s, c.secret) && c.token !in s.tokens
    ensures var s := Run(Start(generations), actions);
      var p := s.requests[c.req];
      c.token in Apply(s, c).tokens <==>
        p.grant in s.grants && s.grants[p.grant].refresh == p.hash && s.grants[p.grant].revoked.None?
  {
    RunKeeps(generations, actions);
    var s := Run(Start(generations), actions);
    hide Run;
    assert Hashes(s);
    hide Inv;
  }
}
