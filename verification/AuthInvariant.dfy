/** What every step of the authorization server keeps, and what therefore holds after every run. */
module AuthInvariant {
  import opened Prelude
  import opened AuthModel

  /** Every refresh hash issued for a grant that still exists is either its current hash or spent, and never both. */
  ghost predicate Hashes(s: State) {
    && (forall g :: g in s.grants ==> s.grants[g].refresh in s.issued && s.issued[s.grants[g].refresh] == g)
    && (forall g :: g in s.grants ==> s.grants[g].refresh !in s.spent)
    && (forall h :: h in s.spent ==> h in s.issued && s.issued[h] == s.spent[h] && s.spent[h] in s.grants)
    && (forall h :: h in s.issued && s.issued[h] in s.grants ==> h == s.grants[s.issued[h]].refresh || h in s.spent)
    && (forall g :: g in s.grants && s.grants[g].prev.Some? ==>
          s.grants[g].prev.value in s.spent && s.spent[s.grants[g].prev.value] == g)
  }

  /** Every grant, hash and token goes back to an approval that was redeemed. */
  ghost predicate Recorded(s: State) {
    && (forall g :: g in s.grants ==> g in s.approvals)
    && (forall h :: h in s.issued ==> s.issued[h] in s.approvals)
    && (forall t :: t in s.tokens ==> s.tokens[t].grant in s.approvals)
  }

  /** No refresh token is rotated twice; one rotated away is spent for as long as its grant exists. */
  ghost predicate Rotated(s: State) {
    && (forall i, j :: 0 <= i < j < |s.rotations| ==> s.rotations[i] != s.rotations[j])
    && (forall h :: h in s.rotations ==> h in s.issued && (s.issued[h] in s.grants ==> h in s.spent))
  }

  ghost predicate OnePerClient(s: State) {
    forall g, k :: g in s.grants && k in s.grants && g != k && s.grants[g].revoked.None?
                   && s.grants[k].revoked.None? ==>
      s.grants[g].user != s.grants[k].user || s.grants[g].client != s.grants[k].client
  }

  /** An unrevoked grant was approved under its user's present generation. */
  ghost predicate Current(s: State) {
    forall g :: g in s.grants && g in s.approvals && s.grants[g].revoked.None? ==>
      s.grants[g].user in s.generations && s.approvals[g].generation == s.generations[s.grants[g].user]
  }

  /** An unrevoked token's grant, if still stored, is unrevoked and of the same user. */
  ghost predicate Backed(s: State) {
    forall t :: t in s.tokens && s.tokens[t].grant in s.grants ==>
      && s.grants[s.tokens[t].grant].user == s.tokens[t].user
      && (s.tokens[t].revoked.None? ==> s.grants[s.tokens[t].grant].revoked.None?)
  }

  /** A code is outstanding, or being redeemed, or was redeemed for one grant: never two of these, never twice. */
  ghost predicate SingleUse(s: State) {
    && (forall h :: h in s.codes ==> h in s.approved)
    && (forall r :: r in s.requests && s.requests[r].Exchange? ==>
          s.requests[r].hash in s.approved && s.requests[r].hash !in s.codes)
    && (forall g :: g in s.approvals ==> s.approvals[g].code in s.approved && s.approvals[g].code !in s.codes)
    && (forall r, g :: r in s.requests && s.requests[r].Exchange? && g in s.approvals ==>
          s.requests[r].hash != s.approvals[g].code)
    && (forall r, q :: r in s.requests && q in s.requests && r != q && s.requests[r].Exchange?
                       && s.requests[q].Exchange? ==>
          s.requests[r].hash != s.requests[q].hash)
    && (forall g, k :: g in s.approvals && k in s.approvals && g != k ==> s.approvals[g].code != s.approvals[k].code)
  }

  /** What a request in flight remembers still fits the rows. */
  ghost predicate InFlight(s: State) {
    forall r :: r in s.requests ==> Fits(s, s.requests[r])
  }

  ghost predicate Fits(s: State, p: Request) {
    && p.at <= s.now
    && (p.Refresh? ==> p.hash in s.issued && s.issued[p.hash] == p.grant
                       && (p.grant in s.grants ==>
                             s.grants[p.grant].user == p.user && s.grants[p.grant].client == p.client))
    && (p.Revoke? ==> p.grant in s.approvals && (p.grant in s.grants ==> s.grants[p.grant].user == p.user))
  }

  ghost predicate Inv(s: State) {
    && Hashes(s) && Recorded(s) && Rotated(s) && OnePerClient(s) && Current(s) && Backed(s) && SingleUse(s)
      && InFlight(s)
  }

  /** The part of the invariant that speaks of rows and their history, not of codes and requests. */
  ghost predicate RowsInv(s: State) {
    Hashes(s) && Recorded(s) && Rotated(s) && OnePerClient(s) && Current(s) && Backed(s)
  }

  lemma RowsFramed(s: State, next: State)
    requires RowsInv(s) && SameRows(s, next)
    ensures RowsInv(next)
  {
  }

  /** Requests that begin, end or are dropped leave rows and codes alone. */
  lemma RequestsMove(s: State, requests: map<Id, Request>)
    requires Inv(s)
    requires forall r :: r in requests && r !in s.requests ==> !requests[r].Exchange?
    requires forall r :: r in requests && r in s.requests ==> requests[r] == s.requests[r] || !requests[r].Exchange?
    requires forall r :: r in requests ==> (r in s.requests && requests[r] == s.requests[r]) || Fits(s, requests[r])
    ensures Inv(s.(requests := requests))
  {
    var next := s.(requests := requests);
    RowsFramed(s, next);
    hide RowsInv, Hashes, Recorded, Rotated, OnePerClient, Current, Backed;
    FitsFramed(s, next);
    RequestsMoveCodes(s, next);
    hide Fits, SingleUse;
  }

  lemma FitsFramed(s: State, next: State)
    requires s.now <= next.now && next.issued == s.issued && next.approvals == s.approvals
    requires forall g :: g in next.grants ==>
               g in s.grants && next.grants[g].user == s.grants[g].user && next.grants[g].client == s.grants[g].client
    ensures forall p :: Fits(s, p) ==> Fits(next, p)
  {
  }

  lemma RequestsMoveCodes(s: State, next: State)
    requires SingleUse(s) && next == s.(requests := next.requests)
    requires forall r :: r in next.requests && next.requests[r].Exchange? ==>
               r in s.requests && next.requests[r] == s.requests[r]
    ensures SingleUse(next)
  {
  }

  lemma CodesMove(s: State, next: State)
    requires Inv(s) && next == s.(codes := next.codes, approved := next.approved)
    requires s.approved <= next.approved
    requires forall h :: h in next.codes ==> h in next.approved && (h in s.codes || h !in s.approved)
    ensures Inv(next)
  {
    RowsFramed(s, next);
    FitsFramed(s, next);
    hide RowsInv, Hashes, Recorded, Rotated, OnePerClient, Current, Backed, Fits;
  }

  lemma ClockMoves(s: State, next: State)
    requires Inv(s) && next == s.(now := next.now, sessions := next.sessions) && s.now <= next.now
    ensures Inv(next)
  {
    RowsFramed(s, next);
    FitsFramed(s, next);
    hide RowsInv, Hashes, Recorded, Rotated, OnePerClient, Current, Backed, Fits;
  }

  /** Redeeming begins: the code leaves the table for the request that holds it. */
  lemma Held(s: State, req: Id, p: Request)
    requires Inv(s) && req !in s.requests && p.Exchange? && p.at <= s.now
    requires p.hash in s.approved && p.hash !in s.codes
    requires forall r :: r in s.requests && s.requests[r].Exchange? ==> s.requests[r].hash != p.hash
    requires forall g :: g in s.approvals ==> s.approvals[g].code != p.hash
    ensures Inv(s.(requests := s.requests[req := p]))
  {
    var next := s.(requests := s.requests[req := p]);
    RowsFramed(s, next);
    hide RowsInv, Hashes, Recorded, Rotated, OnePerClient, Current, Backed;
    FitsFramed(s, next);
    assert Fits(next, p);
    hide Fits;
    HeldOnce(s, next, req, p);
    hide SingleUse;
  }

  lemma HeldOnce(s: State, next: State, req: Id, p: Request)
    requires SingleUse(s) && req !in s.requests && p.Exchange? && next == s.(requests := s.requests[req := p])
    requires p.hash in s.approved && p.hash !in s.codes
    requires forall r :: r in s.requests && s.requests[r].Exchange? ==> s.requests[r].hash != p.hash
    requires forall g :: g in s.approvals ==> s.approvals[g].code != p.hash
    ensures SingleUse(next)
  {
  }

  lemma OutstandingOnce(s: State, h: Hash)
    requires SingleUse(s) && h in s.codes
    ensures h in s.approved
    ensures forall r :: r in s.requests && s.requests[r].Exchange? ==> s.requests[r].hash != h
    ensures forall g :: g in s.approvals ==> s.approvals[g].code != h
  {
  }

  lemma BeginExchangeKeeps(s: State, req: Id, at: Time, client: Id, secret: nat, redirect: nat, verifier: nat,
                           resourceOk: bool)
    requires Inv(s)
    ensures Inv(BeginExchangeStep(s, req, at, client, secret, redirect, verifier, resourceOk))
  {
    var h := Hash(secret);
    if req !in s.requests && at <= s.now && h in s.codes {
      OutstandingOnce(s, h);
      hide Redeemable, RowsInv, Hashes, Recorded, Rotated, OnePerClient, Current, Backed, InFlight;
      var burned := s.(codes := s.codes - {h});
      assert forall k :: k in burned.codes ==> k in s.approved;
      hide SingleUse;
      CodesMove(s, burned);
      hide Inv;
      if Redeemable(s.codes[h], at, client, redirect, verifier, resourceOk) {
        Held(burned, req, Exchange(at, client, h, s.codes[h]));
      }
    }
  }

  lemma RefreshFits(s: State, at: Time, client: Id, h: Hash, g: Id)
    requires Hashes(s) && Holds(s.grants, h, g) && s.grants[g].client == client && at <= s.now
    ensures Fits(s, Refresh(at, client, h, g, s.grants[g].user))
  {
  }

  lemma BeginRefreshKeeps(s: State, req: Id, at: Time, client: Id, secret: nat)
    requires Inv(s)
    ensures Inv(BeginRefreshStep(s, req, at, client, secret))
  {
    var h := Hash(secret);
    if req !in s.requests && at <= s.now {
      var found := Holder(s.grants, h);
      if found.None? {
        assert Fits(s, Lookup(at, client, h));
        hide Inv, Fits;
        RequestsMove(s, s.requests[req := Lookup(at, client, h)]);
      } else if s.grants[found.value].client == client {
        RefreshFits(s, at, client, h, found.value);
        hide Inv, Fits;
        RequestsMove(s, s.requests[req := Refresh(at, client, h, found.value, s.grants[found.value].user)]);
      }
    }
  }

  lemma SpentFits(s: State, req: Id)
    requires Inv(s) && req in s.requests && s.requests[req].Lookup? && s.requests[req].hash in s.spent
    ensures s.spent[s.requests[req].hash] in s.grants
    ensures var id := s.spent[s.requests[req].hash]; Fits(s, Revoke(s.requests[req].at, id, s.grants[id].user))
  {
  }

  lemma LookupSpentKeeps(s: State, req: Id)
    requires Inv(s)
    ensures Inv(LookupSpentStep(s, req))
  {
    hide Inv, Fits, Tolerated;
    if req in s.requests && s.requests[req].Lookup? {
      if s.requests[req].hash in s.spent { SpentFits(s, req); }
      RequestsMove(s, LookupSpentStep(s, req).requests);
    }
  }

  lemma RevokeAppKeeps(s: State, req: Id, user: Id, grant: Id)
    requires Inv(s)
    ensures Inv(RevokeAppStep(s, req, user, grant))
  {
    hide Inv, Fits;
    if req !in s.requests && grant in s.grants && s.grants[grant].user == user {
      AppFits(s, grant);
      RequestsMove(s, RevokeAppStep(s, req, user, grant).requests);
    }
  }

  lemma AppFits(s: State, grant: Id)
    requires Inv(s) && grant in s.grants
    ensures Fits(s, Revoke(s.now, grant, s.grants[grant].user))
  {
  }

  lemma ApproveKeeps(s: State, at: Time, user: Id, session: Id, client: Id, secret: nat, redirect: nat,
                     challenge: Challenge)
    requires Inv(s)
    ensures Inv(ApproveStep(s, at, user, session, client, secret, redirect, challenge))
  {
    assert forall h :: h in s.codes ==> h in s.approved;
    hide Inv, SessionLive;
    CodesMove(s, ApproveStep(s, at, user, session, client, secret, redirect, challenge));
  }

  /** Grants and tokens change by being revoked, and in no other way. */
  ghost predicate GrantsRevoked(grants: map<Id, Grant>, next: map<Id, Grant>) {
    && next.Keys == grants.Keys
    && forall g :: g in grants ==>
         next[g] == grants[g].(revoked := next[g].revoked)
           && (grants[g].revoked.Some? ==> next[g].revoked == grants[g].revoked)
  }

  ghost predicate TokensRevoked(tokens: map<Id, Token>, next: map<Id, Token>) {
    && next.Keys == tokens.Keys
    && forall t :: t in tokens ==>
         next[t] == tokens[t].(revoked := next[t].revoked)
           && (tokens[t].revoked.Some? ==> next[t].revoked == tokens[t].revoked)
  }

  lemma RevokeGrantsRevokes(grants: map<Id, Grant>, ids: set<Id>, at: Time)
    ensures GrantsRevoked(grants, RevokeGrants(grants, ids, at))
    ensures forall g :: g in grants ==>
      (RevokeGrants(grants, ids, at)[g].revoked.None? <==> grants[g].revoked.None? && g !in ids)
  {
  }

  lemma RevokeTokensRevokes(tokens: map<Id, Token>, ids: set<Id>, now: Time)
    ensures TokensRevoked(tokens, RevokeTokens(tokens, ids, now))
    ensures forall t :: t in tokens ==>
      (RevokeTokens(tokens, ids, now)[t].revoked.None? <==> tokens[t].revoked.None? && tokens[t].grant !in ids)
  {
  }

  /** Whatever is revoked, the rows stay sound as long as no unrevoked token is left on a revoked grant. */
  lemma RevocationKeeps(s: State, next: State)
    requires Inv(s)
    requires next == s.(grants := next.grants, tokens := next.tokens, requests := next.requests)
    requires GrantsRevoked(s.grants, next.grants) && TokensRevoked(s.tokens, next.tokens)
    requires forall t :: t in next.tokens && next.tokens[t].revoked.None? && next.tokens[t].grant in next.grants ==>
      next.grants[next.tokens[t].grant].revoked.None?
    requires forall r :: r in next.requests ==> r in s.requests && next.requests[r] == s.requests[r]
    ensures Inv(next)
  {
    RevocationHashes(s, next);
    RevocationRest(s, next);
    RequestsMoveCodes(s, next.(grants := s.grants, tokens := s.tokens));
    hide Hashes, Recorded, Rotated, OnePerClient, Current, Backed, InFlight;
  }

  lemma RevocationHashes(s: State, next: State)
    requires Hashes(s) && Rotated(s) && Recorded(s)
    requires next == s.(grants := next.grants, tokens := next.tokens, requests := next.requests)
    requires GrantsRevoked(s.grants, next.grants) && TokensRevoked(s.tokens, next.tokens)
    ensures Hashes(next) && Rotated(next) && Recorded(next)
  {
  }

  lemma RevocationRest(s: State, next: State)
    requires OnePerClient(s) && Current(s) && Backed(s) && InFlight(s)
    requires next == s.(grants := next.grants, tokens := next.tokens, requests := next.requests)
    requires GrantsRevoked(s.grants, next.grants) && TokensRevoked(s.tokens, next.tokens)
    requires forall t :: t in next.tokens && next.tokens[t].revoked.None? && next.tokens[t].grant in next.grants ==>
      next.grants[next.tokens[t].grant].revoked.None?
    requires forall r :: r in next.requests ==> r in s.requests && next.requests[r] == s.requests[r]
    ensures OnePerClient(next) && Current(next) && Backed(next) && InFlight(next)
  {
    FitsFramed(s, next);
    hide Fits;
  }

  lemma CommitRevokeKeeps(s: State, req: Id)
    requires Inv(s)
    ensures Inv(CommitRevokeStep(s, req))
  {
    if req in s.requests && s.requests[req].Revoke? {
      var p := s.requests[req];
      RevokeGrantsRevokes(s.grants, {p.grant}, p.at);
      RevokeTokensRevokes(s.tokens, {p.grant}, s.now);
      BackedAfter(s, {p.grant}, RevokeGrants(s.grants, {p.grant}, p.at), RevokeTokens(s.tokens, {p.grant}, s.now));
      hide Inv, RevokeGrants, RevokeTokens, GrantsRevoked, TokensRevoked;
      if p.user in s.generations {
        RevocationKeeps(s, CommitRevokeStep(s, req));
      } else {
        NothingRevoked(s);
        RevocationKeeps(s, CommitRevokeStep(s, req));
      }
    }
  }

  lemma NothingRevoked(s: State)
    requires Inv(s)
    ensures GrantsRevoked(s.grants, s.grants) && TokensRevoked(s.tokens, s.tokens)
    ensures forall t :: t in s.tokens && s.tokens[t].revoked.None? && s.tokens[t].grant in s.grants ==>
      s.grants[s.tokens[t].grant].revoked.None?
  {
  }

  /** Revoking grants together with their tokens leaves no unrevoked token on a revoked grant. */
  lemma BackedAfter(s: State, ids: set<Id>, grants: map<Id, Grant>, tokens: map<Id, Token>)
    requires Inv(s) && GrantsRevoked(s.grants, grants) && TokensRevoked(s.tokens, tokens)
    requires forall g :: g in s.grants ==> (grants[g].revoked.None? <==> s.grants[g].revoked.None? && g !in ids)
    requires forall t :: t in s.tokens ==>
               (tokens[t].revoked.None? <==> s.tokens[t].revoked.None? && s.tokens[t].grant !in ids)
    ensures forall t :: t in tokens && tokens[t].revoked.None? && tokens[t].grant in grants ==>
              grants[tokens[t].grant].revoked.None?
  {
  }

  /** A new grant with its first access token, made from the request's code. */
  ghost function Inserted(s: State, req: Id, grant: Id, secret: nat, token: Id): State
    requires req in s.requests && s.requests[req].Exchange?
  {
    var p := s.requests[req];
    s.(requests := s.requests - {req},
       grants := s.grants[grant := Grant(p.code.user, p.client, Hash(secret), None, None, p.at + GRANT_IDLE_TTL, None)],
       tokens := s.tokens[token := Token(p.code.user, grant, s.now + ACCESS_TOKEN_TTL, None)],
       issued := s.issued[Hash(secret) := grant],
       approvals := s.approvals[grant := Approval(p.hash, p.code.generation)])
  }

  ghost predicate Insertable(s: State, req: Id, grant: Id, secret: nat, token: Id) {
    && req in s.requests && s.requests[req].Exchange? && FreshSecret(s, secret) && grant !in s.approvals
      && token !in s.tokens
    && var p := s.requests[req];
       && p.code.user in s.generations && s.generations[p.code.user] == p.code.generation
       && OtherGrants(s.grants, p.code.user, p.client) == {}
  }

  lemma InsertedKeeps(s: State, req: Id, grant: Id, secret: nat, token: Id)
    requires Inv(s) && Insertable(s, req, grant, secret, token)
    ensures Inv(Inserted(s, req, grant, secret, token))
  {
    InsertedHashes(s, req, grant, secret, token);
    InsertedRotated(s, req, grant, secret, token);
    InsertedUnique(s, req, grant, secret, token);
    InsertedCodes(s, req, grant, secret, token);
    InsertedFits(s, req, grant, secret, token);
    hide Hashes, Recorded, Rotated, OnePerClient, Current, Backed, SingleUse, InFlight, Inserted, Insertable;
  }

  lemma InsertedHashes(s: State, req: Id, grant: Id, secret: nat, token: Id)
    requires Hashes(s) && Recorded(s) && Insertable(s, req, grant, secret, token)
    ensures Hashes(Inserted(s, req, grant, secret, token)) && Recorded(Inserted(s, req, grant, secret, token))
  {
  }

  lemma InsertedRotated(s: State, req: Id, grant: Id, secret: nat, token: Id)
    requires Rotated(s) && Recorded(s) && Insertable(s, req, grant, secret, token)
    ensures Rotated(Inserted(s, req, grant, secret, token))
  {
  }

  lemma InsertedUnique(s: State, req: Id, grant: Id, secret: nat, token: Id)
    requires Recorded(s) && OnePerClient(s) && Current(s) && Backed(s) && Insertable(s, req, grant, secret, token)
    ensures var n := Inserted(s, req, grant, secret, token); OnePerClient(n) && Current(n) && Backed(n)
  {
    var p := s.requests[req];
    assert forall g :: g in s.grants && s.grants[g].user == p.code.user && s.grants[g].client == p.client
                       && s.grants[g].revoked.None? ==>
      g in OtherGrants(s.grants, p.code.user, p.client);
  }

  lemma InsertedCodes(s: State, req: Id, grant: Id, secret: nat, token: Id)
    requires SingleUse(s) && Insertable(s, req, grant, secret, token)
    ensures SingleUse(Inserted(s, req, grant, secret, token))
  {
  }

  lemma InsertedFits(s: State, req: Id, grant: Id, secret: nat, token: Id)
    requires Recorded(s) && InFlight(s) && Insertable(s, req, grant, secret, token)
    ensures InFlight(Inserted(s, req, grant, secret, token))
  {
    var n := Inserted(s, req, grant, secret, token);
    forall p | Fits(s, p) ensures Fits(n, p) {
      if p.Refresh? { assert p.grant in s.approvals; }
    }
    hide Fits, Inserted;
    assert n.requests == s.requests - {req};
  }

  lemma RequestEnds(s: State, req: Id)
    requires Inv(s)
    ensures Inv(s.(requests := s.requests - {req}))
  {
    hide Hashes, Recorded, Rotated, OnePerClient, Current, Backed, SingleUse, Fits;
    RequestsMove(s, s.requests - {req});
  }

  /** The revocations that make room for a new grant. */
  ghost function Cleared(s: State, p: Request): (n: State)
    requires p.Exchange?
    ensures SameCodes(s, n) && n.requests == s.requests
  {
    var others := OtherGrants(s.grants, p.code.user, p.client);
    s.(grants := RevokeGrants(s.grants, others, p.at), tokens := RevokeTokens(s.tokens, others, s.now))
  }

  lemma ClearedKeeps(s: State, p: Request)
    requires Inv(s) && p.Exchange?
    ensures Inv(Cleared(s, p)) && OtherGrants(Cleared(s, p).grants, p.code.user, p.client) == {}
  {
    var others := OtherGrants(s.grants, p.code.user, p.client);
    RevokeGrantsRevokes(s.grants, others, p.at);
    RevokeTokensRevokes(s.tokens, others, s.now);
    var grants, tokens := RevokeGrants(s.grants, others, p.at), RevokeTokens(s.tokens, others, s.now);
    BackedAfter(s, others, grants, tokens);
    hide Inv, RevokeGrants, RevokeTokens;
    RevocationKeeps(s, Cleared(s, p));
  }

  /** The exchange's transaction in two steps: the user's other grants for the client go, then the new one comes. */
  lemma ExchangeIs(s: State, req: Id, grant: Id, secret: nat, token: Id)
    requires req in s.requests && s.requests[req].Exchange? && FreshSecret(s, secret) && grant !in s.approvals
             && token !in s.tokens
    ensures var p := s.requests[req];
      CommitExchangeStep(s, req, grant, secret, token) ==
        if p.code.user in s.generations && s.generations[p.code.user] == p.code.generation
        then Inserted(Cleared(s, p), req, grant, secret, token)
        else s.(requests := s.requests - {req})
  {
    hide RevokeGrants, RevokeTokens, OtherGrants;
  }

  lemma ClearedTokens(s: State, p: Request)
    requires p.Exchange?
    ensures Cleared(s, p).tokens.Keys == s.tokens.Keys && Cleared(s, p).grants.Keys == s.grants.Keys
  {
    RevokeTokensRevokes(s.tokens, OtherGrants(s.grants, p.code.user, p.client), s.now);
    RevokeGrantsRevokes(s.grants, OtherGrants(s.grants, p.code.user, p.client), p.at);
  }

  lemma CommitExchangeKeeps(s: State, req: Id, grant: Id, secret: nat, token: Id)
    requires Inv(s)
    ensures Inv(CommitExchangeStep(s, req, grant, secret, token))
  {
    hide Inv, RevokeGrants, RevokeTokens, OtherGrants;
    if req in s.requests && s.requests[req].Exchange? && FreshSecret(s, secret) && grant !in s.approvals
       && token !in s.tokens {
      var p := s.requests[req];
      ExchangeIs(s, req, grant, secret, token);
      hide CommitExchangeStep, Inserted;
      if p.code.user in s.generations && s.generations[p.code.user] == p.code.generation {
        ClearedKeeps(s, p);
        ClearedTokens(s, p);
        InsertedKeeps(Cleared(s, p), req, grant, secret, token);
      } else {
        RequestEnds(s, req);
      }
    }
  }

  /** The state after a rotation that matched. */
  ghost function RotatedTo(s: State, req: Id, secret: nat, token: Id): State
    requires Rotatable(s, req, secret, token)
  {
    var p := s.requests[req];
    s.(requests := s.requests - {req},
       grants := s.grants[p.grant := s.grants[p.grant].(refresh := Hash(secret), prev := Some(p.hash),
                                                        rotatedAt := Some(p.at),
                                                        expires := p.at + GRANT_IDLE_TTL)],
       spent := s.spent[p.hash := p.grant],
       tokens := s.tokens[token := Token(p.user, p.grant, s.now + ACCESS_TOKEN_TTL, None)],
       issued := s.issued[Hash(secret) := p.grant],
       rotations := s.rotations + [p.hash])
  }

  ghost predicate Rotatable(s: State, req: Id, secret: nat, token: Id) {
    && req in s.requests && s.requests[req].Refresh? && FreshSecret(s, secret) && token !in s.tokens
    && var p := s.requests[req];
       && p.user in s.generations && p.grant in s.grants && s.grants[p.grant].refresh == p.hash
       && s.grants[p.grant].revoked.None? && p.hash !in s.spent
  }

  lemma CommitRefreshKeeps(s: State, req: Id, secret: nat, token: Id)
    requires Inv(s)
    ensures Inv(CommitRefreshStep(s, req, secret, token))
  {
    hide Fits, Hashes, Recorded, Rotated, OnePerClient, Current, Backed;
    if Rotatable(s, req, secret, token) {
      RotatedHashes(s, req, secret, token);
      RotatedRotated(s, req, secret, token);
      RotatedUnique(s, req, secret, token);
      RotatedFits(s, req, secret, token);
      RequestsMoveCodes(s, s.(requests := s.requests - {req}));
      hide InFlight;
    } else {
      hide Inv;
      RequestEnds(s, req);
    }
  }

  lemma RotatedHashes(s: State, req: Id, secret: nat, token: Id)
    requires Hashes(s) && Recorded(s) && Rotatable(s, req, secret, token)
    ensures Hashes(RotatedTo(s, req, secret, token)) && Recorded(RotatedTo(s, req, secret, token))
  {
  }

  lemma RotatedRotated(s: State, req: Id, secret: nat, token: Id)
    requires Hashes(s) && Rotated(s) && Rotatable(s, req, secret, token)
    ensures Rotated(RotatedTo(s, req, secret, token))
  {
    var p, n := s.requests[req], RotatedTo(s, req, secret, token);
    assert p.hash !in s.rotations;
    assert forall h :: h in n.rotations <==> h in s.rotations || h == p.hash;
  }

  lemma RotatedUnique(s: State, req: Id, secret: nat, token: Id)
    requires Recorded(s) && OnePerClient(s) && Current(s) && Backed(s) && InFlight(s)
             && Rotatable(s, req, secret, token)
    ensures var n := RotatedTo(s, req, secret, token); OnePerClient(n) && Current(n) && Backed(n)
  {
    assert Fits(s, s.requests[req]);
  }

  lemma RotatedFits(s: State, req: Id, secret: nat, token: Id)
    requires Hashes(s) && InFlight(s) && Rotatable(s, req, secret, token)
    ensures InFlight(RotatedTo(s, req, secret, token))
  {
    var n := RotatedTo(s, req, secret, token);
    forall p | Fits(s, p) ensures Fits(n, p) {}
    assert n.requests == s.requests - {req};
    hide Fits, RotatedTo, Hashes;
  }

  lemma ReclaimKeeps(s: State, user: Id)
    requires Inv(s)
    ensures Inv(ReclaimStep(s, user))
  {
    hide Inv, Current, RevokeGrants, GrantsRevoked, TokensRevoked, GrantsOf;
    if user in s.generations {
      var n := ReclaimStep(s, user);
      var half := s.(grants := n.grants, tokens := n.tokens);
      ReclaimRevokes(s, user);
      ReclaimBacked(s, user);
      ReclaimCurrent(s, user);
      assert n == half.(generations := n.generations, sessions := n.sessions);
      hide ReclaimStep;
      RevocationKeeps(s, half);
      ReclaimRest(half, n);
    }
  }

  lemma ReclaimRevokes(s: State, user: Id)
    requires user in s.generations
    ensures GrantsRevoked(s.grants, ReclaimStep(s, user).grants)
    ensures TokensRevoked(s.tokens, ReclaimStep(s, user).tokens)
  {
    RevokeGrantsRevokes(s.grants, GrantsOf(s.grants, user), s.now);
    hide RevokeGrants;
  }

  lemma ReclaimBacked(s: State, user: Id)
    requires Inv(s) && user in s.generations
    ensures var n := ReclaimStep(s, user);
      forall t :: t in n.tokens && n.tokens[t].revoked.None? && n.tokens[t].grant in n.grants ==>
        n.grants[n.tokens[t].grant].revoked.None?
  {
    hide Hashes, Recorded, Rotated, OnePerClient, Current, SingleUse, InFlight;
  }

  lemma ReclaimCurrent(s: State, user: Id)
    requires Inv(s) && user in s.generations
    ensures Current(ReclaimStep(s, user))
  {
    hide Hashes, Rotated, OnePerClient, Backed, SingleUse, InFlight;
  }

  lemma ReclaimRest(half: State, n: State)
    requires Inv(half) && n == half.(generations := n.generations, sessions := n.sessions) && Current(n)
    ensures Inv(n)
  {
    FitsFramed(half, n);
    hide Current, Fits, RowsInv;
    ReclaimRows(half, n);
    RequestsMoveCodes(half, half);
    hide Hashes, Recorded, Rotated, OnePerClient, Backed;
  }

  lemma ReclaimRows(half: State, n: State)
    requires Hashes(half) && Recorded(half) && Rotated(half) && OnePerClient(half) && Backed(half) && SingleUse(half)
    requires n == half.(generations := n.generations, sessions := n.sessions)
    ensures Hashes(n) && Recorded(n) && Rotated(n) && OnePerClient(n) && Backed(n) && SingleUse(n)
  {
  }

  lemma DeleteDeadKeeps(s: State, at: Time)
    requires Inv(s)
    ensures Inv(DeleteDeadGrantsStep(s, at))
  {
    hide DeadGrant;
    if at <= s.now {
      var n := DeleteDeadGrantsStep(s, at);
      assert n == s.(grants := n.grants, spent := n.spent);
      DeleteDeadFewer(s, at);
      FewerHashes(s, n);
      FewerRest(s, n);
      hide DeleteDeadGrantsStep, Hashes, Recorded, Rotated, OnePerClient, Current, Backed, SingleUse, InFlight;
    }
  }

  lemma DeleteDeadFewer(s: State, at: Time)
    requires Hashes(s) && at <= s.now
    ensures var n := DeleteDeadGrantsStep(s, at);
      && (forall g :: g in n.grants ==> g in s.grants && n.grants[g] == s.grants[g])
      && (forall h :: h in n.spent <==> h in s.spent && s.spent[h] in n.grants)
      && (forall h :: h in n.spent ==> n.spent[h] == s.spent[h])
  {
    hide DeadGrant, Hashes, SameCodes;
  }

  lemma FewerHashes(s: State, n: State)
    requires Hashes(s) && Rotated(s) && Recorded(s) && n == s.(grants := n.grants, spent := n.spent)
    requires forall g :: g in n.grants ==> g in s.grants && n.grants[g] == s.grants[g]
    requires forall h :: h in n.spent <==> h in s.spent && s.spent[h] in n.grants
    requires forall h :: h in n.spent ==> n.spent[h] == s.spent[h]
    ensures Hashes(n) && Rotated(n) && Recorded(n)
  {
  }

  lemma FewerRest(s: State, n: State)
    requires Inv(s) && n == s.(grants := n.grants, spent := n.spent)
    requires forall g :: g in n.grants ==> g in s.grants && n.grants[g] == s.grants[g]
    ensures OnePerClient(n) && Current(n) && Backed(n) && InFlight(n) && SingleUse(n)
  {
    FitsFramed(s, n);
    RequestsMoveCodes(s, s);
    hide Fits, Hashes, Rotated;
  }

  lemma PurgeTokensKeeps(s: State, at: Time)
    requires Inv(s)
    ensures Inv(PurgeTokensStep(s, at))
  {
    var n := PurgeTokensStep(s, at);
    assert n == s.(tokens := n.tokens) && forall t :: t in n.tokens ==> t in s.tokens && n.tokens[t] == s.tokens[t];
    hide PurgeTokensStep;
    FewerTokens(s, n);
    FitsFramed(s, n);
    hide Fits, Hashes, Recorded, Rotated, OnePerClient, Current, Backed, SingleUse;
  }

  lemma FewerTokens(s: State, n: State)
    requires RowsInv(s) && SingleUse(s) && n == s.(tokens := n.tokens)
    requires forall t :: t in n.tokens ==> t in s.tokens && n.tokens[t] == s.tokens[t]
    ensures RowsInv(n) && SingleUse(n)
  {
  }

  lemma PurgeCodesKeeps(s: State, at: Time)
    requires Inv(s)
    ensures Inv(s.(codes := map h | h in s.codes && s.codes[h].expires >= at :: s.codes[h]))
  {
    assert forall h :: h in s.codes ==> h in s.approved;
    hide Inv;
    CodesMove(s, s.(codes := map h | h in s.codes && s.codes[h].expires >= at :: s.codes[h]));
  }

  /** Every step keeps the invariant. */
  lemma StepKeeps(s: State, a: Action)
    requires Inv(s)
    ensures Inv(Apply(s, a))
  {
    hide Inv, ApproveStep, BeginExchangeStep, CommitExchangeStep, BeginRefreshStep, CommitRefreshStep, LookupSpentStep,
         RevokeAppStep,
      CommitRevokeStep, ReclaimStep, DeleteDeadGrantsStep, PurgeTokensStep;
    match a {
      case Tick(elapsed) => ClockMoves(s, Apply(s, a));
      case SignIn(session, user, expires) => ClockMoves(s, Apply(s, a));
      case Approve(at, user, session, client, secret, redirect,
                   challenge) => ApproveKeeps(s, at, user, session, client, secret, redirect, challenge);
      case BeginExchange(req, at, client, secret, redirect, verifier,
                         ok) => BeginExchangeKeeps(s, req, at, client, secret, redirect, verifier, ok);
      case CommitExchange(req, grant, secret, token) => CommitExchangeKeeps(s, req, grant, secret, token);
      case BeginRefresh(req, at, client, secret) => BeginRefreshKeeps(s, req, at, client, secret);
      case CommitRefresh(req, secret, token) => CommitRefreshKeeps(s, req, secret, token);
      case LookupSpent(req) => LookupSpentKeeps(s, req);
      case RevokeApp(req, user, grant) => RevokeAppKeeps(s, req, user, grant);
      case CommitRevoke(req) => CommitRevokeKeeps(s, req);
      case Reclaim(user) => ReclaimKeeps(s, user);
      case PurgeCodes(at) => PurgeCodesKeeps(s, at);
      case DeleteDeadGrants(at) => DeleteDeadKeeps(s, at);
      case PurgeTokens(at) => PurgeTokensKeeps(s, at);
      case Drop(req) => RequestEnds(s, req);
    }
  }

  /** The invariant holds after every run. */
  lemma {:induction false} RunKeeps(generations: map<Id, nat>, actions: seq<Action>)
    ensures Inv(Run(Start(generations), actions))
  {
    if actions == [] {
      hide Apply;
    } else {
      RunKeeps(generations, actions[..|actions| - 1]);
      hide Inv, Apply;
      StepKeeps(Run(Start(generations), actions[..|actions| - 1]), actions[|actions| - 1]);
    }
  }
}
