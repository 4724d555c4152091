/** The authorization server's code: each method is one atomic step, a read outside a transaction or a whole one. */
module AuthServer {
  import opened Prelude
  import opened AuthModel
  import opened AuthInvariant

  class Server {
    var now: Time
    var generations: map<Id, nat>
    var sessions: map<Id, Session>
    var codes: map<Hash, Code>
    var grants: map<Id, Grant>
    var spent: map<Hash, Id>
    var tokens: map<Id, Token>
    var requests: map<Id, Request>
    ghost var approved: set<Hash>
    ghost var issued: map<Hash, Id>
    ghost var approvals: map<Id, Approval>
    ghost var rotations: seq<Hash>

    ghost function Snapshot(): State
      reads this
    {
      State(now, generations, sessions, codes, grants, spent, tokens, requests, approved, issued, approvals, rotations)
    }

    constructor (generations: map<Id, nat>)
      ensures Snapshot() == Start(generations)
    {
      now, this.generations, sessions, codes, grants, spent, tokens, requests := 0, generations, map[], map[], map[],
        map[], map[], map[];
      approved, issued, approvals, rotations := {}, map[], map[], [];
    }

    /** The generation, read under the user's row lock; None when there is no such user. */
    method LockForOAuth(user: Id) returns (generation: Option<nat>)
      ensures generation == if user in generations then Some(generations[user]) else None
    {
      generation := if user in generations then Some(generations[user]) else None;
    }

    /** Mints a token unless the generation has moved on. */
    method IssueOAuthAccessToken(user: Id, grant: Id, generation: nat, token: Id) returns (ok: bool)
      requires token !in tokens
      modifies `tokens
      ensures ok <==> user in generations && generations[user] == generation
      ensures tokens == if ok then old(tokens)[token := Token(user, grant, now + ACCESS_TOKEN_TTL, None)]
                        else old(tokens)
    {
      ok := user in generations && generations[user] == generation;
      if ok {
        tokens := tokens[token := Token(user, grant, now + ACCESS_TOKEN_TTL, None)];
      }
    }

    method RevokeOAuthGrantTokens(grant: Id)
      modifies `tokens
      ensures tokens == RevokeTokens(old(tokens), {grant}, now)
    {
      tokens := RevokeTokens(tokens, {grant}, now);
    }

    method ApproveAuthorization(at: Time, user: Id, session: Id, client: Id, secret: nat, redirect: nat,
                                challenge: Challenge) returns (ok: bool)
      requires Hash(secret) !in approved && at <= now
      modifies this
      ensures Snapshot() == ApproveStep(old(Snapshot()), at, user, session, client, secret, redirect, challenge)
      ensures ok <==> user in old(generations) && SessionLive(old(Snapshot()), user, session)
    {
      var generation := LockForOAuth(user);
      if generation.None? {
        return false;
      }
      ok := session in sessions && sessions[session].user == user && !sessions[session].revoked
        && sessions[session].expires > now;
      if ok {
        codes := codes[Hash(secret) := Code(client, user, redirect, challenge, generation.value, at + CODE_TTL)];
        approved := approved + {Hash(secret)};
      }
    }

    /** Up to the transaction of an exchange: the code is consumed, then checked. */
    method BeginExchange(req: Id, at: Time, client: Id, secret: nat, redirect: nat, verifier: nat, resourceOk: bool)
      returns (ok: bool)
      requires req !in requests && at <= now
      modifies this
      ensures Snapshot() == BeginExchangeStep(old(Snapshot()), req, at, client, secret, redirect, verifier, resourceOk)
      ensures Hash(secret) !in codes && (ok <==> req in requests)
      ensures ok <==>
        && Hash(secret) in old(codes)
        && var code := old(codes)[Hash(secret)];
           && at < code.expires && client == code.client && redirect == code.redirect
           && code.challenge == Challenge(verifier) && resourceOk
    {
      var h := Hash(secret);
      if h !in codes {
        return false;
      }
      var code := codes[h];
      codes := codes - {h};
      if !(at < code.expires) || code.client != client || code.redirect != redirect
         || code.challenge != Challenge(verifier) || !resourceOk {
        return false;
      }
      requests := requests[req := Exchange(at, client, h, code)];
      ok := true;
    }

    /** The exchange's transaction. A moved generation rolls it back. */
    method CommitExchange(req: Id, grant: Id, secret: nat, token: Id) returns (ok: bool)
      requires req in requests && requests[req].Exchange?
      requires FreshSecret(Snapshot(), secret) && grant !in approvals && grant !in grants && token !in tokens
      modifies this
      ensures Snapshot() == CommitExchangeStep(old(Snapshot()), req, grant, secret, token)
      ensures ok <==> token in tokens
    {
      hide RevokeGrants, RevokeTokens, OtherGrants, FreshSecret;
      var p := requests[req];
      requests := requests - {req};
      var generation := LockForOAuth(p.code.user);
      if generation.None? {
        return false;
      }
      ok := MintFirst(p.code.user, p.client, p.code.generation, grant, token);
      if !ok {
        return;
      }
      assert tokens - {token} == old(tokens);
      InsertGrant(grant, Grant(p.code.user, p.client, Hash(secret), None, None, p.at + GRANT_IDLE_TTL, None), p.at,
                  token,
                  Approval(p.hash, p.code.generation));
    }

    /**
     * The access token of a grant about to be inserted, unless the generation has moved since the code was approved.
     */
    method MintFirst(user: Id, client: Id, generation: nat, grant: Id, token: Id) returns (ok: bool)
      requires token !in tokens && grant !in grants
      modifies `tokens
      ensures ok <==> user in generations && generations[user] == generation
      ensures grant !in OtherGrants(grants, user, client)
      ensures tokens == if ok then old(tokens)[token := Token(user, grant, now + ACCESS_TOKEN_TTL, None)]
                        else old(tokens)
    {
      ok := IssueOAuthAccessToken(user, grant, generation, token);
    }

    /** Inserts a grant and revokes the user's earlier ones for its client; the token minted with it stays. */
    method InsertGrant(grant: Id, g: Grant, at: Time, token: Id, ghost approval: Approval)
      requires grant !in grants && g.revoked.None? && grant !in OtherGrants(grants, g.user, g.client)
      requires token in tokens && tokens[token].grant == grant
      modifies `grants, `tokens, `issued, `approvals
      ensures issued == old(issued)[g.refresh := grant] && approvals == old(approvals)[grant := approval]
      ensures grants == RevokeGrants(old(grants), OtherGrants(old(grants), g.user, g.client), at)[grant := g]
      ensures tokens == RevokeTokens(old(tokens) - {token}, OtherGrants(old(grants), g.user, g.client),
                                     now)[token := old(tokens)[token]]
    {
      hide RevokeGrants, RevokeTokens, OtherGrants;
      grants := grants[grant := g];
      issued, approvals := issued[g.refresh := grant], approvals[grant := approval];
      RevokeOtherGrants(g.user, g.client, grant, at);
      RevokedAround(old(grants), OtherGrants(old(grants), g.user, g.client), grant, g, at);
      TokenAround(old(tokens) - {token}, OtherGrants(old(grants), g.user, g.client), token, old(tokens)[token], now);
      assert old(tokens) == (old(tokens) - {token})[token := old(tokens)[token]];
    }

    /** Revokes the user's other unrevoked grants for the client, and the tokens of each. */
    method RevokeOtherGrants(user: Id, client: Id, keep: Id, at: Time)
      modifies `grants, `tokens
      ensures var others := OtherGrants(old(grants), user, client) - {keep};
        && grants == RevokeGrants(old(grants), others, at)
        && tokens == RevokeTokens(old(tokens), others, now)
    {
      var replaced := OtherGrants(grants, user, client) - {keep};
      grants := RevokeGrants(grants, replaced, at);
      var rest := replaced;
      assert RevokeTokens(old(tokens), {}, now) == old(tokens);
      while rest != {}
        invariant rest <= replaced && grants == RevokeGrants(old(grants), replaced, at)
        invariant tokens == RevokeTokens(old(tokens), replaced - rest, now)
      {
        hide RevokeTokens, RevokeGrants, OtherGrants;
        var id :| id in rest;
        RevokeOAuthGrantTokens(id);
        RevokeMore(old(tokens), replaced - rest, id, now);
        assert replaced - (rest - {id}) == replaced - rest + {id};
        rest := rest - {id};
      }
      assert replaced - rest == replaced;
    }

    /** The first read of a refresh. The unique index on the hash makes the row found the only one. */
    method BeginRefresh(req: Id, at: Time, client: Id, secret: nat) returns (ok: bool)
      requires Hashes(Snapshot()) && req !in requests && at <= now
      modifies this
      ensures Snapshot() == BeginRefreshStep(old(Snapshot()), req, at, client, secret)
      ensures ok <==> req in requests
    {
      var h := Hash(secret);
      var found := set g | g in grants && grants[g].refresh == h;
      if found == {} {
        assert forall g :: g in grants && grants[g].refresh == h ==> g in found;
        NoHolder(grants, h);
        requests := requests[req := Lookup(at, client, h)];
        return true;
      }
      var id :| id in found;
      OneHolder(Snapshot(), h, id);
      var g := grants[id];
      if g.client != client || !GrantLive(g, at) {
        return false;
      }
      requests := requests[req := Refresh(at, client, h, id, g.user)];
      ok := true;
    }

    /** The conditional update: it matches only while the presented hash is current and the grant unrevoked. */
    method RotateGrant(id: Id, oldHash: Hash, newHash: Hash, at: Time) returns (n: nat)
      modifies `grants
      ensures n == if id in old(grants) && old(grants)[id].refresh == oldHash && old(grants)[id].revoked.None? then 1
                   else 0
      ensures grants == if n == 0 then old(grants)
        else old(grants)[id := old(grants)[id].(refresh := newHash, prev := Some(oldHash), rotatedAt := Some(at),
                                                expires := at + GRANT_IDLE_TTL)]
    {
      n := 0;
      if id in grants && grants[id].refresh == oldHash && grants[id].revoked.None? {
        grants := grants[id := grants[id].(refresh := newHash, prev := Some(oldHash), rotatedAt := Some(at),
                                           expires := at + GRANT_IDLE_TTL)];
        n := 1;
      }
    }

    /** The refresh's transaction. A hash spent already would break the spent table's key and roll it back. */
    method CommitRefresh(req: Id, secret: nat, token: Id) returns (ok: bool)
      requires req in requests && requests[req].Refresh?
      requires FreshSecret(Snapshot(), secret) && token !in tokens
      modifies this
      ensures Snapshot() == CommitRefreshStep(old(Snapshot()), req, secret, token)
      ensures ok <==> token in tokens
    {
      hide SameCodes, FreshSecret;
      var p := requests[req];
      requests := requests - {req};
      var generation := LockForOAuth(p.user);
      if generation.None? {
        return false;
      }
      ok := Rotate(p.at, p.grant, p.hash, secret);
      if !ok {
        return;
      }
      ok := IssueOAuthAccessToken(p.user, p.grant, generation.value, token);
    }

    /** The presented hash gives way to a new one and is recorded as spent, or nothing changes. */
    method Rotate(at: Time, grant: Id, hash: Hash, secret: nat) returns (ok: bool)
      modifies `grants, `spent, `issued, `rotations
      ensures ok <==> grant in old(grants) && old(grants)[grant].refresh == hash && old(grants)[grant].revoked.None?
                      && hash !in old(spent)
      ensures !ok ==> grants == old(grants) && spent == old(spent) && issued == old(issued)
                      && rotations == old(rotations)
      ensures ok ==> spent == old(spent)[hash := grant] && issued == old(issued)[Hash(secret) := grant]
                     && rotations == old(rotations) + [hash]
      ensures ok ==> grants == old(grants)[grant := old(grants)[grant].(
        refresh := Hash(secret), prev := Some(hash), rotatedAt := Some(at), expires := at + GRANT_IDLE_TTL)]
    {
      var before := grants;
      var n := RotateGrant(grant, hash, Hash(secret), at);
      if n == 0 {
        return false;
      }
      if hash in spent {
        grants := before;
        return false;
      }
      spent := spent[hash := grant];
      issued, rotations := issued[Hash(secret) := grant], rotations + [hash];
      ok := true;
    }

    /**
     * The second read, for a hash no grant holds. The token rotated away last, inside the grace window, is only
     * refused; any other spent token sets its grant's revocation going.
     */
    method HandleRotatedRefresh(req: Id) returns (revoking: bool)
      requires req in requests && requests[req].Lookup?
      modifies this
      ensures Snapshot() == LookupSpentStep(old(Snapshot()), req)
      ensures revoking <==> Replay(old(Snapshot()), old(requests)[req])
    {
      var p := requests[req];
      if p.hash !in spent || spent[p.hash] !in grants {
        requests := requests - {req};
        return false;
      }
      var id := spent[p.hash];
      var g := grants[id];
      if g.client != p.client || g.revoked.Some? {
        requests := requests - {req};
        return false;
      }
      var latest := g.prev.Some? && g.prev.value == p.hash;
      var elapsed := 0;
      if g.rotatedAt.Some? {
        elapsed := p.at - g.rotatedAt.value;
        if elapsed < 0 {
          elapsed := -elapsed;
        }
      }
      if latest && g.rotatedAt.Some? && elapsed <= REFRESH_GRACE {
        requests := requests - {req};
        return false;
      }
      requests := requests[req := Revoke(p.at, id, g.user)];
      revoking := true;
    }

    method RevokeConnectedApp(req: Id, user: Id, grant: Id) returns (ok: bool)
      requires req !in requests
      modifies this
      ensures Snapshot() == RevokeAppStep(old(Snapshot()), req, user, grant)
      ensures ok <==> req in requests
    {
      if grant !in grants || grants[grant].user != user || grants[grant].revoked.Some? {
        return false;
      }
      requests := requests[req := Revoke(now, grant, user)];
      ok := true;
    }

    /** The revocation's transaction: the grant first, then its tokens. */
    method RevokeGrant(req: Id)
      requires req in requests && requests[req].Revoke?
      modifies this
      ensures Snapshot() == CommitRevokeStep(old(Snapshot()), req)
    {
      hide RevokeGrants, RevokeTokens;
      var p := requests[req];
      requests := requests - {req};
      var generation := LockForOAuth(p.user);
      if generation.None? {
        return;
      }
      grants := RevokeGrants(grants, {p.grant}, p.at);
      RevokeOAuthGrantTokens(p.grant);
    }

    /** The reclaim's transaction; the grants go last. */
    method Reclaim(user: Id)
      requires user in generations
      modifies this
      ensures Snapshot() == ReclaimStep(old(Snapshot()), user)
    {
      hide RevokeGrants, GrantsOf, SessionsEnded, TokensEnded;
      generations := generations[user := generations[user] + 1];
      sessions := SessionsEnded(sessions, user);
      tokens := TokensEnded(tokens, user, now);
      RevokeAllForUser(user);
    }

    method RevokeAllForUser(user: Id)
      modifies `grants
      ensures grants == RevokeGrants(old(grants), GrantsOf(old(grants), user), now)
    {
      grants := RevokeGrants(grants, GrantsOf(grants, user), now);
    }

    /** The sweep after a successful request that began at `at`; its three statements stand alone. */
    method Housekeeping(at: Time)
      requires at <= now
      modifies this
      ensures Snapshot() == PurgeTokensStep(DeleteDeadGrantsStep(Apply(old(Snapshot()), PurgeCodes(at)), at), at)
    {
      codes := map h | h in codes && codes[h].expires >= at :: codes[h];
      grants := GrantsKept(grants, at - DEAD_RETENTION);
      spent := SpentKept(spent, grants);
      tokens := TokensKept(tokens, at - DEAD_RETENTION);
    }
  }

  lemma NoHolder(grants: map<Id, Grant>, h: Hash)
    requires forall g :: g in grants ==> grants[g].refresh != h
    ensures Holder(grants, h) == None
  {
    var found := Holder(grants, h);
    assert found.Some? ==> Holds(grants, h, found.value);
  }

  lemma OneHolder(s: State, h: Hash, id: Id)
    requires Hashes(s) && Holds(s.grants, h, id)
    ensures Holder(s.grants, h) == Some(id)
  {
    var found := Holder(s.grants, h);
    assert found.Some? && Holds(s.grants, h, found.value);
  }

  lemma RevokeMore(tokens: map<Id, Token>, ids: set<Id>, id: Id, now: Time)
    ensures RevokeTokens(RevokeTokens(tokens, ids, now), {id}, now) == RevokeTokens(tokens, ids + {id}, now)
  {
  }

  lemma RevokedAround(grants: map<Id, Grant>, others: set<Id>, id: Id, g: Grant, at: Time)
    requires id !in grants && g.revoked.None? && others == OtherGrants(grants, g.user, g.client)
    ensures OtherGrants(grants[id := g], g.user, g.client) - {id} == others
    ensures RevokeGrants(grants[id := g], others, at) == RevokeGrants(grants, others, at)[id := g]
  {
  }

  lemma TokenAround(tokens: map<Id, Token>, others: set<Id>, id: Id, t: Token, now: Time)
    requires id !in tokens && t.grant !in others
    ensures RevokeTokens(tokens[id := t], others, now) == RevokeTokens(tokens, others, now)[id := t]
  {
  }
}
