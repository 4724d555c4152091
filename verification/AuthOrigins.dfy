/**
 * Where what the server holds comes from: every code, grant, rotation, token and pending revocation goes back to steps
 * of the run, and to what those steps presented.
 */
module AuthOrigins {
  import opened Prelude
  import opened AuthModel

  /** The state a run's i-th step meets. */
  ghost function Met(generations: map<Id, nat>, actions: seq<Action>, i: int): State
    requires 0 <= i <= |actions|
  {
    Run(Start(generations), actions[..i])
  }

  lemma MetNext(generations: map<Id, nat>, actions: seq<Action>, i: int)
    requires 0 <= i < |actions|
    ensures Met(generations, actions, i + 1) == Apply(Met(generations, actions, i), actions[i])
  {
    assert actions[..i + 1][..i] == actions[..i];
  }

  lemma MetExtends(generations: map<Id, nat>, actions: seq<Action>, a: Action, i: int)
    requires 0 <= i <= |actions|
    ensures Met(generations, actions + [a], i) == Met(generations, actions, i)
  {
    assert (actions + [a])[..i] == actions[..i];
  }

  // ---- Codes ----

  /** Step i approved the code of this hash: the user's session was live, and the hash new. */
  ghost predicate ApprovedAt(generations: map<Id, nat>, actions: seq<Action>, i: int, h: Hash) {
    && 0 <= i < |actions| && actions[i].Approve?
    && var a, s := actions[i], Met(generations, actions, i);
    && h == Hash(a.secret) && h !in s.approved && a.at <= s.now && a.user in s.generations
    && a.session in s.sessions && s.sessions[a.session].user == a.user
    && !s.sessions[a.session].revoked && s.sessions[a.session].expires > s.now
  }

  /** The code as the approval made it: the client's, for two minutes, under the generation then current. */
  ghost predicate CodeOf(generations: map<Id, nat>, actions: seq<Action>, i: int, h: Hash, code: Code) {
    && ApprovedAt(generations, actions, i, h)
    && var a, s := actions[i], Met(generations, actions, i);
    && code.client == a.client && code.user == a.user && code.redirect == a.redirect && code.challenge == a.challenge
    && code.generation == s.generations[a.user] && code.expires == a.at + 120 * SECOND
  }

  /** Step j presented the code of step i as it was approved: the same client and redirect, the challenge's verifier, an
      accepted resource, and a clock within two minutes of the approval's. */
  ghost predicate PresentedAt(generations: map<Id, nat>, actions: seq<Action>, i: int, j: int) {
    && 0 <= i < j < |actions| && actions[i].Approve? && actions[j].BeginExchange?
    && var a, b := actions[i], actions[j];
    && b.secret == a.secret && b.client == a.client && b.redirect == a.redirect
    && a.challenge == Challenge(b.verifier) && b.resourceOk
    && b.at < a.at + 120 * SECOND && b.at <= Met(generations, actions, j).now
  }

  ghost predicate CodeOrigin(generations: map<Id, nat>, actions: seq<Action>, h: Hash, code: Code) {
    exists i :: CodeOf(generations, actions, i, h, code)
  }

  ghost predicate ExchangeFrom(generations: map<Id, nat>, actions: seq<Action>, r: Id, p: Request, i: int, j: int)
    requires p.Exchange?
  {
    && CodeOf(generations, actions, i, p.hash, p.code) && PresentedAt(generations, actions, i, j)
    && actions[j].req == r && actions[j].at == p.at && actions[j].client == p.client
  }

  ghost predicate ExchangeOrigin(generations: map<Id, nat>, actions: seq<Action>, r: Id, p: Request)
    requires p.Exchange?
  {
    exists i, j :: ExchangeFrom(generations, actions, r, p, i, j)
  }

  /** Steps i, j and k made the grant: approved, presented, and committed while the generation stood. Its token lasts an
      hour from the commit, and it lasts ninety days from the presentation. */
  ghost predicate GrantedBy(generations: map<Id, nat>, actions: seq<Action>, g: Id, i: int, j: int, k: int) {
    && PresentedAt(generations, actions, i, j) && ApprovedAt(generations, actions, i, Hash(actions[i].secret))
    && j < k < |actions| && actions[k].CommitExchange?
    && var a, b, c, then_ := actions[i], actions[j], actions[k], Met(generations, actions, k);
    && c.req == b.req && c.grant == g && a.user in then_.generations
    && then_.generations[a.user] == Met(generations, actions, i).generations[a.user]
    && Made(Apply(then_, c), g, Grant(a.user, a.client, Hash(c.secret), None, None, b.at + 90 * 86_400 * SECOND, None),
            c.token, then_.now + 3_600 * SECOND)
  }

  /** The grant is stored as given, with a token of its user that ends at the instant. */
  ghost predicate Made(s: State, g: Id, grant: Grant, token: Id, until: Time) {
    g in s.grants && s.grants[g] == grant && token in s.tokens && s.tokens[token] == Token(grant.user, g, until, None)
  }

  ghost predicate GrantOrigin(generations: map<Id, nat>, actions: seq<Action>, g: Id) {
    exists i, j, k :: GrantedBy(generations, actions, g, i, j, k)
  }

  // ---- What the states remember, and how it moves ----

  ghost predicate CodesTraced(generations: map<Id, nat>, actions: seq<Action>, s: State) {
    && (forall h :: h in s.codes ==> CodeOrigin(generations, actions, h, s.codes[h]))
    && (forall r :: r in s.requests && s.requests[r].Exchange? ==>
          ExchangeOrigin(generations, actions, r, s.requests[r]))
    && (forall g :: g in s.approvals ==> GrantOrigin(generations, actions, g))
  }

  lemma CodeOfExtends(generations: map<Id, nat>, actions: seq<Action>, a: Action, i: int, h: Hash, code: Code)
    requires CodeOf(generations, actions, i, h, code)
    ensures CodeOf(generations, actions + [a], i, h, code)
  {
    MetExtends(generations, actions, a, i);
    hide Met;
  }

  lemma PresentedExtends(generations: map<Id, nat>, actions: seq<Action>, a: Action, i: int, j: int)
    requires PresentedAt(generations, actions, i, j)
    ensures PresentedAt(generations, actions + [a], i, j)
  {
    MetExtends(generations, actions, a, j);
    hide Met;
  }

  lemma GrantedExtends(generations: map<Id, nat>, actions: seq<Action>, a: Action, g: Id, i: int, j: int, k: int)
    requires GrantedBy(generations, actions, g, i, j, k)
    ensures GrantedBy(generations, actions + [a], g, i, j, k)
  {
    MetExtends(generations, actions, a, i);
    MetExtends(generations, actions, a, k);
    PresentedExtends(generations, actions, a, i, j);
    hide Met, PresentedAt, Apply;
  }

  /** What was traced before a step stays traced after it. */
  lemma TracesExtend(generations: map<Id, nat>, actions: seq<Action>, a: Action, s: State)
    requires CodesTraced(generations, actions, s)
    ensures CodesTraced(generations, actions + [a], s)
  {
    forall h | h in s.codes ensures CodeOrigin(generations, actions + [a], h, s.codes[h]) {
      CodeOriginExtends(generations, actions, a, h, s.codes[h]);
    }
    forall r | r in s.requests && s.requests[r].Exchange?
      ensures ExchangeOrigin(generations, actions + [a], r, s.requests[r]) {
      ExchangeOriginExtends(generations, actions, a, r, s.requests[r]);
    }
    forall g | g in s.approvals ensures GrantOrigin(generations, actions + [a], g) {
      GrantOriginExtends(generations, actions, a, g);
    }
    hide CodeOrigin, ExchangeOrigin, GrantOrigin;
  }

  lemma CodeOriginExtends(generations: map<Id, nat>, actions: seq<Action>, a: Action, h: Hash, code: Code)
    requires CodeOrigin(generations, actions, h, code)
    ensures CodeOrigin(generations, actions + [a], h, code)
  {
    var i :| CodeOf(generations, actions, i, h, code);
    CodeOfExtends(generations, actions, a, i, h, code);
    hide CodeOf;
  }

  lemma ExchangeOriginExtends(generations: map<Id, nat>, actions: seq<Action>, a: Action, r: Id, p: Request)
    requires p.Exchange? && ExchangeOrigin(generations, actions, r, p)
    ensures ExchangeOrigin(generations, actions + [a], r, p)
  {
    var i, j :| ExchangeFrom(generations, actions, r, p, i, j);
    CodeOfExtends(generations, actions, a, i, p.hash, p.code);
    PresentedExtends(generations, actions, a, i, j);
    assert (actions + [a])[j] == actions[j];
    hide CodeOf, PresentedAt;
    assert ExchangeFrom(generations, actions + [a], r, p, i, j);
  }

  lemma GrantOriginExtends(generations: map<Id, nat>, actions: seq<Action>, a: Action, g: Id)
    requires GrantOrigin(generations, actions, g)
    ensures GrantOrigin(generations, actions + [a], g)
  {
    var i, j, k :| GrantedBy(generations, actions, g, i, j, k);
    GrantedExtends(generations, actions, a, g, i, j, k);
    hide GrantedBy;
  }

  /** Where an approval does anything, it stores a code for a live session under a hash that is new. */
  lemma ApproveMoves(s: State, a: Action)
    requires a.Approve? && Apply(s, a) != s
    ensures Hash(a.secret) !in s.approved && a.at <= s.now && a.user in s.generations
    ensures a.session in s.sessions && s.sessions[a.session].user == a.user
    ensures !s.sessions[a.session].revoked && s.sessions[a.session].expires > s.now
    ensures var n := Apply(s, a);
      && n.requests == s.requests && n.approvals == s.approvals && n.rotations == s.rotations
      && n.codes == s.codes[Hash(a.secret) := Code(a.client, a.user, a.redirect, a.challenge, s.generations[a.user],
                                                   a.at + 120 * SECOND)]
  {
  }

  lemma ApprovedNow(generations: map<Id, nat>, actions: seq<Action>, a: Action)
    requires a.Approve?
    requires var s := Run(Start(generations), actions); Apply(s, a) != s
    ensures var n := Apply(Run(Start(generations), actions), a);
      && Hash(a.secret) in n.codes
      && CodeOf(generations, actions + [a], |actions|, Hash(a.secret), n.codes[Hash(a.secret)])
  {
    hide Met, Apply, Run;
    var s := Run(Start(generations), actions);
    ApproveMoves(s, a);
    MetLast(generations, actions);
    MetExtends(generations, actions, a, |actions|);
    assert (actions + [a])[|actions|] == a;
    assert ApprovedAt(generations, actions + [a], |actions|, Hash(a.secret));
    hide ApprovedAt;
  }

  lemma ApproveTraced(generations: map<Id, nat>, actions: seq<Action>, a: Action)
    requires a.Approve? && CodesTraced(generations, actions, Run(Start(generations), actions))
    ensures CodesTraced(generations, actions + [a], Apply(Run(Start(generations), actions), a))
  {
    hide Run, Apply, CodeOf, ExchangeOrigin, GrantOrigin;
    var s := Run(Start(generations), actions);
    TracesExtend(generations, actions, a, s);
    if Apply(s, a) != s {
      ApproveMoves(s, a);
      ApprovedNow(generations, actions, a);
    }
  }

  /** An exchange that is let in matches the code it presents. */
  lemma LetIn(s: State, b: Action)
    requires b.BeginExchange? && b.req !in s.requests && b.req in Apply(s, b).requests
    ensures b.at <= s.now && Hash(b.secret) in s.codes
    ensures var code := s.codes[Hash(b.secret)];
      && b.at < code.expires && code.client == b.client && code.redirect == b.redirect
      && code.challenge == Challenge(b.verifier) && b.resourceOk
      && Apply(s, b).requests[b.req] == Exchange(b.at, b.client, Hash(b.secret), code)
  {
  }

  lemma ExchangeOriginNow(generations: map<Id, nat>, actions: seq<Action>, b: Action, code: Code)
    requires b.BeginExchange? && CodeOrigin(generations, actions, Hash(b.secret), code)
    requires b.at <= Met(generations, actions, |actions|).now
    requires b.at < code.expires && code.client == b.client && code.redirect == b.redirect
    requires code.challenge == Challenge(b.verifier) && b.resourceOk
    ensures ExchangeOrigin(generations, actions + [b], b.req, Exchange(b.at, b.client, Hash(b.secret), code))
  {
    hide Run;
    var h := Hash(b.secret);
    var i :| CodeOf(generations, actions, i, h, code);
    CodeOfExtends(generations, actions, b, i, h, code);
    MetExtends(generations, actions, b, |actions|);
    hide Met;
    assert (actions + [b])[i] == actions[i];
    assert PresentedAt(generations, actions + [b], i, |actions|);
    hide CodeOf, PresentedAt;
    assert ExchangeFrom(generations, actions + [b], b.req, Exchange(b.at, b.client, h, code), i, |actions|);
  }

  lemma PresentMoves(s: State, b: Action)
    requires b.BeginExchange?
    ensures var n := Apply(s, b);
      && (forall h :: h in n.codes ==> h in s.codes && n.codes[h] == s.codes[h]) && n.approvals == s.approvals
      && (forall r :: r in n.requests && r != b.req ==> r in s.requests && n.requests[r] == s.requests[r])
      && (b.req in s.requests ==> n.requests == s.requests)
      && (b.req in n.requests && b.req !in s.requests ==> n.requests[b.req].Exchange?) && n.rotations == s.rotations
  {
    StepMoves(s, b.req, b.at, b.client, b.secret, b.redirect, b.verifier, b.resourceOk);
    hide BeginExchangeStep;
  }

  lemma StepMoves(s: State, req: Id, at: Time, client: Id, secret: nat, redirect: nat, verifier: nat, resourceOk: bool)
    ensures var n := BeginExchangeStep(s, req, at, client, secret, redirect, verifier, resourceOk);
      && (forall h :: h in n.codes ==> h in s.codes && n.codes[h] == s.codes[h]) && n.approvals == s.approvals
      && (forall r :: r in n.requests && r != req ==> r in s.requests && n.requests[r] == s.requests[r])
      && (req in s.requests ==> n.requests == s.requests)
      && (req in n.requests && req !in s.requests ==> n.requests[req].Exchange?) && n.rotations == s.rotations
  {
    hide Redeemable, SameRows;
    StepRequests(s, req, at, client, secret, redirect, verifier, resourceOk);
    hide BeginExchangeStep;
  }

  lemma StepRequests(s: State, req: Id, at: Time, client: Id, secret: nat, redirect: nat, verifier: nat,
                     resourceOk: bool)
    ensures var n := BeginExchangeStep(s, req, at, client, secret, redirect, verifier, resourceOk);
      && n.approvals == s.approvals && n.rotations == s.rotations
        && n.codes == (if n == s then s.codes else s.codes - {Hash(secret)})
      && (n.requests == s.requests
          || (req !in s.requests && Hash(secret) in s.codes
              && n.requests == s.requests[req := Exchange(at, client, Hash(secret), s.codes[Hash(secret)])]))
  {
    hide Redeemable, SameRows;
  }

  lemma PresentTraced(generations: map<Id, nat>, actions: seq<Action>, b: Action)
    requires b.BeginExchange? && CodesTraced(generations, actions, Run(Start(generations), actions))
    ensures CodesTraced(generations, actions + [b], Apply(Run(Start(generations), actions), b))
  {
    hide Apply, Run, Met, CodeOrigin, ExchangeOrigin, GrantOrigin;
    var s := Run(Start(generations), actions);
    TracesExtend(generations, actions, b, s);
    PresentMoves(s, b);
    if b.req !in s.requests && b.req in Apply(s, b).requests {
      LetIn(s, b);
      MetLast(generations, actions);
      ExchangeOriginNow(generations, actions, b, s.codes[Hash(b.secret)]);
    }
  }

  lemma MetLast(generations: map<Id, nat>, actions: seq<Action>)
    ensures Met(generations, actions, |actions|) == Run(Start(generations), actions)
  {
    assert actions[..|actions|] == actions;
  }

  lemma GrantOriginNow(generations: map<Id, nat>, actions: seq<Action>, c: Action, p: Request)
    requires c.CommitExchange? && p.Exchange? && ExchangeOrigin(generations, actions, c.req, p)
    requires var s := Met(generations, actions, |actions|);
      && p.code.user in s.generations && s.generations[p.code.user] == p.code.generation
      && Made(Apply(s, c), c.grant, Grant(p.code.user, p.client, Hash(c.secret), None, None,
                                          p.at + 90 * 86_400 * SECOND, None), c.token, s.now + 3_600 * SECOND)
    ensures GrantOrigin(generations, actions + [c], c.grant)
  {
    hide Apply, Run, Made;
    var i, j :| ExchangeFrom(generations, actions, c.req, p, i, j);
    CodeOfExtends(generations, actions, c, i, p.hash, p.code);
    PresentedExtends(generations, actions, c, i, j);
    MetExtends(generations, actions, c, |actions|);
    MetExtends(generations, actions, c, i);
    hide Met;
    assert (actions + [c])[i] == actions[i] && (actions + [c])[j] == actions[j];
    hide PresentedAt;
    assert GrantedBy(generations, actions + [c], c.grant, i, j, |actions|);
  }

  lemma CommitMoves(s: State, c: Action)
    requires c.CommitExchange?
    ensures var n := Apply(s, c);
      && n.codes == s.codes && n.rotations == s.rotations
      && forall r :: r in n.requests ==> r in s.requests && n.requests[r] == s.requests[r]
  {
    hide CommitExchangeStep;
  }

  lemma CommitTraced(generations: map<Id, nat>, actions: seq<Action>, c: Action)
    requires c.CommitExchange? && CodesTraced(generations, actions, Run(Start(generations), actions))
    ensures CodesTraced(generations, actions + [c], Apply(Run(Start(generations), actions), c))
  {
    hide Apply, Run, Met, CodeOrigin, ExchangeOrigin, GrantOrigin, Made;
    var s := Run(Start(generations), actions);
    TracesExtend(generations, actions, c, s);
    CommitMoves(s, c);
    if Apply(s, c).approvals != s.approvals {
      Committed(s, c);
      MetLast(generations, actions);
      GrantOriginNow(generations, actions, c, s.requests[c.req]);
    }
  }

  lemma Committed(s: State, c: Action)
    requires c.CommitExchange? && Apply(s, c).approvals != s.approvals
    ensures c.req in s.requests && s.requests[c.req].Exchange?
    ensures Apply(s, c).approvals.Keys == s.approvals.Keys + {c.grant}
    ensures var p := s.requests[c.req];
      && p.code.user in s.generations && s.generations[p.code.user] == p.code.generation
      && Made(Apply(s, c), c.grant, Grant(p.code.user, p.client, Hash(c.secret), None, None,
                                          p.at + 90 * 86_400 * SECOND, None), c.token, s.now + 3_600 * SECOND)
  {
    CommittedWhen(s, c);
    CommittedMade(s, c);
    hide Apply, Made;
  }

  lemma CommittedWhen(s: State, c: Action)
    requires c.CommitExchange? && Apply(s, c).approvals != s.approvals
    ensures c.req in s.requests && s.requests[c.req].Exchange? && c.token !in s.tokens
    ensures var p := s.requests[c.req];
      p.code.user in s.generations && s.generations[p.code.user] == p.code.generation
    ensures Apply(s, c).approvals.Keys == s.approvals.Keys + {c.grant}
  {
    hide RevokeGrants, RevokeTokens, OtherGrants;
  }

  lemma CommittedMade(s: State, c: Action)
    requires c.CommitExchange? && Apply(s, c).approvals != s.approvals
    requires c.req in s.requests && s.requests[c.req].Exchange?
    requires var p := s.requests[c.req];
      p.code.user in s.generations && s.generations[p.code.user] == p.code.generation
    ensures var p := s.requests[c.req];
      Made(Apply(s, c), c.grant, Grant(p.code.user, p.client, Hash(c.secret), None, None,
                                       p.at + 90 * 86_400 * SECOND, None), c.token, s.now + 3_600 * SECOND)
  {
    hide RevokeGrants, RevokeTokens, OtherGrants;
    var n := Apply(s, c);
    assert c.grant in n.grants && c.token in n.tokens;
    assert n.tokens[c.token] == Token(s.requests[c.req].code.user, c.grant, s.now + 3_600 * SECOND, None);
  }

  /** No other step adds a code, an exchange or a grant's approval. */
  lemma OthersTraced(generations: map<Id, nat>, actions: seq<Action>, a: Action)
    requires !a.Approve? && !a.BeginExchange? && !a.CommitExchange?
    requires CodesTraced(generations, actions, Run(Start(generations), actions))
    ensures CodesTraced(generations, actions + [a], Apply(Run(Start(generations), actions), a))
  {
    var s := Run(Start(generations), actions);
    TracesExtend(generations, actions, a, s);
    hide CodeOrigin, ExchangeOrigin, GrantOrigin;
    hide BeginRefreshStep, LookupSpentStep, RevokeAppStep, CommitRevokeStep, DeleteDeadGrantsStep, PurgeTokensStep;
    hide CommitRefreshStep;
  }

  lemma {:induction false} RunTraced(generations: map<Id, nat>, actions: seq<Action>)
    ensures CodesTraced(generations, actions, Run(Start(generations), actions))
  {
    if actions != [] {
      var n := |actions| - 1;
      var a := actions[n];
      RunTraced(generations, actions[..n]);
      assert actions == actions[..n] + [a];
      hide CodesTraced, Apply;
      if a.Approve? {
        ApproveTraced(generations, actions[..n], a);
      } else if a.BeginExchange? {
        PresentTraced(generations, actions[..n], a);
      } else if a.CommitExchange? {
        CommitTraced(generations, actions[..n], a);
      } else {
        OthersTraced(generations, actions[..n], a);
      }
    }
  }

  /** Every grant ever made goes back to an approval and to a presentation that matches it, within two minutes. */
  lemma GrantsWereApproved(generations: map<Id, nat>, actions: seq<Action>, g: Id)
    requires g in Run(Start(generations), actions).approvals
    ensures exists i, j, k :: GrantedBy(generations, actions, g, i, j, k)
  {
    RunTraced(generations, actions);
  }

  // ---- And what matches is let through ----

  /** A code is issued exactly for a user's own session, not ended and not past its end when the transaction looks. */
  lemma ApprovedExactly(s: State, a: Action)
    requires a.Approve? && a.at <= s.now && Hash(a.secret) !in s.approved && Hash(a.secret) !in s.codes
    ensures var n := Apply(s, a);
      Hash(a.secret) in n.codes <==>
        && a.user in s.generations && a.session in s.sessions && s.sessions[a.session].user == a.user
        && !s.sessions[a.session].revoked && s.sessions[a.session].expires > s.now
  {
    hide SameRows;
  }

  lemma {:induction false} ApprovedStays(generations: map<Id, nat>, actions: seq<Action>, i: int, j: int)
    requires 0 <= i <= j <= |actions|
    ensures Met(generations, actions, i).approved <= Met(generations, actions, j).approved
    decreases j - i
  {
    hide Met, Apply;
    if i < j {
      ApprovedStays(generations, actions, i, j - 1);
      MetNext(generations, actions, j - 1);
      ApprovedGrows(Met(generations, actions, j - 1), actions[j - 1]);
    }
  }

  lemma ApprovedGrows(s: State, a: Action)
    ensures s.approved <= Apply(s, a).approved
  {
    hide ApproveStep, BeginExchangeStep, CommitExchangeStep, BeginRefreshStep, CommitRefreshStep, LookupSpentStep;
    hide RevokeAppStep, CommitRevokeStep, DeleteDeadGrantsStep, PurgeTokensStep, SameRows;
  }

  lemma ApprovedThen(generations: map<Id, nat>, actions: seq<Action>, i: int, h: Hash)
    requires ApprovedAt(generations, actions, i, h)
    ensures h in Met(generations, actions, i + 1).approved && h in Met(generations, actions, i + 1).codes
    ensures CodeOf(generations, actions, i, h, Met(generations, actions, i + 1).codes[h])
  {
    MetNext(generations, actions, i);
    hide Met;
  }

  /** A hash is approved by one step at most. */
  lemma ApprovedOnce(generations: map<Id, nat>, actions: seq<Action>, i: int, j: int, h: Hash)
    requires ApprovedAt(generations, actions, i, h) && ApprovedAt(generations, actions, j, h)
    ensures i == j
  {
    ApprovedThen(generations, actions, i, h);
    ApprovedThen(generations, actions, j, h);
    if i < j { ApprovedStays(generations, actions, i + 1, j); }
    if j < i { ApprovedStays(generations, actions, j + 1, i); }
    hide Met;
  }

  /** The step neither presents the code nor purges it after its end. */
  predicate Spares(a: Action, h: Hash, end: Time) {
    !(a.BeginExchange? && Hash(a.secret) == h) && !(a.PurgeCodes? && a.at > end)
  }

  lemma CodeSpared(s: State, a: Action, h: Hash)
    requires h in s.codes && h in s.approved && Spares(a, h, s.codes[h].expires)
    ensures h in Apply(s, a).codes && Apply(s, a).codes[h] == s.codes[h]
  {
    hide BeginRefreshStep, LookupSpentStep, RevokeAppStep, CommitRevokeStep, DeleteDeadGrantsStep, PurgeTokensStep;
    hide CommitRefreshStep, RevokeGrants, RevokeTokens, OtherGrants, Redeemable, SessionLive;
  }

  lemma {:induction false} CodeStays(generations: map<Id, nat>, actions: seq<Action>, i: int, j: int, h: Hash)
    requires ApprovedAt(generations, actions, i, h) && i < j <= |actions|
    requires forall m :: i < m < j ==> Spares(actions[m], h, actions[i].at + 120 * SECOND)
    ensures h in Met(generations, actions, j).codes && h in Met(generations, actions, j).approved
    ensures CodeOf(generations, actions, i, h, Met(generations, actions, j).codes[h])
    decreases j - i
  {
    hide Met, ApprovedAt, CodeOf, Spares;
    if j == i + 1 {
      ApprovedThen(generations, actions, i, h);
    } else {
      ApprovedIndex(generations, actions, i, h);
      CodeStays(generations, actions, i, j - 1, h);
      CodeNext(generations, actions, i, j - 1, h);
    }
  }

  lemma ApprovedIndex(generations: map<Id, nat>, actions: seq<Action>, i: int, h: Hash)
    requires ApprovedAt(generations, actions, i, h)
    ensures 0 <= i < |actions| && actions[i].Approve?
  {
  }

  lemma CodeNext(generations: map<Id, nat>, actions: seq<Action>, i: int, m: int, h: Hash)
    requires 0 <= i < m < |actions| && actions[i].Approve? && Spares(actions[m], h, actions[i].at + 120 * SECOND)
    requires h in Met(generations, actions, m).codes && h in Met(generations, actions, m).approved
    requires CodeOf(generations, actions, i, h, Met(generations, actions, m).codes[h])
    ensures h in Met(generations, actions, m + 1).codes && h in Met(generations, actions, m + 1).approved
    ensures CodeOf(generations, actions, i, h, Met(generations, actions, m + 1).codes[h])
  {
    hide Met, Apply, ApprovedAt;
    MetNext(generations, actions, m);
    ApprovedGrows(Met(generations, actions, m), actions[m]);
    CodeSpared(Met(generations, actions, m), actions[m], h);
  }

  /** A code that was approved, and neither presented since nor purged after its end, is given out for exactly what was
      approved; the attempt uses it up either way. */
  lemma PresentedExactly(generations: map<Id, nat>, actions: seq<Action>, i: int, b: Action)
    requires b.BeginExchange? && ApprovedAt(generations, actions, i, Hash(b.secret))
    requires forall m :: i < m < |actions| ==> Spares(actions[m], Hash(b.secret), actions[i].at + 120 * SECOND)
    requires b.req !in Run(Start(generations), actions).requests && b.at <= Run(Start(generations), actions).now
    ensures var n := Apply(Run(Start(generations), actions), b);
      && Hash(b.secret) !in n.codes
      && (b.req in n.requests <==>
            && b.client == actions[i].client && b.redirect == actions[i].redirect
            && actions[i].challenge == Challenge(b.verifier) && b.resourceOk && b.at < actions[i].at + 120 * SECOND)
  {
    MetLast(generations, actions);
    CodeStays(generations, actions, i, |actions|, Hash(b.secret));
    hide Run, Met, ApprovedAt, Apply;
    LetInExactly(Run(Start(generations), actions), b);
  }

  lemma LetInExactly(s: State, b: Action)
    requires b.BeginExchange? && b.req !in s.requests && b.at <= s.now && Hash(b.secret) in s.codes
    ensures Hash(b.secret) !in Apply(s, b).codes
    ensures var code := s.codes[Hash(b.secret)];
      b.req in Apply(s, b).requests <==>
        && b.client == code.client && b.redirect == code.redirect && code.challenge == Challenge(b.verifier)
        && b.resourceOk && b.at < code.expires
  {
    StepLetsIn(s, b.req, b.at, b.client, b.secret, b.redirect, b.verifier, b.resourceOk);
    hide BeginExchangeStep;
  }

  lemma StepLetsIn(s: State, req: Id, at: Time, client: Id, secret: nat, redirect: nat, verifier: nat,
                   resourceOk: bool)
    requires req !in s.requests && at <= s.now && Hash(secret) in s.codes
    ensures var n, code := BeginExchangeStep(s, req, at, client, secret, redirect, verifier, resourceOk),
                           s.codes[Hash(secret)];
      && Hash(secret) !in n.codes
      && (req in n.requests <==>
            && client == code.client && redirect == code.redirect && code.challenge == Challenge(verifier)
            && resourceOk && at < code.expires)
  {
    hide SameRows;
  }

  /** An exchange let in is granted exactly while the generation is the one the approval saw. */
  lemma GrantedExactly(generations: map<Id, nat>, actions: seq<Action>, i: int, c: Action)
    requires c.CommitExchange? && 0 <= i < |actions| && actions[i].Approve?
    requires var s := Run(Start(generations), actions);
      && c.req in s.requests && s.requests[c.req].Exchange?
      && ApprovedAt(generations, actions, i, s.requests[c.req].hash)
      && FreshSecret(s, c.secret) && c.grant !in s.approvals && c.token !in s.tokens
    ensures var s := Run(Start(generations), actions);
      c.grant in Apply(s, c).approvals <==>
        && actions[i].user in s.generations
        && s.generations[actions[i].user] == Met(generations, actions, i).generations[actions[i].user]
  {
    var s := Run(Start(generations), actions);
    var p := s.requests[c.req];
    RunTraced(generations, actions);
    assert ExchangeOrigin(generations, actions, c.req, p);
    hide Run, Met, CodesTraced;
    var j, k :| ExchangeFrom(generations, actions, c.req, p, j, k);
    ApprovedOnce(generations, actions, i, j, p.hash);
    CommitGrants(s, c);
    hide Apply;
  }

  lemma CommitGrants(s: State, c: Action)
    requires c.CommitExchange? && c.req in s.requests && s.requests[c.req].Exchange?
    requires FreshSecret(s, c.secret) && c.grant !in s.approvals && c.token !in s.tokens
    ensures var code := s.requests[c.req].code;
      c.grant in Apply(s, c).approvals <==>
        code.user in s.generations && s.generations[code.user] == code.generation
  {
    hide RevokeGrants, RevokeTokens, OtherGrants;
  }
}
