/** Bearer authentication, the token pairs that are issued, and the three handlers that issue them. */
module Sessions {
  import opened Basics
  import opened Tables
  import opened Store
  import opened Credentials
  import opened Passwords
  import opened Cleanup
  import Accounts
  import Tokens

  datatype Pair = Pair(access: Creds, refresh: Creds)

  /** What is random or out of our hands when a pair is issued: the moment, the two new ids, and
      whether each signature succeeds. */
  datatype Draw = Draw(at: int, accessId: Uuid, refreshId: Uuid, signsAccess: bool, signsRefresh: bool)

  /** Claims carry times in whole seconds. */
  function WholeSecond(t: int): int {
    t - t % SECOND
  }

  function PairOf(subject: Uuid, roles: set<string>, cfg: Config, draw: Draw): Pair {
    Pair(Creds(subject, draw.accessId, roles, Access, WholeSecond(draw.at + cfg.accessTtl)),
         Creds(subject, draw.refreshId, roles, Refresh, WholeSecond(draw.at + cfg.refreshTtl)))
  }

  method Issue(subject: Uuid, roles: set<string>, cfg: Config, draw: Draw) returns (r: Result<Pair, ()>)
    ensures r.Ok? <==> draw.signsAccess && draw.signsRefresh
    ensures r.Ok? ==> r.value == PairOf(subject, roles, cfg, draw)
    ensures r.Ok? ==>
      && r.value.access == Creds(subject, draw.accessId, roles, Access, r.value.access.expiry)
      && r.value.refresh == Creds(subject, draw.refreshId, roles, Refresh, r.value.refresh.expiry)
      && r.value.access.expiry <= draw.at + cfg.accessTtl < r.value.access.expiry + 1_000_000_000
      && r.value.refresh.expiry <= draw.at + cfg.refreshTtl < r.value.refresh.expiry + 1_000_000_000
      && r.value.access.expiry % 1_000_000_000 == r.value.refresh.expiry % 1_000_000_000 == 0
  {
    var access := Creds(subject, draw.accessId, roles, Access, WholeSecond(draw.at + cfg.accessTtl));
    if !draw.signsAccess { return Err(()); }
    var refresh := Creds(subject, draw.refreshId, roles, Refresh, WholeSecond(draw.at + cfg.refreshTtl));
    if !draw.signsRefresh { return Err(()); }
    return Ok(Pair(access, refresh));
  }

  /** Each token of a pair lives for its own time to live, less the fraction of a second its claims
      cannot carry: it passes the expiry check at `now` if that is a second or more before its end, and
      not from its end on. */
  lemma PairLives(subject: Uuid, roles: set<string>, cfg: Config, draw: Draw, now: int)
    ensures var pair := PairOf(subject, roles, cfg, draw);
      && pair.access.expiry % SECOND == pair.refresh.expiry % SECOND == 0
      && (now + SECOND <= draw.at + cfg.accessTtl ==> now < pair.access.expiry)
      && (now < pair.access.expiry ==> now < draw.at + cfg.accessTtl)
      && (now + SECOND <= draw.at + cfg.refreshTtl ==> now < pair.refresh.expiry)
      && (now < pair.refresh.expiry ==> now < draw.at + cfg.refreshTtl)
      && (cfg.accessTtl <= cfg.refreshTtl ==> pair.access.expiry <= pair.refresh.expiry)
  {
    var a, b := draw.at + cfg.accessTtl, draw.at + cfg.refreshTtl;
    if a <= b { assert a / SECOND <= b / SECOND; }
  }

  // Bearer authentication

  /** A bearer header after signature verification: the claims, with ids still as text. */
  datatype Bearer = Unverified | Claims(id: IdText, subject: IdText, roles: set<string>, typ: TokenType, expiry: int)

  /** Is this bearer let through at `now`, given the rows of revoked tokens? */
  predicate Accepts(revoked: map<Uuid, int>, bearer: Bearer, now: int) {
    && bearer.Claims? && now < bearer.expiry
    && bearer.id.Spelled? && bearer.id.id !in revoked && bearer.subject.Spelled?
  }

  /** What the request then carries. */
  function Carried(bearer: Bearer): Creds
    requires bearer.Claims? && bearer.id.Spelled? && bearer.subject.Spelled?
  {
    Creds(bearer.subject.id, bearer.id.id, bearer.roles, bearer.typ, bearer.expiry)
  }

  /** The token is checked at `now` for its signature and expiry, and only then looked up. */
  method HandleBearerAuth(store: Database, bearer: Bearer, now: int) returns (r: Result<Creds, Code>)
    modifies store`faults
    ensures r.Ok? ==> Accepts(store.revoked, bearer, now) && r.value == Carried(bearer)
    ensures r.Err? ==>
      r.error == Unauthenticated || (r.error == Internal && bearer.Claims? && now < bearer.expiry && bearer.id.Spelled?)
    ensures old(store.faults) == [] ==>
      && store.faults == []
      && (r.Ok? <==> Accepts(store.revoked, bearer, now))
      && (r.Err? ==> r == Err(Unauthenticated))
  {
    if bearer.Unverified? || bearer.expiry <= now { return Err(Unauthenticated); }
    if bearer.id.Malformed? { return Err(Unauthenticated); }
    var revoked := store.TokenIsRevoked(bearer.id.id);
    if revoked.Err? { return Err(Internal); }
    if revoked.value { return Err(Unauthenticated); }
    if bearer.subject.Malformed? { return Err(Unauthenticated); }
    return Ok(Creds(bearer.subject.id, bearer.id.id, bearer.roles, bearer.typ, bearer.expiry));
  }

  // Refresh and revocation

  /** The revocation table after a token was consumed, and after the removal of its row was scheduled
      at `later`. */
  function Consumed(revoked: map<Uuid, int>, token: Creds): map<Uuid, int> {
    revoked[token.id := token.expiry]
  }

  function Scheduled(revoked: map<Uuid, int>, token: Creds, later: int): map<Uuid, int> {
    Swept(Consumed(revoked, token), token.id, later)
  }

  /** `later` is when the removal is scheduled; `draw` is for the new pair. The token is consumed
      exactly when its row can be inserted; after that only a failed signature stops the answer, and
      then the client has lost its session. */
  method RefreshTokens(store: Database, scheduler: Scheduler, ctx: Option<Creds>, cfg: Config, later: int, draw: Draw)
    returns (r: Result<Pair, Code>)
    modifies store, scheduler
    ensures GetCreds(ctx, Refresh).Err? ==>
      && r == Err(GetCreds(ctx, Refresh).error)
      && store.Contents() == old(store.Contents()) && scheduler.timers == old(scheduler.timers)
    ensures GetCreds(ctx, Refresh).Ok? && (ctx.value.id in old(store.revoked) || Faulty(old(store.faults))) ==>
      && r == Err(Internal)
      && store.Contents() == old(store.Contents()) && scheduler.timers == old(scheduler.timers)
    ensures GetCreds(ctx, Refresh).Ok? && ctx.value.id !in old(store.revoked) && !Faulty(old(store.faults)) ==>
      && r == (if draw.signsAccess && draw.signsRefresh
               then Ok(PairOf(ctx.value.subject, ctx.value.roles, cfg, draw)) else Err(Internal))
      && (|| (store.Contents() == old(store.Contents()).(revoked := Consumed(old(store.revoked), ctx.value))
              && scheduler.timers == old(scheduler.timers))
          || (store.Contents() == old(store.Contents()).(revoked := Scheduled(old(store.revoked), ctx.value, later))
              && scheduler.timers == old(scheduler.timers) + multiset{Timer(ctx.value.id, ctx.value.expiry + GRACE)}))
    ensures old(store.faults) == [] ==>
      && store.faults == []
      && (GetCreds(ctx, Refresh).Ok? && ctx.value.id !in old(store.revoked) ==>
          && store.Contents() == old(store.Contents()).(revoked := Scheduled(old(store.revoked), ctx.value, later))
          && scheduler.timers == old(scheduler.timers) + multiset{Timer(ctx.value.id, ctx.value.expiry + GRACE)})
  {
    var creds := GetCreds(ctx, Refresh);
    if creds.Err? { return Err(creds.error); }
    var revoked := store.RevokeToken(creds.value.id, creds.value.expiry);
    if revoked.Err? { return Err(Internal); }
    // A failure to schedule is only logged.
    var cleanup := CleanupExpiredToken(store, scheduler, creds.value.id, later);
    var pair := Issue(creds.value.subject, creds.value.roles, cfg, draw);
    if pair.Err? { return Err(Internal); }
    return Ok(pair.value);
  }

  /** `AuthManager.RevokeToken`: as above without a new pair. */
  method RevokeToken(store: Database, scheduler: Scheduler, id: IdText, expiry: int, later: int)
    returns (r: Result<(), Code>)
    modifies store, scheduler
    ensures id.Malformed? ==> r == Err(InvalidArgument)
    ensures id.Spelled? ==> (r.Ok? <==> id.id !in old(store.revoked) && !Faulty(old(store.faults)))
    ensures id.Spelled? && r.Err? ==> r == Err(Internal)
    ensures r.Err? ==> store.Contents() == old(store.Contents()) && scheduler.timers == old(scheduler.timers)
    ensures r.Ok? ==>
      || (store.Contents() == old(store.Contents()).(revoked := old(store.revoked)[id.id := expiry])
          && scheduler.timers == old(scheduler.timers))
      || (store.Contents() == old(store.Contents()).(
            revoked := Swept(old(store.revoked)[id.id := expiry], id.id, later))
          && scheduler.timers == old(scheduler.timers) + multiset{Timer(id.id, expiry + GRACE)})
  {
    if id.Malformed? { return Err(InvalidArgument); }
    var revoked := store.RevokeToken(id.id, expiry);
    if revoked.Err? { return Err(Internal); }
    var cleanup := CleanupExpiredToken(store, scheduler, id.id, later);
    return Ok(());
  }

  /** The lifecycle's state once request `req` has consumed its token, and once it has issued. */
  function Inserted(s: Tokens.State, req: nat): Tokens.State
    requires req in s.flights
  {
    var token := s.flights[req].token;
    s.(table := Consumed(s.table, token), history := Consumed(s.history, token),
       flights := Tokens.Moved(s, req, Tokens.Inserted), granted := s.granted + [token.id])
  }

  function Issued(s: Tokens.State, req: nat, pair: Pair): Tokens.State
    requires req in s.flights && s.flights[req].token.id in s.root
  {
    var token := s.flights[req].token;
    s.(flights := s.flights - {req}, answered := s.answered + [token.id],
       issued := s.issued[pair.access.id := pair.access][pair.refresh.id := pair.refresh],
       root := s.root[pair.refresh.id := s.root[token.id]])
  }

  lemma InsertStep(s: Tokens.State, req: nat)
    requires Tokens.InPhase(s, req, Tokens.Cleared)
    requires s.flights[req].token.typ == Refresh && s.flights[req].token.id !in s.table
    ensures var step := Tokens.Insert(req, false);
      Tokens.Valid(s, [step]) && Tokens.After(s, [step]) == Inserted(s, req)
  {
    Tokens.Then(s, Tokens.Insert(req, false), []);
  }

  lemma ScheduleStep(s: Tokens.State, req: nat)
    requires Tokens.InPhase(s, req, Tokens.Inserted)
    requires s.flights[req].token.id in s.table
    ensures var step := Tokens.Schedule(req, false);
      Tokens.Valid(s, [step]) && Tokens.After(s, [step]) == Tokens.Armed(s, req)
  {
    Tokens.Then(s, Tokens.Schedule(req, false), []);
  }

  lemma IssueStep(s: Tokens.State, req: nat, pair: Pair)
    requires Tokens.InPhase(s, req, Tokens.Scheduled) && s.flights[req].token.id in s.root
    requires Tokens.FreshPair(s, pair.access, pair.refresh)
    requires pair.access.subject == s.flights[req].token.subject && pair.access.roles == s.flights[req].token.roles
    ensures var step := Tokens.Issue(req, pair.access, pair.refresh, false);
      Tokens.Valid(s, [step]) && Tokens.After(s, [step]) == Issued(s, req, pair)
  {
    Tokens.Then(s, Tokens.Issue(req, pair.access, pair.refresh, false), []);
  }

  /** The steps of the lifecycle that one refresh consists of once it is authenticated. */
  function StepsOf(req: nat, pair: Pair): seq<Tokens.Step> {
    [Tokens.Insert(req, false)] + ([Tokens.Schedule(req, false)]
      + [Tokens.Issue(req, pair.access, pair.refresh, false)])
  }

  /** What the refresh handler's contract says of the state it leaves. */
  ghost predicate Refreshed(s: Tokens.State, req: nat, pair: Pair, after: Tokens.State)
    requires req in s.flights
  {
    var token := s.flights[req].token;
    && after.table == Scheduled(s.table, token, s.now)
    && after.timers == s.timers + multiset{Timer(token.id, token.expiry + GRACE)}
    && after.answered == s.answered + [token.id]
    && after.issued == s.issued[pair.access.id := pair.access][pair.refresh.id := pair.refresh]
  }

  lemma StepsAreRefreshed(s: Tokens.State, req: nat, pair: Pair)
    requires req in s.flights && s.flights[req].token.id in s.root
    ensures Refreshed(s, req, pair, Issued(Tokens.Armed(Inserted(s, req), req), req, pair))
  {
  }

  /** The refresh handler run without interruption is the three steps that the token lifecycle
      interleaves: it leaves the same table and the same timers, and its pair is one they may issue. */
  lemma RefreshIsThreeSteps(s: Tokens.State, req: nat, cfg: Config, draw: Draw)
    requires Tokens.Inv(s) && Tokens.InPhase(s, req, Tokens.Cleared)
    requires s.flights[req].token.typ == Refresh && s.flights[req].token.id !in s.table
    requires draw.accessId !in s.issued && draw.refreshId !in s.issued && draw.accessId != draw.refreshId
    ensures var pair := PairOf(s.flights[req].token.subject, s.flights[req].token.roles, cfg, draw);
      && Tokens.Valid(s, StepsOf(req, pair))
      && Refreshed(s, req, pair, Tokens.After(s, StepsOf(req, pair)))
  {
    var token := s.flights[req].token;
    var pair := PairOf(token.subject, token.roles, cfg, draw);
    TokenRooted(s, req);
    InsertStep(s, req);
    ScheduleStep(Inserted(s, req), req);
    IssueStep(Tokens.Armed(Inserted(s, req), req), req, pair);
    Tokens.Append(Inserted(s, req), [Tokens.Schedule(req, false)],
                  [Tokens.Issue(req, pair.access, pair.refresh, false)]);
    Tokens.Append(s, [Tokens.Insert(req, false)],
                  [Tokens.Schedule(req, false)] + [Tokens.Issue(req, pair.access, pair.refresh, false)]);
    StepsAreRefreshed(s, req, pair);
  }

  /** The lifecycle's state once the row of token `id` is in. */
  function Revoked(s: Tokens.State, req: nat, id: Uuid): Tokens.State
    requires id in s.issued
  {
    var token := s.issued[id];
    s.(table := s.table[id := token.expiry], history := s.history[id := token.expiry],
       flights := s.flights[req := Tokens.Flight(token, s.now, Tokens.Revoking)])
  }

  lemma RevokeStep(s: Tokens.State, req: nat, id: Uuid)
    requires s.up && req !in s.flights && id in s.issued && s.issued[id].id == id && id !in s.table
    ensures var revoke := Tokens.Revoke(req, id, false);
      Tokens.Enabled(s, revoke) && Tokens.Do(s, revoke) == Revoked(s, req, id)
  {
  }

  lemma ScheduleRevoked(s: Tokens.State, req: nat, id: Uuid)
    requires s.up && req !in s.flights && id in s.issued && s.issued[id].id == id && id !in s.table
    ensures var revoked, schedule, expiry := Revoked(s, req, id), Tokens.Schedule(req, false), s.issued[id].expiry;
      && Tokens.Enabled(revoked, schedule)
      && Tokens.Do(revoked, schedule) ==
         s.(table := Swept(s.table[id := expiry], id, s.now), history := s.history[id := expiry],
            timers := s.timers + multiset{Timer(id, expiry + GRACE)})
  {
    assert Tokens.Onward(Revoked(s, req, id), req) == s.flights;
  }

  /** `RevokeToken` run without interruption is the two steps of the lifecycle that stand for it. */
  lemma RevokeIsTwoSteps(s: Tokens.State, req: nat, id: Uuid)
    requires s.up && req !in s.flights && id in s.issued && s.issued[id].id == id && id !in s.table
    ensures var steps, expiry := [Tokens.Revoke(req, id, false)] + [Tokens.Schedule(req, false)], s.issued[id].expiry;
      && Tokens.Valid(s, steps)
      && Tokens.After(s, steps) ==
         s.(table := Swept(s.table[id := expiry], id, s.now), history := s.history[id := expiry],
            timers := s.timers + multiset{Timer(id, expiry + GRACE)})
  {
    RevokeStep(s, req, id);
    ScheduleRevoked(s, req, id);
    Tokens.Then(Revoked(s, req, id), Tokens.Schedule(req, false), []);
    Tokens.Then(s, Tokens.Revoke(req, id, false), [Tokens.Schedule(req, false)]);
  }

  lemma TokenRooted(s: Tokens.State, req: nat)
    requires Tokens.Inv(s) && req in s.flights && s.flights[req].token.typ == Refresh
    ensures s.flights[req].token.id in s.root
  {
    assert Tokens.FlightOk(s.flights[req], s.issued, s.history, s.now);
  }

  /** The header a client sends with a token it was issued. */
  function BearerOf(token: Creds): Bearer {
    Claims(Spelled(token.id, true), Spelled(token.subject, true), token.roles, token.typ, token.expiry)
  }

  /** Has request `req` got past its authentication with the token `id`, by the lifecycle's steps? */
  ghost predicate PassesTwoSteps(s: Tokens.State, req: nat, id: Uuid) {
    && Tokens.Enabled(s, Tokens.Check(req, id))
    && var checked := Tokens.Do(s, Tokens.Check(req, id));
      && Tokens.Enabled(checked, Tokens.Query(req))
      && var queried := Tokens.Do(checked, Tokens.Query(req));
        && Tokens.InPhase(queried, req, Tokens.Cleared)
        && queried.flights[req].token == Carried(BearerOf(s.issued[id]))
  }

  /** The handler accepts an issued token exactly when the lifecycle's check and query let it through,
      and both go on with the same identity. */
  lemma BearerIsTwoSteps(s: Tokens.State, req: nat, id: Uuid)
    requires Tokens.Inv(s) && s.up && req !in s.flights && id in s.issued
    ensures Accepts(s.table, BearerOf(s.issued[id]), s.now) <==> PassesTwoSteps(s, req, id)
  {
    if s.now < s.issued[id].expiry {
      var checked := Tokens.Do(s, Tokens.Check(req, id));
      assert checked.flights[req].token == s.issued[id] == Carried(BearerOf(s.issued[id]));
    }
  }

  // Login and Signup

  method Login(store: Database, ctx: Option<Creds>, cfg: Config, draw: Draw) returns (r: Result<(User, Pair), Code>)
    modifies store`faults
    ensures r.Ok? ==>
      && GetCreds(ctx, Basic).Ok? && ctx.value.subject in store.users
      && r.value.0 == store.users[ctx.value.subject]
      && r.value.1 == PairOf(ctx.value.subject, ctx.value.roles, cfg, draw)
    ensures GetCreds(ctx, Basic).Err? ==> r == Err(GetCreds(ctx, Basic).error)
    ensures GetCreds(ctx, Basic).Ok? && r.Err? ==>
      r.error == Internal || (r.error == NotFound && ctx.value.subject !in store.users)
    ensures old(store.faults) == [] ==>
      && store.faults == []
      && (GetCreds(ctx, Basic).Ok? ==>
            if ctx.value.subject !in store.users then r == Err(NotFound)
            else if !(draw.signsAccess && draw.signsRefresh) then r == Err(Internal)
            else r.Ok?)
  {
    var creds := GetCreds(ctx, Basic);
    if creds.Err? { return Err(creds.error); }
    var user := store.GetUser(creds.value.subject);
    if user.Err? { return Err(if user.error == NoRows then NotFound else Internal); }
    var pair := Issue(creds.value.subject, creds.value.roles, cfg, draw);
    if pair.Err? { return Err(Internal); }
    return Ok((user.value, pair.value));
  }

  /** Do public signups stop before the account is even looked at? */
  predicate Closed(cfg: Config, count: nat) {
    !cfg.allowNewUsers || (cfg.maxUsers > 0 && count >= cfg.maxUsers)
  }

  method CheckCapacity(store: Database, cfg: Config) returns (r: Result<(), Code>)
    modifies store`faults
    ensures r.Ok? ==> !Closed(cfg, |store.Contents().users|)
    ensures r.Err? ==> r.error == Internal || (r.error == FailedPrecondition && Closed(cfg, |store.Contents().users|))
    ensures !cfg.allowNewUsers ==> r == Err(FailedPrecondition)
    ensures cfg.allowNewUsers && cfg.maxUsers <= 0 ==> r == Ok(())
    ensures cfg.maxUsers > 0 && |store.users| >= cfg.maxUsers ==> r.Err?
    ensures cfg.maxUsers > 0 && |store.users| < cfg.maxUsers ==> r != Err(FailedPrecondition) || !cfg.allowNewUsers
    ensures old(store.faults) == [] ==>
      store.faults == [] && r == if Closed(cfg, |store.Contents().users|) then Err(FailedPrecondition) else Ok(())
  {
    if !cfg.allowNewUsers { return Err(FailedPrecondition); }
    if cfg.maxUsers > 0 {
      var count := store.GetUserCount();
      if count.Err? { return Err(Internal); }
      if count.value >= cfg.maxUsers { return Err(FailedPrecondition); }
    }
    return Ok(());
  }

  /** The account stays when only the pair fails. A new user has no roles. */
  method Signup(store: Database, c: Crypto, cfg: Config, validEmail: bool, req: Accounts.Signup,
                id: Uuid, salt: Option<string>, now: int, draw: Draw)
    returns (r: Result<(User, Pair), Code>)
    requires Integrity(store.Contents())
    modifies store
    ensures r.Ok? ==>
      && !Closed(cfg, |old(store.users)|) && id !in old(store.users) && salt.Some?
      && store.Contents() == Accounts.WithUser(old(store.Contents()), id, req,
           Hashed(c, req.passwd, salt.value, Threads(cfg)), now)
      && r.value.0 == store.users[id]
      && r.value.1 == PairOf(id, {}, cfg, draw)
    ensures !cfg.allowNewUsers ==> r == Err(FailedPrecondition)
    ensures !cfg.allowNewUsers || (cfg.maxUsers > 0 && |old(store.users)| >= cfg.maxUsers) ==>
      r.Err? && store.Contents() == old(store.Contents())
    ensures cfg.allowNewUsers && (cfg.maxUsers <= 0 || |old(store.users)| < cfg.maxUsers) ==>
      r != Err(FailedPrecondition)
    ensures r.Err? ==>
      || r.error == Internal || r.error == FailedPrecondition
      || Some(r.error) == Accounts.Refusal(old(store.Contents()), cfg, validEmail, req)
    ensures store.Contents() == old(store.Contents())
      || (!Closed(cfg, |old(store.users)|) && salt.Some?
          && store.Contents() == Accounts.WithUser(old(store.Contents()), id, req,
            Hashed(c, req.passwd, salt.value, Threads(cfg)), now))
    ensures old(store.faults) == [] ==>
      && store.faults == []
      && var refused := Accounts.Refusal(old(store.Contents()), cfg, validEmail, req);
        if Closed(cfg, |old(store.users)|)
        then r == Err(FailedPrecondition) && store.Contents() == old(store.Contents())
        else if refused.Some? then r == Err(refused.value) && store.Contents() == old(store.Contents())
        else if salt.None? || id in old(store.users)
        then r == Err(Internal) && store.Contents() == old(store.Contents())
        else r.Ok? <==> draw.signsAccess && draw.signsRefresh
  {
    var open := CheckCapacity(store, cfg);
    if open.Err? { return Err(open.error); }
    var user := Accounts.NewUser(store, c, cfg, validEmail, req, id, salt, now);
    if user.Err? { return Err(user.error); }
    var pair := Issue(id, {}, cfg, draw);
    if pair.Err? { return Err(Internal); }
    return Ok((user.value, pair.value));
  }
}
