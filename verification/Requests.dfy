/** Requests and runs: whatever the database refuses, a call of a handler leaves the tables as a run of
    the operations it stands for, so that what is proved of every run holds of every sequence of calls. */
module Requests {
  import opened Basics
  import opened Tables
  import opened Store
  import opened Credentials
  import opened TaskUpdate
  import opened Runs
  import Accounts
  import Bootstrap
  import Cleanup
  import Housekeeping
  import Passwords
  import Sessions
  import Tags
  import Tasks

  datatype Request =
    | NewTask(ctx: Option<Creds>, data: TaskData, id: Uuid, now: int)
    | UpdateTask(ctx: Option<Creds>, text: IdText, data: TaskData, masks: seq<Mask>, now: int)
    | DeleteTask(ctx: Option<Creds>, text: IdText)
    | CleanTags
    | NewUser(validEmail: bool, req: Accounts.Signup, id: Uuid, salt: Option<string>, now: int)
    | UpdateUser(validEmail: bool, id: Uuid, name: string, email: string, now: int)
    | UpdateUserCredentials(id: Uuid, passwd: string, salt: Option<string>, now: int)
    | DeleteUser(ctx: Option<Creds>)
    | AdminDeleteUser(ctx: Option<Creds>, text: IdText)
    | ValidateAdmin(dice: Bootstrap.Dice, now: int)
    | Refresh(ctx: Option<Creds>, draw: Sessions.Draw, later: int)
    | RevokeToken(text: IdText, expiry: int, later: int)

  /** The operation that a request stands for when it succeeds. */
  ghost predicate Means(c: Passwords.Crypto, cfg: Passwords.Config, request: Request, op: Op) {
    match request
    case NewTask(ctx, data, id, now) => ctx.Some? && op == Create(ctx.value.subject, id, data, now)
    case UpdateTask(ctx, text, data, masks, now) =>
      ctx.Some? && op == Update(ctx.value.subject, text, data, Elements(masks), now)
    case DeleteTask(ctx, text) => ctx.Some? && text.Spelled? && op == Delete(ctx.value.subject, text.id)
    case CleanTags => op == Clean
    case NewUser(_, req, id, salt, now) =>
      salt.Some? && op == Enrol(id, req, Passwords.Hashed(c, req.passwd, salt.value, Passwords.Threads(cfg)), now)
    case UpdateUser(_, id, name, email, now) => op == Rename(id, name, email, now)
    case UpdateUserCredentials(id, passwd, salt, now) =>
      salt.Some? && op == Rekey(id, Passwords.Hashed(c, passwd, salt.value, Passwords.Threads(cfg)), now)
    case DeleteUser(ctx) => ctx.Some? && op == Leave(ctx.value.subject)
    case AdminDeleteUser(_, text) => text.Spelled? && op == Leave(text.id)
    case ValidateAdmin(dice, now) => op.Ensure? && op.id == dice.id && op.now == now
    case Refresh(ctx, _, _) => ctx.Some? && op == Revoke(ctx.value.id, ctx.value.expiry)
    case RevokeToken(text, expiry, _) => text.Spelled? && op == Revoke(text.id, expiry)
  }

  /** Nothing, or that operation; a revocation past its grace can be pruned at once. */
  ghost predicate StandsFor(c: Passwords.Crypto, cfg: Passwords.Config, request: Request, ops: seq<Op>) {
    || ops == []
    || (|ops| == 1 && Means(c, cfg, request, ops[0]))
    || (|ops| == 2 && Means(c, cfg, request, ops[0]) && ops[0].Revoke? && ops[1] == Prune(ops[0].id))
  }

  lemma OneStep(db: Db, op: Op)
    ensures Run(db, [op]) == Step(db, op)
  {
    assert [op][1..] == [];
  }

  lemma TwoSteps(db: Db, first: Op, second: Op)
    ensures Run(db, [first, second]) == Step(Step(db, first), second)
  {
    assert [first, second][1..] == [second];
    OneStep(Step(db, first), second);
  }

  /** One call: it succeeds and has the effect of its operation, or leaves the tables alone; only a
      revocation can outlast an error, when the new pair cannot be signed. A cleanup is spawned by the
      operations that `Housekeeping` says, and by no other. */
  method Serve(store: Database, scheduler: Cleanup.Scheduler, c: Passwords.Crypto, cfg: Passwords.Config,
               request: Request)
    returns (ok: bool, spawned: bool, ghost ops: seq<Op>)
    requires Integrity(store.Contents()) && (request.ValidateAdmin? ==> Bootstrap.Fair(request.dice))
    modifies store, scheduler
    ensures StandsFor(c, cfg, request, ops) && store.Contents() == Run(old(store.Contents()), ops)
    ensures Integrity(store.Contents())
    ensures ok ==> ops != []
    ensures !ok && !request.Refresh? ==> ops == []
    ensures spawned <==> ops != [] && Housekeeping.Spawns(old(store.Contents()), ops[0])
  {
    ghost var before := store.Contents();
    spawned := false;
    match request {
      case NewTask(_, _, _, _) => ok, spawned, ops := ServeTask(store, c, cfg, request);
      case UpdateTask(_, _, _, _, _) => ok, spawned, ops := ServeTask(store, c, cfg, request);
      case DeleteTask(_, _) => ok, spawned, ops := ServeTask(store, c, cfg, request);
      case CleanTags => ok, spawned, ops := ServeTask(store, c, cfg, request);
      case Refresh(_, _, _) => ok, ops := ServeToken(store, scheduler, c, cfg, request);
      case RevokeToken(_, _, _) => ok, ops := ServeToken(store, scheduler, c, cfg, request);
      case NewUser(_, _, _, _, _) => ok, ops := ServeProfile(store, c, cfg, request);
      case UpdateUser(_, _, _, _, _) => ok, ops := ServeProfile(store, c, cfg, request);
      case UpdateUserCredentials(_, _, _, _) => ok, ops := ServeRekey(store, c, cfg, request);
      case DeleteUser(_) => ok, ops := ServeAccount(store, c, cfg, request);
      case AdminDeleteUser(_, _) => ok, ops := ServeAccount(store, c, cfg, request);
      case ValidateAdmin(_, _) => ok, ops := ServeStart(store, c, cfg, request);
    }
    RunIntegrity(before, ops);
  }

  method ServeTask(store: Database, c: Passwords.Crypto, cfg: Passwords.Config, request: Request)
    returns (ok: bool, spawned: bool, ghost ops: seq<Op>)
    requires Integrity(store.Contents())
    requires request.NewTask? || request.UpdateTask? || request.DeleteTask? || request.CleanTags?
    modifies store
    ensures StandsFor(c, cfg, request, ops) && store.Contents() == Run(old(store.Contents()), ops)
    ensures ok <==> ops != []
    ensures spawned <==> ops != [] && Housekeeping.Spawns(old(store.Contents()), ops[0])
  {
    ghost var before := store.Contents();
    spawned, ops := false, [];
    match request {
      case NewTask(ctx, data, id, now) =>
        var r, cleanup := Tasks.NewTask(store, ctx, data, id, now);
        ok, spawned := r.Ok?, cleanup;
        if ok { ops := [Create(ctx.value.subject, id, data, now)]; }
      case UpdateTask(ctx, text, data, masks, now) =>
        var r := Tasks.UpdateTask(store, ctx, text, data, masks, now);
        ok := r.Ok?;
        if ok { ops := [Update(ctx.value.subject, text, data, Elements(masks), now)]; }
      case DeleteTask(ctx, text) =>
        var r, cleanup := Tasks.DeleteTask(store, ctx, text);
        ok, spawned := r.Ok?, cleanup;
        if ok { ops := [Delete(ctx.value.subject, text.id)]; }
      case CleanTags =>
        var r := store.CleanTags();
        ok := r.Ok?;
        if ok { ops := [Clean]; }
    }
    if ok { OneStep(before, ops[0]); }
  }

  method ServeProfile(store: Database, c: Passwords.Crypto, cfg: Passwords.Config, request: Request)
    returns (ok: bool, ghost ops: seq<Op>)
    requires Integrity(store.Contents())
    requires request.NewUser? || request.UpdateUser?
    modifies store
    ensures StandsFor(c, cfg, request, ops) && store.Contents() == Run(old(store.Contents()), ops)
    ensures ok <==> ops != []
  {
    ghost var before := store.Contents();
    ops := [];
    match request {
      case NewUser(validEmail, req, id, salt, now) =>
        var r := Accounts.NewUser(store, c, cfg, validEmail, req, id, salt, now);
        ok := r.Ok?;
        if ok { ops := [Enrol(id, req, Passwords.Hashed(c, req.passwd, salt.value, Passwords.Threads(cfg)), now)]; }
      case UpdateUser(validEmail, id, name, email, now) =>
        var r := Accounts.UpdateUser(store, validEmail, id, name, email, now);
        ok := r.Ok?;
        if ok { ops := [Rename(id, name, email, now)]; }
    }
    if ok { OneStep(before, ops[0]); }
  }

  method ServeRekey(store: Database, c: Passwords.Crypto, cfg: Passwords.Config, request: Request)
    returns (ok: bool, ghost ops: seq<Op>)
    requires request.UpdateUserCredentials?
    modifies store
    ensures StandsFor(c, cfg, request, ops) && store.Contents() == Run(old(store.Contents()), ops)
    ensures ok <==> ops != []
  {
    ghost var before := store.Contents();
    var r := Accounts.UpdateUserCredentials(store, c, cfg, request.id, request.passwd, request.salt, request.now);
    ok, ops := r.Ok?, [];
    if ok {
      ghost var secret := Passwords.Hashed(c, request.passwd, request.salt.value, Passwords.Threads(cfg));
      ops := [Rekey(request.id, secret, request.now)];
      OneStep(before, ops[0]);
    }
  }

  method ServeAccount(store: Database, c: Passwords.Crypto, cfg: Passwords.Config, request: Request)
    returns (ok: bool, ghost ops: seq<Op>)
    requires request.DeleteUser? || request.AdminDeleteUser?
    modifies store
    ensures StandsFor(c, cfg, request, ops) && store.Contents() == Run(old(store.Contents()), ops)
    ensures ok <==> ops != []
  {
    ghost var before := store.Contents();
    ops := [];
    match request {
      case DeleteUser(ctx) =>
        var r := Accounts.DeleteUser(store, ctx);
        ok := r.Ok?;
        if ok { ops := [Leave(ctx.value.subject)]; }
      case AdminDeleteUser(ctx, text) =>
        var r := Accounts.AdminDeleteUser(store, ctx, text);
        ok := r.Ok?;
        if ok { ops := [Leave(text.id)]; }
    }
    if ok { OneStep(before, ops[0]); }
  }

  method ServeStart(store: Database, c: Passwords.Crypto, cfg: Passwords.Config, request: Request)
    returns (ok: bool, ghost ops: seq<Op>)
    requires request.ValidateAdmin? && Bootstrap.Fair(request.dice)
    modifies store
    ensures StandsFor(c, cfg, request, ops) && store.Contents() == Run(old(store.Contents()), ops)
    ensures ok <==> ops != []
  {
    ghost var before := store.Contents();
    var r := Bootstrap.ValidateAdmin(store, c, cfg, request.dice, request.now);
    ok, ops := r.Ok?, [];
    if ok {
      ghost var secret := if request.dice.salt.Some?
        then Passwords.Hashed(c, r.value, request.dice.salt.value, cfg.numCpu % 256) else Secret("", "");
      ops := [Ensure(request.dice.id, secret, request.now)];
      OneStep(before, ops[0]);
    }
  }

  lemma RevokedRuns(db: Db, id: Uuid, expiry: int, later: int)
    requires id !in db.revoked
    ensures var added := db.revoked[id := expiry];
      && Run(db, [Revoke(id, expiry)]) == db.(revoked := added)
      && Run(db, [Revoke(id, expiry), Prune(id)]) == db.(revoked := added - {id})
      && (Cleanup.Swept(added, id, later) == added || Cleanup.Swept(added, id, later) == added - {id})
  {
    OneStep(db, Revoke(id, expiry));
    TwoSteps(db, Revoke(id, expiry), Prune(id));
  }

  method ServeToken(store: Database, scheduler: Cleanup.Scheduler, c: Passwords.Crypto, cfg: Passwords.Config,
                    request: Request)
    returns (ok: bool, ghost ops: seq<Op>)
    requires request.Refresh? || request.RevokeToken?
    modifies store, scheduler
    ensures StandsFor(c, cfg, request, ops) && store.Contents() == Run(old(store.Contents()), ops)
    ensures ok ==> ops != []
    ensures !ok && request.RevokeToken? ==> ops == []
  {
    ghost var before := store.Contents();
    ghost var id, expiry, consumed := 0, 0, false;
    match request {
      case Refresh(ctx, draw, later) =>
        if ctx.Some? { id, expiry := ctx.value.id, ctx.value.expiry; }
        consumed := GetCreds(ctx, TokenType.Refresh).Ok? && id !in store.revoked && !Faulty(store.faults);
        if consumed { RevokedRuns(before, id, expiry, later); }
        var r := Sessions.RefreshTokens(store, scheduler, ctx, cfg, later, draw);
        ok := r.Ok?;
      case RevokeToken(text, until, later) =>
        if text.Spelled? { id, expiry := text.id, until; }
        consumed := text.Spelled? && id !in store.revoked && !Faulty(store.faults);
        if consumed { RevokedRuns(before, id, expiry, later); }
        var r := Sessions.RevokeToken(store, scheduler, text, until, later);
        ok := r.Ok?;
    }
    ops := if !consumed then []
           else if store.revoked == before.revoked[id := expiry] then [Revoke(id, expiry)]
           else [Revoke(id, expiry), Prune(id)];
  }
}
