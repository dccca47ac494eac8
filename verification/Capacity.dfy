/** The limit on public signups. The count is read in one statement and the account inserted in a
    later one, so other requests can slip in between. */
module Capacity {
  import opened Tables
  import opened Passwords
  import Runs
  import Tags
  import Tasks
  import Sessions

  /** The ids in the users table; `waiting` are the signups that have not counted yet, `passed` those
      that found room and have not inserted yet; `byAdmin` counts the accounts made by administrators
      and by the bootstrap. */
  datatype Hall = Hall(users: set<Uuid>, waiting: set<nat>, passed: set<nat>, byAdmin: nat)

  datatype Move =
    | Arrive(req: nat)
    | Count(req: nat)
    | Insert(req: nat, id: Uuid)
    | Abandon(req: nat)
    | AdminMakes(id: Uuid)
    | Leave(id: Uuid)

  /** At most `k` public signups are in progress at a time. */
  predicate Allowed(h: Hall, m: Move, k: nat) {
    match m
    case Arrive(r) => r !in h.waiting + h.passed && |h.waiting| + |h.passed| < k
    case Count(r) => r in h.waiting
    case Insert(r, _) => r in h.passed
    case Abandon(r) => r in h.waiting + h.passed
    case AdminMakes(_) => true
    case Leave(_) => true
  }

  /** `Sessions.Closed` decides whether a signup that counts may go on. */
  function Moved(h: Hall, m: Move, cfg: Config): Hall {
    match m
    case Arrive(r) => h.(waiting := h.waiting + {r})
    case Count(r) =>
      if Sessions.Closed(cfg, |h.users|) then h.(waiting := h.waiting - {r})
      else h.(waiting := h.waiting - {r}, passed := h.passed + {r})
    case Insert(r, id) => h.(users := h.users + {id}, passed := h.passed - {r})
    case Abandon(r) => h.(waiting := h.waiting - {r}, passed := h.passed - {r})
    case AdminMakes(id) => h.(users := h.users + {id}, byAdmin := h.byAdmin + 1)
    case Leave(id) => h.(users := h.users - {id})
  }

  ghost predicate AllowedRun(h: Hall, moves: seq<Move>, cfg: Config, k: nat)
    decreases |moves|
  {
    moves == [] || (Allowed(h, moves[0], k) && AllowedRun(Moved(h, moves[0], cfg), moves[1..], cfg, k))
  }

  function After(h: Hall, moves: seq<Move>, cfg: Config): Hall
    decreases |moves|
  {
    if moves == [] then h else After(Moved(h, moves[0], cfg), moves[1..], cfg)
  }

  /** These moves are all there is: an operation adds the user it enrols or ensures, or nobody; it
      removes the user who leaves; and no other touches the set of users. */
  lemma OperationsAreMoves(db: Db, op: Runs.Op, h: Hall, req: nat, cfg: Config)
    requires h.users == db.users.Keys
    ensures var users := Runs.Step(db, op).users.Keys;
      if op.Enrol? || op.Ensure? then
        || users == h.users
        || users == Moved(h, Insert(req, op.id), cfg).users == Moved(h, AdminMakes(op.id), cfg).users
      else if op.Leave? then users == Moved(h, Leave(op.id), cfg).users
      else users == h.users
  {
    match op
    case Create(who, id, data, now) =>
      Tags.CreateTagsKeeps(db.(tasks := db.tasks[id := Tasks.RowOf(data, who, now)]), data.tags);
    case Update(_, _, data, _, _) => Tags.CreateTagsKeeps(db, data.tags);
    case _ =>
  }

  function Max(a: int, b: int): int {
    if a < b then b else a
  }

  /** Users, and signups that will become users, against the limit; `initial` users at the start. */
  ghost predicate WithinLimit(h: Hall, cfg: Config, k: nat, initial: nat) {
    && h.waiting !! h.passed && |h.waiting| + |h.passed| <= k
    && |h.users| + |h.passed| <= Max(initial, cfg.maxUsers - 1 + k) + h.byAdmin
  }

  lemma MoveWithinLimit(h: Hall, m: Move, cfg: Config, k: nat, initial: nat)
    requires WithinLimit(h, cfg, k, initial) && Allowed(h, m, k) && cfg.maxUsers > 0
    ensures WithinLimit(Moved(h, m, cfg), cfg, k, initial)
  {
    match m
    case Arrive(r) => assert |h.waiting + {r}| == |h.waiting| + 1;
    case Count(r) => assert |h.waiting - {r}| == |h.waiting| - 1 && |h.passed + {r}| == |h.passed| + 1;
    case Insert(r, id) => assert |h.passed - {r}| == |h.passed| - 1 && |h.users + {id}| <= |h.users| + 1;
    case Abandon(r) => assert |h.waiting - {r}| <= |h.waiting| && |h.passed - {r}| <= |h.passed|;
    case AdminMakes(id) => assert |h.users + {id}| <= |h.users| + 1;
    case Leave(id) => assert |h.users - {id}| <= |h.users|;
  }

  /** In every interleaving with at most `k` signups in progress, users and signups past the check
      never exceed the larger of the initial count and the limit less one plus `k`, administrators'
      accounts not counted. One at a time, public signups never push the count past the limit. */
  lemma {:induction false} SignupsWithinLimit(h: Hall, moves: seq<Move>, cfg: Config, k: nat, initial: nat)
    requires WithinLimit(h, cfg, k, initial) && AllowedRun(h, moves, cfg, k) && cfg.maxUsers > 0
    ensures var after := After(h, moves, cfg);
      && |after.users| + |after.passed| <= Max(initial, cfg.maxUsers - 1 + k) + after.byAdmin
      && (k == 1 ==> |after.users| <= Max(initial, cfg.maxUsers) + after.byAdmin)
    decreases |moves|
  {
    if moves != [] {
      MoveWithinLimit(h, moves[0], cfg, k, initial);
      SignupsWithinLimit(Moved(h, moves[0], cfg), moves[1..], cfg, k, initial);
    }
  }

  // What becomes of the signups

  function Arrivals(moves: seq<Move>): nat {
    if moves == [] then 0 else (if moves[0].Arrive? then 1 else 0) + Arrivals(moves[1..])
  }

  /** A signup is over once it is refused, inserts its account or gives up. */
  predicate Over(h: Hall, m: Move, cfg: Config) {
    m.Insert? || m.Abandon? || (m.Count? && Sessions.Closed(cfg, |h.users|))
  }

  function Endings(h: Hall, moves: seq<Move>, cfg: Config): nat
    decreases |moves|
  {
    if moves == [] then 0
    else (if Over(h, moves[0], cfg) then 1 else 0) + Endings(Moved(h, moves[0], cfg), moves[1..], cfg)
  }

  lemma TakeOut(a: set<nat>, b: set<nat>, r: nat)
    requires a !! b && r in a + b
    ensures a - {r} !! b - {r} && |a - {r}| + |b - {r}| == |a| + |b| - 1
  {
    if r in a {
      assert |a - {r}| == |a| - 1 && b - {r} == b;
    } else {
      assert |b - {r}| == |b| - 1 && a - {r} == a;
    }
  }

  lemma TakeOver(a: set<nat>, b: set<nat>, r: nat)
    requires a !! b && r in a
    ensures a - {r} !! b && |a - {r}| == |a| - 1
    ensures a - {r} !! b + {r} && |b + {r}| == |b| + 1
  {
  }

  lemma OneSignup(h: Hall, m: Move, cfg: Config, k: nat)
    requires h.waiting !! h.passed && Allowed(h, m, k)
    ensures var after := Moved(h, m, cfg);
      && after.waiting !! after.passed
      && |h.waiting| + |h.passed| + (if m.Arrive? then 1 else 0)
         == |after.waiting| + |after.passed| + if Over(h, m, cfg) then 1 else 0
  {
    match m
    case Arrive(r) => assert |h.waiting + {r}| == |h.waiting| + 1;
    case Count(r) => TakeOver(h.waiting, h.passed, r);
    case Insert(r, _) => TakeOver(h.passed, h.waiting, r);
    case Abandon(r) => TakeOut(h.waiting, h.passed, r);
    case _ =>
  }

  /** Every signup that arrives ends once, or is still in progress. */
  lemma {:induction false} SignupsConserved(h: Hall, moves: seq<Move>, cfg: Config, k: nat)
    requires h.waiting !! h.passed && AllowedRun(h, moves, cfg, k)
    ensures var after := After(h, moves, cfg);
      |h.waiting| + |h.passed| + Arrivals(moves) == |after.waiting| + |after.passed| + Endings(h, moves, cfg)
    decreases |moves|
  {
    if moves != [] {
      OneSignup(h, moves[0], cfg, k);
      SignupsConserved(Moved(h, moves[0], cfg), moves[1..], cfg, k);
    }
  }

  // The bound is reached

  /** Some interleaving with at most `k` signups in progress ends with `total` users. */
  ghost predicate Reaches(h: Hall, cfg: Config, k: nat, total: nat) {
    exists moves :: AllowedRun(h, moves, cfg, k) && |After(h, moves, cfg).users| == total
  }

  lemma ReachBefore(h: Hall, m: Move, cfg: Config, k: nat, total: nat)
    requires Allowed(h, m, k) && Reaches(Moved(h, m, cfg), cfg, k, total)
    ensures Reaches(h, cfg, k, total)
  {
    var rest :| AllowedRun(Moved(h, m, cfg), rest, cfg, k) && |After(Moved(h, m, cfg), rest, cfg).users| == total;
    var moves := [m] + rest;
    assert moves[1..] == rest;
    assert AllowedRun(h, moves, cfg, k) && After(h, moves, cfg) == After(Moved(h, m, cfg), rest, cfg);
  }

  lemma ReachNow(h: Hall, cfg: Config, k: nat)
    ensures Reaches(h, cfg, k, |h.users|)
  {
    assert AllowedRun(h, [], cfg, k) && After(h, [], cfg) == h;
  }

  function Range(end: nat): (rs: set<nat>)
    ensures forall r: nat :: r in rs <==> r < end
    ensures |rs| == end
  {
    if end == 0 then {} else Range(end - 1) + {end - 1}
  }

  lemma LastInserts(users: set<Uuid>, n: nat, id: Uuid, cfg: Config)
    requires n > 0
    ensures Moved(Hall(users, {}, Range(n), 0), Insert(n - 1, id), cfg) == Hall(users + {id}, {}, Range(n - 1), 0)
  {
    assert Range(n) - {n - 1} == Range(n - 1);
  }

  lemma {:induction false} InsertAll(users: set<Uuid>, ids: set<Uuid>, n: nat, cfg: Config, k: nat)
    requires ids !! users && |ids| == n
    ensures Reaches(Hall(users, {}, Range(n), 0), cfg, k, |users| + n)
    decreases n
  {
    var h := Hall(users, {}, Range(n), 0);
    if n == 0 {
      ReachNow(h, cfg, k);
    } else {
      var id :| id in ids;
      InsertAll(users + {id}, ids - {id}, n - 1, cfg, k);
      LastInserts(users, n, id, cfg);
      ReachBefore(h, Insert(n - 1, id), cfg, k, |users| + n);
    }
  }

  lemma {:induction false} CountAll(users: set<Uuid>, ids: set<Uuid>, i: nat, cfg: Config)
    requires ids !! users && i <= |ids| && !Sessions.Closed(cfg, |users|)
    ensures Reaches(Hall(users, {}, Range(i), 0), cfg, |ids|, |users| + |ids|)
    decreases |ids| - i
  {
    if i == |ids| {
      InsertAll(users, ids, i, cfg, i);
    } else {
      CountAll(users, ids, i + 1, cfg);
      var h := Hall(users, {}, Range(i), 0);
      var h' := Moved(h, Arrive(i), cfg);
      assert h'.waiting - {i} == {};
      assert Moved(h', Count(i), cfg) == Hall(users, {}, Range(i + 1), 0);
      ReachBefore(h', Count(i), cfg, |ids|, |users| + |ids|);
      ReachBefore(h, Arrive(i), cfg, |ids|, |users| + |ids|);
    }
  }

  /** Any number of signups that all count before any inserts, with one place left, do exceed the
      limit: by all but one of them. */
  lemma LimitIsExceeded(users: set<Uuid>, ids: set<Uuid>, cfg: Config)
    requires ids !! users && cfg.allowNewUsers && cfg.maxUsers > 0 && |users| == cfg.maxUsers - 1
    ensures Reaches(Hall(users, {}, {}, 0), cfg, |ids|, cfg.maxUsers - 1 + |ids|)
  {
    assert Range(0) == {};
    CountAll(users, ids, 0, cfg);
  }
}
