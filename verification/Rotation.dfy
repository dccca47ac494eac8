/** Refresh-token rotation: what follows from the token lifecycle when no request takes longer than
    the grace between its expiry check and the statement that depends on it. */
module Rotation {
  import opened Basics
  import opened Tables
  import opened Credentials
  import opened Cleanup
  import opened Passwords
  import opened Tokens
  import Sessions

  /** How long ago the token of request `req` passed its expiry check. */
  function Delay(s: State, req: nat): int
    requires req in s.flights
  {
    s.now - s.flights[req].checkedAt
  }

  /** The insert that consumes a token comes at most the grace after the token's expiry check. */
  ghost predicate Prompt(s: State, step: Step)
    requires Enabled(s, step)
  {
    step.Insert? ==> Delay(s, step.req) <= GRACE
  }

  /** A start that moves the database away forgets only tokens that have expired. */
  ghost predicate Harmless(s: State, step: Step) {
    step.Replace? ==> forall id :: id in s.table ==> s.table[id] <= step.end
  }

  ghost predicate PromptRun(s: State, steps: seq<Step>)
    requires Valid(s, steps)
    decreases |steps|
  {
    steps == [] || (Prompt(s, steps[0]) && Harmless(s, steps[0]) && PromptRun(Do(s, steps[0]), steps[1..]))
  }

  /** So does the query whether it is revoked, also for requests that consume nothing. */
  ghost predicate Swift(s: State, step: Step)
    requires Enabled(s, step)
  {
    Prompt(s, step) && (step.Query? ==> Delay(s, step.req) <= GRACE)
  }

  ghost predicate SwiftRun(s: State, steps: seq<Step>)
    requires Valid(s, steps)
    decreases |steps|
  {
    steps == [] || (Swift(s, steps[0]) && Harmless(s, steps[0]) && SwiftRun(Do(s, steps[0]), steps[1..]))
  }

  /** Does this insert put a row into the table? */
  ghost predicate Grants(s: State, step: Step) {
    step.Insert? && Enabled(s, step) && |Do(s, step).granted| > |s.granted|
  }

  // Pruning is invisible

  /** What was recorded in earlier files had expired when the present one was created. */
  ghost predicate Outlived(s: State) {
    Aged(s) && forall id :: id in s.earlier ==> s.earlier[id] <= s.born
  }

  lemma OutlivedReplace(s: State, step: Step)
    requires Inv(s) && Outlived(s) && step.Replace? && Enabled(s, step) && Harmless(s, step)
    ensures Outlived(Do(s, step))
  {
    AgedStep(s, step);
    assert forall id :: id in s.history ==> s.history[id] <= step.end;
  }

  lemma OutlivedStep(s: State, step: Step)
    requires Inv(s) && Outlived(s) && Enabled(s, step) && Harmless(s, step)
    ensures Outlived(Do(s, step))
  {
    if step.Replace? {
      OutlivedReplace(s, step);
    } else {
      AgedStep(s, step);
    }
  }

  lemma PruningInvisible(s: State, req: nat)
    requires Inv(s) && Outlived(s)
    requires req in s.flights && s.flights[req].phase != Revoking && Delay(s, req) <= GRACE
    ensures s.flights[req].token.id in s.table <==> s.flights[req].token.id in Ever(s)
  {
    assert FlightOk(s.flights[req], s.issued, s.history, s.now);
  }

  lemma {:induction false} OutlivedRun(s: State, steps: seq<Step>)
    requires Inv(s) && Outlived(s) && Valid(s, steps) && PromptRun(s, steps)
    ensures Inv(After(s, steps)) && Outlived(After(s, steps))
    decreases |steps|
  {
    if steps != [] {
      InvStep(s, steps[0]);
      OutlivedStep(s, steps[0]);
      OutlivedRun(Do(s, steps[0]), steps[1..]);
    }
  }

  /** In every prompt run, up to the grace after a request's expiry check, looking at the pruned table of
      the present file tells the same as looking at everything that was ever revoked. */
  lemma DecisionsAgree(steps: seq<Step>, req: nat)
    requires Valid(Start, steps) && PromptRun(Start, steps)
    requires var s := After(Start, steps);
      req in s.flights && s.flights[req].phase != Revoking && Delay(s, req) <= GRACE
    ensures var s := After(Start, steps); s.flights[req].token.id in s.table <==> s.flights[req].token.id in Ever(s)
  {
    OutlivedRun(Start, steps);
    PruningInvisible(After(Start, steps), req);
  }

  lemma GrantsExactly(s: State, step: Step)
    requires step.Insert? && Enabled(s, step)
    ensures var token := s.flights[step.req].token;
      Grants(s, step) <==> token.typ == Refresh && !step.fault && token.id !in s.table
  {
  }

  /** In every run whatsoever, a token that was consumed or revoked before is granted again exactly when
      its row is gone and the statement works; and its row is gone only for a request slower than the
      grace, or because the database was moved away. */
  lemma SecondGrant(steps: seq<Step>, step: Step)
    requires Valid(Start, steps) && step.Insert? && Enabled(After(Start, steps), step)
    requires var s := After(Start, steps); s.flights[step.req].token.id in Ever(s)
    ensures var s := After(Start, steps);
      var token := s.flights[step.req].token;
      && (Grants(s, step) <==> token.typ == Refresh && !step.fault && token.id !in s.table)
      && (token.id !in s.table ==> Delay(s, step.req) > GRACE || token.id in s.earlier)
  {
    InvRun(Start, steps);
    var s := After(Start, steps);
    GrantsExactly(s, step);
    assert FlightOk(s.flights[step.req], s.issued, s.history, s.now);
  }

  /** The lifecycle with one table that is never pruned: no timers and no cleanup. */
  datatype View = View(
    up: bool, now: int, issued: map<Uuid, Creds>, root: map<Uuid, Uuid>, history: map<Uuid, int>,
    flights: map<nat, Flight>, granted: seq<Uuid>, answered: seq<Uuid>)

  function Serving(flights: map<nat, Flight>): map<nat, Flight> {
    map r | r in flights && flights[r].phase != Revoking :: flights[r]
  }

  function Seen(s: State): View {
    View(s.up, s.now, s.issued, s.root, Ever(s), Serving(s.flights), s.granted, s.answered)
  }

  function See(v: View, step: Step): View {
    match step
    case Tick(to) => v.(now := to)
    case Login(access, refresh) =>
      v.(issued := v.issued[access.id := access][refresh.id := refresh], root := v.root[refresh.id := refresh.id])
    case Check(req, id) =>
      if id in v.issued then v.(flights := v.flights[req := Flight(v.issued[id], v.now, Checked)]) else v
    case Query(req) =>
      if req !in v.flights then v
      else if v.flights[req].token.id in v.history then v.(flights := v.flights - {req})
      else v.(flights := v.flights[req := v.flights[req].(phase := Cleared)])
    case Insert(req, fault) =>
      if req !in v.flights then v else
        var token := v.flights[req].token;
        if token.typ != Refresh || fault || token.id in v.history then v.(flights := v.flights - {req})
        else v.(history := v.history[token.id := token.expiry], granted := v.granted + [token.id],
                flights := v.flights[req := v.flights[req].(phase := Inserted)])
    case Revoke(_, id, fault) =>
      if fault || id !in v.issued then v else v.(history := v.history[id := v.issued[id].expiry])
    case Schedule(req, _) =>
      if req !in v.flights then v else v.(flights := v.flights[req := v.flights[req].(phase := Scheduled)])
    case Issue(req, access, refresh, fault) =>
      if req !in v.flights then v
      else if fault || v.flights[req].token.id !in v.root then v.(flights := v.flights - {req})
      else v.(flights := v.flights - {req}, answered := v.answered + [v.flights[req].token.id],
              issued := v.issued[access.id := access][refresh.id := refresh],
              root := v.root[refresh.id := v.root[v.flights[req].token.id]])
    case Drop(req) => v.(flights := v.flights - {req})
    case Fire(_, _) => v
    case Crash => v.(up := false, flights := map[])
    case Restart(_, end, ok) => v.(up := v.up || ok, now := end)
    case Replace(end, ok) => v.(up := v.up || ok, now := end)
  }

  function SeeAll(v: View, steps: seq<Step>): View
    decreases |steps|
  {
    if steps == [] then v else SeeAll(See(v, steps[0]), steps[1..])
  }

  lemma ServingUpdate(flights: map<nat, Flight>, r: nat, f: Flight)
    ensures Serving(flights - {r}) == Serving(flights) - {r}
    ensures f.phase != Revoking ==> Serving(flights[r := f]) == Serving(flights)[r := f]
    ensures f.phase == Revoking && r !in flights ==> Serving(flights[r := f]) == Serving(flights)
    ensures r in flights && flights[r].phase == Revoking ==> Serving(flights - {r}) == Serving(flights)
  {
  }

  lemma RevokeAgain(s: State, id: Uuid)
    requires Inv(s) && id in s.table
    ensures Ever(s)[id := s.issued[id].expiry] == Ever(s)
  {
  }

  lemma EverMore(earlier: map<Uuid, int>, history: map<Uuid, int>, id: Uuid, expiry: int)
    ensures earlier + history[id := expiry] == (earlier + history)[id := expiry]
    ensures earlier + history + map[] == earlier + history
  {
  }

  lemma RequestSteps(s: State, step: Step)
    requires Inv(s) && Outlived(s) && Enabled(s, step) && Swift(s, step)
    requires step.Check? || step.Query? || step.Insert? || step.Drop?
    ensures Seen(Do(s, step)) == See(Seen(s), step)
  {
    var r := step.req;
    if !step.Check? {
      if !step.Drop? { PruningInvisible(s, r); }
      EverMore(s.earlier, s.history, s.flights[r].token.id, s.flights[r].token.expiry);
      ServingUpdate(s.flights, r, s.flights[r].(phase := if step.Query? then Cleared else Inserted));
    } else {
      ServingUpdate(s.flights, r, Flight(s.issued[step.id], s.now, Checked));
    }
  }

  lemma CleanupSteps(s: State, step: Step)
    requires Inv(s) && Enabled(s, step) && (step.Revoke? || step.Schedule?)
    ensures Seen(Do(s, step)) == See(Seen(s), step)
  {
    var r := step.req;
    if step.Revoke? {
      ServingUpdate(s.flights, r, Flight(s.issued[step.id], s.now, Revoking));
      EverMore(s.earlier, s.history, step.id, s.issued[step.id].expiry);
      if step.id in s.table { RevokeAgain(s, step.id); }
    } else {
      ServingUpdate(s.flights, r, s.flights[r].(phase := Scheduled));
    }
  }

  lemma IssueSteps(s: State, step: Step)
    requires Inv(s) && Enabled(s, step) && (step.Issue? || step.Login?)
    ensures Seen(Do(s, step)) == See(Seen(s), step)
  {
    if step.Issue? { ServingUpdate(s.flights, step.req, s.flights[step.req]); }
  }

  lemma TickSteps(s: State, step: Step)
    requires Enabled(s, step) && step.Tick?
    ensures Seen(Do(s, step)) == See(Seen(s), step)
  {
  }

  lemma FireSteps(s: State, step: Step)
    requires Enabled(s, step) && step.Fire?
    ensures Seen(Do(s, step)) == See(Seen(s), step)
  {
    FireTouches(s, step);
  }

  lemma FireTouches(s: State, step: Step)
    requires Enabled(s, step) && step.Fire?
    ensures var s' := Do(s, step);
      s' == s.(timers := s'.timers, table := s'.table, stray := s'.stray)
  {
  }

  lemma LifeSteps(s: State, step: Step)
    requires Inv(s) && Enabled(s, step) && (step.Crash? || step.Restart? || step.Replace?)
    ensures Seen(Do(s, step)) == See(Seen(s), step)
  {
    EverMore(s.earlier, s.history, 0, 0);
  }

  /** Refinement: in every swift run, the service with its pruned table, timers, crashes and restarts
      answers exactly as one that never forgets a revocation. */
  lemma {:induction false} PrunedRefinesUnpruned(s: State, steps: seq<Step>)
    requires Inv(s) && Outlived(s) && Valid(s, steps) && SwiftRun(s, steps)
    ensures Seen(After(s, steps)) == SeeAll(Seen(s), steps)
    decreases |steps|
  {
    if steps != [] {
      var step := steps[0];
      if step.Check? || step.Query? || step.Insert? || step.Drop? {
        RequestSteps(s, step);
      } else if step.Revoke? || step.Schedule? {
        CleanupSteps(s, step);
      } else if step.Issue? || step.Login? {
        IssueSteps(s, step);
      } else if step.Tick? {
        TickSteps(s, step);
      } else if step.Fire? {
        FireSteps(s, step);
      } else {
        LifeSteps(s, step);
      }
      InvStep(s, step);
      OutlivedStep(s, step);
      PrunedRefinesUnpruned(Do(s, step), steps[1..]);
    }
  }

  // Every refresh token is used once, and a login has one heir

  /** What has been consumed and answered, and by whom. */
  ghost predicate Spent(history: map<Uuid, int>, flights: map<nat, Flight>, granted: seq<Uuid>, answered: seq<Uuid>) {
    && NoRepeats(granted) && NoRepeats(answered)
    && (forall id :: id in granted ==> id in history)
    && (forall id :: id in answered ==> id in granted)
    && (forall r :: r in flights && PastInsert(flights[r]) ==>
          flights[r].token.id in granted && flights[r].token.id !in answered)
    && (forall r, q :: r in flights && q in flights && PastInsert(flights[r]) && PastInsert(flights[q]) && r != q ==>
          flights[r].token.id != flights[q].token.id)
  }

  /** A refresh token that can still be exchanged. */
  predicate Live(root: map<Uuid, Uuid>, history: map<Uuid, int>, id: Uuid) {
    id in root && id !in history
  }

  /** A request that has consumed a descendant of `ancestor` and may still produce the next one. */
  predicate Exchanging(root: map<Uuid, Uuid>, flights: map<nat, Flight>, r: nat, ancestor: Uuid) {
    && r in flights && PastInsert(flights[r])
    && flights[r].token.id in root && root[flights[r].token.id] == ancestor
  }

  ghost predicate SingleHeir(root: map<Uuid, Uuid>, history: map<Uuid, int>, flights: map<nat, Flight>) {
    && (forall a, b :: Live(root, history, a) && Live(root, history, b) && root[a] == root[b] ==> a == b)
    && (forall a, r :: Live(root, history, a) ==> !Exchanging(root, flights, r, root[a]))
    && (forall r, q, a :: Exchanging(root, flights, r, a) && Exchanging(root, flights, q, a) ==> r == q)
  }

  ghost predicate Once(s: State) {
    Spent(Ever(s), s.flights, s.granted, s.answered) && SingleHeir(s.root, Ever(s), s.flights)
  }

  lemma SpentConsume(history: map<Uuid, int>, flights: map<nat, Flight>, granted: seq<Uuid>, answered: seq<Uuid>,
                     r: nat, f: Flight)
    requires Spent(history, flights, granted, answered) && f.token.id !in history
    ensures Spent(history[f.token.id := f.token.expiry], flights[r := f], granted + [f.token.id], answered)
  {
  }

  lemma SpentAnswer(history: map<Uuid, int>, flights: map<nat, Flight>, granted: seq<Uuid>, answered: seq<Uuid>, r: nat)
    requires Spent(history, flights, granted, answered) && r in flights && PastInsert(flights[r])
    ensures Spent(history, flights - {r}, granted, answered + [flights[r].token.id])
  {
  }

  /** A request ends, or moves without having consumed anything new. */
  lemma SpentMove(history: map<Uuid, int>, flights: map<nat, Flight>, granted: seq<Uuid>, answered: seq<Uuid>,
                  r: nat, f: Flight)
    requires Spent(history, flights, granted, answered)
    requires PastInsert(f) ==> r in flights && PastInsert(flights[r]) && flights[r].token == f.token
    ensures Spent(history, flights - {r}, granted, answered) && Spent(history, flights[r := f], granted, answered)
  {
  }

  lemma HeirConsumed(root: map<Uuid, Uuid>, history: map<Uuid, int>, flights: map<nat, Flight>, r: nat, f: Flight)
    requires SingleHeir(root, history, flights) && (r in flights ==> !PastInsert(flights[r]))
    requires Live(root, history, f.token.id)
    ensures SingleHeir(root, history[f.token.id := f.token.expiry], flights[r := f])
  {
    var id, flights' := f.token.id, flights[r := f];
    assert forall q, a :: q != r && Exchanging(root, flights', q, a) ==> Exchanging(root, flights, q, a);
    assert !exists q :: Exchanging(root, flights, q, root[id]);
  }

  lemma HeirBorn(root: map<Uuid, Uuid>, history: map<Uuid, int>, flights: map<nat, Flight>, r: nat, child: Uuid)
    requires SingleHeir(root, history, flights)
    requires r in flights && flights[r].token.id in root && PastInsert(flights[r])
    requires child !in root && forall q :: q in flights && PastInsert(flights[q]) ==> flights[q].token.id in root
    ensures SingleHeir(root[child := root[flights[r].token.id]], history, flights - {r})
  {
    var ancestor := root[flights[r].token.id];
    var root', flights' := root[child := ancestor], flights - {r};
    assert Exchanging(root, flights, r, ancestor);
    assert forall q, a :: Exchanging(root', flights', q, a) ==> q != r && Exchanging(root, flights, q, a);
    assert forall a :: Live(root, history, a) ==> root[a] != ancestor;
  }

  lemma HeirFounded(root: map<Uuid, Uuid>, history: map<Uuid, int>, flights: map<nat, Flight>, child: Uuid)
    requires SingleHeir(root, history, flights) && child !in root
    requires forall q :: q in flights && PastInsert(flights[q]) ==> flights[q].token.id in root
    requires forall id :: id in root ==> root[id] != child
    ensures SingleHeir(root[child := child], history, flights)
  {
    var root' := root[child := child];
    forall q, a | Exchanging(root', flights, q, a)
      ensures a != child && Exchanging(root, flights, q, a)
    {
      assert flights[q].token.id in root;
    }
    assert forall a :: Live(root', history, a) && a != child ==> Live(root, history, a) && root[a] != child;
  }

  lemma FewerExchanging(root: map<Uuid, Uuid>, history: map<Uuid, int>, flights: map<nat, Flight>,
                        after: map<nat, Flight>)
    requires SingleHeir(root, history, flights)
    requires forall q, a :: Exchanging(root, after, q, a) ==> Exchanging(root, flights, q, a)
    ensures SingleHeir(root, history, after)
  {
  }

  lemma HeirMove(root: map<Uuid, Uuid>, history: map<Uuid, int>, flights: map<nat, Flight>, r: nat, f: Flight)
    requires SingleHeir(root, history, flights)
    requires PastInsert(f) ==> r in flights && PastInsert(flights[r]) && flights[r].token == f.token
    ensures SingleHeir(root, history, flights - {r}) && SingleHeir(root, history, flights[r := f])
  {
    FewerExchanging(root, history, flights, flights - {r});
    FewerExchanging(root, history, flights, flights[r := f]);
  }

  lemma MoreHistory(root: map<Uuid, Uuid>, history: map<Uuid, int>, flights: map<nat, Flight>,
                    granted: seq<Uuid>, answered: seq<Uuid>, id: Uuid, expiry: int)
    requires Spent(history, flights, granted, answered) && SingleHeir(root, history, flights)
    ensures Spent(history[id := expiry], flights, granted, answered)
    ensures SingleHeir(root, history[id := expiry], flights)
  {
  }

  lemma MoveOnce(s: State, step: Step)
    requires Inv(s) && Once(s) && Enabled(s, step) && (step.Check? || step.Query? || step.Drop?)
    ensures Once(Do(s, step))
  {
    var r := step.req;
    var f := if step.Check? then Flight(s.issued[step.id], s.now, Checked) else s.flights[r].(phase := Cleared);
    SpentMove(Ever(s), s.flights, s.granted, s.answered, r, f);
    HeirMove(s.root, Ever(s), s.flights, r, f);
  }

  lemma ScheduleTouches(s: State, step: Step)
    requires step.Schedule? && Enabled(s, step)
    ensures var s' := Do(s, step);
      s' == s.(flights := Onward(s, step.req), timers := s'.timers, table := s'.table, stray := s'.stray)
  {
  }

  lemma ScheduleOnce(s: State, step: Step)
    requires Once(s) && step.Schedule? && Enabled(s, step)
    ensures Once(Do(s, step))
  {
    var r := step.req;
    var f := s.flights[r].(phase := if s.flights[r].phase == Inserted then Scheduled else Revoking);
    ScheduleTouches(s, step);
    SpentMove(Ever(s), s.flights, s.granted, s.answered, r, f);
    HeirMove(s.root, Ever(s), s.flights, r, f);
  }

  lemma InsertOnce(s: State, step: Step)
    requires Inv(s) && Outlived(s) && Once(s) && step.Insert? && Enabled(s, step) && Prompt(s, step)
    ensures Once(Do(s, step))
  {
    var r, f := step.req, s.flights[step.req];
    PruningInvisible(s, r);
    SpentMove(Ever(s), s.flights, s.granted, s.answered, r, f);
    HeirMove(s.root, Ever(s), s.flights, r, f);
    EverMore(s.earlier, s.history, f.token.id, f.token.expiry);
    if f.token.typ == Refresh && !step.fault && f.token.id !in s.table {
      SpentConsume(Ever(s), s.flights, s.granted, s.answered, r, f.(phase := Inserted));
      HeirConsumed(s.root, Ever(s), s.flights, r, f.(phase := Inserted));
    }
  }

  lemma RevokeOnce(s: State, step: Step)
    requires Inv(s) && Once(s) && step.Revoke? && Enabled(s, step)
    ensures Once(Do(s, step))
  {
    var f := Flight(s.issued[step.id], s.now, Revoking);
    MoreHistory(s.root, Ever(s), s.flights, s.granted, s.answered, step.id, f.token.expiry);
    var history := Ever(s)[step.id := f.token.expiry];
    EverMore(s.earlier, s.history, step.id, f.token.expiry);
    SpentMove(history, s.flights, s.granted, s.answered, step.req, f);
    HeirMove(s.root, history, s.flights, step.req, f);
  }

  lemma IssueOnce(s: State, step: Step)
    requires Inv(s) && Once(s) && step.Issue? && Enabled(s, step)
    ensures Once(Do(s, step))
  {
    assert forall q :: q in s.flights && PastInsert(s.flights[q]) ==>
      FlightOk(s.flights[q], s.issued, s.history, s.now);
    var r := step.req;
    SpentMove(Ever(s), s.flights, s.granted, s.answered, r, s.flights[r]);
    HeirMove(s.root, Ever(s), s.flights, r, s.flights[r]);
    SpentAnswer(Ever(s), s.flights, s.granted, s.answered, r);
    HeirBorn(s.root, Ever(s), s.flights, r, step.refresh.id);
  }

  lemma LoginOnce(s: State, step: Step)
    requires Inv(s) && Once(s) && step.Login? && Enabled(s, step)
    ensures Once(Do(s, step))
  {
    assert forall q :: q in s.flights && PastInsert(s.flights[q]) ==>
      FlightOk(s.flights[q], s.issued, s.history, s.now);
    HeirFounded(s.root, Ever(s), s.flights, step.refresh.id);
  }

  lemma TimerOnce(s: State, step: Step)
    requires Once(s) && Enabled(s, step) && (step.Tick? || step.Fire?)
    ensures Once(Do(s, step))
  {
    if step.Fire? { FireTouches(s, step); }
  }

  lemma LifeOnce(s: State, step: Step)
    requires Inv(s) && Once(s) && Enabled(s, step) && (step.Crash? || step.Restart? || step.Replace?)
    ensures Once(Do(s, step))
  {
    EverMore(s.earlier, s.history, 0, 0);
    if step.Crash? { FewerExchanging(s.root, Ever(s), s.flights, map[]); }
  }

  lemma RequestOnce(s: State, step: Step)
    requires Inv(s) && Outlived(s) && Once(s) && Enabled(s, step) && Prompt(s, step)
    requires step.Check? || step.Query? || step.Drop? || step.Insert? || step.Schedule? || step.Revoke?
    ensures Once(Do(s, step))
  {
    if step.Schedule? {
      ScheduleOnce(s, step);
    } else if step.Insert? {
      InsertOnce(s, step);
    } else if step.Revoke? {
      RevokeOnce(s, step);
    } else {
      MoveOnce(s, step);
    }
  }

  lemma OnceStep(s: State, step: Step)
    requires Inv(s) && Outlived(s) && Once(s) && Enabled(s, step) && Prompt(s, step)
    ensures Once(Do(s, step))
  {
    if step.Issue? {
      IssueOnce(s, step);
    } else if step.Login? {
      LoginOnce(s, step);
    } else if step.Tick? || step.Fire? {
      TimerOnce(s, step);
    } else if step.Crash? || step.Restart? || step.Replace? {
      LifeOnce(s, step);
    } else {
      RequestOnce(s, step);
    }
  }

  lemma {:induction false} OnceRun(s: State, steps: seq<Step>)
    requires Inv(s) && Outlived(s) && Once(s) && Valid(s, steps) && PromptRun(s, steps)
    ensures Once(After(s, steps))
    decreases |steps|
  {
    if steps != [] {
      OnceStep(s, steps[0]);
      InvStep(s, steps[0]);
      OutlivedStep(s, steps[0]);
      OnceRun(Do(s, steps[0]), steps[1..]);
    }
  }

  /** In every prompt run from the start, whatever the interleaving, no refresh token is consumed
      twice or answered twice. */
  lemma AtMostOneRefresh(steps: seq<Step>, i: nat, j: nat)
    requires Valid(Start, steps) && PromptRun(Start, steps)
    requires var s := After(Start, steps); i < j < |s.answered|
    ensures var s := After(Start, steps); s.answered[i] != s.answered[j]
    ensures NoRepeats(After(Start, steps).granted)
  {
    OnceRun(Start, steps);
  }

  datatype Holder = Token(id: Uuid) | Request(req: nat)

  /** Who may carry on the session that began with refresh token `ancestor`. */
  function Holders(root: map<Uuid, Uuid>, history: map<Uuid, int>, flights: map<nat, Flight>,
                   ancestor: Uuid): set<Holder> {
    (set id | id in root && Live(root, history, id) && root[id] == ancestor :: Token(id)) +
    (set r | r in flights && Exchanging(root, flights, r, ancestor) :: Request(r))
  }

  lemma OneHolder(root: map<Uuid, Uuid>, history: map<Uuid, int>, flights: map<nat, Flight>, ancestor: Uuid)
    requires SingleHeir(root, history, flights)
    ensures |Holders(root, history, flights, ancestor)| <= 1
  {
    AtMostOneElement(Holders(root, history, flights, ancestor));
  }

  lemma AtMostOneElement<T>(s: set<T>)
    requires forall x, y :: x in s && y in s ==> x == y
    ensures |s| <= 1
  {
    if x :| x in s { assert s == {x}; }
  }

  /** Lineage conservation: at any moment of a prompt run, the unrevoked descendants of one login or
      signup and the refreshes in progress on them total at most one; and every descendant, revoked or
      not, has the subject and the roles fixed at that login or signup. */
  lemma LineageConserved(steps: seq<Step>, ancestor: Uuid)
    requires Valid(Start, steps) && PromptRun(Start, steps)
    ensures var s := After(Start, steps);
      |Holders(s.root, Ever(s), s.flights, ancestor)| <= 1 && Lineage(s.issued, s.root)
  {
    OnceRun(Start, steps);
    InvRun(Start, steps);
    var s := After(Start, steps);
    OneHolder(s.root, Ever(s), s.flights, ancestor);
  }

  // The grace is exactly what is needed

  const MINUTE := 60 * SECOND

  /** Access tokens for ten seconds, refresh tokens for a minute. */
  const SETTINGS := Config(true, 0, 8, 64, 10 * SECOND, MINUTE, 1, 1)

  const ACCESS := Creds(7, 0, {}, Access, 10 * SECOND)
  const REFRESH := Creds(7, 1, {}, Refresh, MINUTE)
  const ACCESS2 := Creds(7, 2, {}, Access, MINUTE + 9 * SECOND)
  const REFRESH2 := Creds(7, 3, {}, Refresh, MINUTE + 59 * SECOND)
  const ACCESS3 := Creds(7, 4, {}, Access, MINUTE + GRACE + 10 * SECOND)
  const REFRESH3 := Creds(7, 5, {}, Refresh, MINUTE + GRACE + MINUTE)

  /** These are the pairs the service issues at the moments of the run. */
  lemma PairsAreIssued()
    ensures Sessions.PairOf(7, {}, SETTINGS, Sessions.Draw(0, 0, 1, true, true)) == Sessions.Pair(ACCESS, REFRESH)
    ensures Sessions.PairOf(7, {}, SETTINGS, Sessions.Draw(MINUTE - 1, 2, 3, true, true))
            == Sessions.Pair(ACCESS2, REFRESH2)
    ensures Sessions.PairOf(7, {}, SETTINGS, Sessions.Draw(MINUTE + GRACE, 4, 5, true, true))
            == Sessions.Pair(ACCESS3, REFRESH3)
  {
  }

  /** Two requests check one refresh token just before it expires, and the first consumes it. */
  const ARRIVE := [Restart(map[], 0, true), Login(ACCESS, REFRESH), Tick(MINUTE - 1), Check(0, 1), Check(1, 1)]

  const ARRIVED := State(
    true, MINUTE - 1, map[0 := ACCESS, 1 := REFRESH], map[1 := 1], map[], map[], map[], 0, multiset{},
    map[0 := Flight(REFRESH, MINUTE - 1, Checked), 1 := Flight(REFRESH, MINUTE - 1, Checked)], [], [], {})

  const CONSUME := [Query(0), Query(1), Insert(0, false)]

  const RACE := ARRIVE + CONSUME

  const RACED := ARRIVED.(
    table := map[1 := MINUTE], history := map[1 := MINUTE], granted := [1],
    flights := map[0 := Flight(REFRESH, MINUTE - 1, Inserted), 1 := Flight(REFRESH, MINUTE - 1, Cleared)])

  /** The first is answered, then the row is pruned before the second gets to its insert. */
  const ANSWER := [Schedule(0, false), Issue(0, ACCESS2, REFRESH2, false)]

  const ANSWERED := RACED.(
    issued := map[0 := ACCESS, 1 := REFRESH, 2 := ACCESS2, 3 := REFRESH2], root := map[1 := 1, 3 := 1],
    timers := multiset{Timer(1, MINUTE + GRACE)}, flights := map[1 := Flight(REFRESH, MINUTE - 1, Cleared)],
    answered := [1])

  const LAG := [Tick(MINUTE + GRACE), Fire(Timer(1, MINUTE + GRACE), false)]

  const LAGGED := ANSWERED.(now := MINUTE + GRACE, timers := multiset{}, table := map[])

  const REPEAT := [Insert(1, false), Schedule(1, false), Issue(1, ACCESS3, REFRESH3, false)]

  lemma Arrived()
    ensures Valid(Start, ARRIVE) && After(Start, ARRIVE) == ARRIVED
  {
    var s1 := Do(Start, ARRIVE[0]);
    var s2 := Do(s1, ARRIVE[1]);
    var s3 := Do(s2, ARRIVE[2]);
    var s4 := Do(s3, ARRIVE[3]);
    assert Do(s4, ARRIVE[4]) == ARRIVED;
    Then(s4, ARRIVE[4], []);
    Then(s3, ARRIVE[3], ARRIVE[4..]);
    Then(s2, ARRIVE[2], ARRIVE[3..]);
    Then(s1, ARRIVE[1], ARRIVE[2..]);
    Then(Start, ARRIVE[0], ARRIVE[1..]);
  }

  lemma Raced()
    ensures Valid(ARRIVED, CONSUME) && After(ARRIVED, CONSUME) == RACED
  {
    var s1 := Do(ARRIVED, CONSUME[0]);
    var s2 := Do(s1, CONSUME[1]);
    assert Do(s2, CONSUME[2]) == RACED;
    Then(s2, CONSUME[2], []);
    Then(s1, CONSUME[1], CONSUME[2..]);
    Then(ARRIVED, CONSUME[0], CONSUME[1..]);
  }

  lemma Answered()
    ensures Valid(RACED, ANSWER) && After(RACED, ANSWER) == ANSWERED
  {
    var s1 := Do(RACED, ANSWER[0]);
    assert Do(s1, ANSWER[1]) == ANSWERED;
    Then(s1, ANSWER[1], []);
    Then(RACED, ANSWER[0], ANSWER[1..]);
  }

  lemma Lagged()
    ensures Valid(ANSWERED, LAG) && After(ANSWERED, LAG) == LAGGED
  {
    var s1 := Do(ANSWERED, LAG[0]);
    assert Do(s1, LAG[1]) == LAGGED;
    Then(s1, LAG[1], []);
    Then(ANSWERED, LAG[0], LAG[1..]);
  }

  lemma Repeated()
    ensures Valid(LAGGED, REPEAT) && After(LAGGED, REPEAT).answered == [1, 1]
  {
    var s1 := Do(LAGGED, REPEAT[0]);
    var s2 := Do(s1, REPEAT[1]);
    Then(s2, REPEAT[2], []);
    Then(s1, REPEAT[1], REPEAT[2..]);
    Then(LAGGED, REPEAT[0], REPEAT[1..]);
  }

  lemma Late()
    ensures Valid(Start, RACE + ANSWER + LAG) && After(Start, RACE + ANSWER + LAG) == LAGGED
  {
    Arrived();
    Raced();
    Answered();
    Lagged();
    Append(Start, ARRIVE, CONSUME);
    Append(Start, RACE, ANSWER);
    Append(Start, RACE + ANSWER, LAG);
  }

  /** The bound on the delay cannot be any larger: a run in which one insert comes a single nanosecond
      later than the grace after its expiry check answers the same refresh token twice. */
  lemma GraceIsTight()
    ensures Valid(Start, RACE + ANSWER + LAG) && 1 in After(Start, RACE + ANSWER + LAG).flights
    ensures Delay(After(Start, RACE + ANSWER + LAG), 1) == GRACE + 1
    ensures Valid(Start, RACE + ANSWER + LAG + REPEAT)
    ensures After(Start, RACE + ANSWER + LAG + REPEAT).answered == [1, 1]
  {
    Late();
    Repeated();
    Append(Start, RACE + ANSWER + LAG, REPEAT);
  }
}
