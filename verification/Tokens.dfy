/** The token lifecycle as a transition system. Requests, timers, the clock, crashes and restarts
    interleave freely; the steps of one request are the points where the code touches the database
    or the clock. `history` is the revocation table as it would be if nothing were ever pruned; a start
    that moves the database away begins a new table, while the keys that verify tokens stay. */
module Tokens {
  import opened Tables
  import opened Credentials
  import opened Cleanup

  /** Where a request stands: past the expiry check, past the revocation query, past the insert into
      revoked_tokens (`Revoking` when the insert came from `RevokeToken`), past the scheduling. */
  datatype Phase = Checked | Cleared | Inserted | Revoking | Scheduled

  datatype Flight = Flight(token: Creds, checkedAt: int, phase: Phase)

  datatype State = State(
    up: bool,
    now: int,
    issued: map<Uuid, Creds>,     // every token ever signed
    root: map<Uuid, Uuid>,        // refresh token to the refresh token of its login or signup
    table: map<Uuid, int>,        // revoked_tokens
    history: map<Uuid, int>,      // revoked_tokens, never pruned
    earlier: map<Uuid, int>,      // the same of database files that were moved away
    born: int,                    // when the present file was created
    timers: multiset<Timer>,
    flights: map<nat, Flight>,
    granted: seq<Uuid>,           // tokens a Refresh managed to insert, in order
    answered: seq<Uuid>,          // tokens a Refresh answered with a new pair, in order
    stray: set<Uuid>)             // rows whose scheduling or deletion failed

  datatype Step =
    | Tick(to: int)
    | Login(access: Creds, refresh: Creds)
    | Check(req: nat, id: Uuid)
    | Query(req: nat)
    | Insert(req: nat, fault: bool)
    | Revoke(req: nat, id: Uuid, fault: bool)
    | Schedule(req: nat, fault: bool)
    | Issue(req: nat, access: Creds, refresh: Creds, fault: bool)
    | Drop(req: nat)
    | Fire(timer: Timer, fault: bool)
    | Crash
    | Restart(rows: map<Uuid, int>, end: int, ok: bool)
    | Replace(end: int, ok: bool)

  const Start := State(false, 0, map[], map[], map[], map[], map[], 0, multiset{}, map[], [], [], {})

  predicate InPhase(s: State, req: nat, phase: Phase) {
    s.up && req in s.flights && s.flights[req].phase == phase
  }

  /** Two fresh tokens for one user (section 4.1.7 of RFC 7519: ids are not reused). */
  predicate FreshPair(s: State, access: Creds, refresh: Creds) {
    && access.id !in s.issued && refresh.id !in s.issued && access.id != refresh.id
    && access.typ == Access && refresh.typ == Refresh
    && access.subject == refresh.subject && access.roles == refresh.roles
  }

  ghost predicate Enabled(s: State, step: Step) {
    match step
    case Tick(to) => s.now <= to
    case Login(access, refresh) => s.up && FreshPair(s, access, refresh)
    case Check(req, id) => s.up && req !in s.flights && id in s.issued && s.now < s.issued[id].expiry
    case Query(req) => InPhase(s, req, Checked)
    case Insert(req, _) => InPhase(s, req, Cleared)
    case Revoke(req, id, _) => s.up && req !in s.flights && id in s.issued
    case Schedule(req, _) => InPhase(s, req, Inserted) || InPhase(s, req, Revoking)
    case Issue(req, access, refresh, _) =>
      && InPhase(s, req, Scheduled) && FreshPair(s, access, refresh)
      && access.subject == s.flights[req].token.subject && access.roles == s.flights[req].token.roles
    case Drop(req) => InPhase(s, req, Checked) || InPhase(s, req, Cleared)
    case Fire(timer, _) => s.up && timer in s.timers && timer.due <= s.now
    case Crash => s.up
    case Restart(rows, end, ok) =>
      !s.up && s.now <= end && Trimmed(s.table, rows, end) && (ok ==> NoneBefore(rows, s.now))
    case Replace(end, _) => !s.up && s.now <= end
  }

  function Moved(s: State, req: nat, phase: Phase): map<nat, Flight>
    requires req in s.flights
  {
    s.flights[req := s.flights[req].(phase := phase)]
  }

  /** Everything ever revoked, whichever file it was recorded in. */
  function Ever(s: State): map<Uuid, int> {
    s.earlier + s.history
  }

  /** A request that has dealt with its row goes on to issue tokens, or ends. */
  function Onward(s: State, req: nat): map<nat, Flight>
    requires req in s.flights
  {
    if s.flights[req].phase == Inserted then Moved(s, req, Scheduled) else s.flights - {req}
  }

  /** The removal of a row is scheduled, or done at once if its grace is over. */
  function Armed(s: State, req: nat): State
    requires req in s.flights && s.flights[req].token.id in s.table
  {
    var id := s.flights[req].token.id;
    s.(table := Swept(s.table, id, s.now), timers := s.timers + multiset{Timer(id, s.table[id] + GRACE)},
       flights := Onward(s, req))
  }

  ghost function Do(s: State, step: Step): State
    requires Enabled(s, step)
  {
    match step
    case Tick(to) => s.(now := to)
    case Login(access, refresh) =>
      s.(issued := s.issued[access.id := access][refresh.id := refresh], root := s.root[refresh.id := refresh.id])
    case Check(req, id) => s.(flights := s.flights[req := Flight(s.issued[id], s.now, Checked)])
    case Query(req) =>
      if s.flights[req].token.id in s.table then s.(flights := s.flights - {req})
      else s.(flights := Moved(s, req, Cleared))
    case Insert(req, fault) =>
      var token := s.flights[req].token;
      if token.typ != Refresh || fault || token.id in s.table then s.(flights := s.flights - {req})
      else s.(table := s.table[token.id := token.expiry], history := s.history[token.id := token.expiry],
              flights := Moved(s, req, Inserted), granted := s.granted + [token.id])
    case Revoke(req, id, fault) =>
      if fault || id in s.table then s
      else s.(table := s.table[id := s.issued[id].expiry], history := s.history[id := s.issued[id].expiry],
              flights := s.flights[req := Flight(s.issued[id], s.now, Revoking)])
    case Schedule(req, fault) =>
      var id := s.flights[req].token.id;
      if fault || id !in s.table then
        s.(flights := Onward(s, req), stray := if id in s.table then s.stray + {id} else s.stray)
      else Armed(s, req)
    case Issue(req, access, refresh, fault) =>
      var token := s.flights[req].token;
      if fault || token.id !in s.root then s.(flights := s.flights - {req})
      else s.(flights := s.flights - {req}, answered := s.answered + [token.id],
              issued := s.issued[access.id := access][refresh.id := refresh],
              root := s.root[refresh.id := s.root[token.id]])
    case Drop(req) => s.(flights := s.flights - {req})
    case Fire(timer, fault) =>
      var timers := s.timers - multiset{timer};
      if fault then s.(timers := timers, stray := if timer.id in s.table then s.stray + {timer.id} else s.stray)
      else s.(timers := timers, table := s.table - {timer.id})
    case Crash => s.(up := false, timers := multiset{}, flights := map[])
    case Restart(rows, end, ok) =>
      if !ok then s.(table := rows, now := end)
      else s.(up := true, now := end, table := rows, stray := {}, timers := multiset(TimersFor(s.table, s.table.Keys)))
    case Replace(end, ok) =>
      s.(up := ok, now := end, born := end, table := map[], history := map[], earlier := Ever(s), stray := {})
  }

  /** A timer that fires leaves what `Cleanup.TimerFires` says; a start that fails leaves the rows that
      `Cleanup.TokenCleanupProcess` had come to, and a service that is down. */
  lemma OutsideSteps(s: State, timer: Timer, fault: bool, rows: map<Uuid, int>, end: int)
    ensures Enabled(s, Fire(timer, fault)) ==>
      var after := Do(s, Fire(timer, fault));
      && after.timers == s.timers - multiset{timer} && after.flights == s.flights
      && after.table == if fault then s.table else s.table - {timer.id}
    ensures Enabled(s, Restart(rows, end, false)) ==>
      var after := Do(s, Restart(rows, end, false));
      after.table == rows && after.now == end && !after.up && after.history == s.history
  {
  }

  ghost predicate Valid(s: State, steps: seq<Step>)
    decreases |steps|
  {
    steps == [] || (Enabled(s, steps[0]) && Valid(Do(s, steps[0]), steps[1..]))
  }

  ghost function After(s: State, steps: seq<Step>): State
    requires Valid(s, steps)
    decreases |steps|
  {
    if steps == [] then s else After(Do(s, steps[0]), steps[1..])
  }

  lemma Then(s: State, step: Step, rest: seq<Step>)
    requires Enabled(s, step) && Valid(Do(s, step), rest)
    ensures Valid(s, [step] + rest) && After(s, [step] + rest) == After(Do(s, step), rest)
  {
    assert ([step] + rest)[1..] == rest;
  }

  lemma {:induction false} Append(s: State, first: seq<Step>, rest: seq<Step>)
    requires Valid(s, first) && Valid(After(s, first), rest)
    ensures Valid(s, first + rest) && After(s, first + rest) == After(After(s, first), rest)
    decreases |first|
  {
    if first == [] {
      assert first + rest == rest;
    } else {
      Append(Do(s, first[0]), first[1..], rest);
      Then(s, first[0], first[1..] + rest);
      assert first + rest == [first[0]] + (first[1..] + rest);
    }
  }

  // Invariants of every run, each over the part of the state it is about

  /** The table is the history minus rows past their grace, and timers are set for that moment. */
  ghost predicate Consistent(issued: map<Uuid, Creds>, table: map<Uuid, int>, history: map<Uuid, int>,
                             timers: multiset<Timer>, now: int) {
    && (forall id :: id in issued ==> issued[id].id == id)
    && (forall id :: id in table ==> id in history && table[id] == history[id])
    && (forall id :: id in history ==> id in issued && history[id] == issued[id].expiry)
    && (forall id :: id in history && id !in table ==> history[id] + GRACE <= now)
    && (forall t :: t in timers ==> t.id in history && t.due == history[t.id] + GRACE)
  }

  predicate PastInsert(f: Flight) {
    f.phase == Inserted || f.phase == Scheduled
  }

  /** Does the request still have to schedule the removal of the row it inserted? */
  predicate Waiting(f: Flight) {
    f.phase == Inserted || f.phase == Revoking
  }

  ghost predicate Tracked(flights: map<nat, Flight>, issued: map<Uuid, Creds>, history: map<Uuid, int>, now: int) {
    forall r :: r in flights ==> FlightOk(flights[r], issued, history, now)
  }

  ghost predicate FlightOk(f: Flight, issued: map<Uuid, Creds>, history: map<Uuid, int>, now: int) {
    && f.token.id in issued && issued[f.token.id] == f.token && f.checkedAt <= now
    && (f.phase != Revoking ==> f.checkedAt < f.token.expiry)
    && (PastInsert(f) || Waiting(f) ==> f.token.id in history)
    && (PastInsert(f) ==> f.token.typ == Refresh)
  }

  ghost predicate Pending(flights: map<nat, Flight>, id: Uuid) {
    exists r :: r in flights && flights[r].token.id == id && Waiting(flights[r])
  }

  /** Every row will be removed: a timer waits for it, a request is about to set one, or one of the
      two failed on it. */
  ghost predicate Covered(table: map<Uuid, int>, timers: multiset<Timer>, flights: map<nat, Flight>, stray: set<Uuid>) {
    forall id :: id in table ==> Timer(id, table[id] + GRACE) in timers || Pending(flights, id) || id in stray
  }

  /** A descendant carries the subject and the roles its root was given. */
  ghost predicate Lineage(issued: map<Uuid, Creds>, root: map<Uuid, Uuid>) {
    && (forall id :: id in root <==> id in issued && issued[id].typ == Refresh)
    && (forall id :: id in root ==>
          && root[id] in root && root[root[id]] == root[id]
          && issued[id].subject == issued[root[id]].subject && issued[id].roles == issued[root[id]].roles)
  }

  ghost predicate Inv(s: State) {
    && Consistent(s.issued, s.table, s.history, s.timers, s.now)
    && Tracked(s.flights, s.issued, s.history, s.now)
    && (s.up ==> Covered(s.table, s.timers, s.flights, s.stray))
    && (!s.up ==> s.flights == map[] && s.timers == multiset{})
    && Lineage(s.issued, s.root)
    && (forall id :: id in s.granted ==> id in s.earlier || id in s.history)
  }

  // How the parts change

  lemma IssuingKeeps(issued: map<Uuid, Creds>, root: map<Uuid, Uuid>, flights: map<nat, Flight>,
                     history: map<Uuid, int>,
                     now: int, access: Creds, refresh: Creds, ancestor: Uuid)
    requires Lineage(issued, root) && Tracked(flights, issued, history, now)
    requires access.id !in issued && refresh.id !in issued && access.id != refresh.id
    requires access.typ == Access && refresh.typ == Refresh
    requires ancestor == refresh.id || (ancestor in root && root[ancestor] == ancestor
             && refresh.subject == issued[ancestor].subject && refresh.roles == issued[ancestor].roles)
    ensures var more := issued[access.id := access][refresh.id := refresh];
      Lineage(more, root[refresh.id := ancestor]) && Tracked(flights, more, history, now)
  {
  }

  lemma FlightChange(flights: map<nat, Flight>, issued: map<Uuid, Creds>, history: map<Uuid, int>, now: int, r: nat,
                     f: Flight)
    requires Tracked(flights, issued, history, now) && FlightOk(f, issued, history, now)
    ensures Tracked(flights[r := f], issued, history, now) && Tracked(flights - {r}, issued, history, now)
  {
  }

  /** A flight that is not waiting, or no flight at all, may be replaced by any other or dropped. */
  lemma CoverIgnores(table: map<Uuid, int>, timers: multiset<Timer>, flights: map<nat, Flight>, stray: set<Uuid>,
                     r: nat, f: Flight)
    requires Covered(table, timers, flights, stray) && (r in flights ==> !Waiting(flights[r]))
    ensures Covered(table, timers, flights[r := f], stray) && Covered(table, timers, flights - {r}, stray)
  {
    forall id | Pending(flights, id)
      ensures Pending(flights[r := f], id) && Pending(flights - {r}, id)
    {
      var q :| q in flights && flights[q].token.id == id && Waiting(flights[q]);
      assert q in flights[r := f] && q in flights - {r};
    }
  }

  lemma RowAdded(issued: map<Uuid, Creds>, table: map<Uuid, int>, history: map<Uuid, int>, timers: multiset<Timer>,
                 flights: map<nat, Flight>, stray: set<Uuid>, now: int, r: nat, f: Flight)
    requires Consistent(issued, table, history, timers, now) && Tracked(flights, issued, history, now)
    requires Covered(table, timers, flights, stray) && (r in flights ==> !Waiting(flights[r]))
    requires f.token.id in issued && issued[f.token.id] == f.token && f.token.id !in table && Waiting(f)
    requires FlightOk(f, issued, history[f.token.id := f.token.expiry], now)
    ensures var id := f.token.id;
      && Consistent(issued, table[id := f.token.expiry], history[id := f.token.expiry], timers, now)
      && Tracked(flights[r := f], issued, history[id := f.token.expiry], now)
      && Covered(table[id := f.token.expiry], timers, flights[r := f], stray)
  {
    CoverIgnores(table, timers, flights, stray, r, f);
    assert r in flights[r := f] && flights[r := f][r] == f;
  }

  /** Once the row of a waiting flight is dealt with, the flight need not wait any more. */
  lemma RowDone(table: map<Uuid, int>, timers: multiset<Timer>, flights: map<nat, Flight>, stray: set<Uuid>, r: nat,
                f: Flight,
                after: map<Uuid, int>)
    requires Covered(table, timers, flights, stray) && r in flights
    requires forall id :: id in after ==> id in table && after[id] == table[id]
    requires var id := flights[r].token.id; id in after ==> Timer(id, after[id] + GRACE) in timers || id in stray
    ensures Covered(after, timers, flights[r := f], stray) && Covered(after, timers, flights - {r}, stray)
  {
    forall id | id in after && Pending(flights, id) && id != flights[r].token.id
      ensures Pending(flights[r := f], id) && Pending(flights - {r}, id)
    {
      var q :| q in flights && flights[q].token.id == id && Waiting(flights[q]);
      assert q in flights[r := f] && q in flights - {r};
    }
  }

  /** A waiting flight goes on to its next phase. */
  lemma SchedulingFlight(flights: map<nat, Flight>, issued: map<Uuid, Creds>, history: map<Uuid, int>, now: int, r: nat)
    requires Tracked(flights, issued, history, now) && r in flights && Waiting(flights[r])
    ensures flights[r].phase == Inserted ==>
      Tracked(flights[r := flights[r].(phase := Scheduled)], issued, history, now)
    ensures Tracked(flights - {r}, issued, history, now)
  {
  }

  lemma TimerAdded(issued: map<Uuid, Creds>, table: map<Uuid, int>, history: map<Uuid, int>, timers: multiset<Timer>,
                   now: int, id: Uuid)
    requires Consistent(issued, table, history, timers, now) && id in table
    ensures Consistent(issued, Swept(table, id, now), history, timers + multiset{Timer(id, table[id] + GRACE)}, now)
  {
  }

  lemma CoverMoreTimers(table: map<Uuid, int>, timers: multiset<Timer>, flights: map<nat, Flight>, stray: set<Uuid>,
                        t: Timer)
    requires Covered(table, timers, flights, stray)
    ensures Covered(table, timers + multiset{t}, flights, stray)
  {
  }

  lemma ArmCovers(table: map<Uuid, int>, timers: multiset<Timer>, flights: map<nat, Flight>, stray: set<Uuid>, now: int,
                  r: nat, f: Flight)
    requires Covered(table, timers, flights, stray) && r in flights && flights[r].token.id in table
    ensures var id := flights[r].token.id;
      var more := timers + multiset{Timer(id, table[id] + GRACE)};
      && Covered(Swept(table, id, now), more, flights[r := f], stray)
      && Covered(Swept(table, id, now), more, flights - {r}, stray)
  {
    var id := flights[r].token.id;
    CoverMoreTimers(table, timers, flights, stray, Timer(id, table[id] + GRACE));
    RowDone(table, timers + multiset{Timer(id, table[id] + GRACE)}, flights, stray, r, f, Swept(table, id, now));
  }

  lemma ArmParts(issued: map<Uuid, Creds>, table: map<Uuid, int>, history: map<Uuid, int>, timers: multiset<Timer>,
                 flights: map<nat, Flight>, stray: set<Uuid>, now: int, r: nat, after: map<nat, Flight>)
    requires Consistent(issued, table, history, timers, now) && Tracked(flights, issued, history, now)
    requires Covered(table, timers, flights, stray)
    requires r in flights && Waiting(flights[r]) && flights[r].token.id in table
    requires after ==
      if flights[r].phase == Inserted then flights[r := flights[r].(phase := Scheduled)] else flights - {r}
    ensures var id := flights[r].token.id;
      var more := timers + multiset{Timer(id, table[id] + GRACE)};
      && Consistent(issued, Swept(table, id, now), history, more, now)
      && Tracked(after, issued, history, now)
      && Covered(Swept(table, id, now), more, after, stray)
  {
    TimerAdded(issued, table, history, timers, now, flights[r].token.id);
    SchedulingFlight(flights, issued, history, now, r);
    ArmCovers(table, timers, flights, stray, now, r, flights[r].(phase := Scheduled));
  }

  lemma TimerGone(issued: map<Uuid, Creds>, table: map<Uuid, int>, history: map<Uuid, int>, timers: multiset<Timer>,
                  now: int, t: Timer)
    requires Consistent(issued, table, history, timers, now) && t in timers && t.due <= now
    ensures Consistent(issued, table, history, timers - multiset{t}, now)
    ensures Consistent(issued, table - {t.id}, history, timers - multiset{t}, now)
  {
  }

  lemma CoverFewerTimers(table: map<Uuid, int>, timers: multiset<Timer>, flights: map<nat, Flight>, stray: set<Uuid>,
                         t: Timer)
    requires Covered(table, timers, flights, stray)
    ensures Covered(table - {t.id}, timers - multiset{t}, flights, stray)
    ensures Covered(table, timers - multiset{t}, flights, if t.id in table then stray + {t.id} else stray)
  {
    forall id | id in table && id != t.id
      ensures Timer(id, table[id] + GRACE) in timers - multiset{t} || Pending(flights, id) || id in stray
    {
      assert Timer(id, table[id] + GRACE) in timers ==> Timer(id, table[id] + GRACE) in timers - multiset{t};
    }
  }

  /** What a startup leaves of the rows it finds, before it has set any timer. */
  lemma RowsTrimmed(issued: map<Uuid, Creds>, table: map<Uuid, int>, history: map<Uuid, int>, now: int,
                    rows: map<Uuid, int>, end: int)
    requires Consistent(issued, table, history, multiset{}, now) && now <= end && Trimmed(table, rows, end)
    ensures Consistent(issued, rows, history, multiset{}, end)
  {
  }

  lemma TimersSet(issued: map<Uuid, Creds>, table: map<Uuid, int>, history: map<Uuid, int>, now: int,
                  rows: map<Uuid, int>, end: int)
    requires Consistent(issued, table, history, multiset{}, now) && Consistent(issued, rows, history, multiset{}, end)
    ensures Consistent(issued, rows, history, multiset(TimersFor(table, table.Keys)), end)
  {
    forall t | t in multiset(TimersFor(table, table.Keys))
      ensures t.id in history && t.due == history[t.id] + GRACE
    {
      assert t in TimersFor(table, table.Keys);
    }
  }

  lemma RowsTimed(table: map<Uuid, int>, rows: map<Uuid, int>, end: int)
    requires Trimmed(table, rows, end)
    ensures forall id :: id in rows ==> Timer(id, rows[id] + GRACE) in multiset(TimersFor(table, table.Keys))
    ensures Covered(rows, multiset(TimersFor(table, table.Keys)), map[], {})
  {
    forall id | id in rows
      ensures Timer(id, rows[id] + GRACE) in multiset(TimersFor(table, table.Keys))
    {
      assert Timer(id, rows[id] + GRACE) in TimersFor(table, table.Keys);
    }
  }

  lemma ConsistentIssued(issued: map<Uuid, Creds>, table: map<Uuid, int>, history: map<Uuid, int>,
                         timers: multiset<Timer>, now: int, access: Creds, refresh: Creds)
    requires Consistent(issued, table, history, timers, now)
    requires access.id !in issued && refresh.id !in issued && access.id != refresh.id
    ensures Consistent(issued[access.id := access][refresh.id := refresh], table, history, timers, now)
  {
  }

  // One step at a time

  lemma FlightStepKeeps(s: State, step: Step)
    requires Inv(s) && Enabled(s, step) && (step.Check? || step.Query? || step.Drop?)
    ensures Inv(Do(s, step))
  {
    var r := step.req;
    var f := if step.Check? then Flight(s.issued[step.id], s.now, Checked) else s.flights[r].(phase := Cleared);
    CoverIgnores(s.table, s.timers, s.flights, s.stray, r, f);
    FlightChange(s.flights, s.issued, s.history, s.now, r, f);
  }

  lemma InsertKeeps(s: State, req: nat, fault: bool)
    requires Inv(s) && Enabled(s, Insert(req, fault))
    ensures Inv(Do(s, Insert(req, fault)))
  {
    var f := s.flights[req];
    CoverIgnores(s.table, s.timers, s.flights, s.stray, req, f);
    FlightChange(s.flights, s.issued, s.history, s.now, req, f);
    if !(f.token.typ != Refresh || fault || f.token.id in s.table) {
      RowAdded(s.issued, s.table, s.history, s.timers, s.flights, s.stray, s.now, req, f.(phase := Inserted));
    }
  }

  lemma RevokeKeeps(s: State, req: nat, id: Uuid, fault: bool)
    requires Inv(s) && Enabled(s, Revoke(req, id, fault))
    ensures Inv(Do(s, Revoke(req, id, fault)))
  {
    if !(fault || id in s.table) {
      var f := Flight(s.issued[id], s.now, Revoking);
      RowAdded(s.issued, s.table, s.history, s.timers, s.flights, s.stray, s.now, req, f);
    }
  }

  lemma ScheduleFailKeeps(s: State, req: nat, fault: bool)
    requires Inv(s) && Enabled(s, Schedule(req, fault)) && (fault || s.flights[req].token.id !in s.table)
    ensures Inv(Do(s, Schedule(req, fault)))
  {
    var f, id := s.flights[req], s.flights[req].token.id;
    SchedulingFlight(s.flights, s.issued, s.history, s.now, req);
    var stray := if id in s.table then s.stray + {id} else s.stray;
    RowDone(s.table, s.timers, s.flights, stray, req, f.(phase := Scheduled), s.table);
  }

  lemma PartsMake(s: State, table: map<Uuid, int>, timers: multiset<Timer>, flights: map<nat, Flight>)
    requires Inv(s) && s.up && Consistent(s.issued, table, s.history, timers, s.now)
    requires Tracked(flights, s.issued, s.history, s.now) && Covered(table, timers, flights, s.stray)
    ensures Inv(s.(table := table, timers := timers, flights := flights))
  {
  }

  lemma ArmKeeps(s: State, req: nat)
    requires Inv(s) && s.up && req in s.flights && Waiting(s.flights[req]) && s.flights[req].token.id in s.table
    ensures Inv(Armed(s, req))
  {
    var s' := Armed(s, req);
    ArmParts(s.issued, s.table, s.history, s.timers, s.flights, s.stray, s.now, req, s'.flights);
    PartsMake(s, s'.table, s'.timers, s'.flights);
  }

  lemma ScheduleKeeps(s: State, req: nat, fault: bool)
    requires Inv(s) && Enabled(s, Schedule(req, fault))
    ensures Inv(Do(s, Schedule(req, fault)))
  {
    if fault || s.flights[req].token.id !in s.table {
      ScheduleFailKeeps(s, req, fault);
    } else {
      ArmKeeps(s, req);
    }
  }

  lemma IssueKeeps(s: State, step: Step)
    requires Inv(s) && step.Issue? && Enabled(s, step)
    ensures Inv(Do(s, step))
  {
    var f := s.flights[step.req];
    CoverIgnores(s.table, s.timers, s.flights, s.stray, step.req, f);
    FlightChange(s.flights, s.issued, s.history, s.now, step.req, f);
    if !step.fault && f.token.id in s.root {
      ConsistentIssued(s.issued, s.table, s.history, s.timers, s.now, step.access, step.refresh);
      IssuingKeeps(s.issued, s.root, s.flights - {step.req}, s.history, s.now, step.access, step.refresh,
                   s.root[f.token.id]);
    }
  }

  lemma LoginKeeps(s: State, access: Creds, refresh: Creds)
    requires Inv(s) && Enabled(s, Login(access, refresh))
    ensures Inv(Do(s, Login(access, refresh)))
  {
    ConsistentIssued(s.issued, s.table, s.history, s.timers, s.now, access, refresh);
    IssuingKeeps(s.issued, s.root, s.flights, s.history, s.now, access, refresh, refresh.id);
  }

  lemma FireKeeps(s: State, timer: Timer, fault: bool)
    requires Inv(s) && Enabled(s, Fire(timer, fault))
    ensures Inv(Do(s, Fire(timer, fault)))
  {
    TimerGone(s.issued, s.table, s.history, s.timers, s.now, timer);
    CoverFewerTimers(s.table, s.timers, s.flights, s.stray, timer);
  }

  lemma RestartKeeps(s: State, step: Step)
    requires Inv(s) && step.Restart? && Enabled(s, step)
    ensures Inv(Do(s, step))
  {
    RowsTrimmed(s.issued, s.table, s.history, s.now, step.rows, step.end);
    TimersSet(s.issued, s.table, s.history, s.now, step.rows, step.end);
    RowsTimed(s.table, step.rows, step.end);
  }

  lemma ReplaceKeeps(s: State, step: Step)
    requires Inv(s) && step.Replace? && Enabled(s, step)
    ensures Inv(Do(s, step))
  {
  }

  lemma ClockAndCrashKeep(s: State, step: Step)
    requires Inv(s) && (step.Tick? || step.Crash?) && Enabled(s, step)
    ensures Inv(Do(s, step))
  {
  }

  lemma InvStep(s: State, step: Step)
    requires Inv(s) && Enabled(s, step)
    ensures Inv(Do(s, step))
  {
    match step
    case Tick(_) => ClockAndCrashKeep(s, step);
    case Crash => ClockAndCrashKeep(s, step);
    case Check(_, _) => FlightStepKeeps(s, step);
    case Query(_) => FlightStepKeeps(s, step);
    case Drop(_) => FlightStepKeeps(s, step);
    case Insert(req, fault) => InsertKeeps(s, req, fault);
    case Revoke(req, id, fault) => RevokeKeeps(s, req, id, fault);
    case Schedule(req, fault) => ScheduleKeeps(s, req, fault);
    case Issue(_, _, _, _) => IssueKeeps(s, step);
    case Login(access, refresh) => LoginKeeps(s, access, refresh);
    case Fire(timer, fault) => FireKeeps(s, timer, fault);
    case Restart(_, _, _) => RestartKeeps(s, step);
    case Replace(_, _) => ReplaceKeeps(s, step);
  }

  /** All of it holds in every reachable state, whatever the interleaving and the delays. */
  lemma {:induction false} InvRun(s: State, steps: seq<Step>)
    requires Inv(s) && Valid(s, steps)
    ensures Inv(After(s, steps))
    decreases |steps|
  {
    if steps != [] {
      InvStep(s, steps[0]);
      InvRun(Do(s, steps[0]), steps[1..]);
    }
  }

  // Database files that were moved away

  /** Their rows are kept as they were, and no request in flight is older than the present file. */
  ghost predicate Aged(s: State) {
    && (forall id :: id in s.earlier ==> id in s.issued && s.earlier[id] == s.issued[id].expiry)
    && s.born <= s.now && Recent(s.flights, s.born)
  }

  ghost predicate Recent(flights: map<nat, Flight>, born: int) {
    forall r :: r in flights ==> born <= flights[r].checkedAt
  }

  predicate SameFile(s: State, s': State) {
    s'.earlier == s.earlier && s'.born == s.born
  }

  lemma AgedAuthenticating(s: State, step: Step)
    requires Aged(s) && Enabled(s, step) && (step.Check? || step.Query? || step.Drop?)
    ensures Aged(Do(s, step)) && SameFile(s, Do(s, step))
  {
  }

  lemma AgedInserting(s: State, step: Step)
    requires Aged(s) && Enabled(s, step) && (step.Insert? || step.Revoke?)
    ensures Aged(Do(s, step)) && SameFile(s, Do(s, step))
  {
  }

  lemma AgedScheduling(s: State, step: Step)
    requires Aged(s) && Enabled(s, step) && step.Schedule?
    ensures Aged(Do(s, step)) && SameFile(s, Do(s, step))
  {
  }

  lemma AgedIssuing(s: State, step: Step)
    requires Aged(s) && Enabled(s, step) && (step.Issue? || step.Login?)
    ensures Aged(Do(s, step)) && SameFile(s, Do(s, step))
  {
  }

  lemma AgedFiring(s: State, step: Step)
    requires Aged(s) && Enabled(s, step) && step.Fire?
    ensures Aged(Do(s, step)) && SameFile(s, Do(s, step))
  {
  }

  lemma AgedLife(s: State, step: Step)
    requires Aged(s) && Enabled(s, step) && (step.Tick? || step.Crash? || step.Restart?)
    ensures Aged(Do(s, step)) && SameFile(s, Do(s, step))
  {
  }

  lemma AgedReplace(s: State, step: Step)
    requires Inv(s) && Aged(s) && Enabled(s, step) && step.Replace?
    ensures Aged(Do(s, step))
  {
  }

  lemma AgedStep(s: State, step: Step)
    requires Inv(s) && Aged(s) && Enabled(s, step)
    ensures Aged(Do(s, step)) && (!step.Replace? ==> SameFile(s, Do(s, step)))
  {
    if step.Check? || step.Query? || step.Drop? {
      AgedAuthenticating(s, step);
    } else if step.Insert? || step.Revoke? {
      AgedInserting(s, step);
    } else if step.Schedule? {
      AgedScheduling(s, step);
    } else if step.Issue? || step.Login? {
      AgedIssuing(s, step);
    } else if step.Fire? {
      AgedFiring(s, step);
    } else if step.Replace? {
      AgedReplace(s, step);
    } else {
      AgedLife(s, step);
    }
  }

  /** In every reachable state each row in the table has a timer for the end of its grace, or a
      request that has still to set one, or had its scheduling or its deletion fail; and with no such
      request and no timer due, only failures are left past their grace. */
  lemma CleanupCoverage(steps: seq<Step>)
    requires Valid(Start, steps)
    ensures var s := After(Start, steps);
      s.up ==> Covered(s.table, s.timers, s.flights, s.stray)
    ensures var s := After(Start, steps);
      && s.up && (forall t :: t in s.timers ==> s.now < t.due)
      && (forall r :: r in s.flights ==> !Waiting(s.flights[r]))
      ==> forall id :: id in s.table && s.table[id] + GRACE <= s.now ==> id in s.stray
  {
    InvRun(Start, steps);
  }

  /** Every row timed, and none of them past its grace at `begin`. */
  ghost predicate Restored(table: map<Uuid, int>, timers: multiset<Timer>, begin: int) {
    forall id :: id in table ==> Timer(id, table[id] + GRACE) in timers && begin <= table[id] + GRACE
  }

  lemma RowsRestored(table: map<Uuid, int>, rows: map<Uuid, int>, begin: int, end: int)
    requires Trimmed(table, rows, end) && NoneBefore(rows, begin)
    ensures Restored(rows, multiset(TimersFor(table, table.Keys)), begin)
  {
    RowsTimed(table, rows, end);
  }

  /** A startup that succeeds forgets nothing it needs: each row left has its timer again, failures
      of the previous life included, and none was past its grace when the startup began. */
  lemma RestartRestores(steps: seq<Step>, step: Step)
    requires Valid(Start, steps) && step.Restart? && step.ok && Enabled(After(Start, steps), step)
    ensures var s := Do(After(Start, steps), step);
      Inv(s) && s.stray == {} && Restored(s.table, s.timers, After(Start, steps).now)
  {
    InvRun(Start, steps);
    var s := After(Start, steps);
    RestartKeeps(s, step);
    RowsRestored(s.table, step.rows, s.now, step.end);
  }

  /** Letting every due timer fire leaves no row past its grace, apart from those of requests that have
      not scheduled yet and of failures. */
  lemma {:induction false} Drain(s: State) returns (steps: seq<Step>)
    requires Inv(s) && s.up
    ensures Valid(s, steps) && forall step :: step in steps ==> step.Fire? && !step.fault
    ensures var s' := After(s, steps);
      && s'.now == s.now && s'.flights == s.flights && s'.stray == s.stray && s'.history == s.history
      && (forall id :: id in s'.table && s'.table[id] + GRACE <= s.now ==> Pending(s.flights, id) || id in s.stray)
    decreases |s.timers|
  {
    if t :| t in s.timers && t.due <= s.now {
      var step := Fire(t, false);
      InvStep(s, step);
      var rest := Drain(Do(s, step));
      steps := [step] + rest;
    } else {
      steps := [];
    }
  }
}
