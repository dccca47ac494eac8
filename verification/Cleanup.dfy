/** Removal of revoked tokens: at once when they are past expiry plus grace, otherwise by a timer.
    Times are in nanoseconds. */
module Cleanup {
  import opened Basics
  import opened Tables
  import opened Store

  const SECOND := 1_000_000_000

  /** `revocationCacheGrace` */
  const GRACE := 30 * SECOND

  datatype Timer = Timer(id: Uuid, due: int)

  /** The goroutines waiting on a timer. They live in memory and die with the process. */
  class Scheduler {
    var timers: multiset<Timer>

    constructor ()
      ensures timers == multiset{}
    {
      timers := multiset{};
    }

    /** `time.NewTimer(time.Until(expiry) + grace)`: due at expiry plus grace, even if that is past. */
    method Arm(id: Uuid, expiry: int)
      modifies this
      ensures timers == old(timers) + multiset{Timer(id, expiry + GRACE)}
    {
      timers := timers + multiset{Timer(id, expiry + GRACE)};
    }
  }

  /** The table once the row of `id` has been looked at: gone if its grace is over. */
  function Swept(revoked: map<Uuid, int>, id: Uuid, now: int): map<Uuid, int> {
    if id in revoked && revoked[id] + GRACE < now then revoked - {id} else revoked
  }

  /** On success there is always a timer, also for a row that was just deleted: the code falls
      through. On failure neither the row nor the timers have changed. */
  method CleanupExpiredToken(store: Database, scheduler: Scheduler, id: Uuid, now: int) returns (r: Result<(), DbError>)
    modifies store, scheduler
    ensures r.Ok? ==>
      && id in old(store.revoked)
      && store.Contents() == old(store.Contents()).(revoked := Swept(old(store.revoked), id, now))
      && scheduler.timers == old(scheduler.timers) + multiset{Timer(id, old(store.revoked)[id] + GRACE)}
    // The grace is half a minute.
    ensures r.Ok? ==> (id in store.revoked <==> now <= old(store.revoked)[id] + 30_000_000_000)
    ensures r.Ok? ==> Timer(id, old(store.revoked)[id] + 30_000_000_000) in scheduler.timers
    ensures r.Err? ==> store.Contents() == old(store.Contents()) && scheduler.timers == old(scheduler.timers)
    ensures old(store.faults) == [] ==> store.faults == [] && (r.Ok? <==> id in old(store.revoked))
  {
    var token := store.GetRevokedToken(id);
    if token.Err? { return Err(token.error); }
    var expiry := token.value;
    if expiry + GRACE < now {
      var cleaned := store.CleanRevokedToken(id);
      if cleaned.Err? { return Err(cleaned.error); }
    }
    scheduler.Arm(id, expiry);
    return Ok(());
  }

  /** The goroutine behind a timer: deletes the row by id, whatever put it there. */
  method TimerFires(store: Database, scheduler: Scheduler, timer: Timer) returns (r: Result<(), DbError>)
    requires timer in scheduler.timers
    modifies store, scheduler
    ensures scheduler.timers == old(scheduler.timers) - multiset{timer}
    ensures store.faults == Later(old(store.faults))
    ensures if Faulty(old(store.faults)) then r.Err? && store.Contents() == old(store.Contents())
            else r.Ok? && store.Contents() == old(store.Contents()).(revoked := old(store.revoked) - {timer.id})
  {
    scheduler.timers := scheduler.timers - multiset{timer};
    r := store.CleanRevokedToken(timer.id);
  }

  /** One timer for each of the rows `ids`, due when its grace ends. */
  function TimersFor(revoked: map<Uuid, int>, ids: set<Uuid>): set<Timer> {
    set id | id in ids && id in revoked :: Timer(id, revoked[id] + GRACE)
  }

  lemma OneMoreTimer(revoked: map<Uuid, int>, ids: set<Uuid>, id: Uuid)
    requires id in revoked && id !in ids
    ensures multiset(TimersFor(revoked, ids + {id}))
            == multiset(TimersFor(revoked, ids)) + multiset{Timer(id, revoked[id] + GRACE)}
  {
    assert TimersFor(revoked, ids + {id}) == TimersFor(revoked, ids) + {Timer(id, revoked[id] + GRACE)};
  }

  /** The rows while the startup loop has dealt with `done`: the others are untouched. */
  ghost predicate Halfway(before: map<Uuid, int>, now: map<Uuid, int>, done: set<Uuid>, start: int, end: int) {
    && (forall id :: id in now ==> id in before && now[id] == before[id] && (id in done ==> now[id] + GRACE >= start))
    && (forall id :: id in before && id !in now ==> id in done && before[id] + GRACE < end)
  }

  lemma HalfwayStep(before: map<Uuid, int>, now: map<Uuid, int>, done: set<Uuid>, start: int, end: int, id: Uuid,
                    later: int)
    requires Halfway(before, now, done, start, end) && id in before && id !in done && start <= end <= later
    ensures id in now && Halfway(before, Swept(now, id, later), done + {id}, start, later)
  {
  }

  /** What the startup loop keeps: the tables apart from the tokens, one timer per row dealt with,
      and the rows as `Halfway` says. */
  ghost predicate Progress(store: Database, scheduler: Scheduler, rows: map<Uuid, int>, done: set<Uuid>, start: int,
                           end: int)
    reads store, scheduler
  {
    && start <= end
    && scheduler.timers == multiset(TimersFor(rows, done))
    && Halfway(rows, store.revoked, done, start, end)
  }

  method CleanupRow(store: Database, scheduler: Scheduler, id: Uuid, now: int,
                    ghost rows: map<Uuid, int>, ghost done: set<Uuid>, ghost start: int, ghost end: int)
    returns (r: Result<(), DbError>)
    requires Progress(store, scheduler, rows, done, start, end) && id in rows && id !in done && end <= now
    modifies store, scheduler
    ensures r.Ok? ==> Progress(store, scheduler, rows, done + {id}, start, now)
    ensures Trimmed(rows, store.revoked, now)
    ensures store.Contents() == old(store.Contents()).(revoked := store.revoked)
    ensures old(store.faults) == [] ==> r.Ok? && store.faults == []
  {
    HalfwayStep(rows, store.revoked, done, start, end, id, now);
    OneMoreTimer(rows, done, id);
    r := CleanupExpiredToken(store, scheduler, id, now);
  }

  /** Run at startup, before requests are served; `pause(i)` is the time spent before row `i`. When
      it succeeds every row found has exactly one timer, rows past their grace at the start are gone,
      and rows within it at the end are kept. When it fails, only rows past their grace are gone. */
  method TokenCleanupProcess(store: Database, scheduler: Scheduler, start: int, pause: nat -> nat)
    returns (r: Result<(), DbError>, end: int)
    requires scheduler.timers == multiset{}
    modifies store, scheduler
    ensures start <= end && store.Contents() == old(store.Contents()).(revoked := store.revoked)
    ensures Trimmed(old(store.revoked), store.revoked, end)
    ensures r.Ok? ==>
      && scheduler.timers == multiset(TimersFor(old(store.revoked), old(store.revoked).Keys))
      && NoneBefore(store.revoked, start)
    ensures old(store.faults) == [] ==> r.Ok? && store.faults == []
  {
    end := start;
    var tokens := store.GetAllRevokedTokens();
    if tokens.Err? { return Err(tokens.error), end; }
    var ids := tokens.value;
    ghost var rows := store.revoked;
    assert TimersFor(rows, Elements(ids[..0])) == {};
    for i := 0 to |ids|
      invariant Progress(store, scheduler, rows, Elements(ids[..i]), start, end)
      invariant store.Contents() == old(store.Contents()).(revoked := store.revoked)
      invariant old(store.faults) == [] ==> store.faults == []
    {
      var now := end + pause(i);
      OneMoreElement(ids, i);
      var cleaned := CleanupRow(store, scheduler, ids[i], now, rows, Elements(ids[..i]), start, end);
      end := now;
      if cleaned.Err? { return Err(cleaned.error), end; }
    }
    assert ids[..|ids|] == ids && Elements(ids) == rows.Keys;
    return Ok(()), end;
  }

  lemma OneMoreElement(ids: seq<Uuid>, i: nat)
    requires i < |ids| && NoRepeats(ids)
    ensures ids[i] in ids && ids[i] !in Elements(ids[..i])
    ensures Elements(ids[..i + 1]) == Elements(ids[..i]) + {ids[i]}
  {
    assert ids[..i + 1] == ids[..i] + [ids[i]];
  }

  /** `after` is `before` without some rows past their grace by `end`. */
  ghost predicate Trimmed(before: map<Uuid, int>, after: map<Uuid, int>, end: int) {
    && (forall id :: id in after ==> id in before && after[id] == before[id])
    && (forall id :: id in before && id !in after ==> before[id] + GRACE < end)
  }

  /** No row's grace was over at `begin`. */
  ghost predicate NoneBefore(revoked: map<Uuid, int>, begin: int) {
    forall id :: id in revoked ==> begin <= revoked[id] + GRACE
  }
}
