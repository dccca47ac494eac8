/** Starts and the token lifecycle: which start keeps the revocation table, and what one that moves it
    away forgets. The keys that verify tokens lie in another directory and survive both. */
module Replacement {
  import opened Tables
  import opened Credentials
  import opened Cleanup
  import opened Disk
  import opened Connecting
  import Passwords
  import Rotation
  import Sessions
  import Startup
  import Tokens

  /** The lifecycle's restart on the rows a start finds, or its replacement of them, leaves the table and
      the timers of that start. */
  ghost predicate KeepsTable(s: Tokens.State, after: Db, timers: multiset<Timer>, end: int) {
    var step := Tokens.Restart(after.revoked, end, true);
    && Tokens.Enabled(s, step)
    && Tokens.Do(s, step).table == after.revoked && Tokens.Do(s, step).timers == timers
  }

  ghost predicate DropsTable(s: Tokens.State, after: Db, timers: multiset<Timer>, end: int) {
    var step := Tokens.Replace(end, true);
    && Tokens.Enabled(s, step)
    && Tokens.Do(s, step).table == after.revoked && Tokens.Do(s, step).timers == timers
  }

  lemma KeepingStart(s: Tokens.State, before: Db, after: Db, timers: multiset<Timer>, id: Uuid, secret: Secret,
                     end: int)
    requires !s.up && before.revoked == s.table && Startup.Started(before, after, timers, id, secret, s.now, end)
    ensures KeepsTable(s, after, timers, end)
  {
  }

  lemma DroppingStart(s: Tokens.State, before: Db, after: Db, timers: multiset<Timer>, id: Uuid, secret: Secret,
                      end: int)
    requires Tokens.Inv(s) && !s.up && before == EMPTY && Startup.Started(before, after, timers, id, secret, s.now, end)
    ensures DropsTable(s, after, timers, end)
  {
    assert TimersFor(before.revoked, before.revoked.Keys) == {};
    assert after.revoked == map[];
  }

  /** A start that hands out a database restarts the lifecycle with its rows if for every check that
      fails the rename fails too, and replaces them if one rename works. In particular it restarts if the
      file is healthy and none of the start's ten statements fails. */
  lemma WhichStart(s: Tokens.State, disk: Files, path: Path, faults: seq<bool>, stuck: seq<bool>, schema: Schema,
                   after: Db, timers: multiset<Timer>, id: Uuid, secret: Secret, end: int)
    requires Sane(schema) && path in disk && disk[path].Image? && disk[path].db.revoked == s.table
    requires Tokens.Inv(s) && !s.up
    requires var course := Connected(disk, path, faults, stuck, schema);
      course.Ready? && course.site.file.Image?
      && Startup.Started(course.site.file.db, after, timers, id, secret, s.now, end)
    ensures var n := Rebuilds(disk, path, faults, stuck, schema);
      && (if AllStuck(stuck, n) then KeepsTable(s, after, timers, end) else DropsTable(s, after, timers, end))
      && (n == 0 <==> Healthy(disk[path], schema) && !Trouble(faults, 1 + CHECKS))
  {
    KeptExactlyIfHealthy(disk, path, faults, stuck, schema);
    var before := Connected(disk, path, faults, stuck, schema).site.file.db;
    if AllStuck(stuck, Rebuilds(disk, path, faults, stuck, schema)) {
      KeepingStart(s, before, after, timers, id, secret, end);
    } else {
      DroppingStart(s, before, after, timers, id, secret, end);
    }
  }

  // What is forgotten

  lemma {:induction false} NoInserts(s: Tokens.State, steps: seq<Tokens.Step>)
    requires Tokens.Valid(s, steps) && forall step :: step in steps ==> !step.Insert? && !step.Replace?
    ensures Rotation.PromptRun(s, steps)
    decreases |steps|
  {
    if steps != [] {
      assert steps[0] in steps;
      NoInserts(Tokens.Do(s, steps[0]), steps[1..]);
    }
  }

  /** A service that has just replaced its database. */
  function Replaced(s: Tokens.State, end: int): Tokens.State {
    s.(up := true, now := end, born := end, table := map[], history := map[], earlier := Tokens.Ever(s), stray := {})
  }

  /** The same, serving only a request with token `id`. */
  function Serving(s: Tokens.State, req: nat, id: Uuid, phase: Tokens.Phase): Tokens.State
    requires id in s.issued
  {
    s.(flights := map[req := Tokens.Flight(s.issued[id], s.now, phase)])
  }

  lemma ReplaceStep(s: Tokens.State, end: int)
    requires Tokens.Inv(s) && !s.up && s.now <= end
    ensures var replace := Tokens.Replace(end, true);
      Tokens.Enabled(s, replace) && Tokens.Do(s, replace) == Replaced(s, end) && Tokens.Inv(Replaced(s, end))
  {
    Tokens.InvStep(s, Tokens.Replace(end, true));
  }

  lemma CheckStep(s: Tokens.State, req: nat, id: Uuid)
    requires Tokens.Inv(s) && s.up && s.flights == map[] && id in s.issued && s.now < s.issued[id].expiry
    ensures var check := Tokens.Check(req, id);
      && Tokens.Enabled(s, check) && Tokens.Do(s, check) == Serving(s, req, id, Tokens.Checked)
      && Tokens.Inv(Serving(s, req, id, Tokens.Checked))
  {
    Tokens.InvStep(s, Tokens.Check(req, id));
  }

  lemma QueryStep(s: Tokens.State, req: nat, id: Uuid)
    requires s.up && s.table == map[] && id in s.issued
    requires Tokens.Inv(Serving(s, req, id, Tokens.Checked))
    ensures var query, checked := Tokens.Query(req), Serving(s, req, id, Tokens.Checked);
      && Tokens.Enabled(checked, query) && Tokens.Do(checked, query) == Serving(s, req, id, Tokens.Cleared)
      && Tokens.Inv(Serving(s, req, id, Tokens.Cleared))
  {
    Tokens.InvStep(Serving(s, req, id, Tokens.Checked), Tokens.Query(req));
  }

  /** The refresh that follows. */
  lemma AdmittedRefreshes(s: Tokens.State, req: nat, id: Uuid, cfg: Passwords.Config, draw: Sessions.Draw)
    requires Tokens.Inv(s) && Tokens.InPhase(s, req, Tokens.Cleared) && s.flights[req].checkedAt == s.now
    requires s.flights[req].token.id == id && s.flights[req].token.typ == Refresh && id !in s.table
    requires draw.accessId !in s.issued && draw.refreshId !in s.issued && draw.accessId != draw.refreshId
    ensures var pair := Sessions.PairOf(s.flights[req].token.subject, s.flights[req].token.roles, cfg, draw);
      var steps := Sessions.StepsOf(req, pair);
      Tokens.Valid(s, steps) && Rotation.PromptRun(s, steps) && Tokens.After(s, steps).answered == s.answered + [id]
  {
    var pair := Sessions.PairOf(s.flights[req].token.subject, s.flights[req].token.roles, cfg, draw);
    var steps := Sessions.StepsOf(req, pair);
    Sessions.RefreshIsThreeSteps(s, req, cfg, draw);
    assert steps[0] == Tokens.Insert(req, false);
    assert steps[1..] == [Tokens.Schedule(req, false), Tokens.Issue(req, pair.access, pair.refresh, false)];
    NoInserts(Tokens.Do(s, steps[0]), steps[1..]);
  }

  lemma PromptThen(s: Tokens.State, step: Tokens.Step, rest: seq<Tokens.Step>)
    requires Tokens.Enabled(s, step) && !step.Insert? && !step.Replace?
    requires Tokens.Valid(Tokens.Do(s, step), rest) && Rotation.PromptRun(Tokens.Do(s, step), rest)
    ensures Tokens.Valid(s, [step] + rest) && Rotation.PromptRun(s, [step] + rest)
    ensures Tokens.After(s, [step] + rest) == Tokens.After(Tokens.Do(s, step), rest)
  {
    assert ([step] + rest)[1..] == rest;
  }

  lemma PromptTwo(s: Tokens.State, a: Tokens.Step, s1: Tokens.State, b: Tokens.Step, s2: Tokens.State,
                  rest: seq<Tokens.Step>)
    requires Tokens.Enabled(s, a) && Tokens.Do(s, a) == s1 && !a.Insert? && !a.Replace?
    requires Tokens.Enabled(s1, b) && Tokens.Do(s1, b) == s2 && !b.Insert? && !b.Replace?
    requires Tokens.Valid(s2, rest) && Rotation.PromptRun(s2, rest)
    ensures var steps := [a] + ([b] + rest);
      && Tokens.Valid(s, steps) && Rotation.PromptRun(s, steps)
      && Tokens.After(s, steps) == Tokens.After(s2, rest)
  {
    PromptThen(s1, b, rest);
    PromptThen(s, a, [b] + rest);
  }

  /** What a client does with token `id`: authenticate, then refresh. */
  function RefreshSteps(s: Tokens.State, req: nat, id: Uuid, cfg: Passwords.Config,
                        draw: Sessions.Draw): seq<Tokens.Step>
    requires id in s.issued
  {
    var pair := Sessions.PairOf(s.issued[id].subject, s.issued[id].roles, cfg, draw);
    [Tokens.Check(req, id)] + ([Tokens.Query(req)] + Sessions.StepsOf(req, pair))
  }

  ghost predicate AnsweredAtOnce(s: Tokens.State, steps: seq<Tokens.Step>, id: Uuid) {
    Tokens.Valid(s, steps) && Rotation.PromptRun(s, steps) && Tokens.After(s, steps).answered == s.answered + [id]
  }

  lemma ServedRefresh(s: Tokens.State, req: nat, id: Uuid, cfg: Passwords.Config, draw: Sessions.Draw)
    requires s.up && s.table == map[] && id in s.issued && s.issued[id].typ == Refresh && s.issued[id].id == id
    requires Tokens.Inv(Serving(s, req, id, Tokens.Cleared))
    requires draw.accessId !in s.issued && draw.refreshId !in s.issued && draw.accessId != draw.refreshId
    ensures var pair := Sessions.PairOf(s.issued[id].subject, s.issued[id].roles, cfg, draw);
      AnsweredAtOnce(Serving(s, req, id, Tokens.Cleared), Sessions.StepsOf(req, pair), id)
  {
    AdmittedRefreshes(Serving(s, req, id, Tokens.Cleared), req, id, cfg, draw);
  }

  /** On an empty table any unexpired refresh token is answered, without delay. */
  lemma FreshRefresh(s: Tokens.State, req: nat, id: Uuid, cfg: Passwords.Config, draw: Sessions.Draw)
    requires Tokens.Inv(s) && s.up && s.flights == map[] && s.table == map[]
    requires id in s.issued && s.now < s.issued[id].expiry && s.issued[id].typ == Refresh && s.issued[id].id == id
    requires draw.accessId !in s.issued && draw.refreshId !in s.issued && draw.accessId != draw.refreshId
    ensures AnsweredAtOnce(s, RefreshSteps(s, req, id, cfg, draw), id)
  {
    var pair := Sessions.PairOf(s.issued[id].subject, s.issued[id].roles, cfg, draw);
    CheckStep(s, req, id);
    QueryStep(s, req, id);
    ServedRefresh(s, req, id, cfg, draw);
    PromptTwo(s, Tokens.Check(req, id), Serving(s, req, id, Tokens.Checked), Tokens.Query(req),
              Serving(s, req, id, Tokens.Cleared), Sessions.StepsOf(req, pair));
  }

  /** The condition on replacements is needed: if a start moves the database away while the row of any
      refresh token is unexpired, the next request has that token answered without any delay, and for
      the second time if it had been answered before. */
  lemma ReplacementForgets(s: Tokens.State, end: int, req: nat, id: Uuid, cfg: Passwords.Config, draw: Sessions.Draw)
    requires Tokens.Inv(s) && !s.up && s.now <= end
    requires id in s.table && end < s.table[id] && s.issued[id].typ == Refresh
    requires draw.accessId !in s.issued && draw.refreshId !in s.issued && draw.accessId != draw.refreshId
    ensures var replace := Tokens.Replace(end, true);
      && Tokens.Enabled(s, replace) && !Rotation.Harmless(s, replace)
      && AnsweredAtOnce(Tokens.Do(s, replace), RefreshSteps(s, req, id, cfg, draw), id)
  {
    ReplaceStep(s, end);
    FreshRefresh(Replaced(s, end), req, id, cfg, draw);
  }
}
