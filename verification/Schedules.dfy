/** Schedules fire at consecutive iterates of the next-fire function, and never go back. */
module Schedules {
  import opened Basics
  import opened Tables
  import opened Transactions
  import opened Shapes
  import opened World
  import opened Moves

  import opened Effects

  /** The cron library answers with a later time. */
  ghost predicate StrictNext(env: Env) {
    forall cron, t :: env.next(cron, t).Some? ==> env.next(cron, t).value > t
  }

  ghost predicate OnActive(automations: map<Id, Automation>, triggers: map<(Id, Id), Trigger>) {
    forall t :: t in triggers ==> t.0 in automations && automations[t.0].active == Some(triggers[t].revision)
  }

  /** The n-th firing after `start`. */
  function Iterate(env: Env, cron: string, start: Time, n: nat): Option<Time> {
    if n == 0 then Some(start) else
    var previous := Iterate(env, cron, start, n - 1);
    if previous.None? then None else env.next(cron, previous.value)
  }

  /** No gap and no repeat: the i-th firing of a segment is its i-th iterate. */
  ghost predicate Consecutive(env: Env, s: Segment) {
    forall i :: 0 <= i < |s.fired| ==> Iterate(env, s.cron, s.start, i) == Some(s.fired[i])
  }

  function Times(segments: seq<Segment>): seq<Time> {
    if segments == [] then [] else Times(segments[..|segments| - 1]) + segments[|segments| - 1].fired
  }

  ghost predicate Rising(times: seq<Time>) {
    forall i, j :: 0 <= i < j < |times| ==> times[i] < times[j]
  }

  ghost predicate AllBelow(times: seq<Time>, bound: Time) {
    forall i :: 0 <= i < |times| ==> times[i] <= bound
  }

  ghost predicate History(env: Env, segments: seq<Segment>, now: Time) {
    && (forall i :: 0 <= i < |segments| ==> Consecutive(env, segments[i]))
    && Rising(Times(segments)) && AllBelow(Times(segments), now)
  }

  function SegmentsOf(firings: map<(Id, Id), seq<Segment>>, t: (Id, Id)): seq<Segment> {
    if t in firings then firings[t] else []
  }

  /** A row waits for the next iterate of its last segment, later than anything it ever fired. */
  ghost predicate Waits(env: Env, row: Trigger, segments: seq<Segment>) {
    row.nextFire.Some? ==>
      && segments != []
      && var last := segments[|segments| - 1];
      && last.cron == row.cron && Iterate(env, last.cron, last.start, |last.fired|) == row.nextFire
      && AllBelow(Times(segments), row.nextFire.value - 1)
  }

  ghost predicate OnTime(env: Env, w: World) {
    && (forall t :: t in w.firings.rows ==> History(env, w.firings.rows[t], w.db.now))
    && (forall t :: t in w.db.triggers.rows ==>
          Waits(env, w.db.triggers.rows[t], SegmentsOf(w.firings.rows, t)))
  }

  /** Every firing left its run behind. */
  ghost predicate Ran(env: Env, db: Db, t: (Id, Id), at: Time) {
    env.stamp(at) != "" ==> exists run :: RunOfKey(db, run, Plain(t.0, t.1), env.stamp(at))
  }

  ghost predicate AllRan(env: Env, w: World) {
    forall t :: t in w.firings.rows ==>
      forall i :: 0 <= i < |Times(w.firings.rows[t])| ==> Ran(env, w.db, t, Times(w.firings.rows[t])[i])
  }

  ghost predicate Scheduled(env: Env, w: World) {
    OnActive(w.db.automations.rows, w.db.triggers.rows) && OnTime(env, w) && AllRan(env, w)
  }

  // ---------------------------------------------------------------- firing

  lemma TimesAppend(segments: seq<Segment>, at: Time)
    requires segments != []
    ensures var last := |segments| - 1;
            Times(segments[last := segments[last].(fired := segments[last].fired + [at])]) == Times(segments) + [at]
  {
  }

  lemma FireHistory(env: Env, segments: seq<Segment>, row: Trigger, now: Time)
    requires StrictNext(env) && History(env, segments, now) && Waits(env, row, segments)
    requires row.nextFire.Some? && row.nextFire.value <= now && env.next(row.cron, row.nextFire.value).Some?
    ensures var at := row.nextFire.value;
            var last := |segments| - 1;
            var after := segments[last := segments[last].(fired := segments[last].fired + [at])];
            History(env, after, now) && Waits(env, row.(nextFire := env.next(row.cron, at)), after)
  {
    var at := row.nextFire.value;
    var last := |segments| - 1;
    var after := segments[last := segments[last].(fired := segments[last].fired + [at])];
    TimesAppend(segments, at);
    assert Consecutive(env, segments[last]);
    assert Consecutive(env, after[last]);
  }

  lemma FireOnTime(env: Env, w: World, f: Firing)
    requires StrictNext(env) && OnTime(env, w)
    ensures OnTime(env, FireStep(env, w, f))
  {
    FireShape(env, w.db, f.trigger, f.eventId, f.runId);
    if Fires(w.db, f.trigger) && FireOne(env, w.db, f.trigger, f.eventId, f.runId).result.Ok? {
      var t, row := f.trigger, w.db.triggers.rows[f.trigger];
      assert Waits(env, row, SegmentsOf(w.firings.rows, t));
      FireHistory(env, w.firings.rows[t], row, w.db.now);
      var segments := FireStep(env, w, f).firings.rows[t];
      OthersOnTime(env, w, FireStep(env, w, f), t, row.(nextFire := env.next(row.cron, row.nextFire.value)), segments);
    }
  }

  /** One trigger's row and history change together; the others stay. */
  lemma OthersOnTime(env: Env, w: World, w': World, t: (Id, Id), row: Trigger, segments: seq<Segment>)
    requires OnTime(env, w) && w'.db.now == w.db.now
    requires w'.db.triggers.rows == w.db.triggers.rows[t := row] && w'.firings.rows == w.firings.rows[t := segments]
    requires History(env, segments, w.db.now) && Waits(env, row, segments)
    ensures OnTime(env, w')
  {
  }

  lemma GrowRan(env: Env, db: Db, db': Db, t: (Id, Id), at: Time)
    requires Ran(env, db, t, at) && Grows(db, db')
    ensures Ran(env, db', t, at)
  {
    if env.stamp(at) != "" {
      var run :| RunOfKey(db, run, Plain(t.0, t.1), env.stamp(at));
      assert RunOfKey(db', run, Plain(t.0, t.1), env.stamp(at));
    }
  }

  lemma FireRan(env: Env, w: World, f: Firing)
    requires AllRan(env, w)
    ensures AllRan(env, FireStep(env, w, f))
  {
    FireShape(env, w.db, f.trigger, f.eventId, f.runId);
    var w' := FireStep(env, w, f);
    TakeGrows(w.db, w'.db, f.eventId, f.runId);
    forall t, i | t in w'.firings.rows && 0 <= i < |Times(w'.firings.rows[t])|
      ensures Ran(env, w'.db, t, Times(w'.firings.rows[t])[i])
    {
      var segments := w.firings.rows[t];
      if w'.firings.rows[t] != segments {
        TimesAppend(segments, w.db.triggers.rows[t].nextFire.value);
      }
      if i < |Times(segments)| {
        GrowRan(env, w.db, w'.db, t, Times(segments)[i]);
      }
    }
  }

  // ---------------------------------------------------------------- restarts

  lemma TimesRestart(segments: seq<Segment>, s: Segment)
    requires s.fired == []
    ensures Times(segments + [s]) == Times(segments)
  {
  }

  /** Rows of one automation were replaced or advanced to their first firing after now. */
  ghost predicate Renewed(
    env: Env, before: map<(Id, Id), Trigger>, after: map<(Id, Id), Trigger>, automation: Id, now: Time)
  {
    forall t :: t in after ==>
      || (t in before && after[t] == before[t])
      || (t.0 == automation && (after[t].nextFire.Some? ==> after[t].nextFire == env.next(after[t].cron, now)))
  }

  lemma RestartOne(env: Env, segments: seq<Segment>, row: Trigger, now: Time)
    requires StrictNext(env) && History(env, segments, now)
    requires row.nextFire.Some? && row.nextFire == env.next(row.cron, now)
    ensures var after := segments + [Segment(row.cron, row.nextFire.value, [])];
            History(env, after, now) && Waits(env, row, after)
  {
  }

  lemma RestartOnTime(env: Env, w: World, w': World, automation: Id)
    requires StrictNext(env) && OnTime(env, w) && w'.db.now == w.db.now
    requires Renewed(env, w.db.triggers.rows, w'.db.triggers.rows, automation, w.db.now)
    requires w'.firings.rows == Restarted(w.firings.rows, w.db.triggers.rows, w'.db.triggers.rows, automation)
    ensures OnTime(env, w')
  {
    var before, after := w.db.triggers.rows, w'.db.triggers.rows;
    forall t | t in w'.firings.rows
      ensures History(env, w'.firings.rows[t], w.db.now)
      ensures t in after ==> Waits(env, after[t], w'.firings.rows[t])
    {
      var past := SegmentsOf(w.firings.rows, t);
      assert History(env, past, w.db.now);
      if t in after {
        if t in before && after[t] == before[t] {
          assert Waits(env, before[t], past);
        } else if after[t].nextFire.Some? {
          RestartOne(env, past, after[t], w.db.now);
        }
      }
    }
  }

  lemma RestartRan(env: Env, w: World, w': World, automation: Id)
    requires AllRan(env, w) && w'.db.runs == w.db.runs && w'.db.events == w.db.events
    requires w'.firings.rows == Restarted(w.firings.rows, w.db.triggers.rows, w'.db.triggers.rows, automation)
    ensures AllRan(env, w')
  {
    forall t, i | t in w'.firings.rows && 0 <= i < |Times(w'.firings.rows[t])|
      ensures Ran(env, w'.db, t, Times(w'.firings.rows[t])[i])
    {
      var past := SegmentsOf(w.firings.rows, t);
      if w'.firings.rows[t] != past {
        TimesRestart(past, w'.firings.rows[t][|past|]);
      }
      assert Ran(env, w.db, t, Times(past)[i]);
      SameRan(env, w.db, w'.db, t, Times(past)[i]);
    }
  }

  lemma SameRan(env: Env, db: Db, db': Db, t: (Id, Id), at: Time)
    requires Ran(env, db, t, at) && SameQueue(db, db')
    ensures Ran(env, db', t, at)
  {
    if env.stamp(at) != "" {
      var run :| RunOfKey(db, run, Plain(t.0, t.1), env.stamp(at));
      assert RunOfKey(db', run, Plain(t.0, t.1), env.stamp(at));
    }
  }

  lemma ReplaceRenews(env: Env, db: Db, automation: Id, revision: Id, decls: seq<TriggerDecl>)
    requires ReplaceTriggers(env, db, automation, revision, decls).Some?
    ensures var after := ReplaceTriggers(env, db, automation, revision, decls).value;
            && Renewed(env, db.triggers.rows, after, automation, db.now)
            && (forall t :: t in after ==>
                  if t.0 == automation then after[t].revision == revision
                  else t in db.triggers.rows && after[t] == db.triggers.rows[t])
  {
  }

  lemma SwitchOnActive(db: Db, db': Db, automation: Id, revision: Id)
    requires OnActive(db.automations.rows, db.triggers.rows) && automation in db'.automations.rows
    requires db'.automations.rows == db.automations.rows[automation := db'.automations.rows[automation]]
    requires db'.automations.rows[automation].active == Some(revision)
    requires forall t :: t in db'.triggers.rows ==>
               if t.0 == automation then db'.triggers.rows[t].revision == revision
               else t in db.triggers.rows && db'.triggers.rows[t] == db.triggers.rows[t]
    ensures OnActive(db'.automations.rows, db'.triggers.rows)
  {
  }

  lemma DeployScheduled(env: Env, db: Db, manifest: Manifest, hash: string, path: string, attested: bool, job: Job)
    requires OnActive(db.automations.rows, db.triggers.rows)
    ensures var db' := Deploy(env, db, manifest, hash, path, attested, job).db;
            && OnActive(db'.automations.rows, db'.triggers.rows)
            && Renewed(env, db.triggers.rows, db'.triggers.rows, manifest.name, db.now)
  {
    var tx := Deploy(env, db, manifest, hash, path, attested, job);
    if tx.result.Ok? {
      ReplaceRenews(env, db, manifest.name, RevisionId(hash), manifest.triggers);
      SwitchOnActive(db, tx.db, manifest.name, RevisionId(hash));
    }
  }

  lemma RollbackScheduled(env: Env, db: Db, automation: Id, revision: Id)
    requires OnActive(db.automations.rows, db.triggers.rows)
    ensures var db' := RollbackAutomation(env, db, automation, revision).db;
            && OnActive(db'.automations.rows, db'.triggers.rows)
            && Renewed(env, db.triggers.rows, db'.triggers.rows, automation, db.now)
  {
  }

  lemma EnableScheduled(env: Env, db: Db, automation: Id, enabled: bool)
    requires OnActive(db.automations.rows, db.triggers.rows)
    ensures var db' := SetAutomationEnabled(env, db, automation, enabled).db;
            && OnActive(db'.automations.rows, db'.triggers.rows)
            && Renewed(env, db.triggers.rows, db'.triggers.rows, automation, db.now)
  {
  }

  lemma ReleaseScheduled(env: Env, w: World, a: ReleaseAction)
    requires StrictNext(env) && Scheduled(env, w)
    ensures Scheduled(env, Switching(env, w, a))
  {
    var w' := Switching(env, w, a);
    ReleaseFrame(env, w, a);
    match a
    case Deploying(manifest, hash, path, attested) =>
      DeployScheduled(env, w.db, manifest, hash, path, attested, Direct);
      RestartScheduled(env, w, w', manifest.name);
    case ActivatingBuild(worker, manifest, hash, path, attested) =>
      if worker in w.builders.rows {
        var job := ByDeployment(w.builders.rows[worker].0, worker);
        DeployScheduled(env, w.db, manifest, hash, path, attested, job);
        if Deploy(env, w.db, manifest, hash, path, attested, job).result.Ok? {
          RestartScheduled(env, w, w', manifest.name);
        }
      }
    case RollingBack(automation, revision) =>
      RollbackScheduled(env, w.db, automation, revision);
      RestartScheduled(env, w, w', automation);
    case Enabling(automation, enabled) =>
      EnableScheduled(env, w.db, automation, enabled);
      RestartScheduled(env, w, w', automation);
  }

  lemma RestartScheduled(env: Env, w: World, w': World, automation: Id)
    requires StrictNext(env) && Scheduled(env, w) && w'.db.now == w.db.now
    requires w'.db.runs == w.db.runs && w'.db.events == w.db.events
    requires OnActive(w'.db.automations.rows, w'.db.triggers.rows)
    requires Renewed(env, w.db.triggers.rows, w'.db.triggers.rows, automation, w.db.now)
    requires w'.firings.rows == Restarted(w.firings.rows, w.db.triggers.rows, w'.db.triggers.rows, automation)
    ensures Scheduled(env, w')
  {
    RestartOnTime(env, w, w', automation);
    RestartRan(env, w, w', automation);
  }

  // ---------------------------------------------------------------- everything else

  lemma GrowScheduled(env: Env, w: World, w': World)
    requires Scheduled(env, w) && Grows(w.db, w'.db) && w.db.now <= w'.db.now && w'.firings == w.firings
    requires w'.db.automations == w.db.automations && w'.db.triggers == w.db.triggers
    ensures Scheduled(env, w')
  {
    forall t, i | t in w'.firings.rows && 0 <= i < |Times(w'.firings.rows[t])|
      ensures Ran(env, w'.db, t, Times(w'.firings.rows[t])[i])
    {
      GrowRan(env, w.db, w'.db, t, Times(w.firings.rows[t])[i]);
    }
    forall t | t in w'.firings.rows ensures History(env, w'.firings.rows[t], w'.db.now) {
      assert History(env, w.firings.rows[t], w.db.now);
    }
  }

  lemma FireScheduled(env: Env, w: World, f: Firing)
    requires StrictNext(env) && Scheduled(env, w)
    ensures Scheduled(env, FireStep(env, w, f))
  {
    FireOnTime(env, w, f);
    FireRan(env, w, f);
    FireShape(env, w.db, f.trigger, f.eventId, f.runId);
  }
}
