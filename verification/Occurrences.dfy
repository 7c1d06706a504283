/** The runs of a schedule are its firings, one each. */
module Occurrences {
  import opened Basics
  import opened Tables
  import opened Transactions
  import opened Shapes
  import opened World
  import opened Moves
  import opened Journal
  import opened Schedules

  import opened Guarantees

  /** Formatted firing times are not empty and differ for different times. */
  ghost predicate Stamps(env: Env) {
    (forall t :: env.stamp(t) != "") && forall s, t :: env.stamp(s) == env.stamp(t) ==> s == t
  }

  function FiringTimes(w: World, t: (Id, Id)): seq<Time> { Times(SegmentsOf(w.firings.rows, t)) }

  /** The external id is the stamp of one of the times. */
  ghost predicate StampOf(env: Env, times: seq<Time>, external: Id) {
    exists i :: 0 <= i < |times| && external == env.stamp(times[i])
  }

  /** Every event under the trigger's key is one of its firings. */
  ghost predicate Own(env: Env, events: map<Id, Event>, times: seq<Time>, t: (Id, Id)) {
    forall e :: e in events && events[e].key == Plain(t.0, t.1) ==> StampOf(env, times, events[e].external)
  }

  /** The key is used by nothing but the schedule: outside deliveries name no schedule, the trigger is a
      schedule whenever it exists, and its name is not one of the two that other runs use. */
  predicate Reserved(w: World, a: Action, t: (Id, Id)) {
    && t.1 != "manual" && t.1 != "deferred"
    && (t in w.db.triggers.rows ==> w.db.triggers.rows[t].kind == Schedule)
    && (a.Intake? && a.intake.Ingesting? ==> a.intake.kind != Schedule)
  }

  ghost predicate ReservedRun(env: Env, w: World, actions: seq<Action>, t: (Id, Id))
    decreases |actions|
  {
    actions != [] ==> Reserved(w, actions[0], t) && ReservedRun(env, Next(env, w, actions[0]), actions[1..], t)
  }

  // ---------------------------------------------------------------- one step

  /** No event under the trigger's key is new. */
  ghost predicate NoneNew(db: Db, db': Db, t: (Id, Id)) {
    forall e :: e in db'.events.rows && db'.events.rows[e].key == Plain(t.0, t.1) ==>
      e in db.events.rows && db'.events.rows[e] == db.events.rows[e]
  }

  lemma WorkNoneNew(w: World, a: WorkerAction, t: (Id, Id))
    requires t.1 != "deferred"
    ensures NoneNew(w.db, Working(w, a).db, t)
  {
    if !a.Completing? {
      if Passes(w, a) && !a.Forgetting? { ProgressShape(w, a); } else { RefusedShape(w, a); }
    }
  }

  lemma IntakeNoneNew(w: World, a: IntakeAction, t: (Id, Id))
    requires Reserved(w, Intake(a), t)
    ensures NoneNew(w.db, TakingIn(w.db, a), t)
  {
    match a
    case Ingesting(automation, trigger, kind, external, generated, eventId, runId) =>
      IngestShape(w.db, automation, trigger, kind, external, generated, eventId, runId);
      assert (automation, trigger) == t ==> !TriggerOpen(w.db, automation, trigger, kind);
    case Starting(automation, external, generated, expected, eventId, runId) =>
      ManualShape(w.db, automation, external, generated, expected, eventId, runId);
    case Answering(approval, replayKey, expected, action, supplied, eventId, runId) =>
      AnswerShape(w.db, approval, replayKey, expected, action, supplied, eventId, runId);
    case Expiring =>
  }

  /** A firing adds its time, and at most the event stamped with it. */
  lemma FireOwn(env: Env, w: World, f: Firing, t: (Id, Id))
    requires Stamps(env) && Scheduled(env, w) && Own(env, w.db.events.rows, FiringTimes(w, t), t)
    ensures var w' := FireStep(env, w, f); Own(env, w'.db.events.rows, FiringTimes(w', t), t)
  {
    var w' := FireStep(env, w, f);
    FireShape(env, w.db, f.trigger, f.eventId, f.runId);
    if Fires(w.db, f.trigger) && FireOne(env, w.db, f.trigger, f.eventId, f.runId).result.Ok? {
      FireLogs(env, w, f);
      FireStamped(env, w.db, f.trigger, f.eventId, f.runId);
      var at := w.db.triggers.rows[f.trigger].nextFire.value;
      forall e | e in w'.db.events.rows && w'.db.events.rows[e].key == Plain(t.0, t.1)
        ensures StampOf(env, FiringTimes(w', t), w'.db.events.rows[e].external)
      {
        if e in w.db.events.rows {
          assert StampOf(env, FiringTimes(w, t), w.db.events.rows[e].external);
          StampStays(env, FiringTimes(w, t), FiringTimes(w', t), w.db.events.rows[e].external);
        } else {
          assert FiringTimes(w', t)[|FiringTimes(w, t)|] == at;
        }
      }
    }
  }

  lemma StampStays(env: Env, times: seq<Time>, more: seq<Time>, external: Id)
    requires StampOf(env, times, external) && times <= more
    ensures StampOf(env, more, external)
  {
    var i :| 0 <= i < |times| && external == env.stamp(times[i]);
    assert more[i] == times[i];
  }

  lemma FireLogs(env: Env, w: World, f: Firing)
    requires Scheduled(env, w) && Fires(w.db, f.trigger)
    requires FireOne(env, w.db, f.trigger, f.eventId, f.runId).result.Ok?
    ensures var w' := FireStep(env, w, f);
            && FiringTimes(w', f.trigger) == FiringTimes(w, f.trigger) + [w.db.triggers.rows[f.trigger].nextFire.value]
            && forall t :: t != f.trigger ==> FiringTimes(w', t) == FiringTimes(w, t)
  {
    var t := f.trigger;
    assert Waits(env, w.db.triggers.rows[t], SegmentsOf(w.firings.rows, t));
    TimesAppend(w.firings.rows[t], w.db.triggers.rows[t].nextFire.value);
  }

  /** What a firing inserts, it inserts under its trigger's key and its own stamp. */
  lemma FireStamped(env: Env, db: Db, t: (Id, Id), eventId: Id, runId: Id)
    requires Stamps(env) && Fires(db, t)
    ensures var tx := FireOne(env, db, t, eventId, runId);
            forall e :: e in tx.db.events.rows && e !in db.events.rows ==>
              tx.db.events.rows[e] == Event(Plain(t.0, t.1), env.stamp(db.triggers.rows[t].nextFire.value))
  {
  }

  lemma {:induction false} PassOwn(env: Env, w: World, due: seq<Firing>, t: (Id, Id))
    requires StrictNext(env) && Stamps(env) && Scheduled(env, w) && Own(env, w.db.events.rows, FiringTimes(w, t), t)
    ensures var w' := FireSteps(env, w, due); Own(env, w'.db.events.rows, FiringTimes(w', t), t)
    decreases |due|
  {
    if due != [] {
      FireOwn(env, w, due[0], t);
      FireScheduled(env, w, due[0]);
      PassOwn(env, FireStep(env, w, due[0]), due[1..], t);
    }
  }

  /** Restarting a trigger row fires nothing. */
  lemma RestartTimes(env: Env, w: World, a: ReleaseAction, t: (Id, Id))
    ensures FiringTimes(Switching(env, w, a), t) == FiringTimes(w, t)
  {
    var past, after := SegmentsOf(w.firings.rows, t), SegmentsOf(Switching(env, w, a).firings.rows, t);
    if after != past { TimesRestart(past, after[|past|]); }
  }

  lemma OwnNext(env: Env, w: World, a: Action, t: (Id, Id))
    requires StrictNext(env) && Stamps(env) && Scheduled(env, w) && Reserved(w, a, t)
    requires Own(env, w.db.events.rows, FiringTimes(w, t), t)
    ensures var w' := Next(env, w, a); Own(env, w'.db.events.rows, FiringTimes(w', t), t)
  {
    match a
    case Work(work) =>
      WorkNoneNew(w, work, t);
      WorkFrame(w, work);
    case Intake(intake) => IntakeNoneNew(w, intake, t);
    case Scheduling(due) => PassOwn(env, w, due, t);
    case Release(release) =>
      ReleaseFrame(env, w, release);
      RestartTimes(env, w, release, t);
    case Build(build) => BuildFrame(w, build);
    case Upkeep(upkeep) => UpkeepFrame(w.db, upkeep);
  }

  lemma {:induction false} OwnReach(env: Env, w: World, actions: seq<Action>, t: (Id, Id))
    requires StrictNext(env) && Stamps(env) && Inv(env, w) && LegalRun(env, w, actions) && ReservedRun(env, w, actions, t)
    requires Own(env, w.db.events.rows, FiringTimes(w, t), t)
    ensures var w' := Reach(env, w, actions); Inv(env, w') && Own(env, w'.db.events.rows, FiringTimes(w', t), t)
    decreases |actions|
  {
    if actions != [] {
      OwnNext(env, w, actions[0], t);
      InvNext(env, w, actions[0]);
      OwnReach(env, Next(env, w, actions[0]), actions[1..], t);
    }
  }

  // ---------------------------------------------------------------- runs and firings

  /** The run belongs to the firing at that time. */
  ghost predicate RunOfFiring(env: Env, db: Db, t: (Id, Id), at: Time, run: Id) {
    RunOfKey(db, run, Plain(t.0, t.1), env.stamp(at))
  }

  ghost predicate Made(env: Env, db: Db, t: (Id, Id), at: Time) { exists run :: RunOfFiring(env, db, t, at, run) }

  /** Times rise, each firing has a run, and different firings have different ones. */
  ghost predicate Apart(env: Env, db: Db, t: (Id, Id), times: seq<Time>) {
    && Rising(times) && (forall i :: 0 <= i < |times| ==> Made(env, db, t, times[i]))
    && forall i, j, r, s :: 0 <= i < |times| && RunOfFiring(env, db, t, times[i], r) ==>
         0 <= j < |times| && RunOfFiring(env, db, t, times[j], s) ==> (r == s <==> i == j)
  }

  lemma FiringsRunApart(env: Env, w: World, t: (Id, Id))
    requires Stamps(env) && Scheduled(env, w) && Paired(w.db.events.rows, w.db.runs.rows)
    ensures Apart(env, w.db, t, FiringTimes(w, t))
  {
    var times := FiringTimes(w, t);
    if t in w.firings.rows {
      assert History(env, w.firings.rows[t], w.db.now);
      forall i | 0 <= i < |times| ensures Made(env, w.db, t, times[i]) {
        assert Ran(env, w.db, t, times[i]);
        var run :| RunOfKey(w.db, run, Plain(t.0, t.1), env.stamp(times[i]));
        assert RunOfFiring(env, w.db, t, times[i], run);
      }
    }
  }

  /** The runs under the trigger's key are those of its firings and no others. */
  lemma OnlyFirings(env: Env, w: World, t: (Id, Id), run: Id, external: Id)
    requires Own(env, w.db.events.rows, FiringTimes(w, t), t) && RunOfKey(w.db, run, Plain(t.0, t.1), external)
    ensures exists i :: 0 <= i < |FiringTimes(w, t)| && RunOfFiring(env, w.db, t, FiringTimes(w, t)[i], run)
  {
    var i :| 0 <= i < |FiringTimes(w, t)| && external == env.stamp(FiringTimes(w, t)[i]);
    assert RunOfFiring(env, w.db, t, FiringTimes(w, t)[i], run);
  }

  /** A firing makes a run of its own exactly when its key was not used before. */
  lemma FiringMakesRun(env: Env, w: World, t: (Id, Id), eventId: Id, runId: Id)
    requires Inv(env, w) && Stamps(env) && Fires(w.db, t) && env.next(w.db.triggers.rows[t].cron, FireAt(w.db, t)).Some?
    requires eventId !in w.db.events.rows && runId !in w.db.runs.rows
    ensures var tx := FireOne(env, w.db, t, eventId, runId);
            && tx.result == Ok(!KeyTaken(w.db.events.rows, Plain(t.0, t.1), env.stamp(FireAt(w.db, t))))
            && (tx.result == Ok(true) ==> RunOfFiring(env, tx.db, t, FireAt(w.db, t), runId))
  {
    OpenMakesRun(env, w.db, t, eventId, runId);
  }

  lemma OpenMakesRun(env: Env, db: Db, t: (Id, Id), eventId: Id, runId: Id)
    requires Paired(db.events.rows, db.runs.rows) && Stamps(env) && Fires(db, t)
    requires TriggerOpen(db, t.0, t.1, Schedule) && env.next(db.triggers.rows[t].cron, FireAt(db, t)).Some?
    requires eventId !in db.events.rows && runId !in db.runs.rows
    ensures var tx := FireOne(env, db, t, eventId, runId);
            && tx.result == Ok(!KeyTaken(db.events.rows, Plain(t.0, t.1), env.stamp(FireAt(db, t))))
            && (tx.result == Ok(true) ==> RunOfFiring(env, tx.db, t, FireAt(db, t), runId))
  {
    var stamp := env.stamp(FireAt(db, t));
    var row := db.triggers.rows[t];
    var advanced := db.(triggers := Table(db.triggers.rows[t := row.(nextFire := env.next(row.cron, FireAt(db, t)))]));
    assert TriggerOpen(advanced, t.0, t.1, Schedule);
    if KeyTaken(db.events.rows, Plain(t.0, t.1), stamp) {
      var e :| e in db.events.rows && db.events.rows[e] == Event(Plain(t.0, t.1), stamp);
      assert HasRun(db.runs.rows, e);
      var r :| r in db.runs.rows && db.runs.rows[r].event == e;
      assert RunOfKey(advanced, r, Plain(t.0, t.1), stamp);
    }
  }

  function FireAt(db: Db, t: (Id, Id)): Time
    requires Fires(db, t)
  {
    db.triggers.rows[t].nextFire.value
  }

  /** Under a reserved key it never was: the new time is later than all before it. */
  lemma KeyIsFree(env: Env, w: World, t: (Id, Id))
    requires Stamps(env) && Scheduled(env, w) && Own(env, w.db.events.rows, FiringTimes(w, t), t) && Fires(w.db, t)
    ensures !KeyTaken(w.db.events.rows, Plain(t.0, t.1), env.stamp(FireAt(w.db, t)))
  {
    assert Waits(env, w.db.triggers.rows[t], SegmentsOf(w.firings.rows, t));
    forall e | e in w.db.events.rows ensures w.db.events.rows[e] != Event(Plain(t.0, t.1), env.stamp(FireAt(w.db, t))) {
      if w.db.events.rows[e].key == Plain(t.0, t.1) {
        assert StampOf(env, FiringTimes(w, t), w.db.events.rows[e].external);
      }
    }
  }
}
