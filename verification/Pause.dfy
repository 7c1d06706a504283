/** A pause holds until it is lifted: no trigger of a paused automation makes a run. */
module Pause {
  import opened Basics
  import opened Tables
  import opened Transactions
  import opened Shapes
  import opened World
  import opened Moves
  import opened Effects
  import opened Schedules
  import opened Occurrences
  import opened Permanence

  ghost predicate Paused(db: Db, automation: Id) {
    automation in db.automations.rows && !db.automations.rows[automation].enabled
  }

  lemma DeployPaused(env: Env, db: Db, manifest: Manifest, hash: string, path: string, attested: bool, job: Job, automation: Id)
    requires automation in db.automations.rows
    ensures var db' := Deploy(env, db, manifest, hash, path, attested, job).db;
            automation in db'.automations.rows && db'.automations.rows[automation].enabled == db.automations.rows[automation].enabled
  {
  }

  /** Only the operator's switch pauses or resumes an automation; deployments and rollbacks leave it as it is. */
  lemma SwitchNext(env: Env, w: World, a: Action, automation: Id)
    requires automation in w.db.automations.rows
    requires a != Release(Enabling(automation, !w.db.automations.rows[automation].enabled))
    ensures var db' := Next(env, w, a).db;
            automation in db'.automations.rows && db'.automations.rows[automation].enabled == w.db.automations.rows[automation].enabled
  {
    match a
    case Work(work) => WorkFrame(w, work);
    case Intake(intake) => IntakeFrame(w.db, intake);
    case Scheduling(due) => PassAutomations(env, w, due);
    case Release(release) => SwitchRelease(env, w, release, automation);
    case Build(build) => BuildFrame(w, build);
    case Upkeep(upkeep) => UpkeepFrame(w.db, upkeep);
  }

  lemma SwitchRelease(env: Env, w: World, a: ReleaseAction, automation: Id)
    requires automation in w.db.automations.rows
    requires a != Enabling(automation, !w.db.automations.rows[automation].enabled)
    ensures var db' := Switching(env, w, a).db;
            automation in db'.automations.rows && db'.automations.rows[automation].enabled == w.db.automations.rows[automation].enabled
  {
    match a
    case Deploying(manifest, hash, path, attested) => DeployPaused(env, w.db, manifest, hash, path, attested, Direct, automation);
    case ActivatingBuild(worker, manifest, hash, path, attested) =>
      if worker in w.builders.rows {
        DeployPaused(env, w.db, manifest, hash, path, attested, ByDeployment(w.builders.rows[worker].0, worker), automation);
      }
    case _ =>
  }

  lemma {:induction false} PassAutomations(env: Env, w: World, due: seq<Firing>)
    ensures FireSteps(env, w, due).db.automations == w.db.automations
    decreases |due|
  {
    if due != [] {
      FireShape(env, w.db, due[0].trigger, due[0].eventId, due[0].runId);
      PassAutomations(env, FireStep(env, w, due[0]), due[1..]);
    }
  }

  /** No event under the trigger's key is new, and no firing of it. */
  ghost predicate Silent(w: World, w': World, t: (Id, Id)) {
    NoneNew(w.db, w'.db, t) && FiringTimes(w', t) == FiringTimes(w, t)
  }

  lemma {:induction false} SilentPass(env: Env, w: World, due: seq<Firing>, t: (Id, Id))
    requires Paused(w.db, t.0)
    ensures Silent(w, FireSteps(env, w, due), t)
    decreases |due|
  {
    if due != [] {
      FireShape(env, w.db, due[0].trigger, due[0].eventId, due[0].runId);
      SilentPass(env, FireStep(env, w, due[0]), due[1..], t);
    }
  }

  lemma SilentIntake(db: Db, a: IntakeAction, t: (Id, Id))
    requires Paused(db, t.0) && t.1 != "manual"
    ensures NoneNew(db, TakingIn(db, a), t)
  {
    match a
    case Ingesting(automation, trigger, kind, external, generated, eventId, runId) =>
      IngestShape(db, automation, trigger, kind, external, generated, eventId, runId);
    case Starting(automation, external, generated, expected, eventId, runId) =>
      ManualShape(db, automation, external, generated, expected, eventId, runId);
    case Answering(approval, replayKey, expected, action, supplied, eventId, runId) =>
      AnswerShape(db, approval, replayKey, expected, action, supplied, eventId, runId);
    case Expiring =>
  }

  lemma SilentNext(env: Env, w: World, a: Action, t: (Id, Id))
    requires Paused(w.db, t.0) && t.1 != "manual" && t.1 != "deferred"
    ensures Silent(w, Next(env, w, a), t)
  {
    match a
    case Work(work) => WorkNoneNew(w, work, t); WorkFrame(w, work);
    case Intake(intake) => SilentIntake(w.db, intake, t);
    case Scheduling(due) => SilentPass(env, w, due, t);
    case Release(release) => ReleaseFrame(env, w, release); RestartTimes(env, w, release, t);
    case Build(build) => BuildFrame(w, build);
    case Upkeep(upkeep) => UpkeepFrame(w.db, upkeep);
  }

  /** Whatever happens short of resuming it, a paused automation stays paused: its triggers take in no event
      and its schedules fire nothing.  The keys of manual and deferred runs are not its triggers'. */
  lemma {:induction false} PauseHolds(env: Env, w: World, actions: seq<Action>, t: (Id, Id))
    requires Paused(w.db, t.0) && t.1 != "manual" && t.1 != "deferred" && Release(Enabling(t.0, true)) !in actions
    ensures Paused(Reach(env, w, actions).db, t.0) && Silent(w, Reach(env, w, actions), t)
    decreases |actions|
  {
    if actions != [] {
      var w' := Next(env, w, actions[0]);
      SwitchNext(env, w, actions[0], t.0);
      SilentNext(env, w, actions[0], t);
      PauseHolds(env, w', actions[1..], t);
    }
  }
}
