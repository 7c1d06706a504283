/** What rows say of each other stays true: runs follow their revision's manifest, answers mean their action. */
module Provenance {
  import opened Basics
  import opened Tables
  import opened Transactions
  import opened Shapes
  import opened World
  import opened Moves
  import opened Accepted
  import opened Storage

  /** Every run has the policy and the number of attempts its revision's manifest declares. */
  ghost predicate Configured(runs: map<Id, Run>, revisions: map<Id, Revision>) {
    forall r :: r in runs ==>
      && runs[r].revision in revisions && runs[r].policy == revisions[runs[r].revision].manifest.policy
      && runs[r].maxAttempts == revisions[runs[r].revision].manifest.retries + 1
  }

  /** Every answered approval has the status its recorded action means. */
  ghost predicate Meant(approvals: map<Id, Approval>) {
    forall a :: a in approvals && Resolved(approvals[a]) ==>
      approvals[a].response.Some? && Means(approvals[a].response.value.action, approvals[a].status)
  }

  ghost predicate Told(db: Db) { Configured(db.runs.rows, db.revisions.rows) && Meant(db.approvals.rows) }

  lemma CompleteTold(w: World, worker: Id, state: Option<Value>, control: Control, draw: Draw)
    requires Told(w.db) && Faithful(w.workers.rows, w.db.runs.rows, w.db.revisions.rows)
    ensures Told(CompleteStep(w, worker, state, control, draw).db)
  {
    if worker in w.workers.rows {
      CompleteExactly(w.db, worker, w.workers.rows[worker], state, control, draw);
    }
  }

  lemma WorkTold(w: World, a: WorkerAction)
    requires Told(w.db) && Faithful(w.workers.rows, w.db.runs.rows, w.db.revisions.rows)
    ensures Told(Working(w, a).db)
  {
    WorkFrame(w, a);
    if a.Completing? {
      CompleteTold(w, a.worker, a.state, a.control, a.draw);
    } else if Passes(w, a) && !a.Forgetting? {
      ProgressShape(w, a);
    } else {
      RefusedShape(w, a);
    }
  }

  lemma IntakeTold(db: Db, a: IntakeAction)
    requires Told(db)
    ensures Told(TakingIn(db, a))
  {
    match a
    case Ingesting(automation, trigger, kind, external, generated, eventId, runId) =>
      IngestExactly(db, automation, trigger, kind, external, generated, eventId, runId);
    case Starting(automation, external, generated, expected, eventId, runId) =>
      ManualExactly(db, automation, external, generated, expected, eventId, runId);
    case Answering(approval, replayKey, expected, action, supplied, eventId, runId) =>
      AnswerExactly(db, approval, replayKey, expected, action, supplied, eventId, runId);
    case Expiring => ExpireExactly(db);
  }

  lemma FireTold(env: Env, db: Db, t: (Id, Id), eventId: Id, runId: Id)
    requires Told(db)
    ensures Told(FireOne(env, db, t, eventId, runId).db)
  {
    if Fires(db, t) {
      var row := db.triggers.rows[t];
      var stamp := env.stamp(row.nextFire.value);
      IngestExactly(db.(triggers := Table(db.triggers.rows[t := row.(nextFire := env.next(row.cron, row.nextFire.value))])),
                    t.0, t.1, Schedule, stamp, stamp, eventId, runId);
    }
  }

  lemma {:induction false} PassTold(env: Env, w: World, due: seq<Firing>)
    requires Told(w.db)
    ensures Told(FireSteps(env, w, due).db)
    decreases |due|
  {
    if due != [] {
      FireTold(env, w.db, due[0].trigger, due[0].eventId, due[0].runId);
      PassTold(env, FireStep(env, w, due[0]), due[1..]);
    }
  }

  lemma NextTold(env: Env, w: World, a: Action)
    requires Told(w.db) && Faithful(w.workers.rows, w.db.runs.rows, w.db.revisions.rows)
    ensures Told(Next(env, w, a).db)
  {
    match a
    case Work(work) => WorkTold(w, work);
    case Intake(intake) => IntakeTold(w.db, intake);
    case Scheduling(due) => PassTold(env, w, due);
    case Release(release) => ReleaseFrame(env, w, release);
    case Build(build) => BuildFrame(w, build);
    case Upkeep(upkeep) => UpkeepFrame(w.db, upkeep);
  }
}
