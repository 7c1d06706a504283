/** Approvals: answered at most once, with exactly one continuation pinned to their revision. */
module Approvals {
  import opened Basics
  import opened Tables
  import opened Transactions
  import opened Shapes
  import opened World

  import opened Moves

  /** The run that continues an answered approval. */
  ghost predicate Continues(db: Db, id: Id, run: Id) {
    && id in db.approvals.rows && run in db.runs.rows && db.runs.rows[run].event in db.events.rows
    && var a := db.approvals.rows[id];
    && db.runs.rows[run].automation == a.automation && db.runs.rows[run].revision == a.revision
    && db.events.rows[db.runs.rows[run].event].key == ForApproval(a.automation, id)
  }

  ghost predicate Recorded(db: Db, id: Id)
    requires id in db.approvals.rows
  {
    var a := db.approvals.rows[id];
    && (Resolved(a) <==> a.response.Some?) && (Resolved(a) <==> a.actionRun.Some?)
    && (Resolved(a) ==> Continues(db, id, a.actionRun.value))
  }

  /** An approval event belongs to an answered approval, and to its one continuation. */
  ghost predicate Caused(db: Db, e: Id)
    requires e in db.events.rows
  {
    db.events.rows[e].key.ForApproval? ==>
      var id := db.events.rows[e].key.approval;
      && id in db.approvals.rows && db.approvals.rows[id].actionRun.Some?
      && db.approvals.rows[id].actionRun.value in db.runs.rows
      && db.runs.rows[db.approvals.rows[id].actionRun.value].event == e
  }

  ghost predicate Distinct(approvals: map<Id, Approval>) {
    forall a, b :: a in approvals && b in approvals && a != b ==>
      && approvals[a].requestedBy != approvals[b].requestedBy
      && (approvals[a].automation == approvals[b].automation ==> approvals[a].key != approvals[b].key)
  }

  ghost predicate Answerwise(db: Db) {
    && (forall id :: id in db.approvals.rows ==> Recorded(db, id))
    && (forall e :: e in db.events.rows ==> Caused(db, e))
    && Distinct(db.approvals.rows)
  }

  // ---------------------------------------------------------------- runs come and progress

  lemma InsertAnswerwise(db: Db, db': Db, eventId: Id, runId: Id)
    requires Answerwise(db) && Inserted(db, db', eventId, runId) && db'.approvals == db.approvals
    requires db'.events.rows[eventId].key.Plain?
    ensures Answerwise(db')
  {
  }

  lemma UpdateAnswerwise(db: Db, db': Db, id: Id)
    requires Answerwise(db) && Updated(db, db', id) && db'.approvals == db.approvals
    ensures Answerwise(db')
  {
  }

  lemma OpenAnswerwise(db: Db, db': Db, id: Id)
    requires Answerwise(db) && SameQueue(db, db') && id !in db.approvals.rows && id in db'.approvals.rows
    requires db'.approvals.rows == db.approvals.rows[id := db'.approvals.rows[id]]
    requires var a := db'.approvals.rows[id];
             && a.status == Pending && a.response == None && a.actionRun == None
             && !ApprovalKeyTaken(db.approvals.rows, a.automation, a.key, a.requestedBy)
    ensures Answerwise(db')
  {
  }

  lemma CompleteAnswerwise(w: World, worker: Id, state: Option<Value>, control: Control, draw: Draw)
    requires Answerwise(w.db)
    ensures Answerwise(CompleteStep(w, worker, state, control, draw).db)
  {
    var w' := CompleteStep(w, worker, state, control, draw);
    if worker in w.workers.rows {
      var claim := w.workers.rows[worker];
      CompleteShape(w.db, worker, claim, state, control, draw);
      if CompleteRun(w.db, worker, claim, state, control, draw).result.Ok? {
        var closed := Closed(w.db, claim);
        UpdateAnswerwise(w.db, closed, claim.run);
        var mid := w'.db.(approvals := w.db.approvals);
        if control.defer.Some? {
          InsertAnswerwise(closed, mid, draw.eventId, draw.runId);
        } else {
          SameAnswerwise(closed, mid);
        }
        if control.approval.Some? {
          OpenAnswerwise(mid, w'.db, draw.approvalId);
        }
      }
    }
  }

  lemma SameAnswerwise(db: Db, db': Db)
    requires Answerwise(db) && SameQueue(db, db') && db'.approvals == db.approvals
    ensures Answerwise(db')
  {
  }

  lemma WorkAnswerwise(w: World, a: WorkerAction)
    requires Answerwise(w.db)
    ensures Answerwise(Working(w, a).db)
  {
    if a.Completing? {
      CompleteAnswerwise(w, a.worker, a.state, a.control, a.draw);
    } else if Passes(w, a) && !a.Forgetting? {
      ProgressShape(w, a);
      UpdateAnswerwise(w.db, Working(w, a).db, Target(w, a));
    } else {
      RefusedShape(w, a);
    }
  }

  // ---------------------------------------------------------------- answers and expiry

  lemma AnsweredAnswerwise(
    db: Db, db': Db, id: Id, replayKey: Id, action: Id, eventId: Id, runId: Id)
    requires Answerwise(db) && Answered(db, db', id, replayKey, action, eventId, runId)
    ensures Answerwise(db')
  {
    assert Recorded(db, id);
    forall a | a in db'.approvals.rows ensures Recorded(db', a) {
      if a != id { assert Recorded(db, a); }
    }
    forall e | e in db'.events.rows ensures Caused(db', e) {
      if e != eventId { assert Caused(db, e); }
    }
  }

  lemma ExpireAnswerwise(db: Db, db': Db)
    requires Answerwise(db) && SameQueue(db, db') && db'.approvals.rows.Keys == db.approvals.rows.Keys
    requires forall a :: a in db.approvals.rows ==>
               || db'.approvals.rows[a] == db.approvals.rows[a]
               || (db.approvals.rows[a].status == Pending
                   && db'.approvals.rows[a] == db.approvals.rows[a].(status := Expired))
    ensures Answerwise(db')
  {
  }

  lemma IntakeAnswerwise(db: Db, a: IntakeAction)
    requires Answerwise(db)
    ensures Answerwise(TakingIn(db, a))
  {
    var db' := TakingIn(db, a);
    match a
    case Ingesting(automation, trigger, kind, external, generated, eventId, runId) =>
      IngestShape(db, automation, trigger, kind, external, generated, eventId, runId);
      if SameQueue(db, db') { SameAnswerwise(db, db'); } else { InsertAnswerwise(db, db', eventId, runId); }
    case Starting(automation, external, generated, expected, eventId, runId) =>
      ManualShape(db, automation, external, generated, expected, eventId, runId);
      if SameQueue(db, db') { SameAnswerwise(db, db'); } else { InsertAnswerwise(db, db', eventId, runId); }
    case Answering(approval, replayKey, expected, action, supplied, eventId, runId) =>
      AnswerShape(db, approval, replayKey, expected, action, supplied, eventId, runId);
      if Answered(db, db', approval, replayKey, action, eventId, runId) {
        AnsweredAnswerwise(db, db', approval, replayKey, action, eventId, runId);
      } else {
        ExpireAnswerwise(db, db');
      }
    case Expiring => ExpireAnswerwise(db, db');
  }

  lemma FireAnswerwise(env: Env, w: World, f: Firing)
    requires Answerwise(w.db)
    ensures Answerwise(FireStep(env, w, f).db)
  {
  }

  // ---------------------------------------------------------------- what ends answerability

  ghost predicate Answerable(db: Db, id: Id) {
    && id in db.approvals.rows
    && var a := db.approvals.rows[id];
    && OpenOn(db, id, a.automation, a.revision)
    && a.automation in db.automations.rows && db.automations.rows[a.automation].active == Some(a.revision)
  }

  /** The answer passes every check after the ones on the approval itself. */
  ghost predicate AnswerTaken(db: Db, id: Id, a: IntakeAction)
    requires id in db.approvals.rows && a.Answering?
  {
    var approval := db.approvals.rows[id];
    && a.expected != "" && a.expected == approval.revision && approval.revision in db.revisions.rows
    && ValidResponse(approval.fields, approval.actions, a.action, a.supplied).Some? && Decision(a.action).Some?
    && !Refused(db, Event(ForApproval(approval.automation, id), a.replayKey), a.eventId, a.runId)
  }

  /** The rollback leaves the approval's revision for another one it accepts. */
  predicate RollsAway(env: Env, db: Db, id: Id, automation: Id, revision: Id)
    requires id in db.approvals.rows
  {
    && automation == db.approvals.rows[id].automation && revision != db.approvals.rows[id].revision
    && revision in db.revisions.rows && db.revisions.rows[revision].automation == automation
    && db.revisions.rows[revision].path != ""
    && ReplaceTriggers(env, db, automation, revision, db.revisions.rows[revision].manifest.triggers).Some?
  }

  /** The deployment leaves the approval's revision for another one, by a job allowed to strand approvals. */
  predicate DeploysAway(
    env: Env, db: Db, id: Id, manifest: Manifest, hash: string, path: string, attested: bool, job: Job)
    requires id in db.approvals.rows
  {
    && attested && ValidHash(hash) && manifest.name == db.approvals.rows[id].automation
    && RevisionId(hash) != db.approvals.rows[id].revision && StrandAllowed(db, JobId(job))
    && UpsertRevision(db, RevisionId(hash), manifest, hash, path).Some?
    && ReplaceTriggers(env, db, manifest.name, RevisionId(hash), manifest.triggers).Some?
    && (forall n :: n in manifest.secrets ==> n in db.secrets.all)
    && job.ByDeployment? && Activatable(db, job.deployment, job.worker)
  }

  /** What ends the answerability of an approval, by the guards of the transactions concerned. */
  ghost predicate Ends(env: Env, w: World, a: Action, id: Id)
    requires id in w.db.approvals.rows
  {
    match a
    case Intake(intake) => intake.Answering? && intake.approval == id && AnswerTaken(w.db, id, intake)
    case Upkeep(Tick(elapsed)) => w.db.approvals.rows[id].expiresAt <= w.db.now + elapsed
    case Release(RollingBack(automation, revision)) => RollsAway(env, w.db, id, automation, revision)
    case Release(ActivatingBuild(worker, manifest, hash, path, attested)) =>
      && worker in w.builders.rows
      && DeploysAway(env, w.db, id, manifest, hash, path, attested, ByDeployment(w.builders.rows[worker].0, worker))
    case _ => false
  }

  lemma RollbackAnswerable(env: Env, db: Db, automation: Id, revision: Id, id: Id)
    requires Answerable(db, id)
    ensures Answerable(RollbackAutomation(env, db, automation, revision).db, id) <==>
              !RollsAway(env, db, id, automation, revision)
  {
  }

  lemma DeployAnswerable(
    env: Env, db: Db, manifest: Manifest, hash: string, path: string, attested: bool, job: Job, id: Id)
    requires Answerable(db, id)
    ensures Answerable(Deploy(env, db, manifest, hash, path, attested, job).db, id) <==>
              !DeploysAway(env, db, id, manifest, hash, path, attested, job)
  {
    var tx := Deploy(env, db, manifest, hash, path, attested, job);
    if tx.result.Ok? && db.approvals.rows[id].automation == manifest.name {
      assert OpenOn(db, id, manifest.name, db.automations.rows[manifest.name].active.value);
    }
  }

  lemma ReleaseAnswerable(env: Env, w: World, a: ReleaseAction, id: Id)
    requires Answerable(w.db, id)
    ensures Answerable(Switching(env, w, a).db, id) <==> !Ends(env, w, Release(a), id)
  {
    match a
    case Deploying(manifest, hash, path, attested) =>
      DeployAnswerable(env, w.db, manifest, hash, path, attested, Direct, id);
    case ActivatingBuild(worker, manifest, hash, path, attested) =>
      if worker in w.builders.rows {
        DeployAnswerable(env, w.db, manifest, hash, path, attested, ByDeployment(w.builders.rows[worker].0, worker), id);
      }
    case RollingBack(automation, revision) => RollbackAnswerable(env, w.db, automation, revision, id);
    case Enabling(automation, enabled) =>
  }

  lemma WorkAnswerable(w: World, a: WorkerAction, id: Id)
    requires Answerable(w.db, id)
    ensures Answerable(Working(w, a).db, id)
  {
  }

  lemma AnswerAnswerable(db: Db, a: IntakeAction, id: Id)
    requires Answerable(db, id) && a.Answering?
    ensures Answerable(TakingIn(db, a), id) <==> !(a.approval == id && AnswerTaken(db, id, a))
  {
  }

  lemma IntakeAnswerable(db: Db, a: IntakeAction, id: Id)
    requires Answerable(db, id) && !a.Answering?
    ensures Answerable(TakingIn(db, a), id)
  {
  }

  lemma {:induction false} FireAnswerable(env: Env, w: World, due: seq<Firing>, id: Id)
    requires Answerable(w.db, id)
    ensures Answerable(FireSteps(env, w, due).db, id)
    decreases |due|
  {
    if due != [] {
      FireShape(env, w.db, due[0].trigger, due[0].eventId, due[0].runId);
      FireAnswerable(env, FireStep(env, w, due[0]), due[1..], id);
    }
  }

  /** An answerable approval stays answerable exactly until it is answered, its time comes, its automation
      is rolled back onto another revision, or a job allowed to strand it activates another revision. */
  lemma AnswerableUntil(env: Env, w: World, a: Action, id: Id)
    requires Answerable(w.db, id)
    ensures Answerable(Next(env, w, a).db, id) <==> !Ends(env, w, a, id)
  {
    match a
    case Work(work) => WorkAnswerable(w, work, id);
    case Intake(intake) => if intake.Answering? { AnswerAnswerable(w.db, intake, id); } else { IntakeAnswerable(w.db, intake, id); }
    case Scheduling(due) => FireAnswerable(env, w, due, id);
    case Release(release) => ReleaseAnswerable(env, w, release, id);
    case Build(build) => BuildFrame(w, build);
    case Upkeep(upkeep) => UpkeepFrame(w.db, upkeep);
  }

  // ---------------------------------------------------------------- how an approval record moves

  /** A record stays, expires once its time has come, or is answered while answerable. */
  ghost predicate Evolves(db: Db, db': Db, id: Id)
    requires id in db.approvals.rows
  {
    && id in db'.approvals.rows
    && var a, a' := db.approvals.rows[id], db'.approvals.rows[id];
    || a' == a
    || (a.status == Pending && a.expiresAt <= db.now && a' == a.(status := Expired))
    || (&& Answerable(db, id) && Resolved(a')
        && a' == a.(status := a'.status, response := a'.response, actionRun := a'.actionRun))
  }

  lemma IntakeMoves(db: Db, a: IntakeAction, id: Id)
    requires id in db.approvals.rows
    ensures Evolves(db, TakingIn(db, a), id)
  {
  }

  lemma WorkMoves(w: World, a: WorkerAction, id: Id)
    requires id in w.db.approvals.rows
    ensures id in Working(w, a).db.approvals.rows && Working(w, a).db.approvals.rows[id] == w.db.approvals.rows[id]
  {
  }

  lemma {:induction false} FireMoves(env: Env, w: World, due: seq<Firing>)
    ensures FireSteps(env, w, due).db.approvals == w.db.approvals
    decreases |due|
  {
    if due != [] {
      FireShape(env, w.db, due[0].trigger, due[0].eventId, due[0].runId);
      FireMoves(env, FireStep(env, w, due[0]), due[1..]);
    }
  }

  lemma ApprovalMoves(env: Env, w: World, a: Action, id: Id)
    requires id in w.db.approvals.rows
    ensures Evolves(w.db, Next(env, w, a).db, id)
  {
    match a
    case Work(work) => WorkMoves(w, work, id);
    case Intake(intake) => IntakeMoves(w.db, intake, id);
    case Scheduling(due) => FireMoves(env, w, due);
    case Release(release) => ReleaseFrame(env, w, release);
    case Build(build) => BuildFrame(w, build);
    case Upkeep(upkeep) => UpkeepFrame(w.db, upkeep);
  }

  /** An approval that is no longer pending is final: every later world holds the same record. */
  lemma {:induction false} AnswersStand(env: Env, w: World, actions: seq<Action>, id: Id)
    requires id in w.db.approvals.rows && w.db.approvals.rows[id].status != Pending
    ensures var w' := Reach(env, w, actions);
            id in w'.db.approvals.rows && w'.db.approvals.rows[id] == w.db.approvals.rows[id]
    decreases |actions|
  {
    if actions != [] {
      ApprovalMoves(env, w, actions[0], id);
      AnswersStand(env, Next(env, w, actions[0]), actions[1..], id);
    }
  }
}
