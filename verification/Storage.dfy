/** Retained storage: nothing that can still execute or be rolled back to dangles.

    Every active revision and the revision of every queued or running run keeps a recorded
    artifact path, and every revision with a recorded path has all its secrets.
  */
module Storage {
  import opened Basics
  import opened Tables
  import opened Transactions
  import opened Shapes
  import opened World

  import opened Moves

  ghost predicate ActiveStored(automations: map<Id, Automation>, revisions: map<Id, Revision>) {
    forall a :: a in automations && automations[a].active.Some? ==>
      var r := automations[a].active.value;
      r in revisions && revisions[r].automation == a && revisions[r].path != ""
  }

  ghost predicate RunsStored(runs: map<Id, Run>, revisions: map<Id, Revision>) {
    forall r :: r in runs ==>
      && runs[r].revision in revisions && revisions[runs[r].revision].automation == runs[r].automation
      && (Live(runs[r]) ==> revisions[runs[r].revision].path != "")
  }

  ghost predicate RevisionsKeyed(revisions: map<Id, Revision>) {
    forall r :: r in revisions ==>
      && |revisions[r].contentHash| == 64 && r == RevisionId(revisions[r].contentHash)
      && revisions[r].manifest.name == revisions[r].automation
  }

  ghost predicate SecretsBound(revisions: map<Id, Revision>, refs: set<(Id, Id)>) {
    forall r :: r in revisions && revisions[r].path != "" ==>
      forall n :: n in revisions[r].manifest.secrets ==> (r, n) in refs
  }

  ghost predicate SecretsHeld(refs: set<(Id, Id)>, secrets: set<Id>) {
    forall p :: p in refs ==> p.1 in secrets
  }

  ghost predicate Stored(db: Db) {
    && ActiveStored(db.automations.rows, db.revisions.rows)
    && RunsStored(db.runs.rows, db.revisions.rows)
    && RevisionsKeyed(db.revisions.rows)
    && SecretsBound(db.revisions.rows, db.secretRefs.all)
    && SecretsHeld(db.secretRefs.all, db.secrets.all)
  }

  /** A worker's copy of the claimed row is right about everything that never changes. */
  ghost predicate Faithful(workers: map<Id, Claim>, runs: map<Id, Run>, revisions: map<Id, Revision>) {
    forall k :: k in workers ==>
      var c := workers[k];
      && c.run in runs && c.automation == runs[c.run].automation && c.revision == runs[c.run].revision
      && c.maxAttempts == runs[c.run].maxAttempts
      && c.revision in revisions && c.manifest == revisions[c.revision].manifest
  }

  // ---------------------------------------------------------------- runs

  lemma TakeStored(db: Db, db': Db, eventId: Id, runId: Id)
    requires Stored(db) && TookIn(db, db', eventId, runId) && SameRest(db, db')
    ensures Stored(db')
  {
  }

  lemma UpdateStored(db: Db, db': Db, id: Id)
    requires RunsStored(db.runs.rows, db.revisions.rows) && Updated(db, db', id)
    requires Live(db'.runs.rows[id]) ==> Live(db.runs.rows[id])
    ensures RunsStored(db'.runs.rows, db.revisions.rows)
  {
  }

  lemma ProgressStored(w: World, a: WorkerAction)
    requires Stored(w.db) && !a.Completing?
    ensures Stored(Working(w, a).db)
  {
    WorkFrame(w, a);
    if Passes(w, a) && !a.Forgetting? {
      ProgressShape(w, a);
      UpdateStored(w.db, Working(w, a).db, Target(w, a));
    } else {
      RefusedShape(w, a);
    }
  }

  lemma CompleteStored(w: World, worker: Id, state: Option<Value>, control: Control, draw: Draw)
    requires Stored(w.db) && Faithful(w.workers.rows, w.db.runs.rows, w.db.revisions.rows)
    ensures Stored(CompleteStep(w, worker, state, control, draw).db)
  {
  }

  lemma IntakeStored(db: Db, a: IntakeAction)
    requires Stored(db)
    ensures Stored(TakingIn(db, a))
  {
    match a
    case Ingesting(automation, trigger, kind, external, generated, eventId, runId) =>
      IngestShape(db, automation, trigger, kind, external, generated, eventId, runId);
      TakeStored(db, TakingIn(db, a), eventId, runId);
    case Starting(automation, external, generated, expected, eventId, runId) =>
      ManualShape(db, automation, external, generated, expected, eventId, runId);
      TakeStored(db, TakingIn(db, a), eventId, runId);
    case Answering(approval, replayKey, expected, action, supplied, eventId, runId) =>
      AnswerShape(db, approval, replayKey, expected, action, supplied, eventId, runId);
      TakeStored(db, TakingIn(db, a), eventId, runId);
    case Expiring =>
  }

  lemma FireStored(env: Env, w: World, f: Firing)
    requires Stored(w.db)
    ensures Stored(FireStep(env, w, f).db)
  {
    FireShape(env, w.db, f.trigger, f.eventId, f.runId);
    TakeStored(w.db, FireStep(env, w, f).db, f.eventId, f.runId);
  }

  // ---------------------------------------------------------------- revisions and secrets

  lemma DeployStored(env: Env, db: Db, manifest: Manifest, hash: string, path: string, attested: bool, job: Job)
    requires Stored(db) && path != "" && HashDetermines(db, manifest, hash)
    ensures Stored(Deploy(env, db, manifest, hash, path, attested, job).db)
  {
    var tx := Deploy(env, db, manifest, hash, path, attested, job);
    if tx.result.Ok? {
      var r := RevisionId(hash);
      var row := tx.db.revisions.rows[r];
      DeployRow(env, db, manifest, hash, path, attested, job);
      RowStored(db.automations.rows, db.runs.rows, db.revisions.rows, manifest.name, r, row);
      RowBound(db.revisions.rows, db.secretRefs.all, db.secrets.all, r, row);
    }
  }

  /** The revision row an activation leaves, and what it does not touch. */
  lemma DeployRow(env: Env, db: Db, manifest: Manifest, hash: string, path: string, attested: bool, job: Job)
    requires path != "" && HashDetermines(db, manifest, hash)
    requires Deploy(env, db, manifest, hash, path, attested, job).result.Ok?
    ensures var db' := Deploy(env, db, manifest, hash, path, attested, job).db;
            var r := RevisionId(hash);
            && |hash| == 64 && r in db'.revisions.rows && db'.revisions.rows == db.revisions.rows[r := db'.revisions.rows[r]]
            && db'.revisions.rows[r] == Revision(manifest.name, hash, manifest, path)
            && (r in db.revisions.rows ==> db.revisions.rows[r].automation == manifest.name)
            && db'.automations.rows == db.automations.rows[manifest.name :=
                 UpsertAutomation(db, manifest.name).(active := Some(r))]
            && db'.runs == db.runs && db'.secrets == db.secrets
            && db'.secretRefs.all == ReplaceSecretReferences(db.secretRefs.all, r, manifest.secrets)
            && forall n :: n in manifest.secrets ==> n in db.secrets.all
  {
  }

  lemma RowStored(
    automations: map<Id, Automation>, runs: map<Id, Run>, revisions: map<Id, Revision>, name: Id, r: Id, row: Revision)
    requires ActiveStored(automations, revisions) && RunsStored(runs, revisions) && RevisionsKeyed(revisions)
    requires row.automation == name == row.manifest.name && row.path != "" && |row.contentHash| == 64
    requires r == RevisionId(row.contentHash) && (r in revisions ==> revisions[r].automation == name)
    ensures forall a: Automation :: a.active == Some(r) ==> ActiveStored(automations[name := a], revisions[r := row])
    ensures RunsStored(runs, revisions[r := row]) && RevisionsKeyed(revisions[r := row])
  {
  }

  lemma RowBound(revisions: map<Id, Revision>, refs: set<(Id, Id)>, secrets: set<Id>, r: Id, row: Revision)
    requires SecretsBound(revisions, refs) && SecretsHeld(refs, secrets)
    requires forall n :: n in row.manifest.secrets ==> n in secrets
    ensures var refs' := ReplaceSecretReferences(refs, r, row.manifest.secrets);
            SecretsBound(revisions[r := row], refs') && SecretsHeld(refs', secrets)
  {
  }

  lemma RollbackStored(env: Env, db: Db, automation: Id, revision: Id)
    requires Stored(db)
    ensures Stored(RollbackAutomation(env, db, automation, revision).db)
  {
  }

  lemma EnableStored(env: Env, db: Db, automation: Id, enabled: bool)
    requires Stored(db)
    ensures Stored(SetAutomationEnabled(env, db, automation, enabled).db)
  {
  }

  lemma ReleaseStored(env: Env, w: World, a: ReleaseAction)
    requires Stored(w.db) && Legal(w, Release(a))
    ensures Stored(Switching(env, w, a).db)
  {
    match a
    case Deploying(manifest, hash, path, attested) => DeployStored(env, w.db, manifest, hash, path, attested, Direct);
    case ActivatingBuild(worker, manifest, hash, path, attested) =>
      if worker in w.builders.rows {
        DeployStored(env, w.db, manifest, hash, path, attested, ByDeployment(w.builders.rows[worker].0, worker));
      }
    case RollingBack(automation, revision) => RollbackStored(env, w.db, automation, revision);
    case Enabling(automation, enabled) => EnableStored(env, w.db, automation, enabled);
  }

  lemma DetachStored(db: Db, path: string)
    requires Stored(db)
    ensures Stored(DetachArtifact(db, path))
  {
    if !ArtifactProtected(db, path) {
      var db' := DetachArtifact(db, path);
      forall a | a in db.automations.rows && db.automations.rows[a].active.Some?
        ensures db'.revisions.rows[db.automations.rows[a].active.value] == db.revisions.rows[db.automations.rows[a].active.value]
      {
        assert !ProtectedByActive(db, path, db.automations.rows[a].active.value);
      }
      forall r | r in db.runs.rows && Live(db.runs.rows[r])
        ensures db'.revisions.rows[db.runs.rows[r].revision] == db.revisions.rows[db.runs.rows[r].revision]
      {
        assert !ProtectedByRun(db, path, r);
      }
    }
  }

  lemma UpkeepStored(db: Db, a: UpkeepAction)
    requires Stored(db)
    ensures Stored(Keeping(db, a))
  {
    match a
    case DetachingArtifact(path) => DetachStored(db, path);
    case _ =>
  }
}
