/** Every actor of the control plane, interleaved one committed transaction at a time.

    A `World` is the database, what each worker holds in memory, and a history nobody can
    erase.  The history is written beside each transaction and never read by one.
  */
module World {
  import opened Basics
  import opened Tables

  import opened Transactions

  datatype OutcomeKind = Success | Failure | Requeue | Handback

  /** One outcome write that took effect. */
  datatype Outcome = Outcome(
    run: Id, attempt: nat, kind: OutcomeKind, control: Control, automation: Id, stateful: bool)

  /** One committed value of automation state, with the snapshot it was computed from. */
  datatype Commit = Commit(run: Id, attempt: nat, basisVersion: nat, basis: Value, value: Value)

  datatype Activation = Activation(deployment: Id, claim: nat, revision: Id)

  /** The occurrences fired since a trigger row last got a fresh first firing time. */
  datatype Segment = Segment(cron: string, start: Time, fired: seq<Time>)

  datatype World = World(
    db: Db,
    /** Runs being executed, by worker; a worker outside the map is idle. */
    workers: Table<Id, Claim>,
    /** Deployments being processed, by worker, each with the number of its claim. */
    builders: Table<Id, (Id, nat)>,
    /** How often each deployment was claimed. */
    claims: Table<Id, nat>,
    outcomes: seq<Outcome>,
    commits: Table<Id, seq<Commit>>,
    activations: seq<Activation>,
    firings: Table<(Id, Id), seq<Segment>>)

  /** The worker half of the run lease protocol. */
  datatype WorkerAction =
    | Acquiring(worker: Id, id: Id)
    | Renewing(worker: Id)
    | Completing(worker: Id, state: Option<Value>, control: Control, draw: Draw)
    | Failing(worker: Id)
    | Releasing(worker: Id)
    | Forgetting(worker: Id)

  /** What creates runs from outside, and what answers or expires approvals. */
  datatype IntakeAction =
    | Ingesting(automation: Id, trigger: Id, kind: TriggerKind, external: Id, generated: Id, eventId: Id, runId: Id)
    | Starting(automation: Id, external: Id, generated: Id, expected: Id, eventId: Id, runId: Id)
    | Answering(approval: Id, replayKey: Id, expected: Id, action: Id, supplied: map<Id, Option<FieldValue>>,
                eventId: Id, runId: Id)
    | Expiring

  /** What changes the active revision or restarts its triggers. */
  datatype ReleaseAction =
    | Deploying(manifest: Manifest, hash: string, path: string, attested: bool)
    | ActivatingBuild(worker: Id, manifest: Manifest, hash: string, path: string, attested: bool)
    | RollingBack(automation: Id, revision: Id)
    | Enabling(automation: Id, enabled: bool)

  /** The deployment queue, up to but not including activation. */
  datatype BuildAction =
    | Submitting(id: Id, key: Id, source: string, digest: string)
    | Retrying(original: Id, id: Id, key: Id, strand: bool)
    | ClaimingBuild(worker: Id, id: Id)
    | RenewingBuild(worker: Id)
    | Staging(worker: Id, stage: Stage, automation: Id, hash: string)
    | Stepping(worker: Id, stage: Stage)
    | Cancelling(id: Id)
    | ConfirmingCancel(worker: Id)
    | FailingBuild(worker: Id)
    | ForgettingBuild(worker: Id)
    | DetachingSource(path: string)

  datatype UpkeepAction =
    | Tick(elapsed: nat)
    | DetachingArtifact(path: string)
    | PuttingSecret(name: Id)
    | DeletingSecret(name: Id)

  datatype Action =
    | Work(work: WorkerAction)
    | Intake(intake: IntakeAction)
    | Scheduling(due: seq<Firing>)
    | Release(release: ReleaseAction)
    | Build(build: BuildAction)
    | Upkeep(upkeep: UpkeepAction)

  function Init(now: Time): World {
    World(Db(now, Table(map[]), Table(map[]), Table(map[]), Table(map[]), Table(map[]), Table(map[]), Table(map[]),
             Table(map[]), Keys({}), Keys({}), Keys({})),
          Table(map[]), Table(map[]), Table(map[]), [], Table(map[]), [], Table(map[]))
  }

  /** What callers outside the store owe it: a recorded location for what they hand over, and a
      content hash that determines the manifest it was computed over. */
  predicate Legal(w: World, a: Action) {
    match a
    case Release(Deploying(manifest, hash, path, _)) => path != "" && HashDetermines(w.db, manifest, hash)
    case Release(ActivatingBuild(_, manifest, hash, path, _)) => path != "" && HashDetermines(w.db, manifest, hash)
    case Build(Submitting(_, _, source, _)) => source != ""
    case _ => true
  }

  predicate HashDetermines(db: Db, manifest: Manifest, hash: string) {
    forall r :: r in db.revisions.rows && db.revisions.rows[r].automation == manifest.name && db.revisions.rows[r].contentHash == hash
      ==> db.revisions.rows[r].manifest == manifest
  }

  // ---------------------------------------------------------------- history

  function Push<K, V>(m: map<K, seq<V>>, k: K, v: V): map<K, seq<V>> {
    m[k := (if k in m then m[k] else []) + [v]]
  }

  /** Trigger rows that got a first firing time open a segment each. */
  function Restarted(
    firings: map<(Id, Id), seq<Segment>>, before: map<(Id, Id), Trigger>, after: map<(Id, Id), Trigger>, automation: Id)
    : map<(Id, Id), seq<Segment>>
  {
    map t | t in firings.Keys + after.Keys ::
      var past := if t in firings then firings[t] else [];
      if t in after && t.0 == automation && after[t].nextFire.Some? && (t !in before || before[t] != after[t])
      then past + [Segment(after[t].cron, after[t].nextFire.value, [])]
      else past
  }

  /** One firing is appended to the segment its trigger row is in. */
  function Fired(firings: map<(Id, Id), seq<Segment>>, t: (Id, Id), at: Option<Time>): map<(Id, Id), seq<Segment>> {
    if at.None? || t !in firings || firings[t] == [] then firings else
    var last := |firings[t]| - 1;
    firings[t := firings[t][last := firings[t][last].(fired := firings[t][last].fired + [at.value])]]
  }

  // ---------------------------------------------------------------- steps

  function Idle<V>(busy: map<Id, V>, worker: Id): map<Id, V> {
    busy - {worker}
  }

  /** The worker is executing a run whose row still names it. */
  predicate Fenced(w: World, worker: Id) {
    worker in w.workers.rows && Holds(w.db, w.workers.rows[worker].run, worker)
  }

  function AcquireStep(w: World, worker: Id, id: Id): World {
    if worker in w.workers.rows then w else
    var tx := AcquireRun(w.db, worker, id, RUN_LEASE);
    if tx.result.Err? then w else w.(db := tx.db, workers := Table(w.workers.rows[worker := tx.result.value]))
  }

  function CompleteStep(w: World, worker: Id, state: Option<Value>, control: Control, draw: Draw): World {
    if worker !in w.workers.rows then w else
    var claim := w.workers.rows[worker];
    var tx := CompleteRun(w.db, worker, claim, state, control, draw);
    var idle := w.(workers := Table(Idle(w.workers.rows, worker)));
    if tx.result.Err? then idle else
    idle.(
      db := tx.db,
      outcomes := w.outcomes + [Outcome(claim.run, claim.attempt, Success, control, claim.automation, claim.manifest.stateful)],
      commits := Table(if claim.manifest.stateful && state.Some?
                 then Push(w.commits.rows, claim.automation,
                           Commit(claim.run, claim.attempt, claim.stateVersion, claim.stateValue, state.value))
                 else w.commits.rows))
  }

  function Reported(claim: Claim, kind: OutcomeKind): Outcome {
    Outcome(claim.run, claim.attempt, kind, Control(None, None, []), claim.automation, claim.manifest.stateful)
  }

  function FailStep(w: World, worker: Id): World {
    if worker !in w.workers.rows then w else
    var claim := w.workers.rows[worker];
    var tx := FailRun(w.db, worker, claim);
    var idle := w.(workers := Table(Idle(w.workers.rows, worker)));
    if tx.result.Err? then idle else
    idle.(db := tx.db,
          outcomes := w.outcomes + [Reported(claim, if tx.result.value then Failure else Requeue)])
  }

  function ReleaseStep(w: World, worker: Id): World {
    if worker !in w.workers.rows then w else
    var claim := w.workers.rows[worker];
    var tx := ReleaseRun(w.db, worker, claim);
    var idle := w.(workers := Table(Idle(w.workers.rows, worker)));
    if tx.result.Err? then idle else
    idle.(db := tx.db, outcomes := w.outcomes + [Reported(claim, Handback)])
  }

  function RenewStep(w: World, worker: Id): World {
    if worker !in w.workers.rows then w else
    w.(db := RenewRunLease(w.db, worker, w.workers.rows[worker].run, RUN_LEASE).db)
  }

  function DeployStep(env: Env, w: World, manifest: Manifest, hash: string, path: string, attested: bool): World {
    var tx := Deploy(env, w.db, manifest, hash, path, attested, Direct);
    w.(db := tx.db, firings := Table(Restarted(w.firings.rows, w.db.triggers.rows, tx.db.triggers.rows, manifest.name)))
  }

  function ActivateStep(
    env: Env, w: World, worker: Id, manifest: Manifest, hash: string, path: string, attested: bool): World
  {
    if worker !in w.builders.rows then w else
    var (id, claim) := w.builders.rows[worker];
    var tx := Deploy(env, w.db, manifest, hash, path, attested, ByDeployment(id, worker));
    if tx.result.Err? then w else
    w.(db := tx.db, builders := Table(Idle(w.builders.rows, worker)),
       activations := w.activations + [Activation(id, claim, tx.result.value)],
       firings := Table(Restarted(w.firings.rows, w.db.triggers.rows, tx.db.triggers.rows, manifest.name)))
  }

  function RollbackStep(env: Env, w: World, automation: Id, revision: Id): World {
    var tx := RollbackAutomation(env, w.db, automation, revision);
    w.(db := tx.db, firings := Table(Restarted(w.firings.rows, w.db.triggers.rows, tx.db.triggers.rows, automation)))
  }

  function EnableStep(env: Env, w: World, automation: Id, enabled: bool): World {
    var tx := SetAutomationEnabled(env, w.db, automation, enabled);
    w.(db := tx.db, firings := Table(Restarted(w.firings.rows, w.db.triggers.rows, tx.db.triggers.rows, automation)))
  }

  /** One due trigger of a scheduler pass. */
  ghost function FireStep(env: Env, w: World, f: Firing): World {
    var tx := FireOne(env, w.db, f.trigger, f.eventId, f.runId);
    if tx.result.Err? || !Fires(w.db, f.trigger) then w.(db := tx.db) else
    w.(db := tx.db, firings := Table(Fired(w.firings.rows, f.trigger, w.db.triggers.rows[f.trigger].nextFire)))
  }

  ghost function FireSteps(env: Env, w: World, due: seq<Firing>): World
    decreases |due|
  {
    if due == [] then w else FireSteps(env, FireStep(env, w, due[0]), due[1..])
  }

  function Working(w: World, a: WorkerAction): World {
    match a
    case Acquiring(worker, id) => AcquireStep(w, worker, id)
    case Renewing(worker) => RenewStep(w, worker)
    case Completing(worker, state, control, draw) => CompleteStep(w, worker, state, control, draw)
    case Failing(worker) => FailStep(w, worker)
    case Releasing(worker) => ReleaseStep(w, worker)
    case Forgetting(worker) => w.(workers := Table(Idle(w.workers.rows, worker)))
  }

  ghost function TakingIn(db: Db, a: IntakeAction): Db {
    match a
    case Ingesting(automation, trigger, kind, external, generated, eventId, runId) =>
      IngestEvent(db, automation, trigger, kind, external, generated, eventId, runId).db
    case Starting(automation, external, generated, expected, eventId, runId) =>
      EnqueueManualRun(db, automation, external, generated, expected, eventId, runId).db
    case Answering(approval, replayKey, expected, action, supplied, eventId, runId) =>
      ResolveApproval(db, approval, replayKey, expected, action, supplied, eventId, runId).db
    case Expiring => ExpireApprovals(db)
  }

  /** A scheduler pass commits all of its firings or none of them. */
  ghost function Passing(env: Env, w: World, due: seq<Firing>): World {
    if FireAll(env, w.db, due).result.Err? then w else FireSteps(env, w, due)
  }

  function Switching(env: Env, w: World, a: ReleaseAction): World {
    match a
    case Deploying(manifest, hash, path, attested) => DeployStep(env, w, manifest, hash, path, attested)
    case ActivatingBuild(worker, manifest, hash, path, attested) =>
      ActivateStep(env, w, worker, manifest, hash, path, attested)
    case RollingBack(automation, revision) => RollbackStep(env, w, automation, revision)
    case Enabling(automation, enabled) => EnableStep(env, w, automation, enabled)
  }

  /** The transaction of a build step; a worker acts on the deployment it is processing. */
  function BuildTx(w: World, a: BuildAction): Db {
    match a
    case Submitting(id, key, source, digest) => CreateDeployment(w.db, id, key, source, digest).db
    case Retrying(original, id, key, strand) => RetryDeployment(w.db, original, id, key, strand).db
    case ClaimingBuild(worker, id) =>
      if worker in w.builders.rows then w.db else AcquireDeployment(w.db, worker, id, RUN_LEASE).db
    case RenewingBuild(worker) =>
      if worker !in w.builders.rows then w.db else RenewDeploymentLease(w.db, worker, w.builders.rows[worker].0, RUN_LEASE).db
    case Staging(worker, stage, automation, hash) =>
      if worker !in w.builders.rows then w.db
      else SetDeploymentStage(w.db, worker, w.builders.rows[worker].0, stage, automation, hash).db
    case Stepping(worker, stage) =>
      if worker !in w.builders.rows then w.db else StartDeploymentStep(w.db, worker, w.builders.rows[worker].0, stage).db
    case Cancelling(id) => RequestDeploymentCancellation(w.db, id).db
    case ConfirmingCancel(worker) =>
      if worker !in w.builders.rows then w.db else CompleteDeploymentCancellation(w.db, worker, w.builders.rows[worker].0).db
    case FailingBuild(worker) =>
      if worker !in w.builders.rows then w.db else FailDeployment(w.db, worker, w.builders.rows[worker].0).db
    case ForgettingBuild(worker) => w.db
    case DetachingSource(path) => DetachSource(w.db, path)
  }

  function CountOf(claims: map<Id, nat>, id: Id): nat {
    if id in claims then claims[id] else 0
  }

  function BuildingOn(w: World, a: BuildAction): World {
    var moved := w.(db := BuildTx(w, a));
    match a
    case ClaimingBuild(worker, id) =>
      if worker in w.builders.rows || AcquireDeployment(w.db, worker, id, RUN_LEASE).result.Err? then w else
      var n := CountOf(w.claims.rows, id) + 1;
      moved.(builders := Table(w.builders.rows[worker := (id, n)]), claims := Table(w.claims.rows[id := n]))
    case ConfirmingCancel(worker) => moved.(builders := Table(Idle(w.builders.rows, worker)))
    case FailingBuild(worker) => moved.(builders := Table(Idle(w.builders.rows, worker)))
    case ForgettingBuild(worker) => moved.(builders := Table(Idle(w.builders.rows, worker)))
    case _ => moved
  }

  function Keeping(db: Db, a: UpkeepAction): Db {
    match a
    case Tick(elapsed) => db.(now := db.now + elapsed)
    case DetachingArtifact(path) => DetachArtifact(db, path)
    case PuttingSecret(name) => PutSecret(db, name)
    case DeletingSecret(name) => DeleteSecret(db, name).db
  }

  ghost function Next(env: Env, w: World, a: Action): World {
    match a
    case Work(work) => Working(w, work)
    case Intake(intake) => w.(db := TakingIn(w.db, intake))
    case Scheduling(due) => Passing(env, w, due)
    case Release(release) => Switching(env, w, release)
    case Build(build) => BuildingOn(w, build)
    case Upkeep(upkeep) => w.(db := Keeping(w.db, upkeep))
  }

  /** The world a schedule of actions leads to. */
  ghost function Reach(env: Env, w: World, actions: seq<Action>): World
    decreases |actions|
  {
    if actions == [] then w else Reach(env, Next(env, w, actions[0]), actions[1..])
  }

  ghost predicate LegalRun(env: Env, w: World, actions: seq<Action>)
    decreases |actions|
  {
    actions != [] ==> Legal(w, actions[0]) && LegalRun(env, Next(env, w, actions[0]), actions[1..])
  }
}
