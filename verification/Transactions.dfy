/** The store's transactions, each a function from the committed database to the next one.

    A transaction that fails leaves the database as it was; the one exception is answering an
    expired approval, which commits the expiry and then reports it.  Identifiers the code draws
    at random are parameters, and drawing one that exists fails on the primary key.
  */
module Transactions {
  import opened Basics
  import opened Tables

  import Text

  /** Why a transaction was refused. */
  datatype Error = Error(message: string)

  const LEASE_LOST: Error := Error("lease was lost")
  const STATE_CONFLICT: Error := Error("automation state changed")
  const INVALID_STATE: Error := Error("automation state is not an object")
  const UNIQUE_VIOLATION: Error := Error("row exists")
  const NOT_FOUND: Error := Error("not found")
  const NOT_CANDIDATE: Error := Error("nothing to claim")
  const PROVENANCE_REQUIRED: Error := Error("artifact provenance is required")
  const PENDING_APPROVALS: Error := Error("pending approvals would be stranded")
  const BAD_SCHEDULE: Error := Error("trigger cannot be stored")
  const SECRET_MISSING: Error := Error("secret not found")
  const SECRET_IN_USE: Error := Error("secret is in use")
  const DEPLOYMENT_CANCELLED: Error := Error("deployment was cancelled")
  const ARTIFACT_UNAVAILABLE: Error := Error("artifact is unavailable")
  const INVALID_DELAY: Error := Error("invalid delivery delay")
  const REVISION_CHANGED: Error := Error("revision changed")
  const APPROVAL_RESOLVED: Error := Error("approval is resolved")
  const APPROVAL_EXPIRED: Error := Error("approval expired")
  const INVALID_RESPONSE: Error := Error("invalid response")
  const NOT_CANCELLABLE: Error := Error("not cancellable")
  const NOT_RETRYABLE: Error := Error("not retryable")
  const IDEMPOTENCY_CONFLICT: Error := Error("idempotency key was used")
  const BAD_STAGE: Error := Error("unknown stage")

  datatype Result<+T> = Ok(value: T) | Err(error: Error)

  datatype Tx<+T> = Tx(db: Db, result: Result<T>)

  function Abort<T>(db: Db, error: Error): Tx<T> { Tx(db, Err(error)) }

  // ---------------------------------------------------------------- events and runs

  predicate KeyTaken(events: map<Id, Event>, key: TriggerKey, external: Id) {
    exists e :: e in events && events[e] == Event(key, external)
  }

  function NewRun(automation: Id, revision: Id, event: Id, manifest: Manifest, availableAt: Time, now: Time): Run {
    Run(automation, revision, event, Queued, 0, manifest.retries + 1, manifest.policy, availableAt, now, None)
  }

  predicate Refused(db: Db, event: Event, eventId: Id, runId: Id) {
    KeyTaken(db.events.rows, event.key, event.external) || eventId in db.events.rows || runId in db.runs.rows
  }

  /** Insert one event and the one run it causes, as every creation path does. */
  function Enqueue(db: Db, event: Event, eventId: Id, runId: Id, run: Run): Tx<Id> {
    if Refused(db, event, eventId, runId) then Abort(db, UNIQUE_VIOLATION) else
    Tx(db.(events := Table(db.events.rows[eventId := event]), runs := Table(db.runs.rows[runId := run])), Ok(runId))
  }

  predicate RunOfKey(db: Db, run: Id, key: TriggerKey, external: Id) {
    run in db.runs.rows && db.runs.rows[run].event in db.events.rows && db.events.rows[db.runs.rows[run].event] == Event(key, external)
  }

  /** The run already recorded under a key, as the join of runs and events finds it. */
  ghost function Existing(db: Db, key: TriggerKey, external: Id): (r: Result<(Id, bool)>)
    ensures r.Ok? ==> RunOfKey(db, r.value.0, key, external) && !r.value.1
    ensures r.Err? ==> forall run :: !RunOfKey(db, run, key, external)
  {
    if run :| RunOfKey(db, run, key, external) then Ok((run, false)) else Err(NOT_FOUND)
  }

  /** The same insert with `ON CONFLICT DO NOTHING`: a replayed key yields the run it made first. */
  ghost function EnqueueOnce(db: Db, event: Event, eventId: Id, runId: Id, run: Run): Tx<(Id, bool)> {
    if KeyTaken(db.events.rows, event.key, event.external) then
      Tx(db, Existing(db, event.key, event.external))
    else
      var inserted := Enqueue(db, event, eventId, runId, run);
      if inserted.result.Ok? then Tx(inserted.db, Ok((runId, true))) else Abort(db, inserted.result.error)
  }

  predicate TriggerOpen(db: Db, automation: Id, trigger: Id, kind: TriggerKind) {
    && automation in db.automations.rows && (automation, trigger) in db.triggers.rows
    && var row := db.triggers.rows[(automation, trigger)];
    && db.automations.rows[automation].active == Some(row.revision) && row.revision in db.revisions.rows
    && row.kind == kind && row.enabled && db.automations.rows[automation].enabled
  }

  predicate BadDelay(row: Trigger) {
    row.kind == Webhook && row.delay.Some? && (row.delay.value <= 0 || row.delay.value > MAX_DELIVERY_DELAY)
  }

  function Delivery(now: Time, row: Trigger): Time {
    if row.kind == Webhook && row.delay.Some? then now + row.delay.value else now
  }

  ghost function IngestEvent(
    db: Db, automation: Id, trigger: Id, kind: TriggerKind, external: Id, generated: Id, eventId: Id, runId: Id)
    : Tx<(Id, bool)>
  {
    if !TriggerOpen(db, automation, trigger, kind) then Abort(db, NOT_FOUND) else
    var row := db.triggers.rows[(automation, trigger)];
    var manifest := db.revisions.rows[row.revision].manifest;
    var event := Event(Plain(automation, trigger), if external == "" then generated else external);
    if !KeyTaken(db.events.rows, event.key, event.external) && BadDelay(row) then Abort(db, INVALID_DELAY) else
    EnqueueOnce(db, event, eventId, runId, NewRun(automation, row.revision, eventId, manifest, Delivery(db.now, row), db.now))
  }

  ghost function EnqueueManualRun(
    db: Db, automation: Id, external: Id, generated: Id, expected: Id, eventId: Id, runId: Id): Tx<(Id, bool)>
  {
    var event := Event(Plain(automation, "manual"), if external == "" then generated else external);
    if external != "" && KeyTaken(db.events.rows, event.key, external) then Tx(db, Existing(db, event.key, external)) else
    if automation !in db.automations.rows || db.automations.rows[automation].active.None? then Abort(db, NOT_FOUND) else
    var revision := db.automations.rows[automation].active.value;
    if revision !in db.revisions.rows then Abort(db, NOT_FOUND) else
    if expected != "" && revision != expected then Abort(db, REVISION_CHANGED) else
    EnqueueOnce(db, event, eventId, runId,
                NewRun(automation, revision, eventId, db.revisions.rows[revision].manifest, db.now, db.now))
  }

  // ---------------------------------------------------------------- schedules

  predicate Fires(db: Db, t: (Id, Id)) {
    t in db.triggers.rows && t.0 in db.automations.rows && Due(db.now, db.triggers.rows[t], db.automations.rows[t.0])
  }

  /** One due trigger: advance its firing time and enqueue the occurrence it fired. */
  ghost function FireOne(env: Env, db: Db, due: (Id, Id), eventId: Id, runId: Id): Tx<bool> {
    if !Fires(db, due) then
      Tx(db, Ok(false))
    else
      var row := db.triggers.rows[due];
      var fireAt := row.nextFire.value;
      var next := env.next(row.cron, fireAt);
      if next.None? then Abort(db, BAD_SCHEDULE) else
      var advanced := db.(triggers := Table(db.triggers.rows[due := row.(nextFire := next)]));
      var queued := IngestEvent(advanced, due.0, due.1, Schedule, env.stamp(fireAt), env.stamp(fireAt), eventId, runId);
      if queued.result.Err? then Abort(db, queued.result.error) else Tx(queued.db, Ok(queued.result.value.1))
  }

  datatype Firing = Firing(trigger: (Id, Id), eventId: Id, runId: Id)

  /** The batch of one scheduler pass: all of it commits or none of it. */
  ghost function FireAll(env: Env, db: Db, due: seq<Firing>): Tx<nat>
    decreases |due|
  {
    if due == [] then Tx(db, Ok(0)) else
    var first := FireOne(env, db, due[0].trigger, due[0].eventId, due[0].runId);
    if first.result.Err? then Abort(db, first.result.error) else
    var rest := FireAll(env, first.db, due[1..]);
    if rest.result.Err? then Abort(db, rest.result.error) else
    Tx(rest.db, Ok(rest.result.value + if first.result.value then 1 else 0))
  }

  predicate Resumes(triggers: map<(Id, Id), Trigger>, automation: Id, t: (Id, Id)) {
    t in triggers && t.0 == automation && triggers[t].kind == Schedule && triggers[t].enabled
  }

  function SetAutomationEnabled(env: Env, db: Db, automation: Id, enabled: bool): Tx<bool> {
    if automation !in db.automations.rows then Abort(db, NOT_FOUND) else
    if db.automations.rows[automation].enabled == enabled then Tx(db, Ok(false)) else
    var flipped := db.(automations := Table(db.automations.rows[automation := db.automations.rows[automation].(enabled := enabled)]));
    if !enabled then Tx(flipped, Ok(true)) else
    if exists t :: t in db.triggers.rows && Resumes(db.triggers.rows, automation, t) && env.next(db.triggers.rows[t].cron, db.now).None? then
      Abort(db, BAD_SCHEDULE)
    else
      var triggers := map t | t in db.triggers.rows ::
        if Resumes(db.triggers.rows, automation, t)
        then db.triggers.rows[t].(nextFire := env.next(db.triggers.rows[t].cron, db.now)) else db.triggers.rows[t];
      Tx(flipped.(triggers := Table(triggers)), Ok(true))
  }

  // ---------------------------------------------------------------- the run lease protocol

  predicate Unexpired(run: Run, now: Time) {
    run.status == Running && run.lease.Some? && run.lease.value.expires >= now
  }

  predicate Blocked(db: Db, id: Id)
    requires id in db.runs.rows
  {
    && db.runs.rows[id].policy == Forbid
    && exists other :: other in db.runs.rows && other != id && db.runs.rows[other].automation == db.runs.rows[id].automation
                       && Unexpired(db.runs.rows[other], db.now)
  }

  predicate Candidate(db: Db, id: Id) {
    && id in db.runs.rows
    && var run := db.runs.rows[id];
    && (|| (run.status == Queued && run.availableAt <= db.now)
        || (run.status == Running && run.lease.Some? && run.lease.value.expires < db.now))
    && !Blocked(db, id)
    && run.revision in db.revisions.rows && run.event in db.events.rows
  }

  function StateVersion(db: Db, automation: Id): nat {
    if automation in db.states.rows then db.states.rows[automation].version else 0
  }

  function StateValue(db: Db, automation: Id): Value {
    if automation in db.states.rows then db.states.rows[automation].value else EMPTY_STATE
  }

  function AcquireRun(db: Db, worker: Id, id: Id, lease: nat): Tx<Claim> {
    if !Candidate(db, id) then Abort(db, NOT_CANDIDATE) else
    var run := db.runs.rows[id].(
      status := Running, attempt := db.runs.rows[id].attempt + 1, lease := Some(Lease(worker, db.now + lease)));
    var revision := db.revisions.rows[run.revision];
    Tx(db.(runs := Table(db.runs.rows[id := run])),
       Ok(Claim(id, run.automation, run.revision, run.attempt, run.maxAttempts, revision.manifest, revision.path,
                StateVersion(db, run.automation), StateValue(db, run.automation))))
  }

  /** The fence of every later write: the row is running and the lease names this worker. */
  predicate Holds(db: Db, id: Id, worker: Id) {
    id in db.runs.rows && db.runs.rows[id].status == Running && OwnedBy(db.runs.rows[id].lease, worker)
  }

  function RenewRunLease(db: Db, worker: Id, id: Id, lease: nat): Tx<bool> {
    if !Holds(db, id, worker) then Tx(db, Ok(false)) else
    Tx(db.(runs := Table(db.runs.rows[id := db.runs.rows[id].(lease := Some(Lease(worker, db.now + lease)))])), Ok(true))
  }

  /** The optimistic write of automation state is refused unless the row is the one snapshotted. */
  predicate StateRefused(states: map<Id, StateRow>, claim: Claim, state: Option<Value>) {
    && claim.manifest.stateful
    && (|| state.None?
        || (claim.stateVersion == 0 && claim.automation in states)
        || (claim.stateVersion != 0
            && (claim.automation !in states || states[claim.automation].version != claim.stateVersion)))
  }

  function WithState(states: map<Id, StateRow>, claim: Claim, state: Option<Value>): map<Id, StateRow> {
    if claim.manifest.stateful && state.Some?
    then states[claim.automation := StateRow(claim.stateVersion + 1, state.value)] else states
  }

  function DeferredKey(run: Id, key: Id): Id { run + ":" + key }

  function DeferredEvent(claim: Claim, defer: Defer): Event {
    Event(Plain(claim.automation, "deferred"), DeferredKey(claim.run, defer.key))
  }

  datatype Draw = Draw(eventId: Id, runId: Id, approvalId: Id)

  predicate ApprovalKeyTaken(approvals: map<Id, Approval>, automation: Id, key: Id, run: Id) {
    exists a :: a in approvals
      && ((approvals[a].automation == automation && approvals[a].key == key) || approvals[a].requestedBy == run)
  }

  predicate AskRefused(approvals: map<Id, Approval>, claim: Claim, request: ApprovalRequest, id: Id) {
    id in approvals || ApprovalKeyTaken(approvals, claim.automation, request.key, claim.run)
  }

  function OpenedApproval(claim: Claim, request: ApprovalRequest): Approval {
    Approval(claim.automation, claim.revision, claim.run, request.key, Pending, request.fields, request.actions,
             request.expiresAt, None, None)
  }

  function RequestedNotices(run: Id, keys: seq<Id>): set<Notice> {
    set k | k in keys :: Notice("automation.notification", DeferredKey(run, k))
  }

  function NewNotices(claim: Claim, control: Control, draw: Draw): set<Notice> {
    (if control.approval.Some? then {Notice("approval.requested", draw.approvalId)} else {})
    + RequestedNotices(claim.run, control.notices)
  }

  function Finish(run: Run, status: RunStatus, availableAt: Time): Run {
    run.(status := status, availableAt := availableAt, lease := None)
  }

  function WithDeferredEvent(events: map<Id, Event>, claim: Claim, defer: Option<Defer>, eventId: Id): map<Id, Event> {
    if defer.Some? then events[eventId := DeferredEvent(claim, defer.value)] else events
  }

  function WithDeferredRun(
    runs: map<Id, Run>, claim: Claim, defer: Option<Defer>, draw: Draw, now: Time): map<Id, Run>
  {
    if defer.None? then runs else
    runs[draw.runId := NewRun(claim.automation, claim.revision, draw.eventId, claim.manifest, defer.value.until, now)]
  }

  function WithApproval(
    approvals: map<Id, Approval>, claim: Claim, request: Option<ApprovalRequest>, id: Id): map<Id, Approval>
  {
    if request.Some? then approvals[id := OpenedApproval(claim, request.value)] else approvals
  }

  /** A success and everything it asked for, in one transaction. */
  function CompleteRun(db: Db, worker: Id, claim: Claim, state: Option<Value>, control: Control, draw: Draw): Tx<()> {
    if !Holds(db, claim.run, worker) then Abort(db, LEASE_LOST) else
    if StateRefused(db.states.rows, claim, state) then
      Abort(db, if state.None? then INVALID_STATE else STATE_CONFLICT)
    else
    if control.defer.Some? && Refused(db, DeferredEvent(claim, control.defer.value), draw.eventId, draw.runId) then
      Abort(db, UNIQUE_VIOLATION)
    else if control.approval.Some? && AskRefused(db.approvals.rows, claim, control.approval.value, draw.approvalId) then
      Abort(db, UNIQUE_VIOLATION)
    else
      var run := db.runs.rows[claim.run];
      Tx(db.(
           events := Table(WithDeferredEvent(db.events.rows, claim, control.defer, draw.eventId)),
           runs := Table(WithDeferredRun(db.runs.rows[claim.run := Finish(run, Succeeded, run.availableAt)], claim, control.defer,
                                         draw, db.now)),
           states := Table(WithState(db.states.rows, claim, state)),
           approvals := Table(WithApproval(db.approvals.rows, claim, control.approval, draw.approvalId)),
           notices := Keys(db.notices.all + NewNotices(claim, control, draw))), Ok(()))
  }

  function Doubling(n: nat): nat { if n == 0 then 1 else 2 * Doubling(n - 1) }

  function RetryDelay(attempt: nat): int {
    var delay := Doubling(if attempt == 0 then 0 else if attempt - 1 < 8 then attempt - 1 else 8) * SECOND;
    if delay < 300 * SECOND then delay else 300 * SECOND
  }

  /** Retried by the claimed attempt number; the last attempt's failure is final and announced. */
  function FailRun(db: Db, worker: Id, claim: Claim): Tx<bool> {
    if !Holds(db, claim.run, worker) then Abort(db, LEASE_LOST) else
    var run := db.runs.rows[claim.run];
    if claim.attempt < claim.maxAttempts then
      Tx(db.(runs := Table(db.runs.rows[claim.run := Finish(run, Queued, db.now + RetryDelay(claim.attempt))])), Ok(false))
    else
      Tx(db.(runs := Table(db.runs.rows[claim.run := Finish(run, Failed, db.now)]),
             notices := Keys(db.notices.all + {Notice("run.failed", claim.run)})), Ok(true))
  }

  function ReleaseRun(db: Db, worker: Id, claim: Claim): Tx<()> {
    if !Holds(db, claim.run, worker) then Abort(db, LEASE_LOST) else
    Tx(db.(runs := Table(db.runs.rows[claim.run := Finish(db.runs.rows[claim.run], Queued, db.now)])), Ok(()))
  }

  // ---------------------------------------------------------------- deployment and rollback

  predicate ValidHash(hash: string) {
    |hash| == 64 && forall c :: c in hash ==> '0' <= c <= '9' || 'a' <= c <= 'f'
  }

  function RevisionId(hash: string): Id
    requires |hash| >= 24
  {
    "rev_" + hash[..24]
  }

  function NextFire(env: Env, decl: TriggerDecl, now: Time): Option<Time> {
    if decl.kind == Schedule && decl.enabled then env.next(decl.cron, now) else None
  }

  function TriggerRow(env: Env, revision: Id, decl: TriggerDecl, now: Time): Trigger {
    Trigger(revision, decl.kind, decl.enabled, decl.cron, decl.delay, NextFire(env, decl, now))
  }

  predicate Unschedulable(env: Env, decl: TriggerDecl, now: Time) {
    decl.kind == Schedule && decl.enabled && env.next(decl.cron, now).None?
  }

  /** The insert loop of `replaceTriggers`, from declaration `decls[0]` on. */
  function InsertTriggers(
    env: Env, triggers: map<(Id, Id), Trigger>, automation: Id, revision: Id, decls: seq<TriggerDecl>, now: Time)
    : (r: Option<map<(Id, Id), Trigger>>)
    ensures r.Some? ==> triggers.Keys <= r.value.Keys
    ensures r.Some? ==> forall t :: t in triggers ==> r.value[t] == triggers[t]
    ensures r.Some? ==> forall t :: t in r.value && t !in triggers ==>
              t.0 == automation && r.value[t].revision == revision
              && (r.value[t].nextFire.Some? ==> r.value[t].nextFire == env.next(r.value[t].cron, now))
    decreases |decls|
  {
    if decls == [] then Some(triggers) else
    if (automation, decls[0].id) in triggers || Unschedulable(env, decls[0], now) then None else
    InsertTriggers(env, triggers[(automation, decls[0].id) := TriggerRow(env, revision, decls[0], now)],
                   automation, revision, decls[1..], now)
  }

  function WithoutTriggers(triggers: map<(Id, Id), Trigger>, automation: Id): map<(Id, Id), Trigger> {
    map t | t in triggers && t.0 != automation :: triggers[t]
  }

  function ReplaceTriggers(
    env: Env, db: Db, automation: Id, revision: Id, decls: seq<TriggerDecl>): Option<map<(Id, Id), Trigger>>
  {
    InsertTriggers(env, WithoutTriggers(db.triggers.rows, automation), automation, revision, decls, db.now)
  }

  /** Approvals that can still be answered on the automation's active revision. */
  predicate OpenOn(db: Db, approval: Id, automation: Id, revision: Id) {
    && approval in db.approvals.rows && db.approvals.rows[approval].automation == automation
    && db.approvals.rows[approval].revision == revision && db.approvals.rows[approval].status == Pending
    && db.approvals.rows[approval].expiresAt > db.now
  }

  predicate Strands(db: Db, automation: Id, revision: Id) {
    && automation in db.automations.rows && db.automations.rows[automation].active.Some?
    && db.automations.rows[automation].active != Some(revision)
    && exists a :: a in db.approvals.rows && OpenOn(db, a, automation, db.automations.rows[automation].active.value)
  }

  predicate StrandAllowed(db: Db, deployment: Option<Id>) {
    deployment.Some? && deployment.value in db.deployments.rows && db.deployments.rows[deployment.value].strand
  }

  function ReplaceSecretReferences(refs: set<(Id, Id)>, revision: Id, names: seq<Id>): set<(Id, Id)> {
    (set p | p in refs && p.0 != revision) + (set n | n in names :: (revision, n))
  }

  function UpsertAutomation(db: Db, automation: Id): Automation {
    if automation in db.automations.rows then db.automations.rows[automation] else Automation(None, true)
  }

  /** The row found by (automation, content hash) keeps its manifest; only the path is refreshed. */
  function UpsertRevision(db: Db, revision: Id, manifest: Manifest, hash: string, path: string): Option<Revision> {
    if revision in db.revisions.rows then
      var row := db.revisions.rows[revision];
      if row.automation == manifest.name && row.contentHash == hash then Some(row.(path := path)) else None
    else Some(Revision(manifest.name, hash, manifest, path))
  }

  predicate Activatable(db: Db, deployment: Id, worker: Id) {
    && deployment in db.deployments.rows
    && var d := db.deployments.rows[deployment];
    && OwnedBy(d.lease, worker) && d.stage == Activating && !d.cancelRequested
  }

  datatype Job = Direct | ByDeployment(deployment: Id, worker: Id)

  function JobId(job: Job): Option<Id> {
    if job.ByDeployment? then Some(job.deployment) else None
  }

  /** One activation transaction: guard, automation, revision, triggers, secrets, switch, deployment. */
  function Deploy(env: Env, db: Db, manifest: Manifest, hash: string, path: string, attested: bool, job: Job): Tx<Id> {
    if !attested || !ValidHash(hash) then Abort(db, PROVENANCE_REQUIRED) else
    var revision := RevisionId(hash);
    if Strands(db, manifest.name, revision) && !StrandAllowed(db, JobId(job)) then Abort(db, PENDING_APPROVALS) else
    var row := UpsertRevision(db, revision, manifest, hash, path);
    if row.None? then Abort(db, UNIQUE_VIOLATION) else
    var triggers := ReplaceTriggers(env, db, manifest.name, revision, manifest.triggers);
    if triggers.None? then Abort(db, BAD_SCHEDULE) else
    if exists n :: n in manifest.secrets && n !in db.secrets.all then Abort(db, SECRET_MISSING) else
    var activated := db.(
      automations := Table(db.automations.rows[manifest.name := UpsertAutomation(db, manifest.name).(active := Some(revision))]),
      revisions := Table(db.revisions.rows[revision := row.value]),
      triggers := Table(triggers.value),
      secretRefs := Keys(ReplaceSecretReferences(db.secretRefs.all, revision, manifest.secrets)));
    if job.Direct? then Tx(activated, Ok(revision)) else
    if !Activatable(db, job.deployment, job.worker) then
      Abort(db, if job.deployment in db.deployments.rows && db.deployments.rows[job.deployment].cancelRequested
                then DEPLOYMENT_CANCELLED else LEASE_LOST)
    else
      var d := db.deployments.rows[job.deployment].(stage := Done, revision := Some(revision), lease := None);
      Tx(activated.(deployments := Table(db.deployments.rows[job.deployment := d])), Ok(revision))
  }

  function RollbackAutomation(env: Env, db: Db, automation: Id, revision: Id): Tx<bool> {
    if automation !in db.automations.rows then Abort(db, NOT_FOUND) else
    if revision !in db.revisions.rows || db.revisions.rows[revision].automation != automation then Abort(db, NOT_FOUND) else
    if db.revisions.rows[revision].path == "" then Abort(db, ARTIFACT_UNAVAILABLE) else
    if db.automations.rows[automation].active == Some(revision) then Tx(db, Ok(false)) else
    var triggers := ReplaceTriggers(env, db, automation, revision, db.revisions.rows[revision].manifest.triggers);
    if triggers.None? then Abort(db, BAD_SCHEDULE) else
    Tx(db.(automations := Table(db.automations.rows[automation := db.automations.rows[automation].(active := Some(revision))]),
           triggers := Table(triggers.value)), Ok(true))
  }

  // ---------------------------------------------------------------- the deployment queue

  predicate DeploymentKeyTaken(deployments: map<Id, Deployment>, key: Id) {
    exists d :: d in deployments && deployments[d].key == key
  }

  /** A replayed key changes nothing; which recorded deployment answers it is left to the reader. */
  function CreateDeployment(db: Db, id: Id, key: Id, source: string, digest: string): Tx<bool> {
    if DeploymentKeyTaken(db.deployments.rows, key) then Tx(db, Ok(false)) else
    if id in db.deployments.rows then Abort(db, UNIQUE_VIOLATION) else
    Tx(db.(deployments := Table(db.deployments.rows[id := Deployment(key, Waiting, "", "", None, None, false, false, None, source,
                                                          digest)])), Ok(true))
  }

  function RetryDeployment(db: Db, original: Id, id: Id, key: Id, strand: bool): Tx<bool> {
    if DeploymentKeyTaken(db.deployments.rows, key) then
      if exists d :: d in db.deployments.rows && db.deployments.rows[d].key == key
           && db.deployments.rows[d].retryOf == Some(original) && db.deployments.rows[d].strand == strand
      then Tx(db, Ok(false)) else Abort(db, IDEMPOTENCY_CONFLICT)
    else if original !in db.deployments.rows then Abort(db, NOT_FOUND)
    else if db.deployments.rows[original].stage != Broken && db.deployments.rows[original].stage != Cancelled then
      Abort(db, NOT_RETRYABLE)
    else if db.deployments.rows[original].source == "" then Abort(db, ARTIFACT_UNAVAILABLE)
    else if id in db.deployments.rows then Abort(db, UNIQUE_VIOLATION)
    else
      var from := db.deployments.rows[original];
      Tx(db.(deployments := Table(db.deployments.rows[id := Deployment(key, Waiting, "", "", None, Some(original), strand, false,
                                                            None, from.source, from.digest)])), Ok(true))
  }

  function AcquireDeployment(db: Db, worker: Id, id: Id, lease: nat): Tx<()> {
    if id !in db.deployments.rows then Abort(db, NOT_CANDIDATE) else
    var d := db.deployments.rows[id];
    if d.cancelRequested
       || !(d.stage == Waiting || (InProgress(d.stage) && d.lease.Some? && d.lease.value.expires < db.now)) then
      Abort(db, NOT_CANDIDATE)
    else
      Tx(db.(deployments := Table(db.deployments.rows[id := d.(stage := Validating, lease := Some(Lease(worker, db.now + lease)))])),
         Ok(()))
  }

  predicate HoldsDeployment(db: Db, id: Id, worker: Id) {
    && id in db.deployments.rows && OwnedBy(db.deployments.rows[id].lease, worker) && InProgress(db.deployments.rows[id].stage)
  }

  function RenewDeploymentLease(db: Db, worker: Id, id: Id, lease: nat): Tx<bool> {
    if !HoldsDeployment(db, id, worker) || db.deployments.rows[id].cancelRequested then Tx(db, Ok(false)) else
    Tx(db.(deployments := Table(db.deployments.rows[id := db.deployments.rows[id].(lease := Some(Lease(worker, db.now + lease)))])),
       Ok(true))
  }

  function SetDeploymentStage(db: Db, worker: Id, id: Id, stage: Stage, automation: Id, hash: string): Tx<()> {
    if stage != Building && stage != Checking && stage != Activating then Abort(db, BAD_STAGE) else
    if !HoldsDeployment(db, id, worker) || db.deployments.rows[id].cancelRequested || db.deployments.rows[id].stage == Activating
    then Abort(db, LEASE_LOST)
    else
      Tx(db.(deployments := Table(db.deployments.rows[id := db.deployments.rows[id].(
               stage := stage, automation := automation, contentHash := hash)])), Ok(()))
  }

  /** Starting a step moves the deployment to the stage of that step's kind. */
  function StartDeploymentStep(db: Db, worker: Id, id: Id, stage: Stage): Tx<()> {
    if !InProgress(stage) then Abort(db, BAD_STAGE) else
    if !HoldsDeployment(db, id, worker) || db.deployments.rows[id].cancelRequested then
      Abort(db, if id in db.deployments.rows && db.deployments.rows[id].cancelRequested then DEPLOYMENT_CANCELLED else LEASE_LOST)
    else
      Tx(db.(deployments := Table(db.deployments.rows[id := db.deployments.rows[id].(stage := stage)])), Ok(()))
  }

  function RequestDeploymentCancellation(db: Db, id: Id): Tx<()> {
    if id !in db.deployments.rows then Abort(db, NOT_FOUND) else
    var d := db.deployments.rows[id];
    if Terminal(d.stage) then Abort(db, NOT_CANCELLABLE) else
    Tx(db.(deployments := Table(db.deployments.rows[id := d.(
             cancelRequested := true, stage := if d.stage == Waiting then Cancelled else d.stage)])), Ok(()))
  }

  function CompleteDeploymentCancellation(db: Db, worker: Id, id: Id): Tx<()> {
    if !HoldsDeployment(db, id, worker) || !db.deployments.rows[id].cancelRequested then Abort(db, LEASE_LOST) else
    Tx(db.(deployments := Table(db.deployments.rows[id := db.deployments.rows[id].(stage := Cancelled, lease := None)])), Ok(()))
  }

  function FailDeployment(db: Db, worker: Id, id: Id): Tx<()> {
    if !HoldsDeployment(db, id, worker) || db.deployments.rows[id].cancelRequested then Abort(db, LEASE_LOST) else
    Tx(db.(deployments := Table(db.deployments.rows[id := db.deployments.rows[id].(stage := Broken, lease := None)])), Ok(()))
  }

  // ---------------------------------------------------------------- approvals

  function TrimLeft(s: string): string {
    if s != "" && Text.Space(s[0]) then TrimLeft(s[1..]) else s
  }

  function TrimRight(s: string): string {
    if s != "" && Text.Space(s[|s| - 1]) then TrimRight(s[..|s| - 1]) else s
  }

  function Trim(s: string): string { TrimRight(TrimLeft(s)) }

  function Declared(fields: seq<Field>): map<Id, Field> {
    if fields == [] then map[] else
    var last := |fields| - 1;
    Declared(fields[..last])[fields[last].id := fields[last]]
  }

  function Supplied(field: Field, supplied: map<Id, Option<FieldValue>>): Option<FieldValue> {
    if field.id in supplied then supplied[field.id] else field.value
  }

  predicate Blank(value: Option<FieldValue>) {
    value.None? || (value.value.Text? && Trim(value.value.text) == "")
  }

  predicate Acceptable(field: Field, value: FieldValue) {
    match field.kind
    case TextField => value.Text? && |value.text| <= 4000
    case NumberField => value.Number?
    case BooleanField => value.Boolean?
    case SelectField => value.Text? && value.text in field.options
    case ImageField => false
  }

  /** What keeps one declared field from being accepted. */
  predicate Objection(field: Field, requiresFields: bool, supplied: map<Id, Option<FieldValue>>) {
    && field.kind != ImageField
    && var value := Supplied(field, supplied);
    || (requiresFields && field.required && Blank(value))
    || (value.Some? && !Acceptable(field, value.value))
  }

  predicate Kept(field: Field, supplied: map<Id, Option<FieldValue>>) {
    field.kind != ImageField && Supplied(field, supplied).Some?
  }

  function Normal(field: Field, value: FieldValue): FieldValue {
    if field.kind == TextField && value.Text? then Text(Trim(value.text)) else value
  }

  function SelectedAction(actions: seq<ActionDecl>, action: Id): Option<ActionDecl> {
    if actions == [] then None
    else if actions[0].id == action then Some(actions[0])
    else SelectedAction(actions[1..], action)
  }

  /** The normalized response, or None when the answer is refused. */
  function ValidResponse(
    fields: seq<Field>, actions: seq<ActionDecl>, action: Id, supplied: map<Id, Option<FieldValue>>)
    : Option<map<Id, FieldValue>>
  {
    var selected := SelectedAction(actions, action);
    var declared := Declared(fields);
    if selected.None? then None else
    if exists k :: k in supplied && (k !in declared || declared[k].kind == ImageField) then None else
    if exists k :: k in declared && Objection(declared[k], selected.value.requiresFields, supplied) then None else
    Some(map k | k in declared && Kept(declared[k], supplied) ::
           Normal(declared[k], Supplied(declared[k], supplied).value))
  }

  function Decision(action: Id): Option<ApprovalStatus> {
    if action == "approve" then Some(Approved) else if action == "reject" then Some(Rejected) else None
  }

  /** An answer already recorded, repeated with the same key and content. */
  ghost predicate Replay(db: Db, id: Id, replayKey: Id, action: Id, response: Option<map<Id, FieldValue>>)
    requires id in db.approvals.rows
  {
    var a := db.approvals.rows[id];
    && response.Some? && a.response == Some(Response(action, response.value))
    && exists run :: a.actionRun == Some(run) && RunOfKey(db, run, ForApproval(a.automation, id), replayKey)
  }

  ghost function ResolveApproval(
    db: Db, id: Id, replayKey: Id, expected: Id, action: Id, supplied: map<Id, Option<FieldValue>>,
    eventId: Id, runId: Id): Tx<bool>
  {
    if id !in db.approvals.rows then Abort(db, NOT_FOUND) else
    var a := db.approvals.rows[id];
    var response := ValidResponse(a.fields, a.actions, action, supplied);
    if a.status != Pending then
      if Replay(db, id, replayKey, action, response) then Tx(db, Ok(false)) else Abort(db, APPROVAL_RESOLVED)
    else if a.expiresAt <= db.now then
      Tx(db.(approvals := Table(db.approvals.rows[id := a.(status := Expired)])), Err(APPROVAL_EXPIRED))
    else if expected == "" || expected != a.revision then Abort(db, REVISION_CHANGED)
    else if a.automation !in db.automations.rows || db.automations.rows[a.automation].active.None?
            || db.automations.rows[a.automation].active.value !in db.revisions.rows then Abort(db, NOT_FOUND)
    else if db.automations.rows[a.automation].active != Some(a.revision) then Abort(db, REVISION_CHANGED)
    else if response.None? || Decision(action).None? then Abort(db, INVALID_RESPONSE)
    else
      var event := Event(ForApproval(a.automation, id), replayKey);
      var run := NewRun(a.automation, a.revision, eventId, db.revisions.rows[a.revision].manifest, db.now, db.now);
      var queued := Enqueue(db, event, eventId, runId, run);
      if queued.result.Err? then Abort(db, queued.result.error) else
      var answered := a.(status := Decision(action).value, response := Some(Response(action, response.value)),
                         actionRun := Some(runId));
      Tx(queued.db.(approvals := Table(db.approvals.rows[id := answered]),
                    notices := Keys(db.notices.all + {Notice("approval.resolved", id)})), Ok(true))
  }

  function ExpireApprovals(db: Db): Db {
    db.(approvals := Table(map a | a in db.approvals.rows ::
          if db.approvals.rows[a].status == Pending && db.approvals.rows[a].expiresAt <= db.now
          then db.approvals.rows[a].(status := Expired) else db.approvals.rows[a]))
  }

  // ---------------------------------------------------------------- retained storage

  predicate SourceProtected(db: Db, path: string) {
    exists d :: d in db.deployments.rows && db.deployments.rows[d].source == path && !Terminal(db.deployments.rows[d].stage)
  }

  function DetachSource(db: Db, path: string): Db {
    if SourceProtected(db, path) then db else
    db.(deployments := Table(map d | d in db.deployments.rows ::
          if db.deployments.rows[d].source == path then db.deployments.rows[d].(source := "") else db.deployments.rows[d]))
  }

  predicate ProtectedByActive(db: Db, path: string, r: Id) {
    && r in db.revisions.rows && db.revisions.rows[r].path == path && db.revisions.rows[r].automation in db.automations.rows
    && db.automations.rows[db.revisions.rows[r].automation].active == Some(r)
  }

  predicate ProtectedByRun(db: Db, path: string, run: Id) {
    && run in db.runs.rows && Live(db.runs.rows[run]) && db.runs.rows[run].revision in db.revisions.rows
    && db.revisions.rows[db.runs.rows[run].revision].path == path
  }

  predicate ProtectedByDeployment(db: Db, path: string, d: Id, r: Id) {
    && d in db.deployments.rows && InProgress(db.deployments.rows[d].stage) && r in db.revisions.rows
    && db.revisions.rows[r].automation == db.deployments.rows[d].automation
    && db.revisions.rows[r].contentHash == db.deployments.rows[d].contentHash && db.revisions.rows[r].path == path
  }

  predicate ArtifactProtected(db: Db, path: string) {
    || (exists r :: r in db.revisions.rows && ProtectedByActive(db, path, r))
    || (exists run :: run in db.runs.rows && ProtectedByRun(db, path, run))
    || (exists d, r :: d in db.deployments.rows && r in db.revisions.rows && ProtectedByDeployment(db, path, d, r))
  }

  function DetachArtifact(db: Db, path: string): Db {
    if ArtifactProtected(db, path) then db else
    db.(revisions := Table(map r | r in db.revisions.rows ::
          if db.revisions.rows[r].path == path then db.revisions.rows[r].(path := "") else db.revisions.rows[r]),
        secretRefs := Keys(set p | p in db.secretRefs.all && !(p.0 in db.revisions.rows && db.revisions.rows[p.0].path == path)))
  }

  function PutSecret(db: Db, name: Id): Db {
    db.(secrets := Keys(db.secrets.all + {name}))
  }

  function DeleteSecret(db: Db, name: Id): Tx<()> {
    if name !in db.secrets.all then Abort(db, NOT_FOUND) else
    if exists p :: p in db.secretRefs.all && p.1 == name then Abort(db, SECRET_IN_USE) else
    Tx(db.(secrets := Keys(db.secrets.all - {name})), Ok(()))
  }
}
