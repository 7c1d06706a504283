/** The durable tables of the control plane, as values.

    One `Db` value is one committed database state.  Identifiers are strings, times are
    integers (nanoseconds on one clock shared by the database and the Go process), and a
    nullable column is an `Option`.
  */
module Tables {
  import opened Basics

  /** A JSON object held as automation state; its text is never inspected. */
  type Value = string

  const RUN_LEASE: int := 600 * SECOND
  const MAX_DELIVERY_DELAY: int := 24 * 3600 * SECOND
  /** The value a run sees when its automation has no state row. */
  const EMPTY_STATE: Value := "{}"

  datatype Policy = Allow | Forbid

  datatype TriggerKind = Schedule | Webhook | Email | Ntfy

  datatype TriggerDecl = TriggerDecl(id: Id, kind: TriggerKind, enabled: bool, cron: string, delay: Option<int>)

  /** The part of a manifest the store reads.  It is determined by the package content. */
  datatype Manifest = Manifest(
    name: Id, triggers: seq<TriggerDecl>, secrets: seq<Id>, policy: Policy, retries: nat, stateful: bool)

  datatype Automation = Automation(active: Option<Id>, enabled: bool)

  /** `path` is the recorded artifact location; "" means detached storage. */
  datatype Revision = Revision(automation: Id, contentHash: string, manifest: Manifest, path: string)

  datatype Trigger = Trigger(
    revision: Id, kind: TriggerKind, enabled: bool, cron: string, delay: Option<int>, nextFire: Option<Time>)

  /** `automation:trigger`, or `automation:approval:id`.  Automation and trigger names contain
      no colon, so the two forms never meet and each is injective; a trigger named "manual" or
      "deferred" does share its key with manual and deferred runs. */
  datatype TriggerKey = Plain(automation: Id, trigger: Id) | ForApproval(automation: Id, approval: Id)

  datatype Event = Event(key: TriggerKey, external: Id)

  datatype RunStatus = Queued | Running | Succeeded | Failed

  datatype Lease = Lease(owner: Id, expires: Time)

  datatype Run = Run(
    automation: Id, revision: Id, event: Id, status: RunStatus, attempt: nat, maxAttempts: nat,
    policy: Policy, availableAt: Time, createdAt: Time, lease: Option<Lease>)

  datatype StateRow = StateRow(version: nat, value: Value)

  datatype FieldKind = TextField | NumberField | BooleanField | SelectField | ImageField

  datatype FieldValue = Text(text: string) | Number(number: real) | Boolean(flag: bool) | Structured

  datatype Field = Field(id: Id, kind: FieldKind, required: bool, value: Option<FieldValue>, options: seq<string>)

  datatype ActionDecl = ActionDecl(id: Id, requiresFields: bool)

  datatype Response = Response(action: Id, fields: map<Id, FieldValue>)

  datatype ApprovalStatus = Pending | Approved | Rejected | Expired

  datatype Approval = Approval(
    automation: Id, revision: Id, requestedBy: Id, key: Id, status: ApprovalStatus, fields: seq<Field>,
    actions: seq<ActionDecl>, expiresAt: Time, response: Option<Response>, actionRun: Option<Id>)

  datatype Stage = Waiting | Validating | Building | Checking | Activating | Done | Broken | Cancelled

  datatype Deployment = Deployment(
    key: Id, stage: Stage, automation: Id, contentHash: string, revision: Option<Id>, retryOf: Option<Id>,
    strand: bool, cancelRequested: bool, lease: Option<Lease>, source: string, digest: string)

  /** A row of the notification outbox is identified by (event type, subject). */
  datatype Notice = Notice(kind: string, subject: Id)

  datatype Table<K(==), +V> = Table(rows: map<K, V>)

  /** A table whose row is its key. */
  datatype Keys<K(==)> = Keys(all: set<K>)

  datatype Db = Db(
    now: Time,
    automations: Table<Id, Automation>,
    revisions: Table<Id, Revision>,
    triggers: Table<(Id, Id), Trigger>,
    events: Table<Id, Event>,
    runs: Table<Id, Run>,
    states: Table<Id, StateRow>,
    approvals: Table<Id, Approval>,
    deployments: Table<Id, Deployment>,
    secrets: Keys<Id>,
    secretRefs: Keys<(Id, Id)>,
    notices: Keys<Notice>)

  /** What the store cannot see: the cron library and timestamp formatting. */
  datatype Env = Env(next: (string, Time) -> Option<Time>, stamp: Time -> string)

  /** What a worker holds after a claim: the claimed row with the state snapshot. */
  datatype Claim = Claim(
    run: Id, automation: Id, revision: Id, attempt: nat, maxAttempts: nat, manifest: Manifest, path: string,
    stateVersion: nat, stateValue: Value)

  datatype Defer = Defer(key: Id, until: Time)

  datatype ApprovalRequest = ApprovalRequest(key: Id, expiresAt: Time, fields: seq<Field>, actions: seq<ActionDecl>)

  datatype Control = Control(defer: Option<Defer>, approval: Option<ApprovalRequest>, notices: seq<Id>)

  predicate Live(run: Run) {
    run.status == Queued || run.status == Running
  }

  predicate InProgress(stage: Stage) {
    stage == Validating || stage == Building || stage == Checking || stage == Activating
  }

  predicate Terminal(stage: Stage) {
    stage == Done || stage == Broken || stage == Cancelled
  }

  predicate Resolved(approval: Approval) {
    approval.status == Approved || approval.status == Rejected
  }

  predicate OwnedBy(lease: Option<Lease>, worker: Id) {
    lease.Some? && lease.value.owner == worker
  }

  predicate Due(now: Time, trigger: Trigger, automation: Automation) {
    && trigger.kind == Schedule && trigger.enabled && automation.enabled
    && trigger.nextFire.Some? && trigger.nextFire.value <= now
  }
}
