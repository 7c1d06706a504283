/** The store object.  Each method works on a local copy of the database, as inside a
    transaction: returning early rolls back, assigning `db` commits.
  */
module StoreObject {
  import opened Basics
  import opened Tables
  import opened Transactions
  import opened Accepted
  import opened World
  import opened Journal

  import opened Storage

  class Store {
    var db: Db
    const env: Env
    /** Whether a recorded tool environment is complete. */
    const validTools: string -> bool

    constructor (env: Env, validTools: string -> bool, db: Db)
      ensures this.env == env && this.validTools == validTools && this.db == db
    {
      this.env, this.validTools, this.db := env, validTools, db;
    }

    // -------------------------------------------------------------- runs

    /** Claim the candidate available earliest, of several the one created earliest, if there is any. */
    method AcquireRun(worker: Id, lease: nat) returns (claim: Option<Claim>)
      modifies this
      ensures claim.None? <==> forall id :: !Candidate(old(db), id)
      ensures claim.None? ==> db == old(db)
      ensures claim.Some? ==> Ready(old(db), claim.value.run) && ClaimedBy(old(db), db, worker, lease, claim.value)
      ensures claim.Some? ==>
                && Tx(db, Ok(claim.value)) == Transactions.AcquireRun(old(db), worker, claim.value.run, lease)
                && forall id :: Candidate(old(db), id) ==>
                     NotAfter(old(db).runs.rows[claim.value.run], old(db).runs.rows[id])
    {
      var best := EarliestCandidate(db);
      if best.None? { return None; }
      var id := best.value;
      ClaimExactly(db, worker, id, lease);
      var run := db.runs.rows[id];
      run := run.(status := Running, attempt := run.attempt + 1, lease := Some(Lease(worker, db.now + lease)));
      var revision := db.revisions.rows[run.revision];
      var version, value := 0, EMPTY_STATE;
      if run.automation in db.states.rows {
        version, value := db.states.rows[run.automation].version, db.states.rows[run.automation].value;
      }
      db := db.(runs := Table(db.runs.rows[id := run]));
      claim := Some(Claim(id, run.automation, run.revision, run.attempt, run.maxAttempts, revision.manifest,
                          revision.path, version, value));
    }

    /** Told true, the caller holds the run until the new expiry and nothing else changed; told false, it
        has lost the run and nothing changed at all. */
    method RenewRunLease(worker: Id, id: Id, lease: nat) returns (renewed: bool)
      modifies this
      ensures renewed <==> Holds(old(db), id, worker)
      ensures renewed ==> Holds(db, id, worker) && Unexpired(db.runs.rows[id], old(db).now + lease)
      ensures forall r :: r in old(db).runs.rows && (r != id || !renewed) ==>
                r in db.runs.rows && db.runs.rows[r] == old(db).runs.rows[r]
      ensures db == old(db).(runs := db.runs) && db.runs.rows.Keys == old(db).runs.rows.Keys
      ensures Tx(db, Ok(renewed)) == Transactions.RenewRunLease(old(db), worker, id, lease)
    {
      renewed := Holds(db, id, worker);
      if renewed {
        db := db.(runs := Table(db.runs.rows[id := db.runs.rows[id].(lease := Some(Lease(worker, db.now + lease)))]));
      }
    }

    method CompleteRun(worker: Id, claim: Claim, state: Option<Value>, control: Control, draw: Draw)
      returns (r: Result<()>)
      modifies this
      ensures r.Ok? <==> Completable(old(db), worker, claim, state, control, draw)
      ensures r.Ok? ==> CompletedBy(old(db), db, claim, state, control, draw)
      ensures r.Err? ==> db == old(db)
      ensures Tx(db, r) == Transactions.CompleteRun(old(db), worker, claim, state, control, draw)
    {
      CompleteExactly(db, worker, claim, state, control, draw);
      var tx := db;
      if !Holds(tx, claim.run, worker) { return Err(LEASE_LOST); }
      tx := tx.(runs := Table(tx.runs.rows[claim.run := tx.runs.rows[claim.run].(status := Succeeded, lease := None)]));
      var states := WriteState(tx.states.rows, claim, state);
      if states.Err? { return Err(states.error); }
      tx := tx.(states := Table(states.value));
      if control.defer.Some? {
        var queued := EnqueueDeferred(tx, claim, control.defer.value, draw);
        if queued.result.Err? { return Err(queued.result.error); }
        tx := queued.db;
      }
      if control.approval.Some? {
        if AskRefused(tx.approvals.rows, claim, control.approval.value, draw.approvalId) { return Err(UNIQUE_VIOLATION); }
        tx := tx.(approvals := Table(tx.approvals.rows[draw.approvalId := OpenedApproval(claim, control.approval.value)]),
                  notices := Keys(tx.notices.all + {Notice("approval.requested", draw.approvalId)}));
      }
      var notices := Announce(tx.notices.all, claim.run, control.notices);
      tx := tx.(notices := Keys(notices));
      assert tx.notices.all == old(db).notices.all + NewNotices(claim, control, draw);
      db := tx;
      r := Ok(());
    }

    /** Requeued after a delay while the claimed attempt is not the last one, failed for good otherwise. */
    method FailRun(worker: Id, claim: Claim) returns (r: Result<bool>)
      modifies this
      ensures r.Ok? <==> Holds(old(db), claim.run, worker)
      ensures r.Ok? ==> FailedBy(old(db), db, claim, r.value)
      ensures r.Err? ==> db == old(db)
      ensures Tx(db, r) == Transactions.FailRun(old(db), worker, claim)
    {
      FailExactly(db, worker, claim);
      var status, availableAt := Failed, db.now;
      if claim.attempt < claim.maxAttempts {
        status, availableAt := Queued, db.now + RetryDelay(claim.attempt);
      }
      var tx := db;
      if !Holds(tx, claim.run, worker) { return Err(LEASE_LOST); }
      tx := tx.(runs := Table(tx.runs.rows[claim.run := Finish(tx.runs.rows[claim.run], status, availableAt)]));
      if status == Failed {
        tx := tx.(notices := Keys(tx.notices.all + {Notice("run.failed", claim.run)}));
      }
      db := tx;
      r := Ok(status == Failed);
    }

    // -------------------------------------------------------------- intake

    method IngestEvent(
      automation: Id, trigger: Id, kind: TriggerKind, external: Id, generated: Id, eventId: Id, runId: Id)
      returns (r: Result<(Id, bool)>)
      modifies this
      ensures Answers(old(db), Transactions.IngestEvent(old(db), automation, trigger, kind, external, generated, eventId, runId),
                      Tx(db, r))
      ensures Whole(old(db)) ==> Whole(db)
    {
      if Whole(db) { IntakeWhole(db, Ingesting(automation, trigger, kind, external, generated, eventId, runId)); }
      var tx := EnqueueEvent(db, automation, trigger, kind, external, generated, eventId, runId);
      if tx.result.Ok? { db := tx.db; }
      r := tx.result;
    }

    method EnqueueManualRun(automation: Id, external: Id, generated: Id, expected: Id, eventId: Id, runId: Id)
      returns (r: Result<(Id, bool)>)
      modifies this
      ensures Answers(old(db), Transactions.EnqueueManualRun(old(db), automation, external, generated, expected, eventId, runId),
                      Tx(db, r))
      ensures Whole(old(db)) ==> Whole(db)
    {
      if Whole(db) { IntakeWhole(db, Starting(automation, external, generated, expected, eventId, runId)); }
      var key := Plain(automation, "manual");
      if external != "" {
        var taken := FindEvent(db.events.rows, Event(key, external));
        if taken {
          r := FindRun(db, key, external);
          return;
        }
      }
      if automation !in db.automations.rows || db.automations.rows[automation].active.None? { return Err(NOT_FOUND); }
      var revision := db.automations.rows[automation].active.value;
      if revision !in db.revisions.rows { return Err(NOT_FOUND); }
      if expected != "" && revision != expected { return Err(REVISION_CHANGED); }
      var event := Event(key, if external == "" then generated else external);
      var tx := InsertOnce(db, event, eventId, runId,
                           NewRun(automation, revision, eventId, db.revisions.rows[revision].manifest, db.now, db.now));
      if tx.result.Ok? { db := tx.db; }
      r := tx.result;
    }

    /** One scheduler pass: the earliest `limit` due triggers, read first and then fired one by one. */
    method EnqueueDueSchedules(limit: nat, draw: nat -> (Id, Id)) returns (r: Result<nat>, due: seq<(Id, Id)>)
      modifies this
      ensures Selected(old(db), due, limit)
      ensures Tx(db, r) == FireAll(env, old(db), Drawn(due, draw))
    {
      due := DueTriggers(db, limit);
      var tx, created, k := db, 0, 0;
      ghost var all := Drawn(due, draw);
      while k < |due|
        invariant 0 <= k <= |due| && db == old(db) && SameSchedule(db, tx, due[k..])
        invariant FireAll(env, db, all) == After(db, created, FireAll(env, tx, all[k..]))
      {
        assert due[k..][0] == due[k] && due[k..][1..] == due[k + 1..];
        assert all[k..][0] == Firing(due[k], draw(k).0, draw(k).1) && all[k..][1..] == all[k + 1..];
        var fired := FireDue(env, tx, due[k], draw(k).0, draw(k).1);
        AfterFiring(env, db, tx, created, all[k..]);
        if fired.result.Err? { return Err(fired.result.error), due; }
        FiringLeaves(db, tx, fired.db, due[k..]);
        created := created + if fired.result.value then 1 else 0;
        tx := fired.db;
        k := k + 1;
      }
      assert all[k..] == [];
      db := tx;
      r := Ok(created);
    }

    /** Pausing flips the switch; resuming also restarts every enabled schedule from now. */
    method SetAutomationEnabled(automation: Id, enabled: bool) returns (r: Result<bool>)
      modifies this
      ensures r == Ok(true) ==> SwitchedTo(env, old(db), db, automation, enabled)
      ensures r != Ok(true) ==> db == old(db)
      ensures Tx(db, r) == Transactions.SetAutomationEnabled(env, old(db), automation, enabled)
      ensures Stored(old(db)) ==> Stored(db)
    {
      if Stored(db) { EnableStored(env, db, automation, enabled); }
      EnableExactly(env, db, automation, enabled);
      var tx := db;
      if automation !in tx.automations.rows { return Err(NOT_FOUND); }
      if tx.automations.rows[automation].enabled == enabled { return Ok(false); }
      tx := tx.(automations := Table(tx.automations.rows[automation := tx.automations.rows[automation].(enabled := enabled)]));
      if enabled {
        var triggers := Resume(env, tx.triggers.rows, automation, tx.now);
        if triggers.None? { return Err(BAD_SCHEDULE); }
        tx := tx.(triggers := Table(triggers.value));
      }
      db := tx;
      r := Ok(true);
    }

    // -------------------------------------------------------------- releases

    method Deploy(
      manifest: Manifest, tools: Option<string>, hash: string, path: string, provenance: Provenance, job: Job)
      returns (r: Result<Id>)
      modifies this
      ensures Tx(db, r) == Transactions.Deploy(
                env, old(db), manifest, hash, path, Attests(validTools, provenance, manifest.name, tools, hash), job)
      ensures Stored(old(db)) && path != "" && HashDetermines(old(db), manifest, hash) ==> Stored(db)
      ensures r.Err? ==> db == old(db)
      ensures r.Ok? ==>
                && ActiveOn(old(db), db, manifest.name, r.value) && Installable(env, manifest.triggers, old(db).now)
                && Installed(env, old(db).triggers.rows, manifest.name, r.value, manifest.triggers, old(db).now, db.triggers.rows)
    {
      DeployActivates(env, db, manifest, hash, path, Attests(validTools, provenance, manifest.name, tools, hash), job);
      if Stored(db) && path != "" && HashDetermines(db, manifest, hash) {
        DeployStored(env, db, manifest, hash, path, Attests(validTools, provenance, manifest.name, tools, hash), job);
      }
      var tx := db;
      if !ValidHash(hash) || !Attests(validTools, provenance, manifest.name, tools, hash) { return Err(PROVENANCE_REQUIRED); }
      var revision, automation := RevisionId(hash), manifest.name;
      if Strands(tx, automation, revision) && !StrandAllowed(tx, JobId(job)) { return Err(PENDING_APPROVALS); }
      var row := UpsertRevision(tx, revision, manifest, hash, path);
      if row.None? { return Err(UNIQUE_VIOLATION); }
      var kept := UpsertAutomation(tx, automation);
      var triggers := ReplaceTriggerRows(env, tx.triggers.rows, automation, revision, manifest.triggers, tx.now);
      if triggers.None? { return Err(BAD_SCHEDULE); }
      var refs := ReplaceSecretRows(tx, revision, manifest.secrets);
      if refs.None? { return Err(SECRET_MISSING); }
      tx := tx.(revisions := Table(tx.revisions.rows[revision := row.value]), triggers := Table(triggers.value),
                secretRefs := Keys(refs.value),
                automations := Table(tx.automations.rows[automation := kept.(active := Some(revision))]));
      if job.ByDeployment? {
        if !Activatable(tx, job.deployment, job.worker) {
          return Err(if job.deployment in tx.deployments.rows && tx.deployments.rows[job.deployment].cancelRequested
                     then DEPLOYMENT_CANCELLED else LEASE_LOST);
        }
        var d := tx.deployments.rows[job.deployment].(stage := Done, revision := Some(revision), lease := None);
        tx := tx.(deployments := Table(tx.deployments.rows[job.deployment := d]));
      }
      db := tx;
      r := Ok(revision);
    }

    /** Accepted exactly for a stored revision of the automation that is active already or whose triggers
        can be installed; then that revision is active with exactly its triggers, and no other row changed. */
    method RollbackAutomation(automation: Id, revision: Id) returns (r: Result<bool>)
      modifies this
      ensures r.Ok? <==>
                && automation in old(db).automations.rows && revision in old(db).revisions.rows
                && old(db).revisions.rows[revision].automation == automation && old(db).revisions.rows[revision].path != ""
                && (old(db).automations.rows[automation].active == Some(revision)
                    || Installable(env, old(db).revisions.rows[revision].manifest.triggers, old(db).now))
      ensures r != Ok(true) ==> db == old(db)
      ensures r == Ok(true) ==>
                && db == old(db).(automations := db.automations, triggers := db.triggers)
                && db.automations.rows == old(db).automations.rows[automation :=
                     old(db).automations.rows[automation].(active := Some(revision))]
                && Installed(env, old(db).triggers.rows, automation, revision,
                             old(db).revisions.rows[revision].manifest.triggers, old(db).now, db.triggers.rows)
      ensures Stored(old(db)) ==> Stored(db)
      ensures Tx(db, r) == Transactions.RollbackAutomation(env, old(db), automation, revision)
    {
      if Stored(db) { RollbackStored(env, db, automation, revision); }
      var tx := db;
      if automation !in tx.automations.rows { return Err(NOT_FOUND); }
      if revision !in tx.revisions.rows || tx.revisions.rows[revision].automation != automation { return Err(NOT_FOUND); }
      var row := tx.revisions.rows[revision];
      if row.path == "" { return Err(ARTIFACT_UNAVAILABLE); }
      if tx.automations.rows[automation].active == Some(revision) { return Ok(false); }
      var triggers := ReplaceTriggerRows(env, tx.triggers.rows, automation, revision, row.manifest.triggers, tx.now);
      if triggers.None? { return Err(BAD_SCHEDULE); }
      tx := tx.(triggers := Table(triggers.value));
      tx := tx.(automations := Table(tx.automations.rows[automation := tx.automations.rows[automation].(active := Some(revision))]));
      db := tx;
      r := Ok(true);
    }

    // -------------------------------------------------------------- approvals

    method ResolveApproval(
      id: Id, replayKey: Id, expected: Id, action: Id, supplied: map<Id, Option<FieldValue>>, eventId: Id, runId: Id)
      returns (r: Result<bool>)
      modifies this
      ensures Paired(old(db).events.rows, old(db).runs.rows) && r == Ok(true) ==>
                && id in old(db).approvals.rows
                && var response := ValidResponse(old(db).approvals.rows[id].fields, old(db).approvals.rows[id].actions, action, supplied);
                response.Some? && AnsweredBy(old(db), db, id, replayKey, action, response.value, eventId, runId)
      ensures Paired(old(db).events.rows, old(db).runs.rows) ==>
                Tx(db, r) == Transactions.ResolveApproval(old(db), id, replayKey, expected, action, supplied, eventId, runId)
      ensures Whole(old(db)) ==> Whole(db)
    {
      AnswerExactly(db, id, replayKey, expected, action, supplied, eventId, runId);
      if Whole(db) { IntakeWhole(db, Answering(id, replayKey, expected, action, supplied, eventId, runId)); }
      var tx := db;
      if id !in tx.approvals.rows { return Err(NOT_FOUND); }
      var a := tx.approvals.rows[id];
      var key := ForApproval(a.automation, id);
      var response := ValidateApprovalResponse(a.fields, a.actions, action, supplied);
      if a.status != Pending {
        if response.None? || a.response != Some(Response(action, response.value)) { return Err(APPROVAL_RESOLVED); }
        var existing := FindRun(tx, key, replayKey);
        if existing.Ok? && a.actionRun == Some(existing.value.0) { return Ok(false); }
        return Err(APPROVAL_RESOLVED);
      }
      if a.expiresAt <= tx.now {
        db := tx.(approvals := Table(tx.approvals.rows[id := a.(status := Expired)]));
        return Err(APPROVAL_EXPIRED);
      }
      if expected == "" || expected != a.revision { return Err(REVISION_CHANGED); }
      if a.automation !in tx.automations.rows || tx.automations.rows[a.automation].active.None?
         || tx.automations.rows[a.automation].active.value !in tx.revisions.rows { return Err(NOT_FOUND); }
      if tx.automations.rows[a.automation].active != Some(a.revision) { return Err(REVISION_CHANGED); }
      if response.None? || Decision(action).None? { return Err(INVALID_RESPONSE); }
      var run := NewRun(a.automation, a.revision, eventId, tx.revisions.rows[a.revision].manifest, tx.now, tx.now);
      var queued := Enqueue(tx, Event(key, replayKey), eventId, runId, run);
      if queued.result.Err? { return Err(queued.result.error); }
      tx := queued.db;
      var answered := a.(status := Decision(action).value, response := Some(Response(action, response.value)),
                         actionRun := Some(runId));
      tx := tx.(approvals := Table(tx.approvals.rows[id := answered]));
      tx := tx.(notices := Keys(tx.notices.all + {Notice("approval.resolved", id)}));
      db := tx;
      r := Ok(true);
    }
  }

  /** Nothing dangles, and events and runs are in bijection. */
  ghost predicate Whole(db: Db) { Stored(db) && Paired(db.events.rows, db.runs.rows) }

  lemma IntakeWhole(db: Db, a: IntakeAction)
    requires Whole(db)
    ensures Whole(TakingIn(db, a))
  {
    IntakeStored(db, a);
    IntakePaired(db, a);
  }

  // ---------------------------------------------------------------- provenance

  /** The signed statement about a built artifact; `tools` is its tool environment, as text. */
  datatype Provenance = Provenance(
    version: int, artifactDigest: string, contentHash: string, automation: Id, tools: Option<string>, algorithm: string,
    signingKey: string, publicKey: string, signature: string)

  predicate IsDigest(s: string) { |s| >= 7 && s[..7] == "sha256:" && ValidHash(s[7..]) }

  /** The statement is complete and speaks of this automation, content and tool environment. */
  predicate Attests(validTools: string -> bool, p: Provenance, automation: Id, tools: Option<string>, hash: string) {
    && (|| (p.version == 1 && p.tools.None?) || (p.version == 2 && p.tools.Some? && validTools(p.tools.value)))
    && p.algorithm == "ed25519" && IsDigest(p.artifactDigest) && IsDigest(p.signingKey)
    && p.publicKey != "" && p.signature != "" && p.contentHash == hash && p.automation == automation && p.tools == tools
  }

  // ---------------------------------------------------------------- statements and loops

  /** The claim order: by availability, then by creation. */
  predicate NotAfter(a: Run, b: Run) {
    a.availableAt < b.availableAt || (a.availableAt == b.availableAt && a.createdAt <= b.createdAt)
  }

  method EarliestCandidate(db: Db) returns (best: Option<Id>)
    ensures best.None? <==> forall id :: !Candidate(db, id)
    ensures best.Some? ==>
              && Candidate(db, best.value)
              && forall id :: Candidate(db, id) ==> NotAfter(db.runs.rows[best.value], db.runs.rows[id])
  {
    var left := db.runs.rows.Keys;
    best := None;
    while left != {}
      invariant left <= db.runs.rows.Keys
      invariant best.None? ==> forall id :: Candidate(db, id) ==> id in left
      invariant best.Some? ==>
                  && Candidate(db, best.value)
                  && forall id :: Candidate(db, id) && id !in left ==>
                       NotAfter(db.runs.rows[best.value], db.runs.rows[id])
      decreases |left|
    {
      var id :| id in left;
      left := left - {id};
      if Candidate(db, id) && (best.None? || NotAfter(db.runs.rows[id], db.runs.rows[best.value])) {
        best := Some(id);
      }
    }
  }

  /** The optimistic write: insert for version 0, guarded update otherwise. */
  method WriteState(states: map<Id, StateRow>, claim: Claim, state: Option<Value>) returns (r: Result<map<Id, StateRow>>)
    ensures r == if StateRefused(states, claim, state)
                 then Err(if state.None? then INVALID_STATE else STATE_CONFLICT)
                 else Ok(WithState(states, claim, state))
  {
    if !claim.manifest.stateful { return Ok(states); }
    if state.None? { return Err(INVALID_STATE); }
    if claim.stateVersion == 0 {
      if claim.automation in states { return Err(STATE_CONFLICT); }
      return Ok(states[claim.automation := StateRow(1, state.value)]);
    }
    if claim.automation !in states || states[claim.automation].version != claim.stateVersion { return Err(STATE_CONFLICT); }
    return Ok(states[claim.automation := StateRow(states[claim.automation].version + 1, state.value)]);
  }

  method EnqueueDeferred(tx: Db, claim: Claim, defer: Defer, draw: Draw) returns (r: Tx<Id>)
    ensures r == Enqueue(tx, DeferredEvent(claim, defer), draw.eventId, draw.runId,
                         NewRun(claim.automation, claim.revision, draw.eventId, claim.manifest, defer.until, tx.now))
  {
    var taken := FindEvent(tx.events.rows, DeferredEvent(claim, defer));
    if taken || draw.eventId in tx.events.rows { return Abort(tx, UNIQUE_VIOLATION); }
    var inserted := tx.(events := Table(tx.events.rows[draw.eventId := DeferredEvent(claim, defer)]));
    if draw.runId in inserted.runs.rows { return Abort(tx, UNIQUE_VIOLATION); }
    var run := NewRun(claim.automation, claim.revision, draw.eventId, claim.manifest, defer.until, tx.now);
    r := Tx(inserted.(runs := Table(inserted.runs.rows[draw.runId := run])), Ok(draw.runId));
  }

  /** The deduplicated outbox insert, once per requested notification. */
  method Announce(notices: set<Notice>, run: Id, keys: seq<Id>) returns (all: set<Notice>)
    ensures all == notices + RequestedNotices(run, keys)
  {
    all := notices;
    for k := 0 to |keys|
      invariant all == notices + RequestedNotices(run, keys[..k])
    {
      assert keys[..k + 1] == keys[..k] + [keys[k]];
      all := all + {Notice("automation.notification", DeferredKey(run, keys[k]))};
    }
    assert keys[..|keys|] == keys;
  }

  method FindEvent(events: map<Id, Event>, event: Event) returns (taken: bool)
    ensures taken == KeyTaken(events, event.key, event.external)
  {
    var left := events.Keys;
    while left != {}
      invariant left <= events.Keys
      invariant forall e :: e in events && e !in left ==> events[e] != event
      decreases |left|
    {
      var e :| e in left;
      if events[e] == event { return true; }
      left := left - {e};
    }
    return false;
  }

  /** The join of runs and events; under the bijection there is one answer. */
  method FindRun(db: Db, key: TriggerKey, external: Id) returns (r: Result<(Id, bool)>)
    ensures r.Ok? ==> RunOfKey(db, r.value.0, key, external) && !r.value.1
    ensures r.Err? ==> r == Err(NOT_FOUND) && forall run :: !RunOfKey(db, run, key, external)
  {
    var left := db.runs.rows.Keys;
    while left != {}
      invariant left <= db.runs.rows.Keys
      invariant forall run :: run in db.runs.rows && run !in left ==> !RunOfKey(db, run, key, external)
      decreases |left|
    {
      var run :| run in left;
      if RunOfKey(db, run, key, external) { return Ok((run, false)); }
      left := left - {run};
    }
    return Err(NOT_FOUND);
  }

  /** `actual` does what `expected` says; which run answers a replayed key is fixed by the bijection. */
  ghost predicate Answers(db: Db, expected: Tx<(Id, bool)>, actual: Tx<(Id, bool)>) {
    && actual.db == expected.db && actual.result.Ok? == expected.result.Ok?
    && (actual.result.Ok? ==> actual.result.value.1 == expected.result.value.1)
    && (actual.result.Err? ==> actual.result == expected.result)
    && (Paired(db.events.rows, db.runs.rows) ==> actual == expected)
  }

  method InsertOnce(db: Db, event: Event, eventId: Id, runId: Id, run: Run) returns (r: Tx<(Id, bool)>)
    ensures Answers(db, EnqueueOnce(db, event, eventId, runId, run), r)
  {
    var taken := FindEvent(db.events.rows, event);
    if taken {
      var existing := FindRun(db, event.key, event.external);
      return Tx(db, existing);
    }
    if eventId in db.events.rows || runId in db.runs.rows { return Abort(db, UNIQUE_VIOLATION); }
    var inserted := db.(events := Table(db.events.rows[eventId := event]));
    inserted := inserted.(runs := Table(inserted.runs.rows[runId := run]));
    r := Tx(inserted, Ok((runId, true)));
  }

  /** `enqueueEvent`, on the transaction's view of the database. */
  method EnqueueEvent(
    db: Db, automation: Id, trigger: Id, kind: TriggerKind, external: Id, generated: Id, eventId: Id, runId: Id)
    returns (r: Tx<(Id, bool)>)
    ensures Answers(db, Transactions.IngestEvent(db, automation, trigger, kind, external, generated, eventId, runId), r)
    ensures r.db.automations == db.automations && r.db.triggers == db.triggers && r.db.now == db.now
  {
    if !TriggerOpen(db, automation, trigger, kind) { return Abort(db, NOT_FOUND); }
    var row := db.triggers.rows[(automation, trigger)];
    var manifest := db.revisions.rows[row.revision].manifest;
    var event := Event(Plain(automation, trigger), if external == "" then generated else external);
    var taken := FindEvent(db.events.rows, event);
    if !taken && BadDelay(row) { return Abort(db, INVALID_DELAY); }
    r := InsertOnce(db, event, eventId, runId,
                    NewRun(automation, row.revision, eventId, manifest, Delivery(db.now, row), db.now));
  }

  function Drawn(due: seq<(Id, Id)>, draw: nat -> (Id, Id)): (r: seq<Firing>)
    ensures |r| == |due|
  {
    seq(|due|, i requires 0 <= i < |due| => Firing(due[i], draw(i).0, draw(i).1))
  }

  /** The batch of a pass: distinct due triggers, earliest first, short of the limit only when no
      due trigger is left. */
  ghost predicate Selected(db: Db, due: seq<(Id, Id)>, limit: nat) {
    && |due| <= limit
    && (forall i :: 0 <= i < |due| ==> Fires(db, due[i]))
    && (forall i, j :: 0 <= i < j < |due| ==> due[i] != due[j])
    && (forall i, j :: 0 <= i < j < |due| ==> FireTime(db, due[i]) <= FireTime(db, due[j]))
    && (forall t :: Fires(db, t) && t !in due ==>
          |due| == limit && forall i :: 0 <= i < |due| ==> FireTime(db, due[i]) <= FireTime(db, t))
  }

  function FireTime(db: Db, t: (Id, Id)): Time {
    if Fires(db, t) then db.triggers.rows[t].nextFire.value else 0
  }

  method EarliestDue(db: Db, left: set<(Id, Id)>) returns (best: (Id, Id))
    requires left != {} && forall t :: t in left ==> Fires(db, t)
    ensures best in left && forall t :: t in left ==> FireTime(db, best) <= FireTime(db, t)
  {
    best :| best in left;
    var rest := left - {best};
    while rest != {}
      invariant rest <= left && best in left
      invariant forall t :: t in left && t !in rest ==> FireTime(db, best) <= FireTime(db, t)
      decreases |rest|
    {
      var t :| t in rest;
      if FireTime(db, t) < FireTime(db, best) { best := t; }
      rest := rest - {t};
    }
  }

  method DueTriggers(db: Db, limit: nat) returns (due: seq<(Id, Id)>)
    ensures Selected(db, due, limit)
  {
    var left := set t | t in db.triggers.rows && Fires(db, t);
    due := [];
    while left != {} && |due| < limit
      invariant |due| <= limit
      invariant forall t :: Fires(db, t) <==> t in left || t in due
      invariant forall i :: 0 <= i < |due| ==> due[i] !in left
      invariant forall i, j :: 0 <= i < j < |due| ==> due[i] != due[j] && FireTime(db, due[i]) <= FireTime(db, due[j])
      invariant forall t, i :: t in left && 0 <= i < |due| ==> FireTime(db, due[i]) <= FireTime(db, t)
      decreases |left|
    {
      var t := EarliestDue(db, left);
      due := due + [t];
      left := left - {t};
    }
  }

  /** The rows a pass read are still the ones it read, for the triggers it has yet to fire. */
  ghost predicate SameSchedule(before: Db, tx: Db, due: seq<(Id, Id)>) {
    && tx.now == before.now && tx.automations == before.automations
    && (forall i :: 0 <= i < |due| ==> Fires(before, due[i]) && due[i] in tx.triggers.rows)
    && (forall i :: 0 <= i < |due| ==> tx.triggers.rows[due[i]] == before.triggers.rows[due[i]])
    && (forall i, j :: 0 <= i < j < |due| ==> due[i] != due[j])
  }

  lemma FiringLeaves(before: Db, tx: Db, tx': Db, due: seq<(Id, Id)>)
    requires due != [] && SameSchedule(before, tx, due)
    requires tx'.now == tx.now && tx'.automations == tx.automations
    requires forall t :: t in tx.triggers.rows && t != due[0] ==>
               t in tx'.triggers.rows && tx'.triggers.rows[t] == tx.triggers.rows[t]
    ensures SameSchedule(before, tx', due[1..])
  {
  }

  /** A batch that already created `created` runs, continued by the rest of the batch. */
  function After(before: Db, created: nat, rest: Tx<nat>): Tx<nat> {
    if rest.result.Err? then Abort(before, rest.result.error) else Tx(rest.db, Ok(created + rest.result.value))
  }

  lemma AfterFiring(env: Env, before: Db, tx: Db, created: nat, due: seq<Firing>)
    requires due != []
    ensures var first := FireOne(env, tx, due[0].trigger, due[0].eventId, due[0].runId);
            After(before, created, FireAll(env, tx, due)) ==
              if first.result.Err? then Abort(before, first.result.error)
              else After(before, created + (if first.result.value then 1 else 0), FireAll(env, first.db, due[1..]))
  {
  }

  method FireDue(env: Env, tx: Db, t: (Id, Id), eventId: Id, runId: Id) returns (r: Tx<bool>)
    requires Fires(tx, t)
    ensures r == FireOne(env, tx, t, eventId, runId)
    ensures r.db.now == tx.now && r.db.automations == tx.automations
    ensures forall u :: u in tx.triggers.rows && u != t ==>
              u in r.db.triggers.rows && r.db.triggers.rows[u] == tx.triggers.rows[u]
  {
    var row := tx.triggers.rows[t];
    var fireAt := row.nextFire.value;
    var next := env.next(row.cron, fireAt);
    if next.None? { return Abort(tx, BAD_SCHEDULE); }
    var advanced := tx.(triggers := Table(tx.triggers.rows[t := row.(nextFire := next)]));
    var queued := EnqueueEvent(advanced, t.0, t.1, Schedule, env.stamp(fireAt), env.stamp(fireAt), eventId, runId);
    if queued.result.Err? { return Abort(tx, queued.result.error); }
    r := Tx(queued.db, Ok(queued.result.value.1));
  }

  /** Give every enabled schedule of the automation its next time after `now`. */
  method Resume(env: Env, triggers: map<(Id, Id), Trigger>, automation: Id, now: Time)
    returns (r: Option<map<(Id, Id), Trigger>>)
    ensures r.None? <==>
              exists t :: t in triggers && Resumes(triggers, automation, t) && env.next(triggers[t].cron, now).None?
    ensures r.Some? ==> r.value == map t | t in triggers ::
                          if Resumes(triggers, automation, t) then triggers[t].(nextFire := env.next(triggers[t].cron, now))
                          else triggers[t]
  {
    var left := set t | t in triggers && Resumes(triggers, automation, t);
    var rows := triggers;
    while left != {}
      invariant rows.Keys == triggers.Keys
      invariant forall t :: t in left ==> t in triggers && Resumes(triggers, automation, t)
      invariant forall t :: t in triggers && (t in left || !Resumes(triggers, automation, t)) ==> rows[t] == triggers[t]
      invariant forall t :: t in triggers && t !in left && Resumes(triggers, automation, t) ==>
                  env.next(triggers[t].cron, now).Some?
                  && rows[t] == triggers[t].(nextFire := env.next(triggers[t].cron, now))
      decreases |left|
    {
      var t :| t in left;
      left := left - {t};
      var next := env.next(rows[t].cron, now);
      if next.None? { return None; }
      rows := rows[t := rows[t].(nextFire := next)];
    }
    return Some(rows);
  }

  /** Trigger ids are used once and every enabled schedule has a next time. */
  ghost predicate Installable(env: Env, decls: seq<TriggerDecl>, now: Time) {
    && (forall i, j :: 0 <= i < j < |decls| ==> decls[i].id != decls[j].id)
    && forall i :: 0 <= i < |decls| && decls[i].kind == Schedule && decls[i].enabled ==> env.next(decls[i].cron, now).Some?
  }

  /** The row is the declaration's, on that revision; only an enabled schedule waits, for its first time from now. */
  predicate Follows(env: Env, row: Trigger, revision: Id, decl: TriggerDecl, now: Time) {
    && row.revision == revision && row.kind == decl.kind && row.enabled == decl.enabled && row.cron == decl.cron
    && row.delay == decl.delay
    && row.nextFire == if decl.kind == Schedule && decl.enabled then env.next(decl.cron, now) else None
  }

  /** The automation's rows are exactly those of the declarations; other rows are as before. */
  ghost predicate Installed(
    env: Env, before: map<(Id, Id), Trigger>, automation: Id, revision: Id, decls: seq<TriggerDecl>, now: Time,
    after: map<(Id, Id), Trigger>)
  {
    && (forall t :: t in before && t.0 != automation ==> t in after && after[t] == before[t])
    && (forall t :: t in after && t.0 != automation ==> t in before)
    && (forall i :: 0 <= i < |decls| ==>
          (automation, decls[i].id) in after && Follows(env, after[(automation, decls[i].id)], revision, decls[i], now))
    && (forall t :: t in after && t.0 == automation ==> Declares(decls, t.1))
  }

  ghost predicate Declares(decls: seq<TriggerDecl>, id: Id) { exists i :: 0 <= i < |decls| && decls[i].id == id }

  method ReplaceTriggerRows(
    env: Env, triggers: map<(Id, Id), Trigger>, automation: Id, revision: Id, decls: seq<TriggerDecl>, now: Time)
    returns (r: Option<map<(Id, Id), Trigger>>)
    ensures r.Some? <==> Installable(env, decls, now)
    ensures r.Some? ==> Installed(env, triggers, automation, revision, decls, now, r.value)
    ensures r == InsertTriggers(env, WithoutTriggers(triggers, automation), automation, revision, decls, now)
  {
    var rows := map t | t in triggers && t.0 != automation :: triggers[t];
    for k := 0 to |decls|
      invariant Installable(env, decls[..k], now) && Installed(env, triggers, automation, revision, decls[..k], now, rows)
      invariant InsertTriggers(env, rows, automation, revision, decls[k..], now)
             == InsertTriggers(env, WithoutTriggers(triggers, automation), automation, revision, decls, now)
    {
      var decl, nextFire := decls[k], None;
      assert decls[k..][1..] == decls[k + 1..];
      if decl.kind == Schedule && decl.enabled {
        nextFire := env.next(decl.cron, now);
        if nextFire.None? { return None; }
      }
      if (automation, decl.id) in rows {
        assert Declares(decls[..k], decl.id);
        return None;
      }
      InstallMore(env, triggers, automation, revision, decls, k, now, rows);
      rows := rows[(automation, decl.id) := Trigger(revision, decl.kind, decl.enabled, decl.cron, decl.delay, nextFire)];
    }
    assert decls[..|decls|] == decls;
    return Some(rows);
  }

  lemma InstallMore(
    env: Env, before: map<(Id, Id), Trigger>, automation: Id, revision: Id, decls: seq<TriggerDecl>, k: nat, now: Time,
    rows: map<(Id, Id), Trigger>)
    requires k < |decls| && Installable(env, decls[..k], now) && !Unschedulable(env, decls[k], now)
    requires Installed(env, before, automation, revision, decls[..k], now, rows) && (automation, decls[k].id) !in rows
    ensures Installable(env, decls[..k + 1], now)
    ensures Installed(env, before, automation, revision, decls[..k + 1], now,
                      rows[(automation, decls[k].id) := TriggerRow(env, revision, decls[k], now)])
  {
    var after := rows[(automation, decls[k].id) := TriggerRow(env, revision, decls[k], now)];
    assert decls[..k + 1] == decls[..k] + [decls[k]];
    forall i | 0 <= i < k ensures decls[i].id != decls[k].id { assert decls[..k][i] == decls[i]; }
    forall t | t in after && t.0 == automation ensures Declares(decls[..k + 1], t.1) {
      if t.1 == decls[k].id { assert decls[..k + 1][k].id == t.1; } else {
        assert Declares(decls[..k], t.1);
        var i :| 0 <= i < k && decls[..k][i].id == t.1;
        assert decls[..k + 1][i].id == t.1;
      }
    }
  }

  /** Refused when a named secret does not exist; otherwise exactly the named references remain. */
  method ReplaceSecretRows(db: Db, revision: Id, names: seq<Id>) returns (r: Option<set<(Id, Id)>>)
    ensures r.None? <==> exists n :: n in names && n !in db.secrets.all
    ensures r.Some? ==> forall p :: p in r.value <==> if p.0 == revision then p.1 in names else p in db.secretRefs.all
    ensures r.Some? ==> r.value == Transactions.ReplaceSecretReferences(db.secretRefs.all, revision, names)
  {
    var refs := set p | p in db.secretRefs.all && p.0 != revision;
    for k := 0 to |names|
      invariant forall i :: 0 <= i < k ==> names[i] in db.secrets.all
    {
      if names[k] !in db.secrets.all { return None; }
    }
    for k := 0 to |names|
      invariant refs == Transactions.ReplaceSecretReferences(db.secretRefs.all, revision, names[..k])
    {
      assert names[..k + 1] == names[..k] + [names[k]];
      refs := refs + {(revision, names[k])};
    }
    assert names[..|names|] == names;
    return Some(refs);
  }

  /** The response check, declaration by declaration in any order. */
  method ValidateApprovalResponse(
    fields: seq<Field>, actions: seq<ActionDecl>, action: Id, supplied: map<Id, Option<FieldValue>>)
    returns (r: Option<map<Id, FieldValue>>)
    ensures r == ValidResponse(fields, actions, action, supplied)
  {
    var selected := None;
    for k := 0 to |actions|
      invariant selected.None? && SelectedAction(actions[k..], action) == SelectedAction(actions, action)
    {
      if actions[k].id == action { selected := Some(actions[k]); break; }
      assert actions[k..][1..] == actions[k + 1..];
    }
    if selected.None? { return None; }
    var declared := map[];
    for k := 0 to |fields|
      invariant declared == Declared(fields[..k])
    {
      assert fields[..k + 1][..k] == fields[..k];
      declared := declared[fields[k].id := fields[k]];
    }
    assert fields[..|fields|] == fields;
    var keys := supplied.Keys;
    while keys != {}
      invariant keys <= supplied.Keys
      invariant forall k :: k in supplied && k !in keys ==> k in declared && declared[k].kind != ImageField
      decreases |keys|
    {
      var k :| k in keys;
      if k !in declared || declared[k].kind == ImageField { return None; }
      keys := keys - {k};
    }
    r := NormalizeFields(declared, selected.value.requiresFields, supplied);
  }

  method NormalizeFields(declared: map<Id, Field>, requiresFields: bool, supplied: map<Id, Option<FieldValue>>)
    returns (r: Option<map<Id, FieldValue>>)
    ensures r.None? <==> exists k :: k in declared && Objection(declared[k], requiresFields, supplied)
    ensures r.Some? ==> r.value == map k | k in declared && Kept(declared[k], supplied) ::
                                     Normal(declared[k], Supplied(declared[k], supplied).value)
  {
    var left, result := declared.Keys, map[];
    while left != {}
      invariant left <= declared.Keys
      invariant forall k :: k in declared && k !in left ==> !Objection(declared[k], requiresFields, supplied)
      invariant result.Keys == set k | k in declared && k !in left && Kept(declared[k], supplied)
      invariant forall k :: k in result ==> result[k] == Normal(declared[k], Supplied(declared[k], supplied).value)
      decreases |left|
    {
      var id :| id in left;
      left := left - {id};
      var field := declared[id];
      if field.kind == ImageField { continue; }
      var value := Supplied(field, supplied);
      if requiresFields && field.required && Blank(value) { return None; }
      if value.None? { continue; }
      if !Acceptable(field, value.value) { return None; }
      result := result[id := Normal(field, value.value)];
    }
    return Some(result);
  }
}
