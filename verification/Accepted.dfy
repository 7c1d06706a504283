/** What an accepted call leaves behind, row by row.

    Each predicate says of two databases that the second is the first after the call took effect, in terms
    of the rows alone; the lemmas beside them tie the transactions to it and say when they take effect.
  */
module Accepted {
  import opened Basics
  import opened Tables
  import opened Transactions
  import opened Shapes

  // ---------------------------------------------------------------- runs

  /** Ready: queued and due, or running on a lease that has run out, and no rival holds a forbidden slot. */
  ghost predicate Ready(db: Db, id: Id) {
    && id in db.runs.rows && db.runs.rows[id].revision in db.revisions.rows && db.runs.rows[id].event in db.events.rows
    && var run := db.runs.rows[id];
    && (|| (run.status == Queued && run.availableAt <= db.now)
        || (run.status == Running && run.lease.Some? && run.lease.value.expires < db.now))
    && (run.policy == Forbid ==>
          forall other :: other in db.runs.rows && other != id && db.runs.rows[other].automation == run.automation
            && db.runs.rows[other].status == Running && db.runs.rows[other].lease.Some?
            ==> db.runs.rows[other].lease.value.expires < db.now)
  }

  /** The claim carries the run's own revision, its manifest and its location, and the state as it stands. */
  ghost predicate ClaimedBy(db: Db, db': Db, worker: Id, lease: nat, c: Claim) {
    && c.run in db.runs.rows && db.runs.rows[c.run].revision in db.revisions.rows
    && var run := db.runs.rows[c.run];
    && c.automation == run.automation && c.revision == run.revision && c.maxAttempts == run.maxAttempts
    && c.attempt == run.attempt + 1
    && c.manifest == db.revisions.rows[run.revision].manifest && c.path == db.revisions.rows[run.revision].path
    && (run.automation in db.states.rows ==> StateRow(c.stateVersion, c.stateValue) == db.states.rows[run.automation])
    && (run.automation !in db.states.rows ==> c.stateVersion == 0 && c.stateValue == "{}")
    && db' == db.(runs := db'.runs)
    && db'.runs.rows == db.runs.rows[c.run := run.(status := Running, attempt := run.attempt + 1,
                                                   lease := Some(Lease(worker, db.now + lease)))]
  }

  lemma ClaimExactly(db: Db, worker: Id, id: Id, lease: nat)
    ensures var tx := AcquireRun(db, worker, id, lease);
            && (tx.result.Ok? <==> Ready(db, id)) && (tx.result.Err? ==> tx.db == db)
            && (tx.result.Ok? ==> tx.result.value.run == id && ClaimedBy(db, tx.db, worker, lease, tx.result.value))
  {
  }

  /** A failed attempt: requeued for after its delay while attempts are left, failed and announced otherwise. */
  ghost predicate FailedBy(db: Db, db': Db, claim: Claim, final: bool) {
    && claim.run in db.runs.rows && final == (claim.attempt >= claim.maxAttempts)
    && db' == db.(runs := db'.runs, notices := db'.notices)
    && db'.runs.rows == db.runs.rows[claim.run := db.runs.rows[claim.run].(
         status := if final then Failed else Queued,
         availableAt := if final then db.now else db.now + RetryDelay(claim.attempt), lease := None)]
    && db'.notices.all == db.notices.all + if final then {Notice("run.failed", claim.run)} else {}
  }

  lemma FailExactly(db: Db, worker: Id, claim: Claim)
    ensures var tx := FailRun(db, worker, claim);
            && (tx.result.Ok? <==> Holds(db, claim.run, worker)) && (tx.result.Err? ==> tx.db == db)
            && (tx.result.Ok? ==> FailedBy(db, tx.db, claim, tx.result.value))
  {
  }

  /** A run handed back can be claimed at once. */
  lemma ReleaseExactly(db: Db, worker: Id, claim: Claim)
    ensures var tx := ReleaseRun(db, worker, claim);
            && (tx.result.Ok? <==> Holds(db, claim.run, worker)) && (tx.result.Err? ==> tx.db == db)
            && (tx.result.Ok? ==>
                  && tx.db == db.(runs := tx.db.runs)
                  && tx.db.runs.rows == db.runs.rows[claim.run := db.runs.rows[claim.run].(
                       status := Queued, availableAt := db.now, lease := None)])
  {
  }

  /** A run as it is created: pinned to the revision, with that manifest's policy and one attempt more than
      its retries, not yet tried. */
  predicate Created(run: Run, automation: Id, revision: Id, event: Id, manifest: Manifest, availableAt: Time, now: Time) {
    && run.automation == automation && run.revision == revision && run.event == event && run.policy == manifest.policy
    && run.maxAttempts == manifest.retries + 1 && run.attempt == 0 && run.status == Queued && run.lease == None
    && run.availableAt == availableAt && run.createdAt == now
  }

  /** A success: the run closed, its state written, and what it asked for there, in its own words. */
  ghost predicate CompletedBy(db: Db, db': Db, claim: Claim, state: Option<Value>, control: Control, draw: Draw) {
    && claim.run in db.runs.rows && claim.run in db'.runs.rows
    && db'.runs.rows[claim.run] == db.runs.rows[claim.run].(status := Succeeded, lease := None)
    && (claim.manifest.stateful ==>
          && state.Some?
          && db'.states.rows == db.states.rows[claim.automation := StateRow(claim.stateVersion + 1, state.value)])
    && (!claim.manifest.stateful ==> db'.states == db.states)
    && Deferred(db, db', claim, control.defer, draw) && Asked(db, db', claim, control.approval, draw.approvalId)
    && (forall n :: n in db'.notices.all <==>
          || n in db.notices.all || (control.approval.Some? && n == Notice("approval.requested", draw.approvalId))
          || exists k :: k in control.notices && n == Notice("automation.notification", claim.run + ":" + k))
  }

  ghost predicate Deferred(db: Db, db': Db, claim: Claim, defer: Option<Defer>, draw: Draw) {
    && claim.run in db.runs.rows && claim.run in db'.runs.rows
    && (defer.None? ==> db'.events == db.events && db'.runs.rows == db.runs.rows[claim.run := db'.runs.rows[claim.run]])
    && (defer.Some? ==>
          && draw.eventId !in db.events.rows && draw.runId !in db.runs.rows && draw.runId in db'.runs.rows
          && db'.events.rows == db.events.rows[draw.eventId :=
               Event(Plain(claim.automation, "deferred"), claim.run + ":" + defer.value.key)]
          && db'.runs.rows == db.runs.rows[claim.run := db'.runs.rows[claim.run]][draw.runId := db'.runs.rows[draw.runId]]
          && Created(db'.runs.rows[draw.runId], claim.automation, claim.revision, draw.eventId, claim.manifest,
                     defer.value.until, db.now))
  }

  ghost predicate Asked(db: Db, db': Db, claim: Claim, request: Option<ApprovalRequest>, id: Id) {
    && (request.None? ==> db'.approvals == db.approvals)
    && (request.Some? ==>
          && id !in db.approvals.rows
          && db'.approvals.rows == db.approvals.rows[id := Approval(
               claim.automation, claim.revision, claim.run, request.value.key, Pending, request.value.fields,
               request.value.actions, request.value.expiresAt, None, None)])
  }

  /** The lease is held, the state is the one snapshotted, and nothing asked for exists already. */
  ghost predicate Completable(db: Db, worker: Id, claim: Claim, state: Option<Value>, control: Control, draw: Draw) {
    && Holds(db, claim.run, worker)
    && (claim.manifest.stateful ==>
          && state.Some?
          && if claim.stateVersion == 0 then claim.automation !in db.states.rows
             else claim.automation in db.states.rows && db.states.rows[claim.automation].version == claim.stateVersion)
    && (control.defer.Some? ==>
          && draw.eventId !in db.events.rows && draw.runId !in db.runs.rows
          && forall e :: e in db.events.rows ==>
               db.events.rows[e] != Event(Plain(claim.automation, "deferred"), claim.run + ":" + control.defer.value.key))
    && (control.approval.Some? ==>
          && draw.approvalId !in db.approvals.rows
          && forall a :: a in db.approvals.rows ==>
               && db.approvals.rows[a].requestedBy != claim.run
               && (db.approvals.rows[a].automation == claim.automation ==>
                     db.approvals.rows[a].key != control.approval.value.key))
  }

  lemma CompleteExactly(db: Db, worker: Id, claim: Claim, state: Option<Value>, control: Control, draw: Draw)
    ensures var tx := CompleteRun(db, worker, claim, state, control, draw);
            && (tx.result.Ok? <==> Completable(db, worker, claim, state, control, draw))
            && (tx.result.Ok? ==> CompletedBy(db, tx.db, claim, state, control, draw))
            && (tx.result.Err? ==> tx.db == db)
  {
  }

  // ---------------------------------------------------------------- intake

  /** One event and the one run it causes, and nothing else. */
  ghost predicate QueuedBy(
    db: Db, db': Db, key: TriggerKey, external: Id, eventId: Id, runId: Id, automation: Id, revision: Id, availableAt: Time)
  {
    && eventId !in db.events.rows && runId !in db.runs.rows && runId in db'.runs.rows && revision in db.revisions.rows
    && db'.events.rows == db.events.rows[eventId := Event(key, external)]
    && db'.runs.rows == db.runs.rows[runId := db'.runs.rows[runId]]
    && Created(db'.runs.rows[runId], automation, revision, eventId, db.revisions.rows[revision].manifest, availableAt, db.now)
  }

  /** A webhook run waits for its delivery delay; every other run of a trigger is available at once. */
  lemma IngestExactly(
    db: Db, automation: Id, trigger: Id, kind: TriggerKind, external: Id, generated: Id, eventId: Id, runId: Id)
    ensures var tx := IngestEvent(db, automation, trigger, kind, external, generated, eventId, runId);
            && (!(tx.result.Ok? && tx.result.value.1) ==> tx.db == db)
            && (tx.result.Ok? && tx.result.value.1 ==>
                  && tx.result.value.0 == runId && tx.db == db.(events := tx.db.events, runs := tx.db.runs)
                  && (automation, trigger) in db.triggers.rows && automation in db.automations.rows
                  && var row := db.triggers.rows[(automation, trigger)];
                  && row.kind == kind && row.enabled && db.automations.rows[automation].enabled
                  && db.automations.rows[automation].active == Some(row.revision)
                  && QueuedBy(db, tx.db, Plain(automation, trigger), if external == "" then generated else external,
                              eventId, runId, automation, row.revision,
                              if kind == Webhook && row.delay.Some? then db.now + row.delay.value else db.now)
                  && (kind == Webhook && row.delay.Some? ==> 0 < row.delay.value <= 24 * 3600 * SECOND))
  {
  }

  /** A manual run is on the active revision, which is the expected one if one is named, and available at once. */
  lemma ManualExactly(db: Db, automation: Id, external: Id, generated: Id, expected: Id, eventId: Id, runId: Id)
    ensures var tx := EnqueueManualRun(db, automation, external, generated, expected, eventId, runId);
            && (!(tx.result.Ok? && tx.result.value.1) ==> tx.db == db)
            && (tx.result.Ok? && tx.result.value.1 ==>
                  && tx.result.value.0 == runId && tx.db == db.(events := tx.db.events, runs := tx.db.runs)
                  && automation in db.automations.rows && db.automations.rows[automation].active.Some?
                  && var revision := db.automations.rows[automation].active.value;
                  && (expected != "" ==> revision == expected)
                  && QueuedBy(db, tx.db, Plain(automation, "manual"), if external == "" then generated else external,
                              eventId, runId, automation, revision, db.now))
  {
  }

  /** What a trigger needs to take an occurrence in: its automation runs the revision it belongs to, and both
      are switched on. */
  ghost predicate Takes(db: Db, automation: Id, trigger: Id, kind: TriggerKind) {
    && (automation, trigger) in db.triggers.rows && automation in db.automations.rows
    && var row := db.triggers.rows[(automation, trigger)];
    && row.kind == kind && row.enabled && db.automations.rows[automation].enabled
    && db.automations.rows[automation].active == Some(row.revision) && row.revision in db.revisions.rows
    && (kind == Webhook && row.delay.Some? ==> 0 < row.delay.value <= 24 * 3600 * SECOND)
  }

  ghost predicate Fresh(db: Db, key: TriggerKey, external: Id, eventId: Id, runId: Id) {
    && eventId !in db.events.rows && runId !in db.runs.rows
    && forall e :: e in db.events.rows ==> db.events.rows[e] != Event(key, external)
  }

  /** An occurrence makes a run exactly when the trigger takes it and its key is new. */
  lemma IngestAccepts(
    db: Db, automation: Id, trigger: Id, kind: TriggerKind, external: Id, generated: Id, eventId: Id, runId: Id)
    ensures IngestEvent(db, automation, trigger, kind, external, generated, eventId, runId).result == Ok((runId, true)) <==>
              && Takes(db, automation, trigger, kind)
              && Fresh(db, Plain(automation, trigger), if external == "" then generated else external, eventId, runId)
  {
  }

  /** A manual run is made exactly when something is active, it is the expected revision if one is named, and
      the key is new; whether the automation is paused does not matter. */
  lemma ManualAccepts(db: Db, automation: Id, external: Id, generated: Id, expected: Id, eventId: Id, runId: Id)
    ensures EnqueueManualRun(db, automation, external, generated, expected, eventId, runId).result == Ok((runId, true)) <==>
              && automation in db.automations.rows && db.automations.rows[automation].active.Some?
              && db.automations.rows[automation].active.value in db.revisions.rows
              && (expected == "" || db.automations.rows[automation].active == Some(expected))
              && Fresh(db, Plain(automation, "manual"), if external == "" then generated else external, eventId, runId)
  {
  }

  /** The recorded status is the action's: "approve" approves, "reject" rejects, nothing else answers. */
  predicate Means(action: Id, status: ApprovalStatus) {
    && (status == Approved <==> action == "approve") && (status == Rejected <==> action == "reject")
    && (status == Approved || status == Rejected)
  }

  /** An answer: the status its action means, the response, and one continuation on the approval's revision. */
  ghost predicate AnsweredBy(
    db: Db, db': Db, id: Id, replayKey: Id, action: Id, response: map<Id, FieldValue>, eventId: Id, runId: Id)
  {
    && id in db.approvals.rows && id in db'.approvals.rows
    && var a, a' := db.approvals.rows[id], db'.approvals.rows[id];
    && a.status == Pending && a.expiresAt > db.now && a.revision in db.revisions.rows
    && a.automation in db.automations.rows && db.automations.rows[a.automation].active == Some(a.revision)
    && Means(action, a'.status)
    && a' == a.(status := a'.status, response := Some(Response(action, response)), actionRun := Some(runId))
    && db'.approvals.rows == db.approvals.rows[id := a']
    && QueuedBy(db, db', ForApproval(a.automation, id), replayKey, eventId, runId, a.automation, a.revision, db.now)
    && db'.notices.all == db.notices.all + {Notice("approval.resolved", id)}
    && db' == db.(events := db'.events, runs := db'.runs, approvals := db'.approvals, notices := db'.notices)
  }

  lemma AnswerExactly(
    db: Db, id: Id, replayKey: Id, expected: Id, action: Id, supplied: map<Id, Option<FieldValue>>, eventId: Id, runId: Id)
    ensures var tx := ResolveApproval(db, id, replayKey, expected, action, supplied, eventId, runId);
            && (tx.result == Ok(true) ==>
                  && id in db.approvals.rows && expected == db.approvals.rows[id].revision
                  && var response := ValidResponse(db.approvals.rows[id].fields, db.approvals.rows[id].actions, action, supplied);
                  response.Some? && AnsweredBy(db, tx.db, id, replayKey, action, response.value, eventId, runId))
            && (tx.result != Ok(true) ==>
                  || tx.db == db
                  || (&& id in db.approvals.rows && db.approvals.rows[id].status == Pending
                      && db.approvals.rows[id].expiresAt <= db.now && tx.result == Err(APPROVAL_EXPIRED)
                      && tx.db == db.(approvals := Table(db.approvals.rows[id := db.approvals.rows[id].(status := Expired)]))))
  {
  }

  /** What an answer supplies for a field, its own value where the answer is silent. */
  ghost predicate Offers(field: Field, supplied: map<Id, Option<FieldValue>>, v: FieldValue) {
    if field.id in supplied then supplied[field.id] == Some(v) else field.value == Some(v)
  }

  /** A value of the field's own kind, within its limits. */
  predicate Fits(field: Field, v: FieldValue) {
    && (field.kind == TextField ==> v.Text? && |v.text| <= 4000)
    && (field.kind == NumberField ==> v.Number?)
    && (field.kind == BooleanField ==> v.Boolean?)
    && (field.kind == SelectField ==> v.Text? && v.text in field.options)
    && field.kind != ImageField
  }

  ghost predicate FieldGood(field: Field, requiresFields: bool, supplied: map<Id, Option<FieldValue>>) {
    && (forall v :: Offers(field, supplied, v) ==> Fits(field, v))
    && (requiresFields && field.required ==> exists v :: Offers(field, supplied, v) && (v.Text? ==> Trim(v.text) != ""))
  }

  /** A response is accepted exactly when an offered action is chosen, nothing but declared, fillable fields is
      supplied, and every such field is good. */
  lemma ResponseAccepts(fields: seq<Field>, actions: seq<ActionDecl>, action: Id, supplied: map<Id, Option<FieldValue>>)
    ensures var declared, chosen := Declared(fields), SelectedAction(actions, action);
            ValidResponse(fields, actions, action, supplied).Some? <==>
              && chosen.Some?
              && (forall k :: k in supplied ==> k in declared && declared[k].kind != ImageField)
              && FieldsGood(declared, chosen.value.requiresFields, supplied)
  {
    var declared, chosen := Declared(fields), SelectedAction(actions, action);
    if chosen.Some? { ObjectionsExactly(declared, chosen.value.requiresFields, supplied); }
  }

  ghost predicate FieldsGood(declared: map<Id, Field>, requiresFields: bool, supplied: map<Id, Option<FieldValue>>) {
    forall k :: k in declared && declared[k].kind != ImageField ==> FieldGood(declared[k], requiresFields, supplied)
  }

  lemma ObjectionsExactly(declared: map<Id, Field>, requiresFields: bool, supplied: map<Id, Option<FieldValue>>)
    ensures FieldsGood(declared, requiresFields, supplied) <==>
              !exists k :: k in declared && Objection(declared[k], requiresFields, supplied)
  {
    forall k | k in declared
      ensures Objection(declared[k], requiresFields, supplied) <==>
                declared[k].kind != ImageField && !FieldGood(declared[k], requiresFields, supplied)
    {
      ObjectionExactly(declared[k], requiresFields, supplied);
    }
  }

  /** What is kept is what was offered, text without its surrounding space. */
  lemma ResponseExactly(fields: seq<Field>, actions: seq<ActionDecl>, action: Id, supplied: map<Id, Option<FieldValue>>)
    requires ValidResponse(fields, actions, action, supplied).Some?
    ensures var response, declared := ValidResponse(fields, actions, action, supplied).value, Declared(fields);
            && (forall k :: k in response <==>
                  k in declared && declared[k].kind != ImageField && exists v :: Offers(declared[k], supplied, v))
            && (forall k, v :: k in response && Offers(declared[k], supplied, v) ==>
                  response[k] == if declared[k].kind == TextField && v.Text? then Text(Trim(v.text)) else v)
  {
    var declared := Declared(fields);
    forall k | k in declared ensures Supplied(declared[k], supplied).Some? <==> exists v :: Offers(declared[k], supplied, v) {
      if Supplied(declared[k], supplied).Some? { assert Offers(declared[k], supplied, Supplied(declared[k], supplied).value); }
    }
  }

  lemma ObjectionExactly(field: Field, requiresFields: bool, supplied: map<Id, Option<FieldValue>>)
    ensures Objection(field, requiresFields, supplied) <==>
              field.kind != ImageField && !FieldGood(field, requiresFields, supplied)
  {
    var value := Supplied(field, supplied);
    if value.Some? { assert Offers(field, supplied, value.value); }
  }

  /** The last field declared under an id is the one of that id. */
  lemma {:induction false} LastDeclared(fields: seq<Field>, i: nat)
    requires i < |fields| && LastOf(fields, i, fields[i].id)
    ensures fields[i].id in Declared(fields) && Declared(fields)[fields[i].id] == fields[i]
  {
    var init, last := fields[..|fields| - 1], |fields| - 1;
    if i < last {
      assert fields[last].id != fields[i].id && LastOf(init, i, init[i].id);
      LastDeclared(init, i);
    }
  }

  /** Nothing else is declared. */
  lemma {:induction false} DeclaredOnly(fields: seq<Field>, k: Id)
    ensures k in Declared(fields) <==> exists i :: 0 <= i < |fields| && fields[i].id == k
  {
    if fields != [] {
      var init := fields[..|fields| - 1];
      DeclaredOnly(init, k);
      if i :| 0 <= i < |init| && init[i].id == k { assert fields[i].id == k; }
    }
  }

  predicate LastOf(fields: seq<Field>, i: nat, k: Id) {
    i < |fields| && fields[i].id == k && forall j :: i < j < |fields| ==> fields[j].id != k
  }

  /** The first declared action of that name decides. */
  lemma {:induction false} FirstAction(actions: seq<ActionDecl>, action: Id)
    ensures SelectedAction(actions, action).None? <==> forall i :: 0 <= i < |actions| ==> actions[i].id != action
    ensures forall i :: 0 <= i < |actions| && actions[i].id == action && (forall j :: 0 <= j < i ==> actions[j].id != action) ==>
              SelectedAction(actions, action) == Some(actions[i])
  {
    if actions != [] && actions[0].id != action {
      FirstAction(actions[1..], action);
      forall i | 0 <= i < |actions| && actions[i].id == action && (forall j :: 0 <= j < i ==> actions[j].id != action)
        ensures SelectedAction(actions, action) == Some(actions[i])
      {
        assert actions[i] == actions[1..][i - 1];
        assert forall j :: 0 <= j < i - 1 ==> actions[1..][j] == actions[j + 1];
      }
    }
  }

  /** What an answer needs: a pending record whose time has not come, for the revision named and active, a
      valid response, and "approve" or "reject". */
  lemma AnswerAccepts(
    db: Db, id: Id, replayKey: Id, expected: Id, action: Id, supplied: map<Id, Option<FieldValue>>, eventId: Id, runId: Id)
    ensures ResolveApproval(db, id, replayKey, expected, action, supplied, eventId, runId).result == Ok(true) <==>
              && id in db.approvals.rows
              && var a := db.approvals.rows[id];
              && a.status == Pending && a.expiresAt > db.now && expected != "" && expected == a.revision
              && a.revision in db.revisions.rows && a.automation in db.automations.rows
              && db.automations.rows[a.automation].active == Some(a.revision)
              && ValidResponse(a.fields, a.actions, action, supplied).Some? && action in {"approve", "reject"}
              && Fresh(db, ForApproval(a.automation, id), replayKey, eventId, runId)
  {
  }

  /** An answer to a closed record changes nothing: it repeats the recorded one, key and content, or conflicts. */
  lemma AnswerRepeats(
    db: Db, id: Id, replayKey: Id, expected: Id, action: Id, supplied: map<Id, Option<FieldValue>>, eventId: Id, runId: Id)
    ensures var tx := ResolveApproval(db, id, replayKey, expected, action, supplied, eventId, runId);
            && (tx.result == Ok(false) <==>
                  && id in db.approvals.rows && db.approvals.rows[id].status != Pending
                  && db.approvals.rows[id].response.Some? && db.approvals.rows[id].actionRun.Some?
                  && db.approvals.rows[id].response.value.action == action
                  && ValidResponse(db.approvals.rows[id].fields, db.approvals.rows[id].actions, action, supplied)
                       == Some(db.approvals.rows[id].response.value.fields)
                  && RunOfKey(db, db.approvals.rows[id].actionRun.value, ForApproval(db.approvals.rows[id].automation, id), replayKey))
            && (id in db.approvals.rows && db.approvals.rows[id].status != Pending && tx.result != Ok(false) ==>
                  tx == Abort(db, APPROVAL_RESOLVED))
  {
  }

  /** Expiring ends exactly the pending approvals whose time has come. */
  lemma ExpireExactly(db: Db)
    ensures var db' := ExpireApprovals(db);
            && db' == db.(approvals := db'.approvals) && db'.approvals.rows.Keys == db.approvals.rows.Keys
            && forall a :: a in db.approvals.rows ==>
                 && (db.approvals.rows[a].status == Pending && db.approvals.rows[a].expiresAt <= db.now ==>
                       db'.approvals.rows[a] == db.approvals.rows[a].(status := Expired))
                 && (db.approvals.rows[a].status != Pending || db.approvals.rows[a].expiresAt > db.now ==>
                       db'.approvals.rows[a] == db.approvals.rows[a])
  {
  }

  // ---------------------------------------------------------------- releases

  /** The switch is thrown; resuming gives every enabled schedule its first time from now on, and nothing else
      moves. */
  ghost predicate SwitchedTo(env: Env, db: Db, db': Db, automation: Id, enabled: bool) {
    && automation in db.automations.rows && db.automations.rows[automation].enabled != enabled
    && db' == db.(automations := db'.automations, triggers := db'.triggers)
    && db'.automations.rows == db.automations.rows[automation := db.automations.rows[automation].(enabled := enabled)]
    && db'.triggers.rows.Keys == db.triggers.rows.Keys
    && forall t :: t in db.triggers.rows ==>
         if enabled && t.0 == automation && db.triggers.rows[t].kind == Schedule && db.triggers.rows[t].enabled
         then db'.triggers.rows[t] == db.triggers.rows[t].(nextFire := env.next(db.triggers.rows[t].cron, db.now))
              && db'.triggers.rows[t].nextFire.Some?
         else db'.triggers.rows[t] == db.triggers.rows[t]
  }

  lemma EnableExactly(env: Env, db: Db, automation: Id, enabled: bool)
    ensures var tx := SetAutomationEnabled(env, db, automation, enabled);
            && (tx.result == Ok(true) ==> SwitchedTo(env, db, tx.db, automation, enabled))
            && (tx.result != Ok(true) ==> tx.db == db)
            && (tx.result == Ok(false) <==>
                automation in db.automations.rows && db.automations.rows[automation].enabled == enabled)
            && (tx.result.Err? <==>
                  || automation !in db.automations.rows
                  || (&& enabled && !db.automations.rows[automation].enabled
                      && exists t :: t in db.triggers.rows && t.0 == automation && db.triggers.rows[t].kind == Schedule
                           && db.triggers.rows[t].enabled && env.next(db.triggers.rows[t].cron, db.now).None?))
  {
  }

  /** The automation runs the revision; a new one starts enabled, a paused one stays paused. */
  ghost predicate ActiveOn(db: Db, db': Db, automation: Id, revision: Id) {
    && automation in db'.automations.rows && db'.automations.rows[automation].active == Some(revision)
    && db'.automations.rows == db.automations.rows[automation := db'.automations.rows[automation]]
    && db'.automations.rows[automation].enabled ==
         (automation in db.automations.rows ==> db.automations.rows[automation].enabled)
  }

  lemma DeployActivates(env: Env, db: Db, manifest: Manifest, hash: string, path: string, attested: bool, job: Job)
    ensures var tx := Deploy(env, db, manifest, hash, path, attested, job);
            && (tx.result.Err? ==> tx.db == db)
            && (tx.result.Ok? ==>
                  && attested && |hash| == 64 && tx.result.value == "rev_" + hash[..24]
                  && ActiveOn(db, tx.db, manifest.name, tx.result.value)
                  && (forall n :: n in manifest.secrets ==> n in db.secrets.all)
                  && (job.ByDeployment? ==>
                        && job.deployment in db.deployments.rows
                        && OwnedBy(db.deployments.rows[job.deployment].lease, job.worker)
                        && db.deployments.rows[job.deployment].stage == Stage.Activating
                        && !db.deployments.rows[job.deployment].cancelRequested
                        && tx.db.deployments.rows == db.deployments.rows[job.deployment :=
                             db.deployments.rows[job.deployment].(stage := Done, revision := Some(tx.result.value), lease := None)])
                  && (job.Direct? ==> tx.db.deployments == db.deployments))
  {
  }

  /** Somebody could still answer an approval of the automation's active revision, and this is another one. */
  ghost predicate WouldStrand(db: Db, automation: Id, revision: Id) {
    && automation in db.automations.rows && db.automations.rows[automation].active.Some?
    && db.automations.rows[automation].active.value != revision
    && exists a :: a in db.approvals.rows && db.approvals.rows[a].automation == automation && db.approvals.rows[a].status == Pending
         && db.approvals.rows[a].expiresAt > db.now && db.approvals.rows[a].revision == db.automations.rows[automation].active.value
  }

  /** An activation is accepted exactly when its provenance and hash are good, it strands no approval without
      leave, its identifier is not another content's, its schedules can run, its secrets exist, and the
      deployment it is for is still its worker's, activating and not to be cancelled. */
  lemma DeployAccepts(env: Env, db: Db, manifest: Manifest, hash: string, path: string, attested: bool, job: Job)
    ensures Deploy(env, db, manifest, hash, path, attested, job).result.Ok? <==>
              && attested && |hash| == 64 && (forall i :: 0 <= i < 64 ==> '0' <= hash[i] <= '9' || 'a' <= hash[i] <= 'f')
              && (WouldStrand(db, manifest.name, "rev_" + hash[..24]) ==>
                    job.ByDeployment? && job.deployment in db.deployments.rows && db.deployments.rows[job.deployment].strand)
              && ("rev_" + hash[..24] in db.revisions.rows ==>
                    && db.revisions.rows["rev_" + hash[..24]].automation == manifest.name
                    && db.revisions.rows["rev_" + hash[..24]].contentHash == hash)
              && ReplaceTriggers(env, db, manifest.name, "rev_" + hash[..24], manifest.triggers).Some?
              && (forall n :: n in manifest.secrets ==> n in db.secrets.all)
              && (job.ByDeployment? ==>
                    && job.deployment in db.deployments.rows
                    && OwnedBy(db.deployments.rows[job.deployment].lease, job.worker)
                    && db.deployments.rows[job.deployment].stage == Stage.Activating
                    && !db.deployments.rows[job.deployment].cancelRequested)
  {
    HashDigits(hash);
  }

  lemma HashDigits(hash: string)
    ensures ValidHash(hash) <==> |hash| == 64 && forall i :: 0 <= i < 64 ==> '0' <= hash[i] <= '9' || 'a' <= hash[i] <= 'f'
  {
    if ValidHash(hash) {
      forall i | 0 <= i < 64 ensures '0' <= hash[i] <= '9' || 'a' <= hash[i] <= 'f' { assert hash[i] in hash; }
    }
  }

  /** The revision's secret references are exactly the ones its manifest names; every other one stays. */
  lemma DeployBinds(env: Env, db: Db, manifest: Manifest, hash: string, path: string, attested: bool, job: Job)
    requires Deploy(env, db, manifest, hash, path, attested, job).result.Ok?
    ensures var tx := Deploy(env, db, manifest, hash, path, attested, job);
            forall p :: p in tx.db.secretRefs.all <==>
              if p.0 == tx.result.value then p.1 in manifest.secrets else p in db.secretRefs.all
  {
  }

  // ---------------------------------------------------------------- the deployment queue

  /** Only the one deployment row changes, to this. */
  ghost predicate RowSet(db: Db, db': Db, id: Id, row: Deployment) {
    db' == db.(deployments := db'.deployments) && db'.deployments.rows == db.deployments.rows[id := row]
  }

  ghost predicate KeyUsed(db: Db, key: Id) { exists d :: d in db.deployments.rows && db.deployments.rows[d].key == key }

  /** A submission waits in the queue with its package, without a decision to strand approvals. */
  lemma SubmitExactly(db: Db, id: Id, key: Id, source: string, digest: string)
    ensures var tx := CreateDeployment(db, id, key, source, digest);
            && (tx.result == Ok(false) <==> KeyUsed(db, key))
            && (tx.result == Ok(true) <==> !KeyUsed(db, key) && id !in db.deployments.rows)
            && (tx.result != Ok(true) ==> tx.db == db)
            && (tx.result == Ok(true) ==>
                  RowSet(db, tx.db, id, Deployment(key, Waiting, "", "", None, None, false, false, None, source, digest)))
  {
  }

  /** A retry takes the package of a deployment that failed or was cancelled and still has it, with the
      operator's decision about approvals. */
  lemma RetryExactly(db: Db, original: Id, id: Id, key: Id, strand: bool)
    ensures var tx := RetryDeployment(db, original, id, key, strand);
            && (tx.result == Ok(true) <==>
                  && !KeyUsed(db, key) && original in db.deployments.rows && id !in db.deployments.rows
                  && (db.deployments.rows[original].stage == Broken || db.deployments.rows[original].stage == Cancelled)
                  && db.deployments.rows[original].source != "")
            && (tx.result == Ok(false) <==>
                  exists d :: d in db.deployments.rows && db.deployments.rows[d].key == key
                    && db.deployments.rows[d].retryOf == Some(original) && db.deployments.rows[d].strand == strand)
            && (tx.result != Ok(true) ==> tx.db == db)
            && (tx.result == Ok(true) ==>
                  RowSet(db, tx.db, id, Deployment(key, Waiting, "", "", None, Some(original), strand, false, None,
                                                   db.deployments.rows[original].source, db.deployments.rows[original].digest)))
  {
  }

  /** Nobody claims a deployment that is cancelled, finished, or held on a lease that has not run out. */
  lemma ClaimBuildExactly(db: Db, worker: Id, id: Id, lease: nat)
    ensures var tx := AcquireDeployment(db, worker, id, lease);
            && (tx.result.Ok? <==>
                  && id in db.deployments.rows && !db.deployments.rows[id].cancelRequested
                  && (|| db.deployments.rows[id].stage == Waiting
                      || (&& db.deployments.rows[id].stage in {Validating, Building, Checking, Stage.Activating}
                          && db.deployments.rows[id].lease.Some? && db.deployments.rows[id].lease.value.expires < db.now)))
            && (tx.result.Err? ==> tx.db == db)
            && (tx.result.Ok? ==>
                  RowSet(db, tx.db, id, db.deployments.rows[id].(stage := Validating, lease := Some(Lease(worker, db.now + lease)))))
  {
  }

  /** The worker the row names, on a deployment under way that nobody asked to cancel. */
  ghost predicate Owns(db: Db, worker: Id, id: Id) {
    && id in db.deployments.rows && db.deployments.rows[id].lease.Some? && db.deployments.rows[id].lease.value.owner == worker
    && db.deployments.rows[id].stage in {Validating, Building, Checking, Stage.Activating}
    && !db.deployments.rows[id].cancelRequested
  }

  lemma RenewBuildExactly(db: Db, worker: Id, id: Id, lease: nat)
    ensures var tx := RenewDeploymentLease(db, worker, id, lease);
            && tx.result == Ok(Owns(db, worker, id)) && (!Owns(db, worker, id) ==> tx.db == db)
            && (Owns(db, worker, id) ==>
                  RowSet(db, tx.db, id, db.deployments.rows[id].(lease := Some(Lease(worker, db.now + lease)))))
  {
  }

  /** A stage is recorded with the automation and content it is about, and never after activation began. */
  lemma StageExactly(db: Db, worker: Id, id: Id, stage: Stage, automation: Id, hash: string)
    ensures var tx := SetDeploymentStage(db, worker, id, stage, automation, hash);
            && (tx.result.Ok? <==> stage in {Building, Checking, Stage.Activating} && Owns(db, worker, id)
                                   && db.deployments.rows[id].stage != Stage.Activating)
            && (tx.result.Err? ==> tx.db == db)
            && (tx.result.Ok? ==>
                  RowSet(db, tx.db, id, db.deployments.rows[id].(stage := stage, automation := automation, contentHash := hash)))
  {
  }

  lemma StepExactly(db: Db, worker: Id, id: Id, stage: Stage)
    ensures var tx := StartDeploymentStep(db, worker, id, stage);
            && (tx.result.Ok? <==> stage in {Validating, Building, Checking, Stage.Activating} && Owns(db, worker, id))
            && (tx.result.Err? ==> tx.db == db)
            && (tx.result.Ok? ==> RowSet(db, tx.db, id, db.deployments.rows[id].(stage := stage)))
  {
  }

  /** A cancellation is accepted exactly while the deployment has not ended; one that waits ends at once. */
  lemma CancelExactly(db: Db, id: Id)
    ensures var tx := RequestDeploymentCancellation(db, id);
            && (tx.result.Ok? <==> id in db.deployments.rows && db.deployments.rows[id].stage !in {Done, Broken, Cancelled})
            && (tx.result.Err? ==> tx.db == db)
            && (tx.result.Ok? ==>
                  RowSet(db, tx.db, id, db.deployments.rows[id].(
                           cancelRequested := true,
                           stage := if db.deployments.rows[id].stage == Waiting then Cancelled else db.deployments.rows[id].stage)))
  {
  }

  /** The worker that holds a cancelled deployment ends it cancelled; the one that holds any other ends it failed. */
  lemma EndExactly(db: Db, worker: Id, id: Id)
    ensures var cancelled, failed := CompleteDeploymentCancellation(db, worker, id), FailDeployment(db, worker, id);
            && (failed.result.Ok? <==> Owns(db, worker, id)) && (failed.result.Err? ==> failed.db == db)
            && (failed.result.Ok? ==> RowSet(db, failed.db, id, db.deployments.rows[id].(stage := Broken, lease := None)))
            && (cancelled.result.Ok? <==>
                  && id in db.deployments.rows && db.deployments.rows[id].cancelRequested
                  && db.deployments.rows[id].lease.Some? && db.deployments.rows[id].lease.value.owner == worker
                  && db.deployments.rows[id].stage in {Validating, Building, Checking, Stage.Activating})
            && (cancelled.result.Err? ==> cancelled.db == db)
            && (cancelled.result.Ok? ==>
                  RowSet(db, cancelled.db, id, db.deployments.rows[id].(stage := Cancelled, lease := None)))
  {
  }

  // ---------------------------------------------------------------- secrets

  /** A secret is deleted exactly when it exists and no retained revision refers to it. */
  lemma DeleteSecretExactly(db: Db, name: Id)
    ensures var tx := DeleteSecret(db, name);
            && (tx.result.Ok? <==> name in db.secrets.all && forall p :: p in db.secretRefs.all ==> p.1 != name)
            && (tx.result.Err? ==> tx.db == db)
            && (tx.result.Ok? ==> name !in tx.db.secrets.all && tx.db == db.(secrets := tx.db.secrets)
                                  && forall n :: n != name ==> (n in tx.db.secrets.all <==> n in db.secrets.all))
  {
  }

  lemma PutSecretExactly(db: Db, name: Id)
    ensures var db' := PutSecret(db, name);
            db' == db.(secrets := db'.secrets) && forall n :: n in db'.secrets.all <==> n in db.secrets.all || n == name
  {
  }
}
