/** What each transaction does to the tables, flattened.

    Every way of creating a run inserts one event and one queued run pinned to a revision, and
    every write to a run changes only its progress.  The invariants are proved against these
    few shapes rather than against the transactions one by one.
  */
module Shapes {
  import opened Basics
  import opened Tables

  import opened Transactions

  predicate SameQueue(db: Db, db': Db) {
    db'.events == db.events && db'.runs == db.runs
  }

  /** One fresh event under a fresh key, and the one fresh queued run it causes. */
  predicate Inserted(db: Db, db': Db, eventId: Id, runId: Id) {
    && eventId !in db.events.rows && runId !in db.runs.rows && eventId in db'.events.rows && runId in db'.runs.rows
    && !KeyTaken(db.events.rows, db'.events.rows[eventId].key, db'.events.rows[eventId].external)
    && db'.events.rows == db.events.rows[eventId := db'.events.rows[eventId]]
    && db'.runs.rows == db.runs.rows[runId := db'.runs.rows[runId]]
    && var run := db'.runs.rows[runId];
    && run.event == eventId && run.status == Queued && run.attempt == 0 && run.lease == None
  }

  predicate PinnedToActive(db: Db, run: Run) {
    && run.automation in db.automations.rows && db.automations.rows[run.automation].active == Some(run.revision)
    && run.revision in db.revisions.rows
  }

  /** Tables no creation path writes. */
  predicate SameRest(db: Db, db': Db) {
    && db'.now == db.now && db'.automations == db.automations && db'.revisions == db.revisions
    && db'.states == db.states && db'.deployments == db.deployments
    && db'.secrets == db.secrets && db'.secretRefs == db.secretRefs
  }

  /** Intake of one occurrence: nothing new, or one run pinned to the active revision. */
  predicate TookIn(db: Db, db': Db, eventId: Id, runId: Id) {
    || SameQueue(db, db')
    || (Inserted(db, db', eventId, runId) && PinnedToActive(db, db'.runs.rows[runId]))
  }

  lemma IngestShape(
    db: Db, automation: Id, trigger: Id, kind: TriggerKind, external: Id, generated: Id, eventId: Id, runId: Id)
    ensures var tx := IngestEvent(db, automation, trigger, kind, external, generated, eventId, runId);
            && tx.db == db.(events := tx.db.events, runs := tx.db.runs)
            && TookIn(db, tx.db, eventId, runId)
            && (!SameQueue(db, tx.db) ==> tx.db.events.rows[eventId].key == Plain(automation, trigger))
            && (tx.result.Ok? ==> RunOfKey(tx.db, tx.result.value.0, Plain(automation, trigger),
                                           if external == "" then generated else external))
  {
  }

  lemma ManualShape(db: Db, automation: Id, external: Id, generated: Id, expected: Id, eventId: Id, runId: Id)
    ensures var tx := EnqueueManualRun(db, automation, external, generated, expected, eventId, runId);
            && tx.db == db.(events := tx.db.events, runs := tx.db.runs)
            && TookIn(db, tx.db, eventId, runId)
            && (!SameQueue(db, tx.db) ==> tx.db.events.rows[eventId].key == Plain(automation, "manual"))
            && (tx.result.Ok? ==> RunOfKey(tx.db, tx.result.value.0, Plain(automation, "manual"),
                                           if external == "" then generated else external))
  {
  }

  lemma FireShape(env: Env, db: Db, t: (Id, Id), eventId: Id, runId: Id)
    ensures var tx := FireOne(env, db, t, eventId, runId);
            && tx.db == db.(triggers := tx.db.triggers, events := tx.db.events, runs := tx.db.runs)
            && TookIn(db, tx.db, eventId, runId)
            && (!SameQueue(db, tx.db) ==> tx.db.events.rows[eventId].key == Plain(t.0, t.1))
            && (tx.result.Err? ==> tx.db == db)
            && (!Fires(db, t) ==> tx.db == db)
            && (tx.result.Ok? && Fires(db, t) ==>
                  var row := db.triggers.rows[t];
                  var stamp := env.stamp(row.nextFire.value);
                  && env.next(row.cron, row.nextFire.value).Some?
                  && tx.db.triggers.rows == db.triggers.rows[t := row.(nextFire := env.next(row.cron, row.nextFire.value))]
                  && (stamp != "" ==> exists run :: RunOfKey(tx.db, run, Plain(t.0, t.1), stamp)))
  {
    if Fires(db, t) {
      var row := db.triggers.rows[t];
      var stamp := env.stamp(row.nextFire.value);
      var advanced := db.(triggers := Table(db.triggers.rows[t := row.(nextFire := env.next(row.cron, row.nextFire.value))]));
      IngestShape(advanced, t.0, t.1, Schedule, stamp, stamp, eventId, runId);
      assert SameQueue(db, advanced);
    }
  }

  /** An answered approval: the record is closed and its one continuation is queued. */
  predicate Answered(db: Db, db': Db, id: Id, replayKey: Id, action: Id, eventId: Id, runId: Id) {
    && id in db.approvals.rows && Inserted(db, db', eventId, runId) && PinnedToActive(db, db'.runs.rows[runId])
    && var a := db.approvals.rows[id];
    && a.status == Pending && a.expiresAt > db.now
    && db'.runs.rows[runId].automation == a.automation && db'.runs.rows[runId].revision == a.revision
    && db'.events.rows[eventId] == Event(ForApproval(a.automation, id), replayKey)
    && id in db'.approvals.rows && Resolved(db'.approvals.rows[id]) && Decision(action) == Some(db'.approvals.rows[id].status)
    && db'.approvals.rows[id].response.Some? && db'.approvals.rows[id].response.value.action == action
    && db'.approvals.rows[id] == a.(status := db'.approvals.rows[id].status, response := db'.approvals.rows[id].response,
                               actionRun := Some(runId))
    && db'.approvals.rows == db.approvals.rows[id := db'.approvals.rows[id]]
    && db'.notices.all == db.notices.all + {Notice("approval.resolved", id)}
  }

  /** Answering changes nothing, records an expiry that has passed, or answers. */
  predicate Considered(db: Db, db': Db, id: Id, replayKey: Id, action: Id, eventId: Id, runId: Id) {
    || db' == db
    || (&& SameQueue(db, db') && id in db.approvals.rows && db.approvals.rows[id].status == Pending
        && db.approvals.rows[id].expiresAt <= db.now && db'.notices == db.notices
        && db'.approvals.rows == db.approvals.rows[id := db.approvals.rows[id].(status := Expired)])
    || Answered(db, db', id, replayKey, action, eventId, runId)
  }

  lemma AnswerShape(
    db: Db, id: Id, replayKey: Id, expected: Id, action: Id, supplied: map<Id, Option<FieldValue>>, eventId: Id, runId: Id)
    ensures var tx := ResolveApproval(db, id, replayKey, expected, action, supplied, eventId, runId);
            && tx.db == db.(events := tx.db.events, runs := tx.db.runs, approvals := tx.db.approvals,
                            notices := tx.db.notices)
            && Considered(db, tx.db, id, replayKey, action, eventId, runId)
            && (tx.result == Ok(true) ==> Answered(db, tx.db, id, replayKey, action, eventId, runId))
            && (tx.result == Ok(false) ==> tx.db == db)
  {
  }

  predicate SameIdentity(run: Run, run': Run) {
    && run'.automation == run.automation && run'.revision == run.revision && run'.event == run.event
    && run'.policy == run.policy && run'.maxAttempts == run.maxAttempts
  }

  /** One existing run makes progress; which event, automation and revision it is for stays. */
  predicate Updated(db: Db, db': Db, id: Id) {
    && id in db.runs.rows && id in db'.runs.rows && SameIdentity(db.runs.rows[id], db'.runs.rows[id])
    && db'.events == db.events && db'.runs.rows == db.runs.rows[id := db'.runs.rows[id]]
  }

  /** The run closed by a success, before anything it asked for. */
  function Closed(db: Db, claim: Claim): Db
    requires claim.run in db.runs.rows
  {
    db.(runs := Table(db.runs.rows[claim.run := Finish(db.runs.rows[claim.run], Succeeded, db.runs.rows[claim.run].availableAt)]))
  }

  /** A success closes its run, then inserts the deferred run it asked for, if any. */
  lemma CompleteShape(db: Db, worker: Id, claim: Claim, state: Option<Value>, control: Control, draw: Draw)
    ensures var tx := CompleteRun(db, worker, claim, state, control, draw);
            if tx.result.Err? then tx.db == db
            else
              && Holds(db, claim.run, worker) && Updated(db, Closed(db, claim), claim.run)
              && (if control.defer.None? then SameQueue(Closed(db, claim), tx.db)
                  else Inserted(Closed(db, claim), tx.db, draw.eventId, draw.runId))
  {
  }
}
