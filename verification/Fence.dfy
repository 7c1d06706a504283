/** Fencing: an outcome takes effect only for the run's latest attempt, and only once.

    The lease names its owner but not the attempt.  What makes the name enough is that a worker
    executes one claim at a time, so a row that still names a busy worker was last claimed by it.
  */
module Fence {
  import opened Basics
  import opened Tables
  import opened Transactions
  import opened Shapes
  import opened World
  import opened Moves

  import opened Storage

  ghost predicate Leased(runs: map<Id, Run>) {
    forall r :: r in runs ==> (runs[r].lease.Some? <==> runs[r].status == Running)
  }

  /** A claim is never ahead of its row, and is level with it while the row names the claimant. */
  ghost predicate Fencing(workers: map<Id, Claim>, runs: map<Id, Run>) {
    forall k :: k in workers ==>
      var c := workers[k];
      && c.run in runs && 1 <= c.attempt <= runs[c.run].attempt
      && (runs[c.run].status == Running && OwnedBy(runs[c.run].lease, k) ==> runs[c.run].attempt == c.attempt)
  }

  predicate Final(kind: OutcomeKind) { kind == Success || kind == Failure }

  function StatusAfter(kind: OutcomeKind): RunStatus {
    match kind
    case Success => Succeeded
    case Failure => Failed
    case Requeue => Queued
    case Handback => Queued
  }

  /** A failure is final from the last allowed attempt on, and is retried before it. */
  predicate Exhausted(o: Outcome, maxAttempts: nat) {
    (o.kind == Failure ==> o.attempt >= maxAttempts) && (o.kind == Requeue ==> o.attempt < maxAttempts)
  }

  ghost predicate Known(o: Outcome, runs: map<Id, Run>) {
    && o.run in runs && 1 <= o.attempt <= runs[o.run].attempt
    && (Final(o.kind) ==> runs[o.run].status == StatusAfter(o.kind))
    && (runs[o.run].status == Running ==> o.attempt < runs[o.run].attempt)
    && Exhausted(o, runs[o.run].maxAttempts)
  }

  ghost predicate Closes(outcomes: seq<Outcome>, run: Id) {
    exists i :: 0 <= i < |outcomes| && outcomes[i].run == run && Final(outcomes[i].kind)
  }

  /** Outcomes of one run have rising attempts, nothing follows a final one, and a run is closed
      exactly when a final one is recorded. */
  ghost predicate Settled(outcomes: seq<Outcome>, runs: map<Id, Run>) {
    && (forall i :: 0 <= i < |outcomes| ==> Known(outcomes[i], runs))
    && (forall i, j :: 0 <= i < j < |outcomes| && outcomes[i].run == outcomes[j].run ==>
          outcomes[i].attempt < outcomes[j].attempt && !Final(outcomes[i].kind))
    && (forall r :: r in runs && !Live(runs[r]) ==> Closes(outcomes, r))
  }

  ghost predicate Orderly(w: World) {
    && Leased(w.db.runs.rows)
    && Faithful(w.workers.rows, w.db.runs.rows, w.db.revisions.rows)
    && Fencing(w.workers.rows, w.db.runs.rows)
    && Settled(w.outcomes, w.db.runs.rows)
  }

  // ---------------------------------------------------------------- the runs table grows or progresses

  lemma InsertOrderly(w: World, w': World, eventId: Id, runId: Id)
    requires Orderly(w) && Inserted(w.db, w'.db, eventId, runId)
    requires w'.db.revisions == w.db.revisions && w'.workers == w.workers && w'.outcomes == w.outcomes
    ensures Orderly(w')
  {
  }

  /** An outcome write: the claimed attempt is current, and the run leaves the running state. */
  lemma RecordOrderly(w: World, w': World, worker: Id, o: Outcome)
    requires Orderly(w) && Fenced(w, worker)
    requires var c := w.workers.rows[worker];
             && o.run == c.run && o.attempt == c.attempt && Updated(w.db, w'.db, c.run)
             && var run := w'.db.runs.rows[c.run];
             run.status == StatusAfter(o.kind) && run.attempt == w.db.runs.rows[c.run].attempt && run.lease == None
    requires Exhausted(o, w.workers.rows[worker].maxAttempts)
    requires w'.db.revisions == w.db.revisions && w'.outcomes == w.outcomes + [o]
    requires w'.workers.rows == Idle(w.workers.rows, worker)
    ensures Orderly(w')
  {
    assert Settled(w'.outcomes, w'.db.runs.rows) by {
      RecordSettled(w.outcomes, w.db.runs.rows, o, w'.db.runs.rows[o.run]);
    }
  }

  lemma RecordSettled(outcomes: seq<Outcome>, runs: map<Id, Run>, o: Outcome, run: Run)
    requires Settled(outcomes, runs) && o.run in runs && runs[o.run].status == Running && runs[o.run].attempt == o.attempt
    requires o.attempt >= 1 && run.attempt == o.attempt && run.status == StatusAfter(o.kind)
    requires run.maxAttempts == runs[o.run].maxAttempts && Exhausted(o, run.maxAttempts)
    ensures Settled(outcomes + [o], runs[o.run := run])
  {
    var outcomes', runs' := outcomes + [o], runs[o.run := run];
    forall r | r in runs' && !Live(runs'[r]) ensures Closes(outcomes', r) {
      if r == o.run {
        assert outcomes'[|outcomes|].run == r;
      } else {
        assert Closes(outcomes, r);
        var i :| 0 <= i < |outcomes| && outcomes[i].run == r && Final(outcomes[i].kind);
        assert outcomes'[i].run == r && Final(outcomes'[i].kind);
      }
    }
  }

  // ---------------------------------------------------------------- worker actions

  lemma AcquireOrderly(w: World, worker: Id, id: Id)
    requires Orderly(w)
    ensures Orderly(AcquireStep(w, worker, id))
  {
    if worker !in w.workers.rows && Candidate(w.db, id) {
      var w' := AcquireStep(w, worker, id);
      var run := w'.db.runs.rows[id];
      assert w'.db.runs.rows == w.db.runs.rows[id := run];
      ClaimSettled(w.outcomes, w.db.runs.rows, id, run);
      ClaimFencing(w.workers.rows, w.db.runs.rows, id, run, worker, w'.workers.rows[worker]);
    }
  }

  lemma ClaimSettled(outcomes: seq<Outcome>, runs: map<Id, Run>, id: Id, run: Run)
    requires Settled(outcomes, runs) && id in runs && Live(runs[id]) && SameIdentity(runs[id], run)
    requires run.status == Running && run.attempt == runs[id].attempt + 1
    ensures Settled(outcomes, runs[id := run])
  {
  }

  lemma ClaimFencing(workers: map<Id, Claim>, runs: map<Id, Run>, id: Id, run: Run, worker: Id, claim: Claim)
    requires Fencing(workers, runs) && worker !in workers && id in runs && run.attempt == runs[id].attempt + 1
    requires claim.run == id && claim.attempt == run.attempt && OwnedBy(run.lease, worker)
    ensures Fencing(workers[worker := claim], runs[id := run])
  {
  }

  lemma RenewOrderly(w: World, worker: Id)
    requires Orderly(w)
    ensures Orderly(RenewStep(w, worker))
  {
    if Fenced(w, worker) {
      var id := w.workers.rows[worker].run;
      assert RenewStep(w, worker).db.runs.rows == w.db.runs.rows[id := RenewStep(w, worker).db.runs.rows[id]];
    }
  }

  lemma IdleOrderly(w: World, w': World, worker: Id)
    requires Orderly(w) && w'.db == w.db && w'.outcomes == w.outcomes
    requires w'.workers.rows == Idle(w.workers.rows, worker)
    ensures Orderly(w')
  {
  }

  lemma FailOrderly(w: World, worker: Id)
    requires Orderly(w)
    ensures Orderly(FailStep(w, worker))
  {
    var w' := FailStep(w, worker);
    if Fenced(w, worker) {
      RecordOrderly(w, w', worker, w'.outcomes[|w.outcomes|]);
    } else if worker in w.workers.rows {
      IdleOrderly(w, w', worker);
    }
  }

  lemma ReleaseOrderly(w: World, worker: Id)
    requires Orderly(w)
    ensures Orderly(ReleaseStep(w, worker))
  {
    var w' := ReleaseStep(w, worker);
    if Fenced(w, worker) {
      RecordOrderly(w, w', worker, w'.outcomes[|w.outcomes|]);
    } else if worker in w.workers.rows {
      IdleOrderly(w, w', worker);
    }
  }

  lemma CompleteOrderly(w: World, worker: Id, state: Option<Value>, control: Control, draw: Draw)
    requires Orderly(w)
    ensures Orderly(CompleteStep(w, worker, state, control, draw))
  {
    var w' := CompleteStep(w, worker, state, control, draw);
    if worker in w.workers.rows {
      var claim := w.workers.rows[worker];
      CompleteShape(w.db, worker, claim, state, control, draw);
      if CompleteRun(w.db, worker, claim, state, control, draw).result.Ok? {
        var mid := w'.(db := Closed(w.db, claim));
        RecordOrderly(w, mid, worker, w'.outcomes[|w.outcomes|]);
        if control.defer.Some? { InsertOrderly(mid, w', draw.eventId, draw.runId); }
      } else {
        IdleOrderly(w, w', worker);
      }
    }
  }

  lemma WorkOrderly(w: World, a: WorkerAction)
    requires Orderly(w)
    ensures Orderly(Working(w, a))
  {
    match a
    case Acquiring(worker, id) => AcquireOrderly(w, worker, id);
    case Renewing(worker) => RenewOrderly(w, worker);
    case Completing(worker, state, control, draw) => CompleteOrderly(w, worker, state, control, draw);
    case Failing(worker) => FailOrderly(w, worker);
    case Releasing(worker) => ReleaseOrderly(w, worker);
    case Forgetting(worker) => IdleOrderly(w, Working(w, a), worker);
  }

  // ---------------------------------------------------------------- everyone else

  lemma TakeOrderly(w: World, w': World, eventId: Id, runId: Id)
    requires Orderly(w) && TookIn(w.db, w'.db, eventId, runId)
    requires w'.db.revisions == w.db.revisions && w'.workers == w.workers && w'.outcomes == w.outcomes
    ensures Orderly(w')
  {
  }

  lemma IntakeOrderly(w: World, a: IntakeAction)
    requires Orderly(w)
    ensures Orderly(w.(db := TakingIn(w.db, a)))
  {
    var w' := w.(db := TakingIn(w.db, a));
    match a
    case Ingesting(automation, trigger, kind, external, generated, eventId, runId) =>
      IngestShape(w.db, automation, trigger, kind, external, generated, eventId, runId);
      TakeOrderly(w, w', eventId, runId);
    case Starting(automation, external, generated, expected, eventId, runId) =>
      ManualShape(w.db, automation, external, generated, expected, eventId, runId);
      TakeOrderly(w, w', eventId, runId);
    case Answering(approval, replayKey, expected, action, supplied, eventId, runId) =>
      AnswerShape(w.db, approval, replayKey, expected, action, supplied, eventId, runId);
      TakeOrderly(w, w', eventId, runId);
    case Expiring =>
  }

  lemma FireOrderly(env: Env, w: World, f: Firing)
    requires Orderly(w)
    ensures Orderly(FireStep(env, w, f))
  {
    FireShape(env, w.db, f.trigger, f.eventId, f.runId);
    TakeOrderly(w, FireStep(env, w, f), f.eventId, f.runId);
  }

  lemma StillOrderly(w: World, w': World)
    requires Orderly(w) && w'.db.runs == w.db.runs && w'.workers == w.workers && w'.outcomes == w.outcomes
    requires RevisionsStay(w.db.revisions.rows, w'.db.revisions.rows)
    ensures Orderly(w')
  {
  }
}
