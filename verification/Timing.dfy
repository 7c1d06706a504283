/** Runs wait for their time, and leases are respected until they run out. */
module Timing {
  import opened Basics
  import opened Tables
  import opened Transactions
  import opened Shapes
  import opened World
  import opened Moves
  import opened Accepted
  import opened Fence
  import opened Schedules
  import opened Guarantees

  // ---------------------------------------------------------------- the clock

  lemma {:induction false} PassTime(env: Env, w: World, due: seq<Firing>)
    ensures FireSteps(env, w, due).db.now == w.db.now
    decreases |due|
  {
    if due != [] {
      FireShape(env, w.db, due[0].trigger, due[0].eventId, due[0].runId);
      PassTime(env, FireStep(env, w, due[0]), due[1..]);
    }
  }

  lemma NextTime(env: Env, w: World, a: Action)
    ensures w.db.now <= Next(env, w, a).db.now
  {
    match a
    case Work(work) => WorkFrame(w, work);
    case Intake(intake) => IntakeFrame(w.db, intake);
    case Scheduling(due) => PassTime(env, w, due);
    case Release(release) => ReleaseFrame(env, w, release);
    case Build(build) => BuildFrame(w, build);
    case Upkeep(upkeep) => UpkeepFrame(w.db, upkeep);
  }

  lemma {:induction false} ReachTime(env: Env, w: World, actions: seq<Action>)
    ensures w.db.now <= Reach(env, w, actions).db.now
    decreases |actions|
  {
    if actions != [] {
      NextTime(env, w, actions[0]);
      ReachTime(env, Next(env, w, actions[0]), actions[1..]);
    }
  }

  // ---------------------------------------------------------------- waiting

  /** The run is queued for a time that has not come. */
  ghost predicate QueuedUntil(db: Db, id: Id, run: Run) {
    id in db.runs.rows && db.runs.rows[id] == run && run.status == Queued && db.now < run.availableAt
  }

  lemma TookInStays(db: Db, db': Db, eventId: Id, runId: Id, id: Id)
    requires (SameQueue(db, db') || Inserted(db, db', eventId, runId)) && id in db.runs.rows
    ensures id in db'.runs.rows && db'.runs.rows[id] == db.runs.rows[id]
  {
  }

  lemma WorkStays(w: World, a: WorkerAction, id: Id, run: Run)
    requires QueuedUntil(w.db, id, run)
    ensures id in Working(w, a).db.runs.rows && Working(w, a).db.runs.rows[id] == run
  {
  }

  lemma IntakeStays(db: Db, a: IntakeAction, id: Id)
    requires id in db.runs.rows
    ensures id in TakingIn(db, a).runs.rows && TakingIn(db, a).runs.rows[id] == db.runs.rows[id]
  {
    match a
    case Ingesting(automation, trigger, kind, external, generated, eventId, runId) =>
      IngestShape(db, automation, trigger, kind, external, generated, eventId, runId);
    case Starting(automation, external, generated, expected, eventId, runId) =>
      ManualShape(db, automation, external, generated, expected, eventId, runId);
    case Answering(approval, replayKey, expected, action, supplied, eventId, runId) =>
      AnswerShape(db, approval, replayKey, expected, action, supplied, eventId, runId);
    case Expiring =>
  }

  lemma {:induction false} PassStays(env: Env, w: World, due: seq<Firing>, id: Id)
    requires id in w.db.runs.rows
    ensures id in FireSteps(env, w, due).db.runs.rows && FireSteps(env, w, due).db.runs.rows[id] == w.db.runs.rows[id]
    decreases |due|
  {
    if due != [] {
      var w' := FireStep(env, w, due[0]);
      FireShape(env, w.db, due[0].trigger, due[0].eventId, due[0].runId);
      TookInStays(w.db, w'.db, due[0].eventId, due[0].runId, id);
      PassStays(env, w', due[1..], id);
    }
  }

  lemma NextStays(env: Env, w: World, a: Action, id: Id, run: Run)
    requires QueuedUntil(w.db, id, run)
    ensures id in Next(env, w, a).db.runs.rows && Next(env, w, a).db.runs.rows[id] == run
  {
    match a
    case Work(work) => WorkStays(w, work, id, run);
    case Intake(intake) => IntakeStays(w.db, intake, id);
    case Scheduling(due) => PassStays(env, w, due, id);
    case Release(release) => ReleaseFrame(env, w, release);
    case Build(build) => BuildFrame(w, build);
    case Upkeep(upkeep) => UpkeepFrame(w.db, upkeep);
  }

  /** A run queued for a time is left alone by everybody until that time. */
  lemma {:induction false} WaitsUntil(env: Env, w: World, actions: seq<Action>, id: Id, run: Run)
    requires QueuedUntil(w.db, id, run) && Reach(env, w, actions).db.now < run.availableAt
    ensures QueuedUntil(Reach(env, w, actions).db, id, run) && !Candidate(Reach(env, w, actions).db, id)
    decreases |actions|
  {
    if actions != [] {
      NextStays(env, w, actions[0], id, run);
      ReachTime(env, Next(env, w, actions[0]), actions[1..]);
      WaitsUntil(env, Next(env, w, actions[0]), actions[1..], id, run);
    }
  }

  // ---------------------------------------------------------------- leases

  /** The attempt is under way on a lease of this worker that runs at least that long. */
  ghost predicate OnLease(db: Db, id: Id, worker: Id, attempt: nat, until: Time) {
    && id in db.runs.rows && db.runs.rows[id].status == Running && db.runs.rows[id].attempt == attempt
    && OwnedBy(db.runs.rows[id].lease, worker) && until <= db.runs.rows[id].lease.value.expires
  }

  /** The attempt was ended by an outcome. */
  ghost predicate EndedIn(outcomes: seq<Outcome>, id: Id, attempt: nat) {
    exists i :: 0 <= i < |outcomes| && outcomes[i].run == id && outcomes[i].attempt == attempt
  }

  /** The step is not by the worker on the lease, or ends the attempt in its name. */
  lemma WorkOnLease(w: World, a: WorkerAction, id: Id, worker: Id, attempt: nat, until: Time)
    requires Orderly(w) && OnLease(w.db, id, worker, attempt, until) && w.db.now <= until <= w.db.now + RUN_LEASE
    ensures OnLease(Working(w, a).db, id, worker, attempt, until) || EndedIn(Working(w, a).outcomes, id, attempt)
  {
    var w' := Working(w, a);
    if a.worker in w.workers.rows && w.workers.rows[a.worker].run == id && Fenced(w, a.worker)
       && |w'.outcomes| > |w.outcomes| {
      assert w'.outcomes[|w.outcomes|].run == id && w'.outcomes[|w.outcomes|].attempt == attempt;
    }
  }

  lemma EndedStays(env: Env, w: World, a: Action)
    ensures w.outcomes <= Next(env, w, a).outcomes
  {
    match a
    case Scheduling(due) => PassOutcomes(env, w, due);
    case Release(release) => ReleaseFrame(env, w, release);
    case Build(build) => BuildFrame(w, build);
    case _ =>
  }

  lemma {:induction false} PassOutcomes(env: Env, w: World, due: seq<Firing>)
    ensures FireSteps(env, w, due).outcomes == w.outcomes
    decreases |due|
  {
    if due != [] { PassOutcomes(env, FireStep(env, w, due[0]), due[1..]); }
  }

  lemma {:induction false} OutcomesStay(env: Env, w: World, actions: seq<Action>)
    ensures w.outcomes <= Reach(env, w, actions).outcomes
    decreases |actions|
  {
    if actions != [] {
      EndedStays(env, w, actions[0]);
      OutcomesStay(env, Next(env, w, actions[0]), actions[1..]);
    }
  }

  lemma NextOnLease(env: Env, w: World, a: Action, id: Id, worker: Id, attempt: nat, until: Time)
    requires Orderly(w) && OnLease(w.db, id, worker, attempt, until) && w.db.now <= until <= w.db.now + RUN_LEASE
    ensures OnLease(Next(env, w, a).db, id, worker, attempt, until) || EndedIn(Next(env, w, a).outcomes, id, attempt)
  {
    match a
    case Work(work) => WorkOnLease(w, work, id, worker, attempt, until);
    case Intake(intake) => IntakeStays(w.db, intake, id);
    case Scheduling(due) => PassStays(env, w, due, id);
    case Release(release) => ReleaseFrame(env, w, release);
    case Build(build) => BuildFrame(w, build);
    case Upkeep(upkeep) => UpkeepFrame(w.db, upkeep);
  }

  lemma StillEnded(before: seq<Outcome>, after: seq<Outcome>, id: Id, attempt: nat)
    requires EndedIn(before, id, attempt) && before <= after
    ensures EndedIn(after, id, attempt)
  {
    var i :| 0 <= i < |before| && before[i].run == id && before[i].attempt == attempt;
    assert after[i] == before[i];
  }

  /** Until a lease runs out, nothing but its own outcome ends the attempt it is for. */
  lemma {:induction false} LeaseHolds(
    env: Env, w: World, actions: seq<Action>, id: Id, worker: Id, attempt: nat, until: Time)
    requires StrictNext(env) && Inv(env, w) && LegalRun(env, w, actions)
    requires OnLease(w.db, id, worker, attempt, until) && until <= w.db.now + RUN_LEASE
    requires Reach(env, w, actions).db.now <= until
    ensures var w' := Reach(env, w, actions);
            || (OnLease(w'.db, id, worker, attempt, until) && !Candidate(w'.db, id))
            || EndedIn(w'.outcomes, id, attempt)
    decreases |actions|
  {
    if actions != [] {
      var w1 := Next(env, w, actions[0]);
      InvNext(env, w, actions[0]);
      NextTime(env, w, actions[0]);
      ReachTime(env, w1, actions[1..]);
      NextOnLease(env, w, actions[0], id, worker, attempt, until);
      if EndedIn(w1.outcomes, id, attempt) {
        OutcomesStay(env, w1, actions[1..]);
        StillEnded(w1.outcomes, Reach(env, w1, actions[1..]).outcomes, id, attempt);
      } else {
        LeaseHolds(env, w1, actions[1..], id, worker, attempt, until);
      }
    }
  }
}
