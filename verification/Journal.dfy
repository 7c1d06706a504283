/** Events and runs are in bijection, and each (trigger key, external id) has one event. */
module Journal {
  import opened Basics
  import opened Tables
  import opened Transactions
  import opened Shapes

  import opened World

  ghost predicate HasRun(runs: map<Id, Run>, event: Id) {
    exists r :: r in runs && runs[r].event == event
  }

  ghost predicate Paired(events: map<Id, Event>, runs: map<Id, Run>) {
    && (forall r :: r in runs ==> runs[r].event in events)
    && (forall r, s :: r in runs && s in runs && runs[r].event == runs[s].event ==> r == s)
    && (forall e :: e in events ==> HasRun(runs, e))
    && (forall e, f :: e in events && f in events && events[e] == events[f] ==> e == f)
  }

  lemma InsertPaired(db: Db, db': Db, eventId: Id, runId: Id)
    requires Paired(db.events.rows, db.runs.rows) && Inserted(db, db', eventId, runId)
    ensures Paired(db'.events.rows, db'.runs.rows)
  {
    InsertHasRuns(db.events.rows, db.runs.rows, eventId, runId, db'.runs.rows[runId]);
    InsertApart(db.events.rows, db.runs.rows, eventId, db'.events.rows[eventId], runId, db'.runs.rows[runId]);
  }

  lemma InsertHasRuns(events: map<Id, Event>, runs: map<Id, Run>, eventId: Id, runId: Id, run: Run)
    requires Paired(events, runs) && runId !in runs && run.event == eventId
    ensures var runs' := runs[runId := run]; HasRun(runs', eventId) && forall e :: e in events ==> HasRun(runs', e)
  {
    var runs' := runs[runId := run];
    assert runs'[runId].event == eventId;
    forall e | e in events ensures HasRun(runs', e) {
      assert HasRun(runs, e);
      var r :| r in runs && runs[r].event == e;
      assert runs'[r].event == e;
    }
  }

  lemma InsertApart(events: map<Id, Event>, runs: map<Id, Run>, eventId: Id, event: Event, runId: Id, run: Run)
    requires Paired(events, runs) && runId !in runs && run.event == eventId && eventId !in events
    requires !KeyTaken(events, event.key, event.external)
    ensures var events', runs' := events[eventId := event], runs[runId := run];
            && (forall r :: r in runs' ==> runs'[r].event in events')
            && (forall r, s :: r in runs' && s in runs' && runs'[r].event == runs'[s].event ==> r == s)
            && (forall e, f :: e in events' && f in events' && events'[e] == events'[f] ==> e == f)
  {
  }

  lemma UpdatePaired(db: Db, db': Db, id: Id)
    requires Paired(db.events.rows, db.runs.rows) && Updated(db, db', id)
    ensures Paired(db'.events.rows, db'.runs.rows)
  {
    forall e | e in db'.events.rows ensures HasRun(db'.runs.rows, e) {
      assert HasRun(db.runs.rows, e);
      var r :| r in db.runs.rows && db.runs.rows[r].event == e;
      assert db'.runs.rows[r].event == e;
    }
  }

  lemma TakePaired(db: Db, db': Db, eventId: Id, runId: Id)
    requires Paired(db.events.rows, db.runs.rows) && TookIn(db, db', eventId, runId)
    ensures Paired(db'.events.rows, db'.runs.rows)
  {
    if !SameQueue(db, db') { InsertPaired(db, db', eventId, runId); }
  }

  lemma WorkPaired(w: World, a: WorkerAction)
    requires Paired(w.db.events.rows, w.db.runs.rows)
    ensures var db := Working(w, a).db; Paired(db.events.rows, db.runs.rows)
  {
    var w' := Working(w, a);
    match a
    case Acquiring(worker, id) =>
      if worker !in w.workers.rows && Candidate(w.db, id) { UpdatePaired(w.db, w'.db, id); }
    case Completing(worker, state, control, draw) =>
      if worker in w.workers.rows {
        var claim := w.workers.rows[worker];
        CompleteShape(w.db, worker, claim, state, control, draw);
        if CompleteRun(w.db, worker, claim, state, control, draw).result.Ok? {
          UpdatePaired(w.db, Closed(w.db, claim), claim.run);
          if control.defer.Some? { InsertPaired(Closed(w.db, claim), w'.db, draw.eventId, draw.runId); }
        }
      }
    case Renewing(worker) => if Fenced(w, worker) { UpdatePaired(w.db, w'.db, w.workers.rows[worker].run); }
    case Failing(worker) => if Fenced(w, worker) { UpdatePaired(w.db, w'.db, w.workers.rows[worker].run); }
    case Releasing(worker) => if Fenced(w, worker) { UpdatePaired(w.db, w'.db, w.workers.rows[worker].run); }
    case Forgetting(_) =>
  }

  lemma IntakePaired(db: Db, a: IntakeAction)
    requires Paired(db.events.rows, db.runs.rows)
    ensures var db' := TakingIn(db, a); Paired(db'.events.rows, db'.runs.rows)
  {
    var db' := TakingIn(db, a);
    match a
    case Ingesting(automation, trigger, kind, external, generated, eventId, runId) =>
      IngestShape(db, automation, trigger, kind, external, generated, eventId, runId);
      TakePaired(db, db', eventId, runId);
    case Starting(automation, external, generated, expected, eventId, runId) =>
      ManualShape(db, automation, external, generated, expected, eventId, runId);
      TakePaired(db, db', eventId, runId);
    case Answering(approval, replayKey, expected, action, supplied, eventId, runId) =>
      AnswerShape(db, approval, replayKey, expected, action, supplied, eventId, runId);
      if !SameQueue(db, db') { InsertPaired(db, db', eventId, runId); }
    case Expiring =>
  }

  lemma FirePaired(env: Env, w: World, f: Firing)
    requires Paired(w.db.events.rows, w.db.runs.rows)
    ensures var db := FireStep(env, w, f).db; Paired(db.events.rows, db.runs.rows)
  {
    FireShape(env, w.db, f.trigger, f.eventId, f.runId);
    TakePaired(w.db, FireStep(env, w, f).db, f.eventId, f.runId);
  }
}
