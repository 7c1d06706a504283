/** What an outcome asked for exists exactly once, and nothing exists that no outcome asked for. */
module Effects {
  import opened Basics
  import opened Tables
  import opened Transactions
  import opened Shapes
  import opened World
  import opened Moves
  import opened Storage

  import opened Fence

  predicate SameApproval(a: Approval, b: Approval) {
    && b.automation == a.automation && b.revision == a.revision && b.requestedBy == a.requestedBy && b.key == a.key
    && b.expiresAt == a.expiresAt && b.fields == a.fields && b.actions == a.actions
    && (Resolved(a) ==> b == a)
  }

  /** Nothing that was ever queued, asked or announced is taken back. */
  ghost predicate Grows(db: Db, db': Db) {
    && (forall r :: r in db.runs.rows ==> r in db'.runs.rows && SameIdentity(db.runs.rows[r], db'.runs.rows[r]))
    && (forall e :: e in db.events.rows ==> e in db'.events.rows && db'.events.rows[e] == db.events.rows[e])
    && (forall a :: a in db.approvals.rows ==>
          a in db'.approvals.rows && SameApproval(db.approvals.rows[a], db'.approvals.rows[a]))
    && db.notices.all <= db'.notices.all
  }

  /** The deferred run of a success. */
  ghost predicate Spawned(db: Db, o: Outcome, run: Id) {
    && o.run in db.runs.rows && o.control.defer.Some?
    && RunOfKey(db, run, Plain(o.automation, "deferred"), DeferredKey(o.run, o.control.defer.value.key))
    && db.runs.rows[run].automation == o.automation && db.runs.rows[run].revision == db.runs.rows[o.run].revision
  }

  /** The approval a success opened. */
  ghost predicate Opened(db: Db, o: Outcome, id: Id) {
    && o.run in db.runs.rows && o.control.approval.Some? && id in db.approvals.rows
    && var a := db.approvals.rows[id];
    && a.requestedBy == o.run && a.automation == o.automation && a.key == o.control.approval.value.key
    && a.revision == db.runs.rows[o.run].revision && a.expiresAt == o.control.approval.value.expiresAt
    && Notice("approval.requested", id) in db.notices.all
  }

  ghost predicate Granted(db: Db, o: Outcome) {
    && (o.kind == Success && o.control.defer.Some? ==> exists run :: Spawned(db, o, run))
    && (o.kind == Success && o.control.approval.Some? ==> exists id :: Opened(db, o, id))
    && (o.kind == Success ==> RequestedNotices(o.run, o.control.notices) <= db.notices.all)
    && (o.kind == Failure ==> Notice("run.failed", o.run) in db.notices.all)
  }

  ghost predicate AskedBy(outcomes: seq<Outcome>, run: Id, key: Id) {
    exists i :: 0 <= i < |outcomes| && outcomes[i].run == run && outcomes[i].kind == Success
                && outcomes[i].control.approval.Some? && outcomes[i].control.approval.value.key == key
  }

  ghost predicate FailedIn(outcomes: seq<Outcome>, run: Id) {
    exists i :: 0 <= i < |outcomes| && outcomes[i].run == run && outcomes[i].kind == Failure
  }

  ghost predicate RequestedIn(outcomes: seq<Outcome>, subject: Id) {
    exists i :: 0 <= i < |outcomes| && outcomes[i].kind == Success && Requests(outcomes[i], subject)
  }

  predicate Requests(o: Outcome, subject: Id) { exists k :: k in o.control.notices && subject == DeferredKey(o.run, k) }

  /** What a notice announces did happen. */
  ghost predicate Accounted(db: Db, outcomes: seq<Outcome>, n: Notice) {
    || (n.kind == "run.failed" && FailedIn(outcomes, n.subject))
    || (n.kind == "automation.notification" && RequestedIn(outcomes, n.subject))
    || (n.kind == "approval.requested" && n.subject in db.approvals.rows)
    || (n.kind == "approval.resolved" && n.subject in db.approvals.rows && Resolved(db.approvals.rows[n.subject]))
  }

  ghost predicate AllGranted(db: Db, outcomes: seq<Outcome>) {
    forall i :: 0 <= i < |outcomes| ==> Granted(db, outcomes[i])
  }

  ghost predicate NothingElse(db: Db, outcomes: seq<Outcome>) {
    && (forall id :: id in db.approvals.rows ==>
          AskedBy(outcomes, db.approvals.rows[id].requestedBy, db.approvals.rows[id].key))
    && (forall n :: n in db.notices.all ==> Accounted(db, outcomes, n))
  }

  ghost predicate Effective(w: World) {
    AllGranted(w.db, w.outcomes) && NothingElse(w.db, w.outcomes)
  }

  // ---------------------------------------------------------------- growth keeps what was granted

  lemma GrowGranted(db: Db, db': Db, o: Outcome)
    requires Granted(db, o) && Grows(db, db')
    ensures Granted(db', o)
  {
    if o.kind == Success && o.control.defer.Some? {
      var run :| Spawned(db, o, run);
      assert Spawned(db', o, run);
    }
    if o.kind == Success && o.control.approval.Some? {
      var id :| Opened(db, o, id);
      assert Opened(db', o, id);
    }
  }

  /** Steps that report no outcome: nothing was opened, and what was announced happened. */
  lemma GrowEffective(w: World, w': World)
    requires Effective(w) && Grows(w.db, w'.db) && w'.outcomes == w.outcomes
    requires w'.db.approvals.rows.Keys == w.db.approvals.rows.Keys
    requires forall n :: n in w'.db.notices.all && n !in w.db.notices.all ==> Accounted(w'.db, w.outcomes, n)
    ensures Effective(w')
  {
    GrowAllGranted(w.db, w'.db, w.outcomes);
    GrowNothingElse(w.db, w'.db, w.outcomes);
  }

  lemma GrowAllGranted(db: Db, db': Db, outcomes: seq<Outcome>)
    requires AllGranted(db, outcomes) && Grows(db, db')
    ensures AllGranted(db', outcomes)
  {
    forall i | 0 <= i < |outcomes| ensures Granted(db', outcomes[i]) {
      GrowGranted(db, db', outcomes[i]);
    }
  }

  lemma GrowNothingElse(db: Db, db': Db, outcomes: seq<Outcome>)
    requires NothingElse(db, outcomes) && Grows(db, db') && db'.approvals.rows.Keys == db.approvals.rows.Keys
    requires forall n :: n in db'.notices.all && n !in db.notices.all ==> Accounted(db', outcomes, n)
    ensures NothingElse(db', outcomes)
  {
    forall n | n in db.notices.all ensures Accounted(db', outcomes, n) { assert Accounted(db, outcomes, n); }
  }

  lemma RecordEffective(w: World, w': World, o: Outcome)
    requires Effective(w) && Grows(w.db, w'.db) && w'.outcomes == w.outcomes + [o] && Granted(w'.db, o)
    requires forall id :: id in w'.db.approvals.rows && id !in w.db.approvals.rows ==>
               && w'.db.approvals.rows[id].requestedBy == o.run && o.kind == Success
               && o.control.approval.Some? && o.control.approval.value.key == w'.db.approvals.rows[id].key
    requires forall n :: n in w'.db.notices.all && n !in w.db.notices.all ==> Accounted(w'.db, w'.outcomes, n)
    ensures Effective(w')
  {
    GrowAllGranted(w.db, w'.db, w.outcomes);
    AppendGranted(w'.db, w.outcomes, o);
    forall id | id in w'.db.approvals.rows
      ensures AskedBy(w'.outcomes, w'.db.approvals.rows[id].requestedBy, w'.db.approvals.rows[id].key)
    {
      var key := w'.db.approvals.rows[id].key;
      if id in w.db.approvals.rows {
        assert SameApproval(w.db.approvals.rows[id], w'.db.approvals.rows[id]);
        AppendAsked(w.outcomes, o, w'.db.approvals.rows[id].requestedBy, key);
      } else {
        LastAsked(w.outcomes, o, key);
      }
    }
    forall n | n in w.db.notices.all ensures Accounted(w'.db, w'.outcomes, n) {
      AppendAccounted(w.db, w'.db, w.outcomes, o, n);
    }
  }

  lemma AppendAccounted(db: Db, db': Db, outcomes: seq<Outcome>, o: Outcome, n: Notice)
    requires Accounted(db, outcomes, n) && Grows(db, db')
    ensures Accounted(db', outcomes + [o], n)
  {
    if FailedIn(outcomes, n.subject) { AppendFailed(outcomes, o, n.subject); }
    if RequestedIn(outcomes, n.subject) { AppendRequested(outcomes, o, n.subject); }
  }

  lemma AppendRequested(outcomes: seq<Outcome>, o: Outcome, subject: Id)
    requires RequestedIn(outcomes, subject)
    ensures RequestedIn(outcomes + [o], subject)
  {
    var i :| 0 <= i < |outcomes| && outcomes[i].kind == Success && Requests(outcomes[i], subject);
    assert (outcomes + [o])[i] == outcomes[i];
  }

  lemma LastRequested(outcomes: seq<Outcome>, o: Outcome, subject: Id)
    requires o.kind == Success && Requests(o, subject)
    ensures RequestedIn(outcomes + [o], subject)
  {
    assert (outcomes + [o])[|outcomes|] == o;
  }

  lemma AppendGranted(db: Db, outcomes: seq<Outcome>, o: Outcome)
    requires AllGranted(db, outcomes) && Granted(db, o)
    ensures AllGranted(db, outcomes + [o])
  {
  }

  lemma AppendAsked(outcomes: seq<Outcome>, o: Outcome, run: Id, key: Id)
    requires AskedBy(outcomes, run, key)
    ensures AskedBy(outcomes + [o], run, key)
  {
    var i :| 0 <= i < |outcomes| && outcomes[i].run == run && outcomes[i].kind == Success
             && outcomes[i].control.approval.Some? && outcomes[i].control.approval.value.key == key;
    assert (outcomes + [o])[i] == outcomes[i];
  }

  lemma LastAsked(outcomes: seq<Outcome>, o: Outcome, key: Id)
    requires o.kind == Success && o.control.approval.Some? && o.control.approval.value.key == key
    ensures AskedBy(outcomes + [o], o.run, key)
  {
    assert (outcomes + [o])[|outcomes|] == o;
  }

  lemma AppendFailed(outcomes: seq<Outcome>, o: Outcome, run: Id)
    requires FailedIn(outcomes, run)
    ensures FailedIn(outcomes + [o], run)
  {
    var i :| 0 <= i < |outcomes| && outcomes[i].run == run && outcomes[i].kind == Failure;
    assert (outcomes + [o])[i] == outcomes[i];
  }

  lemma LastFailed(outcomes: seq<Outcome>, o: Outcome)
    requires o.kind == Failure
    ensures FailedIn(outcomes + [o], o.run)
  {
    assert (outcomes + [o])[|outcomes|] == o;
  }

  // ---------------------------------------------------------------- worker actions

  lemma CompleteGrants(db: Db, worker: Id, claim: Claim, state: Option<Value>, control: Control, draw: Draw, o: Outcome)
    requires CompleteRun(db, worker, claim, state, control, draw).result.Ok?
    requires claim.automation == db.runs.rows[claim.run].automation && claim.revision == db.runs.rows[claim.run].revision
    requires o.run == claim.run && o.kind == Success && o.control == control && o.automation == claim.automation
    ensures var db' := CompleteRun(db, worker, claim, state, control, draw).db; Grows(db, db') && Granted(db', o)
  {
    var db' := CompleteRun(db, worker, claim, state, control, draw).db;
    if control.defer.Some? { assert Spawned(db', o, draw.runId); }
    if control.approval.Some? { assert Opened(db', o, draw.approvalId); }
  }

  lemma CompleteEffective(w: World, worker: Id, state: Option<Value>, control: Control, draw: Draw)
    requires Effective(w) && Faithful(w.workers.rows, w.db.runs.rows, w.db.revisions.rows)
    ensures Effective(CompleteStep(w, worker, state, control, draw))
  {
    var w' := CompleteStep(w, worker, state, control, draw);
    if worker in w.workers.rows {
      var claim := w.workers.rows[worker];
      if CompleteRun(w.db, worker, claim, state, control, draw).result.Ok? {
        var o := w'.outcomes[|w.outcomes|];
        CompleteGrants(w.db, worker, claim, state, control, draw, o);
        forall n | n in NewNotices(claim, control, draw) ensures Accounted(w'.db, w'.outcomes, n) {
          NewAccounted(claim, control, draw, w.outcomes, w'.db, o, n);
        }
        RecordEffective(w, w', o);
      }
    }
  }

  lemma NewAccounted(
    claim: Claim, control: Control, draw: Draw, outcomes: seq<Outcome>, db': Db, o: Outcome, n: Notice)
    requires n in NewNotices(claim, control, draw) && o.run == claim.run && o.kind == Success && o.control == control
    requires control.approval.Some? ==> draw.approvalId in db'.approvals.rows
    ensures Accounted(db', outcomes + [o], n)
  {
    if n in RequestedNotices(claim.run, control.notices) {
      assert Requests(o, n.subject);
      LastRequested(outcomes, o, n.subject);
    }
  }

  lemma FailEffective(w: World, worker: Id)
    requires Effective(w)
    ensures Effective(FailStep(w, worker))
  {
    var w' := FailStep(w, worker);
    if Fenced(w, worker) {
      ProgressShape(w, Failing(worker));
      UpdateGrows(w.db, w'.db, w.workers.rows[worker].run);
      var o := w'.outcomes[|w.outcomes|];
      if o.kind == Failure { LastFailed(w.outcomes, o); }
      RecordEffective(w, w', o);
    }
  }

  lemma ReleaseEffective(w: World, worker: Id)
    requires Effective(w)
    ensures Effective(ReleaseStep(w, worker))
  {
    var w' := ReleaseStep(w, worker);
    if Fenced(w, worker) {
      ProgressShape(w, Releasing(worker));
      UpdateGrows(w.db, w'.db, w.workers.rows[worker].run);
      RecordEffective(w, w', w'.outcomes[|w.outcomes|]);
    }
  }

  lemma WorkEffective(w: World, a: WorkerAction)
    requires Effective(w) && Faithful(w.workers.rows, w.db.runs.rows, w.db.revisions.rows)
    ensures Effective(Working(w, a))
  {
    match a
    case Completing(worker, state, control, draw) => CompleteEffective(w, worker, state, control, draw);
    case Failing(worker) => FailEffective(w, worker);
    case Releasing(worker) => ReleaseEffective(w, worker);
    case Acquiring(_, _) => ClaimEffective(w, a);
    case Renewing(_) => ClaimEffective(w, a);
    case Forgetting(_) =>
  }

  lemma UpdateGrows(db: Db, db': Db, id: Id)
    requires Updated(db, db', id) && db'.approvals == db.approvals && db.notices.all <= db'.notices.all
    ensures Grows(db, db')
  {
  }

  /** Claims and renewals report nothing. */
  lemma ClaimEffective(w: World, a: WorkerAction)
    requires Effective(w) && (a.Acquiring? || a.Renewing?)
    ensures Effective(Working(w, a))
  {
    var w' := Working(w, a);
    if Passes(w, a) {
      ProgressShape(w, a);
      assert w'.db.notices == w.db.notices;
      UpdateGrows(w.db, w'.db, Target(w, a));
      GrowEffective(w, w');
    } else {
      RefusedShape(w, a);
    }
  }

  // ---------------------------------------------------------------- intake

  lemma TakeGrows(db: Db, db': Db, eventId: Id, runId: Id)
    requires TookIn(db, db', eventId, runId) && db'.approvals == db.approvals && db'.notices == db.notices
    ensures Grows(db, db')
  {
  }

  lemma AnswerGrows(db: Db, db': Db, id: Id, replayKey: Id, action: Id, eventId: Id, runId: Id)
    requires Considered(db, db', id, replayKey, action, eventId, runId)
    ensures Grows(db, db') && db'.approvals.rows.Keys == db.approvals.rows.Keys
    ensures forall n, outcomes :: n in db'.notices.all && n !in db.notices.all ==> Accounted(db', outcomes, n)
  {
  }

  lemma ExpireGrows(db: Db)
    ensures Grows(db, ExpireApprovals(db))
  {
  }

  lemma AnswerEffective(w: World, w': World, a: IntakeAction)
    requires Effective(w) && a.Answering? && w' == w.(db := TakingIn(w.db, a))
    ensures Effective(w')
  {
    AnswerShape(w.db, a.approval, a.replayKey, a.expected, a.action, a.supplied, a.eventId, a.runId);
    AnswerGrows(w.db, w'.db, a.approval, a.replayKey, a.action, a.eventId, a.runId);
    GrowEffective(w, w');
  }

  lemma IntakeEffective(w: World, a: IntakeAction)
    requires Effective(w)
    ensures Effective(w.(db := TakingIn(w.db, a)))
  {
    var w' := w.(db := TakingIn(w.db, a));
    match a
    case Ingesting(automation, trigger, kind, external, generated, eventId, runId) =>
      IngestShape(w.db, automation, trigger, kind, external, generated, eventId, runId);
      TakeGrows(w.db, w'.db, eventId, runId);
      GrowEffective(w, w');
    case Starting(automation, external, generated, expected, eventId, runId) =>
      ManualShape(w.db, automation, external, generated, expected, eventId, runId);
      TakeGrows(w.db, w'.db, eventId, runId);
      GrowEffective(w, w');
    case Answering(approval, replayKey, expected, action, supplied, eventId, runId) =>
      AnswerEffective(w, w', a);
    case Expiring =>
      ExpireGrows(w.db);
      GrowEffective(w, w');
  }

  lemma FireEffective(env: Env, w: World, f: Firing)
    requires Effective(w)
    ensures Effective(FireStep(env, w, f))
  {
    var w' := FireStep(env, w, f);
    FireShape(env, w.db, f.trigger, f.eventId, f.runId);
    TakeGrows(w.db, w'.db, f.eventId, f.runId);
    GrowEffective(w, w');
  }

  lemma SameGrows(db: Db, db': Db)
    requires SameTraffic(db, db')
    ensures Grows(db, db')
  {
  }

  /** Steps that leave the traffic tables alone. */
  lemma StillEffective(w: World, w': World)
    requires Effective(w) && SameTraffic(w.db, w'.db) && w'.outcomes == w.outcomes
    ensures Effective(w')
  {
    SameGrows(w.db, w'.db);
    GrowEffective(w, w');
  }

  // ---------------------------------------------------------------- growth of every step

  lemma CompleteGrows(db: Db, worker: Id, claim: Claim, state: Option<Value>, control: Control, draw: Draw)
    ensures Grows(db, CompleteRun(db, worker, claim, state, control, draw).db)
  {
    CompleteShape(db, worker, claim, state, control, draw);
    var db' := CompleteRun(db, worker, claim, state, control, draw).db;
    if CompleteRun(db, worker, claim, state, control, draw).result.Ok? {
      CompleteKeeps(db.approvals.rows, db.notices.all, claim, control, draw);
      var queued := db'.(approvals := db.approvals, notices := db.notices);
      UpdateGrows(db, Closed(db, claim), claim.run);
      QueueGrows(db, Closed(db, claim), queued, draw.eventId, draw.runId);
    }
  }

  lemma CompleteKeeps(approvals: map<Id, Approval>, notices: set<Notice>, claim: Claim, control: Control, draw: Draw)
    ensures notices <= notices + NewNotices(claim, control, draw)
    ensures !(draw.approvalId in approvals) ==>
              forall a :: a in approvals ==>
                a in WithApproval(approvals, claim, control.approval, draw.approvalId)
                && WithApproval(approvals, claim, control.approval, draw.approvalId)[a] == approvals[a]
  {
  }

  lemma QueueGrows(db: Db, mid: Db, db': Db, eventId: Id, runId: Id)
    requires Grows(db, mid) && (SameQueue(mid, db') || Inserted(mid, db', eventId, runId))
    requires db'.approvals == mid.approvals && db'.notices == mid.notices
    ensures Grows(db, db')
  {
  }

  lemma WorkGrows(w: World, a: WorkerAction)
    ensures Grows(w.db, Working(w, a).db)
  {
    if a.Completing? {
      if a.worker in w.workers.rows {
        CompleteGrows(w.db, a.worker, w.workers.rows[a.worker], a.state, a.control, a.draw);
      }
    } else if Passes(w, a) && !a.Forgetting? {
      ProgressShape(w, a);
      UpdateGrows(w.db, Working(w, a).db, Target(w, a));
    } else {
      RefusedShape(w, a);
    }
  }

  lemma IntakeGrows(db: Db, a: IntakeAction)
    ensures Grows(db, TakingIn(db, a))
  {
    var db' := TakingIn(db, a);
    match a
    case Ingesting(automation, trigger, kind, external, generated, eventId, runId) =>
      IngestShape(db, automation, trigger, kind, external, generated, eventId, runId);
      TakeGrows(db, db', eventId, runId);
    case Starting(automation, external, generated, expected, eventId, runId) =>
      ManualShape(db, automation, external, generated, expected, eventId, runId);
      TakeGrows(db, db', eventId, runId);
    case Answering(approval, replayKey, expected, action, supplied, eventId, runId) =>
      AnswerShape(db, approval, replayKey, expected, action, supplied, eventId, runId);
      AnswerGrows(db, db', approval, replayKey, action, eventId, runId);
    case Expiring => ExpireGrows(db);
  }
}
