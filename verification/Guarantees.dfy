/** The inductive invariant of the control plane, and what it means for every run of it. */
module Guarantees {
  import opened Basics
  import opened Tables
  import opened Transactions
  import opened Shapes
  import opened World
  import opened Moves
  import opened Journal
  import opened Storage
  import opened Fence
  import opened StateChain
  import opened Promotion
  import opened Approvals
  import opened Effects

  import opened Schedules

  ghost predicate Inv(env: Env, w: World) {
    && Paired(w.db.events.rows, w.db.runs.rows)
    && Stored(w.db)
    && Orderly(w)
    && Serial(w)
    && Promoted(w)
    && Answerwise(w.db)
    && Effective(w)
    && Scheduled(env, w)
  }

  lemma InvInit(env: Env, now: Time)
    ensures Inv(env, Init(now))
  {
    InitDb(now);
    InitSerial(now);
    InitHistory(env, now);
  }

  lemma InitDb(now: Time)
    ensures var db := Init(now).db; Paired(db.events.rows, db.runs.rows) && Stored(db) && Answerwise(db)
  {
  }

  lemma InitHistory(env: Env, now: Time)
    ensures var w := Init(now); Orderly(w) && Promoted(w) && Effective(w) && Scheduled(env, w)
  {
  }

  lemma InitSerial(now: Time)
    ensures Serial(Init(now))
  {
  }

  /** Steps that leave the traffic tables and the trigger rows alone. */
  lemma StillTraffic(env: Env, w: World, w': World)
    requires Inv(env, w) && SameTraffic(w.db, w'.db) && SameMemory(w, w') && w.db.now <= w'.db.now
    requires RevisionsStay(w.db.revisions.rows, w'.db.revisions.rows)
    ensures Paired(w'.db.events.rows, w'.db.runs.rows) && Orderly(w') && Serial(w') && Answerwise(w'.db) && Effective(w')
  {
    StillOrderly(w, w');
    StillEffective(w, w');
    SameAnswerwise(w.db, w'.db);
  }

  lemma StillScheduled(env: Env, w: World, w': World)
    requires Scheduled(env, w) && SameTraffic(w.db, w'.db) && w.db.now <= w'.db.now && w'.firings == w.firings
    requires w'.db.automations == w.db.automations && w'.db.triggers == w.db.triggers
    ensures Scheduled(env, w')
  {
    SameGrows(w.db, w'.db);
    GrowScheduled(env, w, w');
  }

  lemma InvWork(env: Env, w: World, a: WorkerAction)
    requires Inv(env, w)
    ensures Inv(env, Working(w, a))
  {
    WorkPaired(w, a);
    if a.Completing? { CompleteStored(w, a.worker, a.state, a.control, a.draw); } else { ProgressStored(w, a); }
    WorkOrderly(w, a);
    WorkSerial(w, a);
    WorkAnswerwise(w, a);
    WorkEffective(w, a);
    WorkGrows(w, a);
    WorkFrame(w, a);
    GrowScheduled(env, w, Working(w, a));
  }

  lemma InvIntake(env: Env, w: World, a: IntakeAction)
    requires Inv(env, w)
    ensures Inv(env, w.(db := TakingIn(w.db, a)))
  {
    IntakePaired(w.db, a);
    IntakeStored(w.db, a);
    IntakeOrderly(w, a);
    IntakeAnswerwise(w.db, a);
    IntakeEffective(w, a);
    IntakeGrows(w.db, a);
    IntakeFrame(w.db, a);
    GrowScheduled(env, w, w.(db := TakingIn(w.db, a)));
  }

  lemma InvFire(env: Env, w: World, f: Firing)
    requires StrictNext(env) && Inv(env, w)
    ensures Inv(env, FireStep(env, w, f))
  {
    FirePaired(env, w, f);
    FireStored(env, w, f);
    FireOrderly(env, w, f);
    FireAnswerwise(env, w, f);
    FireEffective(env, w, f);
    FireScheduled(env, w, f);
    FireShape(env, w.db, f.trigger, f.eventId, f.runId);
  }

  lemma {:induction false} InvPass(env: Env, w: World, due: seq<Firing>)
    requires StrictNext(env) && Inv(env, w)
    ensures Inv(env, FireSteps(env, w, due))
    decreases |due|
  {
    if due != [] {
      InvFire(env, w, due[0]);
      InvPass(env, FireStep(env, w, due[0]), due[1..]);
    }
  }

  lemma InvRelease(env: Env, w: World, a: ReleaseAction)
    requires StrictNext(env) && Inv(env, w) && Legal(w, Release(a))
    ensures Inv(env, Switching(env, w, a))
  {
    var w' := Switching(env, w, a);
    ReleaseFrame(env, w, a);
    ReleaseStored(env, w, a);
    ReleaseScheduled(env, w, a);
    StillTraffic(env, w, w');
    if a.ActivatingBuild? { ActivateKept(env, w, a.worker, a.manifest, a.hash, a.path, a.attested); }
  }

  lemma InvBuild(env: Env, w: World, a: BuildAction)
    requires Inv(env, w) && Legal(w, Build(a))
    ensures Inv(env, BuildingOn(w, a))
  {
    var w' := BuildingOn(w, a);
    BuildFrame(w, a);
    BuildKept(w, a);
    StillTraffic(env, w, w');
    StillScheduled(env, w, w');
  }

  lemma InvUpkeep(env: Env, w: World, a: UpkeepAction)
    requires Inv(env, w)
    ensures Inv(env, w.(db := Keeping(w.db, a)))
  {
    var w' := w.(db := Keeping(w.db, a));
    UpkeepFrame(w.db, a);
    UpkeepStored(w.db, a);
    StillTraffic(env, w, w');
    StillScheduled(env, w, w');
  }

  lemma InvNext(env: Env, w: World, a: Action)
    requires StrictNext(env) && Inv(env, w) && Legal(w, a)
    ensures Inv(env, Next(env, w, a))
  {
    var w' := Next(env, w, a);
    match a
    case Work(work) => InvWork(env, w, work); assert w' == Working(w, work);
    case Intake(intake) => InvIntake(env, w, intake); assert w' == w.(db := TakingIn(w.db, intake));
    case Scheduling(due) => InvPass(env, w, due); assert w' == w || w' == FireSteps(env, w, due);
    case Release(release) => InvRelease(env, w, release); assert w' == Switching(env, w, release);
    case Build(build) => InvBuild(env, w, build); assert w' == BuildingOn(w, build);
    case Upkeep(upkeep) => InvUpkeep(env, w, upkeep); assert w' == w.(db := Keeping(w.db, upkeep));
  }

  /** Every world any interleaving of legal actions can reach satisfies the invariant. */
  lemma {:induction false} InvReach(env: Env, w: World, actions: seq<Action>)
    requires StrictNext(env) && Inv(env, w) && LegalRun(env, w, actions)
    ensures Inv(env, Reach(env, w, actions))
    decreases |actions|
  {
    if actions != [] {
      InvNext(env, w, actions[0]);
      InvReach(env, Next(env, w, actions[0]), actions[1..]);
    }
  }
}
