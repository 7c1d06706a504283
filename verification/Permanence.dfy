/** Nothing that was queued, asked, answered or announced is ever taken back. */
module Permanence {
  import opened Basics
  import opened Tables
  import opened Transactions
  import opened Shapes
  import opened World
  import opened Moves
  import opened Effects
  import opened Approvals

  lemma GrowsTransitive(a: Db, b: Db, c: Db)
    requires Grows(a, b) && Grows(b, c)
    ensures Grows(a, c)
  {
  }

  lemma {:induction false} PassGrows(env: Env, w: World, due: seq<Firing>)
    ensures Grows(w.db, FireSteps(env, w, due).db)
    decreases |due|
  {
    if due != [] {
      var w' := FireStep(env, w, due[0]);
      FireShape(env, w.db, due[0].trigger, due[0].eventId, due[0].runId);
      TakeGrows(w.db, w'.db, due[0].eventId, due[0].runId);
      PassGrows(env, w', due[1..]);
      GrowsTransitive(w.db, w'.db, FireSteps(env, w', due[1..]).db);
    }
  }

  lemma NextGrows(env: Env, w: World, a: Action)
    ensures Grows(w.db, Next(env, w, a).db)
  {
    match a
    case Work(work) => WorkGrows(w, work);
    case Intake(intake) => IntakeGrows(w.db, intake);
    case Scheduling(due) => PassGrows(env, w, due);
    case Release(release) => ReleaseFrame(env, w, release);
    case Build(build) => BuildFrame(w, build);
    case Upkeep(upkeep) => UpkeepFrame(w.db, upkeep);
  }

  /** Over every schedule: runs and events stay with what they are for, approvals with what they ask and
      how they were answered, and notices stay. */
  lemma {:induction false} GrowsReach(env: Env, w: World, actions: seq<Action>)
    ensures Grows(w.db, Reach(env, w, actions).db)
    decreases |actions|
  {
    if actions != [] {
      var w' := Next(env, w, actions[0]);
      NextGrows(env, w, actions[0]);
      GrowsReach(env, w', actions[1..]);
      GrowsTransitive(w.db, w'.db, Reach(env, w', actions[1..]).db);
    }
  }

  /** The run a key led to is the run it leads to ever after. */
  lemma KeyReach(env: Env, w: World, actions: seq<Action>, run: Id, key: TriggerKey, external: Id)
    requires RunOfKey(w.db, run, key, external)
    ensures RunOfKey(Reach(env, w, actions).db, run, key, external)
  {
    GrowsReach(env, w, actions);
  }

  /** An answered approval keeps its record and its continuation. */
  lemma ContinuesReach(env: Env, w: World, actions: seq<Action>, id: Id, run: Id)
    requires Continues(w.db, id, run)
    ensures Continues(Reach(env, w, actions).db, id, run)
  {
    GrowsReach(env, w, actions);
  }
}
