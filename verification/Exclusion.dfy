/** Forbidden concurrency: one unexpired `forbid` run per automation, while renewals are timely. */
module Exclusion {
  import opened Basics
  import opened Tables
  import opened Transactions
  import opened Shapes
  import opened World

  import opened Moves

  predicate Holding(runs: map<Id, Run>, r: Id, automation: Id, now: Time) {
    r in runs && runs[r].automation == automation && runs[r].policy == Forbid && Unexpired(runs[r], now)
  }

  ghost predicate Exclusive(runs: map<Id, Run>, now: Time) {
    forall r, s, a :: Holding(runs, r, a, now) && Holding(runs, s, a, now) ==> r == s
  }

  /** A renewal arrives before the lease it extends has expired. */
  predicate Timely(w: World, a: Action) {
    a.Work? && a.work.Renewing? && Fenced(w, a.work.worker) ==>
      Unexpired(w.db.runs.rows[w.workers.rows[a.work.worker].run], w.db.now)
  }

  ghost predicate TimelyRun(env: Env, w: World, actions: seq<Action>)
    decreases |actions|
  {
    actions != [] ==> Timely(w, actions[0]) && TimelyRun(env, Next(env, w, actions[0]), actions[1..])
  }

  /** Steps after which no run holds that did not hold before. */
  ghost predicate NoneGained(db: Db, db': Db) {
    forall r, a :: Holding(db'.runs.rows, r, a, db'.now) ==> Holding(db.runs.rows, r, a, db.now)
  }

  lemma AcquireExclusive(w: World, worker: Id, id: Id)
    requires Exclusive(w.db.runs.rows, w.db.now)
    ensures var db := AcquireStep(w, worker, id).db; Exclusive(db.runs.rows, db.now)
  {
    var db' := AcquireStep(w, worker, id).db;
    if worker !in w.workers.rows && Candidate(w.db, id) {
      forall r, s, a | Holding(db'.runs.rows, r, a, db'.now) && Holding(db'.runs.rows, s, a, db'.now)
        ensures r == s
      {
        if r != id { assert Holding(w.db.runs.rows, r, a, w.db.now); }
        if s != id { assert Holding(w.db.runs.rows, s, a, w.db.now); }
        assert !Blocked(w.db, id);
      }
    }
  }

  lemma WorkGains(w: World, a: WorkerAction)
    requires !a.Acquiring? && Timely(w, Work(a))
    ensures NoneGained(w.db, Working(w, a).db)
  {
  }

  lemma IntakeGains(db: Db, a: IntakeAction)
    ensures NoneGained(db, TakingIn(db, a))
  {
  }

  lemma {:induction false} FireGains(env: Env, w: World, due: seq<Firing>)
    ensures NoneGained(w.db, FireSteps(env, w, due).db)
    decreases |due|
  {
    if due != [] {
      FireShape(env, w.db, due[0].trigger, due[0].eventId, due[0].runId);
      FireGains(env, FireStep(env, w, due[0]), due[1..]);
    }
  }

  lemma ExclusiveNext(env: Env, w: World, a: Action)
    requires Exclusive(w.db.runs.rows, w.db.now) && Timely(w, a)
    ensures var db := Next(env, w, a).db; Exclusive(db.runs.rows, db.now)
  {
    if a.Work? && a.work.Acquiring? {
      AcquireExclusive(w, a.work.worker, a.work.id);
    } else {
      match a
      case Work(work) => WorkGains(w, work);
      case Intake(intake) => IntakeGains(w.db, intake);
      case Scheduling(due) => FireGains(env, w, due);
      case Release(release) => ReleaseFrame(env, w, release);
      case Build(build) => BuildFrame(w, build);
      case Upkeep(upkeep) => UpkeepFrame(w.db, upkeep);
      GainExclusive(w.db, Next(env, w, a).db);
    }
  }

  lemma GainExclusive(db: Db, db': Db)
    requires Exclusive(db.runs.rows, db.now) && NoneGained(db, db')
    ensures Exclusive(db'.runs.rows, db'.now)
  {
  }

  /** A late renewal of a `forbid` run while another one holds. */
  ghost predicate Intrudes(w: World, worker: Id)
    requires Fenced(w, worker)
  {
    var id := w.workers.rows[worker].run;
    var run := w.db.runs.rows[id];
    && run.policy == Forbid && !Unexpired(run, w.db.now)
    && exists other :: other != id && Holding(w.db.runs.rows, other, run.automation, w.db.now)
  }

  /** Renewing checks the owner but not the expiry, so it keeps exclusion exactly when it does not intrude. */
  lemma RenewExact(w: World, worker: Id)
    requires Exclusive(w.db.runs.rows, w.db.now) && Fenced(w, worker)
    ensures var db := RenewStep(w, worker).db; Exclusive(db.runs.rows, db.now) <==> !Intrudes(w, worker)
  {
    var id := w.workers.rows[worker].run;
    var run := w.db.runs.rows[id];
    var db' := RenewStep(w, worker).db;
    assert db'.runs.rows == w.db.runs.rows[id := db'.runs.rows[id]];
    if Intrudes(w, worker) {
      var other :| other != id && Holding(w.db.runs.rows, other, run.automation, w.db.now);
      assert Holding(db'.runs.rows, id, run.automation, db'.now);
      assert Holding(db'.runs.rows, other, run.automation, db'.now);
    } else {
      forall r, s, a | Holding(db'.runs.rows, r, a, db'.now) && Holding(db'.runs.rows, s, a, db'.now)
        ensures r == s
      {
        if r != id { assert Holding(w.db.runs.rows, r, a, w.db.now); }
        if s != id { assert Holding(w.db.runs.rows, s, a, w.db.now); }
        if Unexpired(run, w.db.now) && a == run.automation && run.policy == Forbid {
          assert Holding(w.db.runs.rows, id, a, w.db.now);
        }
      }
    }
  }

  // ---------------------------------------------------------------- whole schedules

  /** The action is a late renewal that intrudes. */
  ghost predicate IntrudesBy(w: World, a: Action) {
    a.Work? && a.work.Renewing? && Fenced(w, a.work.worker) && Intrudes(w, a.work.worker)
  }

  /** At the start and after every action of the schedule. */
  ghost predicate AlwaysExclusive(env: Env, w: World, actions: seq<Action>)
    decreases |actions|
  {
    && Exclusive(w.db.runs.rows, w.db.now)
    && (actions != [] ==> AlwaysExclusive(env, Next(env, w, actions[0]), actions[1..]))
  }

  ghost predicate NeverIntrudes(env: Env, w: World, actions: seq<Action>)
    decreases |actions|
  {
    actions != [] ==> !IntrudesBy(w, actions[0]) && NeverIntrudes(env, Next(env, w, actions[0]), actions[1..])
  }

  lemma StepExactly(env: Env, w: World, a: Action)
    requires Exclusive(w.db.runs.rows, w.db.now)
    ensures var db := Next(env, w, a).db; Exclusive(db.runs.rows, db.now) <==> !IntrudesBy(w, a)
  {
    if a.Work? && a.work.Renewing? && Fenced(w, a.work.worker) {
      RenewExact(w, a.work.worker);
    } else {
      ExclusiveNext(env, w, a);
    }
  }

  lemma {:induction false} ExclusiveExactly(env: Env, w: World, actions: seq<Action>)
    requires Exclusive(w.db.runs.rows, w.db.now)
    ensures AlwaysExclusive(env, w, actions) <==> NeverIntrudes(env, w, actions)
    decreases |actions|
  {
    if actions != [] {
      var w' := Next(env, w, actions[0]);
      StepExactly(env, w, actions[0]);
      if Exclusive(w'.db.runs.rows, w'.db.now) { ExclusiveExactly(env, w', actions[1..]); }
    }
  }

  /** That is, after every part of the schedule. */
  lemma {:induction false} AlwaysIsEveryPrefix(env: Env, w: World, actions: seq<Action>)
    ensures AlwaysExclusive(env, w, actions) <==> forall k :: 0 <= k <= |actions| ==> ExclusiveAfter(env, w, actions, k)
    decreases |actions|
  {
    assert actions[..0] == [];
    assert Exclusive(w.db.runs.rows, w.db.now) <==> ExclusiveAfter(env, w, actions, 0);
    if actions != [] {
      var w', rest := Next(env, w, actions[0]), actions[1..];
      AlwaysIsEveryPrefix(env, w', rest);
      forall k | 0 <= k <= |rest| ensures ExclusiveAfter(env, w, actions, k + 1) <==> ExclusiveAfter(env, w', rest, k) {
        assert actions[..k + 1][0] == actions[0] && actions[..k + 1][1..] == rest[..k];
      }
      if forall k :: 0 <= k <= |actions| ==> ExclusiveAfter(env, w, actions, k) {
        forall k | 0 <= k <= |rest| ensures ExclusiveAfter(env, w', rest, k) { assert ExclusiveAfter(env, w, actions, k + 1); }
      }
      if AlwaysExclusive(env, w', rest) {
        forall k | 1 <= k <= |actions| ensures ExclusiveAfter(env, w, actions, k) {
          assert ExclusiveAfter(env, w', rest, k - 1) && k - 1 + 1 == k;
        }
      }
    }
  }

  ghost predicate ExclusiveAfter(env: Env, w: World, actions: seq<Action>, k: nat)
    requires k <= |actions|
  {
    var db := Reach(env, w, actions[..k]).db;
    Exclusive(db.runs.rows, db.now)
  }

  lemma {:induction false} TimelyNeverIntrudes(env: Env, w: World, actions: seq<Action>)
    requires TimelyRun(env, w, actions)
    ensures NeverIntrudes(env, w, actions)
    decreases |actions|
  {
    if actions != [] { TimelyNeverIntrudes(env, Next(env, w, actions[0]), actions[1..]); }
  }
}
