/** The guarantees of the control plane, stated for every interleaving of its actors. */
module Theorems {
  import opened Basics
  import opened Tables
  import opened Transactions
  import opened Shapes
  import opened World
  import opened Moves
  import opened Journal
  import opened Storage
  import opened Fence
  import opened StateChain
  import opened Promotion
  import opened Approvals
  import opened Effects
  import opened Schedules
  import opened Guarantees
  import opened Occurrences
  import opened Permanence

  import opened Exclusion
  import opened Accepted
  import opened Provenance
  import opened Timing

  /** A world some legal schedule of actions leads to from the empty control plane. */
  ghost predicate Reachable(env: Env, w: World) {
    StrictNext(env) && exists now, actions :: LegalRun(env, Init(now), actions) && Reach(env, Init(now), actions) == w
  }

  lemma {:induction false} ReachMore(env: Env, w: World, actions: seq<Action>, a: Action)
    requires LegalRun(env, w, actions) && Legal(Reach(env, w, actions), a)
    ensures LegalRun(env, w, actions + [a]) && Reach(env, w, actions + [a]) == Next(env, Reach(env, w, actions), a)
    decreases |actions|
  {
    if actions == [] {
      assert [] + [a] == [a] && [a][1..] == [];
      assert Reach(env, Next(env, w, a), []) == Next(env, w, a);
    } else {
      assert (actions + [a])[1..] == actions[1..] + [a];
      ReachMore(env, Next(env, w, actions[0]), actions[1..], a);
    }
  }

  lemma ReachNext(env: Env, w: World, a: Action)
    requires Reachable(env, w) && Legal(w, a)
    ensures Reachable(env, Next(env, w, a))
  {
    var now, actions :| LegalRun(env, Init(now), actions) && Reach(env, Init(now), actions) == w;
    ReachMore(env, Init(now), actions, a);
  }

  lemma {:induction false} ReachableOn(env: Env, w: World, actions: seq<Action>)
    requires Reachable(env, w) && LegalRun(env, w, actions)
    ensures Reachable(env, Reach(env, w, actions))
    decreases |actions|
  {
    if actions != [] {
      ReachNext(env, w, actions[0]);
      ReachableOn(env, Next(env, w, actions[0]), actions[1..]);
    }
  }

  lemma ReachableInv(env: Env, w: World)
    requires Reachable(env, w)
    ensures Inv(env, w)
  {
    var now, actions :| LegalRun(env, Init(now), actions) && Reach(env, Init(now), actions) == w;
    InvInit(env, now);
    InvReach(env, Init(now), actions);
  }

  // The parts of the invariant one by one, so that each theorem rests on the part it needs.

  lemma AlwaysPaired(env: Env, w: World)
    requires Reachable(env, w)
    ensures Paired(w.db.events.rows, w.db.runs.rows)
  {
    ReachableInv(env, w);
  }

  lemma AlwaysStored(env: Env, w: World)
    requires Reachable(env, w)
    ensures Stored(w.db)
  {
    ReachableInv(env, w);
  }

  lemma AlwaysOrderly(env: Env, w: World)
    requires Reachable(env, w)
    ensures Orderly(w)
  {
    ReachableInv(env, w);
  }

  lemma AlwaysSerial(env: Env, w: World)
    requires Reachable(env, w)
    ensures Serial(w)
  {
    ReachableInv(env, w);
  }

  lemma AlwaysPromoted(env: Env, w: World)
    requires Reachable(env, w)
    ensures Promoted(w)
  {
    ReachableInv(env, w);
  }

  lemma AlwaysAnswerwise(env: Env, w: World)
    requires Reachable(env, w)
    ensures Answerwise(w.db)
  {
    ReachableInv(env, w);
  }

  lemma AlwaysEffective(env: Env, w: World)
    requires Reachable(env, w)
    ensures Effective(w)
  {
    ReachableInv(env, w);
  }

  lemma AlwaysScheduled(env: Env, w: World)
    requires Reachable(env, w)
    ensures Scheduled(env, w)
  {
    ReachableInv(env, w);
  }

  // ---------------------------------------------------------------- runs

  /** Each attempt has at most one outcome, each run at most one final one, and a run is closed
      exactly when its final outcome is recorded. */
  lemma OutcomeOnce(env: Env, w: World)
    requires Reachable(env, w)
    ensures forall i, j :: 0 <= i < j < |w.outcomes| && w.outcomes[i].run == w.outcomes[j].run ==>
              w.outcomes[i].attempt < w.outcomes[j].attempt && !Final(w.outcomes[i].kind)
    ensures forall r :: r in w.db.runs.rows ==> (!Live(w.db.runs.rows[r]) <==> Closes(w.outcomes, r))
    ensures forall i :: 0 <= i < |w.outcomes| ==>
              w.outcomes[i].run in w.db.runs.rows && Exhausted(w.outcomes[i], w.db.runs.rows[w.outcomes[i].run].maxAttempts)
  {
    AlwaysOrderly(env, w);
  }

  /** A claim in any reachable world is for the run's own revision, at its recorded location and with its
      secrets at hand, whatever was activated since the run was queued. */
  lemma ClaimCarriesItsRevision(env: Env, w: World, worker: Id, id: Id)
    requires Reachable(env, w)
    ensures var tx := AcquireRun(w.db, worker, id, RUN_LEASE);
            && (tx.result.Ok? <==> Ready(w.db, id))
            && (tx.result.Ok? ==>
                  && ClaimedBy(w.db, tx.db, worker, RUN_LEASE, tx.result.value) && tx.result.value.run == id
                  && tx.result.value.path != "" && Usable(w.db, w.db.runs.rows[id].revision))
  {
    NothingDangles(env, w);
    ClaimExactly(w.db, worker, id, RUN_LEASE);
  }

  /** Until its lease runs out, a claimed run can only be ended by an outcome of this very attempt. */
  lemma LeaseIsRespected(env: Env, w: World, worker: Id, id: Id, actions: seq<Action>)
    requires Reachable(env, w) && LegalRun(env, Next(env, w, Work(Acquiring(worker, id))), actions)
    requires worker !in w.workers.rows && AcquireRun(w.db, worker, id, RUN_LEASE).result.Ok?
    requires Reach(env, Next(env, w, Work(Acquiring(worker, id))), actions).db.now <= w.db.now + RUN_LEASE
    ensures var w' := Reach(env, Next(env, w, Work(Acquiring(worker, id))), actions);
            var attempt := w.db.runs.rows[id].attempt + 1;
            || (OnLease(w'.db, id, worker, attempt, w.db.now + RUN_LEASE) && !Candidate(w'.db, id))
            || EndedIn(w'.outcomes, id, attempt)
  {
    ReachableInv(env, w);
    ClaimExactly(w.db, worker, id, RUN_LEASE);
    InvNext(env, w, Work(Acquiring(worker, id)));
    LeaseHolds(env, Next(env, w, Work(Acquiring(worker, id))), actions, id, worker, w.db.runs.rows[id].attempt + 1,
               w.db.now + RUN_LEASE);
  }

  /** A failed attempt with attempts left waits for its delay: nobody touches or claims the run sooner. */
  lemma RetryWaits(env: Env, w: World, worker: Id, actions: seq<Action>)
    requires Reachable(env, w) && worker in w.workers.rows
    requires FailRun(w.db, worker, w.workers.rows[worker]).result == Ok(false)
    ensures var claim := w.workers.rows[worker];
            var w1 := Next(env, w, Work(Failing(worker)));
            && claim.run in w1.db.runs.rows && w1.db.runs.rows[claim.run].status == Queued
            && w1.db.runs.rows[claim.run].attempt == claim.attempt < claim.maxAttempts
            && w1.db.runs.rows[claim.run].availableAt == w.db.now + RetryDelay(claim.attempt)
            && var w2 := Reach(env, w1, actions);
            w2.db.now < w.db.now + RetryDelay(claim.attempt) ==>
              QueuedUntil(w2.db, claim.run, w1.db.runs.rows[claim.run]) && !Candidate(w2.db, claim.run)
  {
    var claim := w.workers.rows[worker];
    var w1 := Next(env, w, Work(Failing(worker)));
    AlwaysOrderly(env, w);
    FailExactly(w.db, worker, claim);
    ReachTime(env, w1, actions);
    if Reach(env, w1, actions).db.now < w.db.now + RetryDelay(claim.attempt) {
      WaitsUntil(env, w1, actions, claim.run, w1.db.runs.rows[claim.run]);
    }
  }

  /** A deferred run starts no sooner than the run that asked for it said. */
  lemma DeferralWaits(
    env: Env, w: World, worker: Id, state: Option<Value>, control: Control, draw: Draw, actions: seq<Action>)
    requires worker in w.workers.rows && control.defer.Some?
    requires CompleteRun(w.db, worker, w.workers.rows[worker], state, control, draw).result.Ok?
    ensures var w1 := Next(env, w, Work(Completing(worker, state, control, draw)));
            && draw.runId in w1.db.runs.rows && w1.db.runs.rows[draw.runId].availableAt == control.defer.value.until
            && var w2 := Reach(env, w1, actions);
            w2.db.now < control.defer.value.until ==>
              QueuedUntil(w2.db, draw.runId, w1.db.runs.rows[draw.runId]) && !Candidate(w2.db, draw.runId)
  {
    var w1 := Next(env, w, Work(Completing(worker, state, control, draw)));
    CompleteExactly(w.db, worker, w.workers.rows[worker], state, control, draw);
    ReachTime(env, w1, actions);
    if Reach(env, w1, actions).db.now < control.defer.value.until {
      WaitsUntil(env, w1, actions, draw.runId, w1.db.runs.rows[draw.runId]);
    }
  }

  lemma {:induction false} ReachTold(env: Env, w: World, actions: seq<Action>)
    requires StrictNext(env) && Inv(env, w) && LegalRun(env, w, actions) && Told(w.db)
    ensures Told(Reach(env, w, actions).db)
    decreases |actions|
  {
    if actions != [] {
      InvNext(env, w, actions[0]);
      NextTold(env, w, actions[0]);
      ReachTold(env, Next(env, w, actions[0]), actions[1..]);
    }
  }

  /** Always: a run has its revision's policy and attempts, and an answer the status its action means. */
  lemma AlwaysTold(env: Env, w: World)
    requires Reachable(env, w)
    ensures Configured(w.db.runs.rows, w.db.revisions.rows) && Meant(w.db.approvals.rows)
  {
    var now, actions :| LegalRun(env, Init(now), actions) && Reach(env, Init(now), actions) == w;
    InvInit(env, now);
    ReachTold(env, Init(now), actions);
  }

  /** An outcome write that takes effect is by the run's latest attempt: nobody claimed it since. */
  lemma OnlyLatestAttempt(env: Env, w: World, a: WorkerAction)
    requires Reachable(env, w) && (a.Completing? || a.Failing? || a.Releasing?)
    ensures var w' := Working(w, a);
            if Fenced(w, a.worker) then
              var claim := w.workers.rows[a.worker];
              && w.db.runs.rows[claim.run].attempt == claim.attempt
              && (w'.outcomes == w.outcomes || Adds(w, w', claim))
            else w'.outcomes == w.outcomes && w'.db == w.db
  {
    AlwaysOrderly(env, w);
    LatestAdds(w, a);
  }

  /** One outcome more, of the claimed attempt. */
  ghost predicate Adds(w: World, w': World, claim: Claim) {
    exists o :: w'.outcomes == w.outcomes + [o] && o.run == claim.run && o.attempt == claim.attempt
  }

  lemma LatestAdds(w: World, a: WorkerAction)
    requires a.Completing? || a.Failing? || a.Releasing?
    ensures var w' := Working(w, a);
            if Fenced(w, a.worker) then w'.outcomes == w.outcomes || Adds(w, w', w.workers.rows[a.worker])
            else w'.outcomes == w.outcomes && w'.db == w.db
  {
  }

  /** A success has its deferred run, its approval and its notices, each exactly once. */
  lemma EffectsOnce(env: Env, w: World, o: Outcome)
    requires Reachable(env, w) && o in w.outcomes && o.kind == Success
    ensures o.control.defer.Some? ==>
              exists run :: Spawned(w.db, o, run)
                && forall other :: IsDeferral(w.db, o, other) ==> other == run
    ensures o.control.approval.Some? ==>
              exists id :: Opened(w.db, o, id)
                && forall other :: other in w.db.approvals.rows && w.db.approvals.rows[other].requestedBy == o.run
                     ==> other == id
    ensures RequestedNotices(o.run, o.control.notices) <= w.db.notices.all
  {
    AlwaysPaired(env, w);
    AlwaysEffective(env, w);
    AlwaysAnswerwise(env, w);
    assert Granted(w.db, o);
    if o.control.defer.Some? {
      var run :| Spawned(w.db, o, run);
      SameKeySameRun(w.db, run, Plain(o.automation, "deferred"), DeferredKey(o.run, o.control.defer.value.key));
    }
    if o.control.approval.Some? {
      var id :| Opened(w.db, o, id);
    }
  }

  ghost predicate IsDeferral(db: Db, o: Outcome, run: Id)
    requires o.control.defer.Some?
  {
    RunOfKey(db, run, Plain(o.automation, "deferred"), DeferredKey(o.run, o.control.defer.value.key))
  }

  lemma SameKeySameRun(db: Db, run: Id, key: TriggerKey, external: Id)
    requires Paired(db.events.rows, db.runs.rows) && RunOfKey(db, run, key, external)
    ensures forall other :: RunOfKey(db, other, key, external) ==> other == run
  {
  }

  /** Every approval was asked for by an outcome that took effect, and every notice, whatever its kind,
      announces something that happened. */
  lemma NoEffectWithoutOutcome(env: Env, w: World)
    requires Reachable(env, w)
    ensures NothingElse(w.db, w.outcomes)
  {
    AlwaysEffective(env, w);
  }

  /** A retry waits one second after the first attempt and twice as long after each next one, until the
      wait stays at 256 seconds. */
  lemma RetriesBackOff(attempt: nat)
    requires attempt >= 1
    ensures RetryDelay(1) == SECOND && SECOND <= RetryDelay(attempt) <= 256 * SECOND
    ensures RetryDelay(attempt + 1) == if attempt < 9 then 2 * RetryDelay(attempt) else RetryDelay(attempt)
  {
    assert Doubling(1) == 2 && Doubling(2) == 4 && Doubling(3) == 8 && Doubling(4) == 16;
    assert Doubling(5) == 32 && Doubling(6) == 64 && Doubling(7) == 128 && Doubling(8) == 256;
  }

  // ---------------------------------------------------------------- events

  /** Events and runs are in bijection, and a key names at most one of each. */
  lemma EventsMatchRuns(env: Env, w: World)
    requires Reachable(env, w)
    ensures forall r :: r in w.db.runs.rows ==> w.db.runs.rows[r].event in w.db.events.rows
    ensures forall e :: e in w.db.events.rows ==> HasRun(w.db.runs.rows, e)
    ensures forall r, s, key, external :: RunOfKey(w.db, r, key, external) && RunOfKey(w.db, s, key, external) ==> r == s
  {
    AlwaysPaired(env, w);
  }

  lemma KeyTakenBy(db: Db, run: Id, key: TriggerKey, external: Id)
    requires RunOfKey(db, run, key, external)
    ensures KeyTaken(db.events.rows, key, external)
  {
  }

  /** Once a run is recorded under a key, it is the one run of that key in every later world. */
  lemma KeyAnswersForever(env: Env, w: World, actions: seq<Action>, key: TriggerKey, external: Id, first: Id)
    requires Reachable(env, w) && LegalRun(env, w, actions) && RunOfKey(w.db, first, key, external)
    ensures var db := Reach(env, w, actions).db;
            RunOfKey(db, first, key, external) && forall run :: RunOfKey(db, run, key, external) ==> run == first
  {
    ReachableOn(env, w, actions);
    AlwaysPaired(env, Reach(env, w, actions));
    KeyReach(env, w, actions, first, key, external);
    SameKeySameRun(Reach(env, w, actions).db, first, key, external);
  }

  /** A delivery that was accepted, repeated after any schedule of actions, changes nothing, and while the
      trigger is open it is answered with the run of the first. */
  lemma RedeliveryCreatesNothing(
    env: Env, w: World, automation: Id, trigger: Id, kind: TriggerKind, external: Id, generated: Id, eventId: Id, runId: Id,
    actions: seq<Action>, kind2: TriggerKind, generated2: Id, eventId2: Id, runId2: Id)
    requires Reachable(env, w) && external != ""
    requires IngestEvent(w.db, automation, trigger, kind, external, generated, eventId, runId).result.Ok?
    requires LegalRun(env, Next(env, w, Intake(Ingesting(automation, trigger, kind, external, generated, eventId, runId))), actions)
    ensures var first := IngestEvent(w.db, automation, trigger, kind, external, generated, eventId, runId).result.value.0;
            var w1 := Next(env, w, Intake(Ingesting(automation, trigger, kind, external, generated, eventId, runId)));
            var db := Reach(env, w1, actions).db;
            var tx := IngestEvent(db, automation, trigger, kind2, external, generated2, eventId2, runId2);
            && tx.db == db && RunOfKey(db, first, Plain(automation, trigger), external)
            && (TriggerOpen(db, automation, trigger, kind2) ==> tx.result == Ok((first, false)))
  {
    var delivery := Intake(Ingesting(automation, trigger, kind, external, generated, eventId, runId));
    IngestShape(w.db, automation, trigger, kind, external, generated, eventId, runId);
    ReachNext(env, w, delivery);
    var first := IngestEvent(w.db, automation, trigger, kind, external, generated, eventId, runId).result.value.0;
    KeyAnswersForever(env, Next(env, w, delivery), actions, Plain(automation, trigger), external, first);
    KeyTakenBy(Reach(env, Next(env, w, delivery), actions).db, first, Plain(automation, trigger), external);
  }

  /** The same for a manual run, whatever became of the automation. */
  lemma ManualReplayCreatesNothing(
    env: Env, w: World, automation: Id, external: Id, generated: Id, expected: Id, eventId: Id, runId: Id,
    actions: seq<Action>, generated2: Id, expected2: Id, eventId2: Id, runId2: Id)
    requires Reachable(env, w) && external != ""
    requires EnqueueManualRun(w.db, automation, external, generated, expected, eventId, runId).result.Ok?
    requires LegalRun(env, Next(env, w, Intake(Starting(automation, external, generated, expected, eventId, runId))), actions)
    ensures var first := EnqueueManualRun(w.db, automation, external, generated, expected, eventId, runId).result.value.0;
            var w1 := Next(env, w, Intake(Starting(automation, external, generated, expected, eventId, runId)));
            var db := Reach(env, w1, actions).db;
            && RunOfKey(db, first, Plain(automation, "manual"), external)
            && EnqueueManualRun(db, automation, external, generated2, expected2, eventId2, runId2) == Tx(db, Ok((first, false)))
  {
    var start := Intake(Starting(automation, external, generated, expected, eventId, runId));
    ManualShape(w.db, automation, external, generated, expected, eventId, runId);
    ReachNext(env, w, start);
    var first := EnqueueManualRun(w.db, automation, external, generated, expected, eventId, runId).result.value.0;
    KeyAnswersForever(env, Next(env, w, start), actions, Plain(automation, "manual"), external, first);
    KeyTakenBy(Reach(env, Next(env, w, start), actions).db, first, Plain(automation, "manual"), external);
  }

  // ---------------------------------------------------------------- storage

  /** Active revisions and revisions of live runs have a recorded artifact, and every revision that has one,
      so everything a rollback may choose, has all its secrets. */
  lemma NothingDangles(env: Env, w: World)
    requires Reachable(env, w)
    ensures forall a :: a in w.db.automations.rows && w.db.automations.rows[a].active.Some? ==>
              Usable(w.db, w.db.automations.rows[a].active.value)
    ensures forall r :: r in w.db.runs.rows && Live(w.db.runs.rows[r]) ==> Usable(w.db, w.db.runs.rows[r].revision)
    ensures forall r :: r in w.db.revisions.rows && w.db.revisions.rows[r].path != "" ==> Usable(w.db, r)
  {
    AlwaysStored(env, w);
    StoredUsable(w.db);
  }

  lemma StoredUsable(db: Db)
    requires Stored(db)
    ensures forall r :: r in db.revisions.rows && db.revisions.rows[r].path != "" ==> Usable(db, r)
  {
  }

  /** A rollback succeeds only onto a revision that can run, and makes it the active one. */
  lemma RollbackNeverDangles(env: Env, w: World, automation: Id, revision: Id)
    requires Reachable(env, w) && RollbackAutomation(env, w.db, automation, revision).result.Ok?
    ensures var db := RollbackAutomation(env, w.db, automation, revision).db;
            && Usable(db, revision) && automation in db.automations.rows
            && db.automations.rows[automation].active == Some(revision)
  {
    AlwaysStored(env, w);
    RollbackUsable(env, w.db, automation, revision);
  }

  lemma RollbackUsable(env: Env, db: Db, automation: Id, revision: Id)
    requires Stored(db) && RollbackAutomation(env, db, automation, revision).result.Ok?
    ensures var db' := RollbackAutomation(env, db, automation, revision).db;
            && Usable(db', revision) && automation in db'.automations.rows
            && db'.automations.rows[automation].active == Some(revision)
  {
  }

  ghost predicate Usable(db: Db, revision: Id) {
    && revision in db.revisions.rows && db.revisions.rows[revision].path != ""
    && forall n :: n in db.revisions.rows[revision].manifest.secrets ==> n in db.secrets.all
  }

  // ---------------------------------------------------------------- automation state

  /** The current value is the last of a chain whose authors are the successful stateful runs in
      order, and equals running them one after another. */
  lemma StateIsSerial(env: Env, w: World, automation: Id, exec: (Id, nat, Value) -> Value)
    requires Reachable(env, w)
    ensures var log := LogOf(w.commits.rows, automation);
            && StateVersion(w.db, automation) == |log| && StateValue(w.db, automation) == ValueAt(log, |log|)
            && Chained(log) && Authors(log) == Successes(w.outcomes, automation)
            && ((forall i :: 0 <= i < |log| ==> log[i].value == exec(log[i].run, log[i].attempt, log[i].basis)) ==>
                  StateValue(w.db, automation) == Sequential(exec, log, |log|))
  {
    AlwaysSerial(env, w);
    var log := LogOf(w.commits.rows, automation);
    if forall i :: 0 <= i < |log| ==> log[i].value == exec(log[i].run, log[i].attempt, log[i].basis) {
      ChainIsSequential(exec, log, |log|);
    }
  }

  // ---------------------------------------------------------------- deployments

  /** A deployment succeeded exactly when one activation is recorded for it, with its revision. */
  lemma SuccessIsOneActivation(env: Env, w: World, d: Id)
    requires Reachable(env, w) && d in w.db.deployments.rows
    ensures w.db.deployments.rows[d].stage == Done <==> HasActivation(w.activations, d)
    ensures forall i :: 0 <= i < |w.activations| && w.activations[i].deployment == d ==>
              && w.db.deployments.rows[d].revision == Some(w.activations[i].revision)
              && forall j :: 0 <= j < |w.activations| && w.activations[j].deployment == d ==> j == i
  {
    AlwaysPromoted(env, w);
  }

  /** An activation takes effect only for the latest claim of an uncancelled deployment, and then
      switches the active revision in the same step; otherwise the world stays as it was. */
  lemma ActivationIsFenced(
    env: Env, w: World, worker: Id, manifest: Manifest, hash: string, path: string, attested: bool)
    requires Reachable(env, w)
    ensures var w' := ActivateStep(env, w, worker, manifest, hash, path, attested);
            w' == w || Activates(w, w', worker, manifest, hash)
  {
    AlwaysPromoted(env, w);
    ActivateShape(env, w, worker, manifest, hash, path, attested);
  }

  lemma ForwardNext(env: Env, w: World, a: Action)
    requires Promoted(w) && Legal(w, a)
    ensures AllForward(w.db.deployments.rows, Next(env, w, a).db.deployments.rows)
  {
    match a
    case Work(work) => WorkFrame(w, work);
    case Intake(intake) => IntakeFrame(w.db, intake);
    case Scheduling(due) => FireDeployments(env, w, due);
    case Release(release) => ForwardRelease(env, w, release);
    case Build(build) => BuildKept(w, build);
    case Upkeep(upkeep) => UpkeepFrame(w.db, upkeep);
  }

  lemma ForwardRelease(env: Env, w: World, a: ReleaseAction)
    requires Promoted(w)
    ensures AllForward(w.db.deployments.rows, Switching(env, w, a).db.deployments.rows)
  {
    if a.ActivatingBuild? {
      ActivateKept(env, w, a.worker, a.manifest, a.hash, a.path, a.attested);
    } else {
      ReleaseFrame(env, w, a);
    }
  }

  lemma {:induction false} FireDeployments(env: Env, w: World, due: seq<Firing>)
    ensures FireSteps(env, w, due).db.deployments == w.db.deployments
    decreases |due|
  {
    if due != [] {
      FireShape(env, w.db, due[0].trigger, due[0].eventId, due[0].runId);
      FireDeployments(env, FireStep(env, w, due[0]), due[1..]);
    }
  }

  /** What an accepted cancellation means for a later world. */
  ghost predicate CancelHolds(w: World, d: Id) {
    && d in w.db.deployments.rows && w.db.deployments.rows[d].cancelRequested
    && (InProgress(w.db.deployments.rows[d].stage) || w.db.deployments.rows[d].stage == Cancelled)
    && !HasActivation(w.activations, d)
  }

  lemma {:induction false} CancelKeeps(env: Env, w: World, actions: seq<Action>, d: Id)
    requires StrictNext(env) && Inv(env, w) && LegalRun(env, w, actions)
    requires d in w.db.deployments.rows && w.db.deployments.rows[d].cancelRequested
    ensures var w' := Reach(env, w, actions);
            CancelHolds(w', d) && (w.db.deployments.rows[d].stage == Cancelled ==> w'.db.deployments.rows[d].stage == Cancelled)
    decreases |actions|
  {
    assert Sound(w.db.deployments.rows[d]);
    if actions != [] {
      InvNext(env, w, actions[0]);
      ForwardNext(env, w, actions[0]);
      CancelKeeps(env, Next(env, w, actions[0]), actions[1..], d);
    }
  }

  /** Once a cancellation is accepted, whatever happens next, the deployment is never activated and
      can only end cancelled; once it has ended so, it stays ended. */
  lemma CancellationWins(env: Env, w: World, actions: seq<Action>, d: Id)
    requires Reachable(env, w) && LegalRun(env, Next(env, w, Build(Cancelling(d))), actions)
    requires RequestDeploymentCancellation(w.db, d).result.Ok?
    ensures var w' := Reach(env, Next(env, w, Build(Cancelling(d))), actions);
            && CancelHolds(w', d)
            && (w.db.deployments.rows[d].stage == Waiting ==> w'.db.deployments.rows[d].stage == Cancelled)
  {
    ReachableInv(env, w);
    CancelAccepted(w, d);
    InvNext(env, w, Build(Cancelling(d)));
    CancelKeeps(env, Next(env, w, Build(Cancelling(d))), actions, d);
  }

  lemma CancelAccepted(w: World, d: Id)
    requires RequestDeploymentCancellation(w.db, d).result.Ok?
    ensures var deployments := BuildingOn(w, Cancelling(d)).db.deployments.rows;
            && d in deployments && deployments[d].cancelRequested
            && (w.db.deployments.rows[d].stage == Waiting ==> deployments[d].stage == Cancelled)
  {
  }

  // ---------------------------------------------------------------- approvals

  /** An answered approval has exactly one continuation, pinned to its revision. */
  lemma AnsweredOnce(env: Env, w: World, id: Id)
    requires Reachable(env, w) && id in w.db.approvals.rows
    ensures var a := w.db.approvals.rows[id];
            if Resolved(a) then
              && a.actionRun.Some? && Continues(w.db, id, a.actionRun.value)
              && forall other :: Continues(w.db, id, other) ==> other == a.actionRun.value
            else forall other :: !Continues(w.db, id, other)
  {
    AlwaysPaired(env, w);
    AlwaysAnswerwise(env, w);
    assert Recorded(w.db, id);
    forall other | Continues(w.db, id, other)
      ensures Resolved(w.db.approvals.rows[id]) && other == w.db.approvals.rows[id].actionRun.value
    {
      assert Caused(w.db, w.db.runs.rows[other].event);
    }
  }

  /** An answer takes effect only on a pending, unexpired approval of the active revision.  Repeated with
      the same key and content after any schedule of actions, whatever became of the continuation, the
      revision or the expiry since, it succeeds, finds the same record and continuation, and creates nothing. */
  lemma AnswerReplays(
    env: Env, w: World, id: Id, replayKey: Id, expected: Id, action: Id, supplied: map<Id, Option<FieldValue>>,
    eventId: Id, runId: Id, actions: seq<Action>, expected2: Id, eventId2: Id, runId2: Id)
    requires ResolveApproval(w.db, id, replayKey, expected, action, supplied, eventId, runId).result == Ok(true)
    ensures Answerable(w.db, id)
    ensures var w1 := Next(env, w, Intake(Answering(id, replayKey, expected, action, supplied, eventId, runId)));
            var w2 := Reach(env, w1, actions);
            && Continues(w1.db, id, runId) && Continues(w2.db, id, runId)
            && w2.db.approvals.rows[id] == w1.db.approvals.rows[id]
            && ResolveApproval(w2.db, id, replayKey, expected2, action, supplied, eventId2, runId2) == Tx(w2.db, Ok(false))
  {
    var w1 := Next(env, w, Intake(Answering(id, replayKey, expected, action, supplied, eventId, runId)));
    var w2 := Reach(env, w1, actions);
    AnswerRecorded(w.db, id, replayKey, expected, action, supplied, eventId, runId);
    AnswersStand(env, w1, actions, id);
    KeyReach(env, w1, actions, runId, ForApproval(w.db.approvals.rows[id].automation, id), replayKey);
    ContinuesReach(env, w1, actions, id, runId);
    assert AnswerOf(w2.db, id, replayKey, action, supplied, runId);
    RecordedReplays(w2.db, id, replayKey, expected2, action, supplied, eventId2, runId2);
  }

  /** "approve" is recorded as approved and "reject" as rejected, with the response that was validated, for
      good: every later world holds the same record. */
  lemma AnswerMeansAction(
    env: Env, w: World, id: Id, replayKey: Id, expected: Id, action: Id, supplied: map<Id, Option<FieldValue>>,
    eventId: Id, runId: Id, actions: seq<Action>)
    requires ResolveApproval(w.db, id, replayKey, expected, action, supplied, eventId, runId).result == Ok(true)
    ensures var w' := Reach(env, Next(env, w, Intake(Answering(id, replayKey, expected, action, supplied, eventId, runId))), actions);
            && id in w'.db.approvals.rows && id in w.db.approvals.rows && Means(action, w'.db.approvals.rows[id].status)
            && var response := ValidResponse(w.db.approvals.rows[id].fields, w.db.approvals.rows[id].actions, action, supplied);
            response.Some? && w'.db.approvals.rows[id].response == Some(Response(action, response.value))
  {
    AnswerExactly(w.db, id, replayKey, expected, action, supplied, eventId, runId);
    AnswersStand(env, Next(env, w, Intake(Answering(id, replayKey, expected, action, supplied, eventId, runId))), actions, id);
  }

  /** What an accepted answer leaves behind. */
  ghost predicate AnswerOf(
    db: Db, id: Id, replayKey: Id, action: Id, supplied: map<Id, Option<FieldValue>>, run: Id)
  {
    && id in db.approvals.rows
    && var a := db.approvals.rows[id];
    var response := ValidResponse(a.fields, a.actions, action, supplied);
    && Resolved(a) && a.actionRun == Some(run) && response.Some? && a.response == Some(Response(action, response.value))
    && RunOfKey(db, run, ForApproval(a.automation, id), replayKey)
  }

  lemma AnswerRecorded(
    db: Db, id: Id, replayKey: Id, expected: Id, action: Id, supplied: map<Id, Option<FieldValue>>, eventId: Id, runId: Id)
    requires ResolveApproval(db, id, replayKey, expected, action, supplied, eventId, runId).result == Ok(true)
    ensures var db' := ResolveApproval(db, id, replayKey, expected, action, supplied, eventId, runId).db;
            && Answerable(db, id) && Continues(db', id, runId) && AnswerOf(db', id, replayKey, action, supplied, runId)
            && db'.approvals.rows[id].automation == db.approvals.rows[id].automation
  {
  }

  lemma RecordedReplays(
    db: Db, id: Id, replayKey: Id, expected: Id, action: Id, supplied: map<Id, Option<FieldValue>>, eventId: Id, runId: Id)
    requires exists run :: AnswerOf(db, id, replayKey, action, supplied, run)
    ensures ResolveApproval(db, id, replayKey, expected, action, supplied, eventId, runId) == Tx(db, Ok(false))
  {
  }

  /** The build's operator chose to strand approvals. */
  predicate StrandingBuild(w: World, a: ReleaseAction) {
    && a.ActivatingBuild? && a.worker in w.builders.rows
    && StrandAllowed(w.db, Some(w.builders.rows[a.worker].0))
  }

  /** A deployment without the strand decision never makes an answerable approval unanswerable. */
  lemma DeploymentsStrandNothing(env: Env, w: World, a: ReleaseAction, id: Id)
    requires Answerable(w.db, id)
    requires a.Deploying? || (a.ActivatingBuild? && !StrandingBuild(w, a))
    ensures Answerable(Next(env, w, Release(a)).db, id)
  {
    AnswerableUntil(env, w, Release(a), id);
  }

  // ---------------------------------------------------------------- schedules

  /** Trigger rows follow the active revision; firings are consecutive iterates between restarts, rise
      strictly across them, lie in the past, and have a run each, no two the same. */
  lemma FiringsAreIterates(env: Env, w: World, t: (Id, Id))
    requires Reachable(env, w) && Stamps(env) && t in w.firings.rows
    ensures t in w.db.triggers.rows ==>
              t.0 in w.db.automations.rows && w.db.automations.rows[t.0].active == Some(w.db.triggers.rows[t].revision)
    ensures forall k :: 0 <= k < |w.firings.rows[t]| ==> Consecutive(env, w.firings.rows[t][k])
    ensures t in w.db.triggers.rows ==> Waits(env, w.db.triggers.rows[t], w.firings.rows[t])
    ensures Apart(env, w.db, t, FiringTimes(w, t)) && AllBelow(FiringTimes(w, t), w.db.now)
  {
    AlwaysScheduled(env, w);
    AlwaysPaired(env, w);
    assert History(env, w.firings.rows[t], w.db.now);
    FiringsRunApart(env, w, t);
  }

  /** A firing makes a run of its own exactly when nothing used its key before. */
  lemma FiringMakesItsRun(env: Env, w: World, t: (Id, Id), eventId: Id, runId: Id)
    requires Reachable(env, w) && Stamps(env) && Fires(w.db, t)
    requires env.next(w.db.triggers.rows[t].cron, FireAt(w.db, t)).Some?
    requires eventId !in w.db.events.rows && runId !in w.db.runs.rows
    ensures var tx := FireOne(env, w.db, t, eventId, runId);
            && tx.result == Ok(!KeyTaken(w.db.events.rows, Plain(t.0, t.1), env.stamp(FireAt(w.db, t))))
            && (tx.result == Ok(true) ==> RunOfFiring(env, tx.db, t, FireAt(w.db, t), runId))
  {
    ReachableInv(env, w);
    FiringMakesRun(env, w, t, eventId, runId);
  }

  /** Where nothing else uses the key of a schedule, its runs are its firings: one run each, no other run
      under the key, and the next firing makes its own. */
  lemma ScheduledRunsAreFirings(env: Env, now: Time, actions: seq<Action>, t: (Id, Id))
    requires StrictNext(env) && Stamps(env) && LegalRun(env, Init(now), actions) && ReservedRun(env, Init(now), actions, t)
    ensures RunsAreFirings(env, Reach(env, Init(now), actions), t)
  {
    InvInit(env, now);
    OwnReach(env, Init(now), actions, t);
    OwnMeans(env, Reach(env, Init(now), actions), t);
  }

  ghost predicate RunsAreFirings(env: Env, w: World, t: (Id, Id)) {
    && Apart(env, w.db, t, FiringTimes(w, t))
    && (forall run, external :: RunOfKey(w.db, run, Plain(t.0, t.1), external) ==> IsFiring(env, w, t, run))
    && (Fires(w.db, t) ==> !KeyTaken(w.db.events.rows, Plain(t.0, t.1), env.stamp(FireAt(w.db, t))))
  }

  /** The run belongs to one of the trigger's firings. */
  ghost predicate IsFiring(env: Env, w: World, t: (Id, Id), run: Id) {
    exists i :: 0 <= i < |FiringTimes(w, t)| && RunOfFiring(env, w.db, t, FiringTimes(w, t)[i], run)
  }

  lemma OwnMeans(env: Env, w: World, t: (Id, Id))
    requires Stamps(env) && Inv(env, w) && Own(env, w.db.events.rows, FiringTimes(w, t), t)
    ensures RunsAreFirings(env, w, t)
  {
    FiringsRunApart(env, w, t);
    forall run, external | RunOfKey(w.db, run, Plain(t.0, t.1), external) ensures IsFiring(env, w, t, run) {
      OnlyFirings(env, w, t, run, external);
    }
    if Fires(w.db, t) { KeyIsFree(env, w, t); }
  }

  /** The batch of one scheduler pass is exactly its firings one after another. */
  lemma {:induction false} PassIsFirings(env: Env, w: World, due: seq<Firing>)
    requires FireAll(env, w.db, due).result.Ok?
    ensures FireSteps(env, w, due).db == FireAll(env, w.db, due).db
    decreases |due|
  {
    if due != [] { PassIsFirings(env, FireStep(env, w, due[0]), due[1..]); }
  }

  // ---------------------------------------------------------------- exclusion

  /** A schedule keeps exclusion at every instant exactly when none of its renewals comes after the lease
      ran out and another `forbid` run of the automation was claimed. */
  lemma ForbidExactly(env: Env, now: Time, actions: seq<Action>)
    ensures (forall k :: 0 <= k <= |actions| ==> ExclusiveAfter(env, Init(now), actions, k)) <==>
              NeverIntrudes(env, Init(now), actions)
  {
    AlwaysIsEveryPrefix(env, Init(now), actions);
    ExclusiveExactly(env, Init(now), actions);
  }

  /** So timely renewals are enough: an automation then has at most one unexpired `forbid` run at every instant. */
  lemma ForbidHolds(env: Env, now: Time, actions: seq<Action>)
    requires TimelyRun(env, Init(now), actions)
    ensures forall k :: 0 <= k <= |actions| ==> ExclusiveAfter(env, Init(now), actions, k)
  {
    TimelyNeverIntrudes(env, Init(now), actions);
    ForbidExactly(env, now, actions);
  }
}
