/** Schedules from the empty control plane that show where the code promises less. */
module Witnesses {
  import opened Basics
  import opened Tables
  import opened Transactions
  import opened World
  import opened Schedules
  import opened Occurrences
  import opened Approvals
  import opened Exclusion

  import opened Theorems

  /** No automation here has a schedule, so no firing time is ever asked for. */
  function Quiet(): Env { Env((cron, t) => None, t => "") }

  lemma InitReachable(env: Env, now: Time)
    requires StrictNext(env)
    ensures Reachable(env, Init(now))
  {
    assert LegalRun(env, Init(now), []) && Reach(env, Init(now), []) == Init(now);
  }

  // ---------------------------------------------------------------- one deployed automation

  function Hash(c: char): string { seq(64, i => c) }

  function Plan(policy: Policy): Manifest { Manifest("a", [], [], policy, 0, false) }

  /** A deployment of new content that nothing stands against. */
  lemma Deployed(env: Env, w: World, manifest: Manifest, c: char, path: string, triggers: map<(Id, Id), Trigger>)
    returns (w': World)
    requires Reachable(env, w) && path != "" && manifest.secrets == [] && w.db.approvals.rows == map[]
    requires RevisionId(Hash(c)) !in w.db.revisions.rows
    requires forall r :: r in w.db.revisions.rows ==> w.db.revisions.rows[r].contentHash != Hash(c)
    requires ('0' <= c <= '9') && ReplaceTriggers(env, w.db, manifest.name, RevisionId(Hash(c)), manifest.triggers) == Some(triggers)
    ensures Reachable(env, w') && w'.workers == w.workers
    ensures var rev := RevisionId(Hash(c));
            && w'.db.automations.rows == w.db.automations.rows[manifest.name :=
                 UpsertAutomation(w.db, manifest.name).(active := Some(rev))]
            && w'.db.revisions.rows == w.db.revisions.rows[rev := Revision(manifest.name, Hash(c), manifest, path)]
            && w'.db.triggers.rows == triggers
            && w'.db == w.db.(automations := w'.db.automations, revisions := w'.db.revisions, triggers := w'.db.triggers,
                              secretRefs := w'.db.secretRefs)
  {
    var a := Release(Deploying(manifest, Hash(c), path, true));
    w' := Next(env, w, a);
    ReachNext(env, w, a);
    assert ValidHash(Hash(c));
  }

  /** Automation "a" runs revision `active`; `stored` lists the revisions deployed so far. */
  ghost predicate Running(w: World, active: Id, stored: map<Id, Revision>) {
    && w.db.automations.rows == map["a" := Automation(Some(active), true)] && w.db.revisions.rows == stored
    && w.db.triggers.rows == map[] && active in stored && stored[active].automation == "a"
  }

  /** Nothing has been queued or claimed. */
  ghost predicate Fresh(w: World) {
    && w.db.events.rows == map[] && w.db.runs.rows == map[] && w.db.approvals.rows == map[] && w.workers.rows == map[]
    && w.db.states.rows == map[] && w.db.now == 0
  }

  lemma FirstDeployment(policy: Policy) returns (w: World)
    ensures Reachable(Quiet(), w) && Fresh(w)
    ensures Running(w, RevisionId(Hash('0')), map[RevisionId(Hash('0')) := Revision("a", Hash('0'), Plan(policy), "p0")])
  {
    InitReachable(Quiet(), 0);
    assert WithoutTriggers(map[], "a") == map[];
    w := Deployed(Quiet(), Init(0), Plan(policy), '0', "p0", map[]);
  }

  // ---------------------------------------------------------------- a late renewal

  function FirstRun(revision: Id, policy: Policy): Run { NewRun("a", revision, "e1", Plan(policy), 0, 0) }

  function SecondRun(revision: Id, policy: Policy): Run { NewRun("a", revision, "e2", Plan(policy), 0, 0) }

  lemma OneQueued() returns (w: World)
    ensures Reachable(Quiet(), w) && w.workers.rows == map[] && w.db.now == 0 && w.db.states.rows == map[]
    ensures var rev := RevisionId(Hash('0'));
            && Running(w, rev, map[rev := Revision("a", Hash('0'), Plan(Forbid), "p0")])
            && w.db.runs.rows == map["r1" := FirstRun(rev, Forbid)]
            && w.db.events.rows == map["e1" := Event(Plain("a", "manual"), "k1")]
  {
    var w1 := FirstDeployment(Forbid);
    var start := Intake(Starting("a", "k1", "", "", "e1", "r1"));
    w := Next(Quiet(), w1, start);
    ReachNext(Quiet(), w1, start);
  }

  lemma TwoQueued() returns (w: World)
    ensures Reachable(Quiet(), w) && w.workers.rows == map[] && w.db.now == 0 && w.db.states.rows == map[]
    ensures var rev := RevisionId(Hash('0'));
            && Running(w, rev, map[rev := Revision("a", Hash('0'), Plan(Forbid), "p0")])
            && w.db.runs.rows == map["r1" := FirstRun(rev, Forbid), "r2" := SecondRun(rev, Forbid)]
            && "e1" in w.db.events.rows && "e2" in w.db.events.rows
  {
    var w1 := OneQueued();
    var start := Intake(Starting("a", "k2", "", "", "e2", "r2"));
    w := Next(Quiet(), w1, start);
    ReachNext(Quiet(), w1, start);
  }

  function Claimed(run: Run, worker: Id, expires: Time): Run {
    run.(status := RunStatus.Running, attempt := 1, lease := Some(Lease(worker, expires)))
  }

  /** Worker w1 claims the first run, and its lease runs out. */
  lemma OneClaimed() returns (w: World)
    ensures Reachable(Quiet(), w) && w.db.now == RUN_LEASE + 1 && w.db.states.rows == map[]
    ensures w.workers.rows.Keys == {"w1"} && w.workers.rows["w1"].run == "r1"
    ensures var rev := RevisionId(Hash('0'));
            && rev in w.db.revisions.rows && "e2" in w.db.events.rows
            && w.db.runs.rows == map["r1" := Claimed(FirstRun(rev, Forbid), "w1", RUN_LEASE), "r2" := SecondRun(rev, Forbid)]
  {
    var env := Quiet();
    var w1 := TwoQueued();
    var claim := Work(Acquiring("w1", "r1"));
    var w2 := Next(env, w1, claim);
    ReachNext(env, w1, claim);
    assert Candidate(w1.db, "r1");
    w := Next(env, w2, Upkeep(Tick(RUN_LEASE + 1)));
    ReachNext(env, w2, Upkeep(Tick(RUN_LEASE + 1)));
  }

  /** Then worker w2 claims the second. */
  lemma TwoClaimed() returns (w: World)
    ensures Reachable(Quiet(), w) && w.db.now == RUN_LEASE + 1
    ensures "w1" in w.workers.rows && w.workers.rows["w1"].run == "r1"
    ensures var rev := RevisionId(Hash('0'));
            w.db.runs.rows == map["r1" := Claimed(FirstRun(rev, Forbid), "w1", RUN_LEASE),
                                  "r2" := Claimed(SecondRun(rev, Forbid), "w2", 2 * RUN_LEASE + 1)]
  {
    var w1 := OneClaimed();
    var claim := Work(Acquiring("w2", "r2"));
    w := Next(Quiet(), w1, claim);
    ReachNext(Quiet(), w1, claim);
    assert Candidate(w1.db, "r2");
  }

  /** The hazard is real: in a reachable world a claim that has run out is renewed after another run of the
      same `forbid` automation was claimed, and both then hold. */
  lemma LateRenewalIntrudes() returns (env: Env, w: World)
    ensures Reachable(env, w) && Exclusive(w.db.runs.rows, w.db.now) && Fenced(w, "w1") && Intrudes(w, "w1")
    ensures Reachable(env, Next(env, w, Work(Renewing("w1"))))
    ensures var db := Next(env, w, Work(Renewing("w1"))).db; !Exclusive(db.runs.rows, db.now)
  {
    env := Quiet();
    w := TwoClaimed();
    assert Holding(w.db.runs.rows, "r2", "a", w.db.now);
    RenewExact(w, "w1");
    ReachNext(env, w, Work(Renewing("w1")));
  }

  // ---------------------------------------------------------------- a rollback that strands an approval

  function Old(): Id { RevisionId(Hash('0')) }

  function New(): Id { RevisionId(Hash('1')) }

  function Both(): map<Id, Revision> {
    map[Old() := Revision("a", Hash('0'), Plan(Allow), "p0"), New() := Revision("a", Hash('1'), Plan(Allow), "p1")]
  }

  lemma TwoRevisions() returns (w: World)
    ensures Reachable(Quiet(), w) && Fresh(w) && Running(w, New(), Both())
  {
    var w1 := FirstDeployment(Allow);
    Differ();
    assert WithoutTriggers(map[], "a") == map[];
    w := Deployed(Quiet(), w1, Plan(Allow), '1', "p1", map[]);
  }

  lemma Differ()
    ensures Hash('0') != Hash('1') && Old() != New()
  {
    assert Hash('0')[0] == '0' && Hash('1')[0] == '1' && Old()[4] == '0' && New()[4] == '1';
  }

  const QUESTION: ApprovalRequest := ApprovalRequest("k", 100, [], [])

  lemma RunClaimed() returns (w: World)
    ensures Reachable(Quiet(), w) && w.db.now == 0 && Running(w, New(), Both()) && w.db.approvals.rows == map[]
    ensures "w1" in w.workers.rows && Holds(w.db, "r1", "w1")
    ensures w.workers.rows["w1"] == Claim("r1", "a", New(), 1, 1, Plan(Allow), "p1", 0, EMPTY_STATE)
  {
    var env := Quiet();
    var w1 := TwoRevisions();
    var start := Intake(Starting("a", "k1", "", "", "e1", "r1"));
    var w2 := Next(env, w1, start);
    ReachNext(env, w1, start);
    assert w2.db.runs.rows == map["r1" := FirstRun(New(), Allow)] && "e1" in w2.db.events.rows;
    var claim := Work(Acquiring("w1", "r1"));
    w := Next(env, w2, claim);
    ReachNext(env, w2, claim);
    assert Candidate(w2.db, "r1");
  }

  lemma Asked() returns (w: World)
    ensures Reachable(Quiet(), w) && Running(w, New(), Both()) && Answerable(w.db, "q")
    ensures w.db.approvals.rows["q"].automation == "a" && w.db.approvals.rows["q"].revision == New()
  {
    var w1 := RunClaimed();
    var a := Work(Completing("w1", None, Control(None, Some(QUESTION), []), Draw("e2", "r2", "q")));
    w := Next(Quiet(), w1, a);
    ReachNext(Quiet(), w1, a);
  }

  /** A rollback does not look at pending approvals: a reachable world in which one ends the answerability
      of an approval nobody decided to strand. */
  lemma RollbackStrands() returns (env: Env, w: World)
    ensures Reachable(env, w) && Answerable(w.db, "q") && RollsAway(env, w.db, "q", "a", Old())
    ensures var w' := Next(env, w, Release(RollingBack("a", Old()))); Reachable(env, w') && !Answerable(w'.db, "q")
  {
    env := Quiet();
    w := Asked();
    ReachNext(env, w, Release(RollingBack("a", Old())));
    Differ();
    assert ReplaceTriggers(env, w.db, "a", Old(), []).Some?;
    AnswerableUntil(env, w, Release(RollingBack("a", Old())), "q");
  }

  // ---------------------------------------------------------------- a firing swallowed by a delivery

  /** A clock that ticks once a nanosecond, and times written as so many strokes. */
  function Ticking(): Env { Env((cron: string, t: Time) => Some(t + 1), (t: Time) => Strokes(t)) }

  function Strokes(t: Time): string { if t >= 0 then "+" + seq(t, i => '1') else "-" + seq(-t, i => '1') }

  lemma TickingStamps()
    ensures StrictNext(Ticking()) && Stamps(Ticking())
  {
    forall s: Time, t: Time | Strokes(s) == Strokes(t) ensures s == t {
      assert Strokes(s)[0] == Strokes(t)[0] && |Strokes(s)| == |Strokes(t)|;
    }
  }

  /** The trigger "t", once of the given kind. */
  function Listening(kind: TriggerKind): Manifest {
    Manifest("a", [TriggerDecl("t", kind, true, "c", None)], [], Allow, 0, false)
  }

  function Row(revision: Id, kind: TriggerKind): Trigger {
    Trigger(revision, kind, true, "c", None, if kind == Schedule then Some(1) else None)
  }

  lemma OneTrigger(db: Db, revision: Id, kind: TriggerKind)
    requires db.now == 0 && forall t :: t in db.triggers.rows ==> t.0 == "a"
    ensures ReplaceTriggers(Ticking(), db, "a", revision, Listening(kind).triggers)
         == Some(map[("a", "t") := Row(revision, kind)])
  {
    var decls := Listening(kind).triggers;
    assert WithoutTriggers(db.triggers.rows, "a") == map[];
    assert decls[1..] == [];
    assert Ticking().next("c", 0) == Some(1);
  }

  lemma WebhookDeployed() returns (w: World)
    ensures Reachable(Ticking(), w) && Fresh(w) && w.db.triggers.rows == map[("a", "t") := Row(Old(), Webhook)]
    ensures w.db.automations.rows == map["a" := Automation(Some(Old()), true)]
    ensures w.db.revisions.rows == map[Old() := Revision("a", Hash('0'), Listening(Webhook), "p0")]
  {
    TickingStamps();
    InitReachable(Ticking(), 0);
    OneTrigger(Init(0).db, Old(), Webhook);
    w := Deployed(Ticking(), Init(0), Listening(Webhook), '0', "p0", map[("a", "t") := Row(Old(), Webhook)]);
  }

  lemma Delivered() returns (w: World)
    ensures Reachable(Ticking(), w) && w.db.now == 0 && w.db.approvals.rows == map[]
    ensures w.db.automations.rows == map["a" := Automation(Some(Old()), true)]
    ensures w.db.revisions.rows == map[Old() := Revision("a", Hash('0'), Listening(Webhook), "p0")]
    ensures w.db.triggers.rows.Keys == {("a", "t")}
    ensures w.db.events.rows == map["e1" := Event(Plain("a", "t"), Strokes(1))] && w.db.runs.rows.Keys == {"r1"}
  {
    var env := Ticking();
    var w1 := WebhookDeployed();
    var deliver := Intake(Ingesting("a", "t", Webhook, Strokes(1), "", "e1", "r1"));
    w := Next(env, w1, deliver);
    ReachNext(env, w1, deliver);
    assert TriggerOpen(w1.db, "a", "t", Webhook);
  }

  /** A delivery to a webhook may carry the stamp of a later time.  Once the trigger of that name is a
      schedule, the firing at that time finds its key used and makes no run of its own. */
  lemma FiringSwallowed() returns (env: Env, w: World)
    ensures StrictNext(env) && Stamps(env) && Reachable(env, w) && Fires(w.db, ("a", "t"))
    ensures FireOne(env, w.db, ("a", "t"), "e2", "r2").result == Ok(false)
  {
    env := Ticking();
    TickingStamps();
    var w1 := Delivered();
    var w2 := Rescheduled(w1);
    w := Next(env, w2, Upkeep(Tick(1)));
    ReachNext(env, w2, Upkeep(Tick(1)));
    assert w.db.events.rows["e1"] == Event(Plain("a", "t"), Strokes(1));
    FiringMakesItsRun(env, w, ("a", "t"), "e2", "r2");
  }

  lemma Rescheduled(w1: World) returns (w: World)
    requires Reachable(Ticking(), w1) && w1.db.now == 0 && w1.db.approvals.rows == map[]
    requires "a" in w1.db.automations.rows && w1.db.automations.rows["a"].enabled
    requires forall r :: r in w1.db.revisions.rows ==> r == Old() && w1.db.revisions.rows[r].contentHash == Hash('0')
    requires forall t :: t in w1.db.triggers.rows ==> t.0 == "a"
    ensures Reachable(Ticking(), w) && w.db.now == 0 && w.db.events == w1.db.events && w.db.runs == w1.db.runs
    ensures "a" in w.db.automations.rows && w.db.automations.rows["a"] == Automation(Some(New()), true)
    ensures w.db.triggers.rows == map[("a", "t") := Row(New(), Schedule)]
  {
    OneTrigger(w1.db, New(), Schedule);
    Differ();
    w := Deployed(Ticking(), w1, Listening(Schedule), '1', "p1", map[("a", "t") := Row(New(), Schedule)]);
  }
}
