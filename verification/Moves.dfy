/** The table shapes of each group of actions. */
module Moves {
  import opened Basics
  import opened Tables
  import opened Transactions
  import opened Shapes

  import opened World

  /** The run a worker action is about. */
  function Target(w: World, a: WorkerAction): Id {
    if a.Acquiring? then a.id else if a.worker in w.workers.rows then w.workers.rows[a.worker].run else ""
  }

  /** Whether the action passes its guard: a free worker and a candidate, or the fence. */
  predicate Passes(w: World, a: WorkerAction) {
    if a.Acquiring? then a.worker !in w.workers.rows && Candidate(w.db, a.id) else Fenced(w, a.worker)
  }

  /** Tables the run protocol reads but never writes. */
  predicate SameCatalog(db: Db, db': Db) {
    && db'.now == db.now && db'.automations == db.automations && db'.revisions == db.revisions
    && db'.triggers == db.triggers && db'.deployments == db.deployments
    && db'.secrets == db.secrets && db'.secretRefs == db.secretRefs
  }

  predicate SameBuilds(w: World, w': World) {
    w'.builders == w.builders && w'.claims == w.claims && w'.activations == w.activations && w'.firings == w.firings
  }

  lemma ProgressShape(w: World, a: WorkerAction)
    requires !a.Completing? && Passes(w, a) && !a.Forgetting?
    ensures var db' := Working(w, a).db;
            && Updated(w.db, db', Target(w, a)) && SameCatalog(w.db, db')
            && db'.states == w.db.states && db'.approvals == w.db.approvals && w.db.notices.all <= db'.notices.all
  {
  }

  lemma RefusedShape(w: World, a: WorkerAction)
    requires !Passes(w, a) || a.Forgetting?
    ensures Working(w, a).db == w.db
  {
  }

  lemma WorkFrame(w: World, a: WorkerAction)
    ensures SameCatalog(w.db, Working(w, a).db) && SameBuilds(w, Working(w, a))
  {
  }

  lemma IntakeFrame(db: Db, a: IntakeAction)
    ensures SameCatalog(db, TakingIn(db, a)) && TakingIn(db, a).states == db.states
  {
  }

  /** Tables written by the run protocol and by intake only. */
  predicate SameTraffic(db: Db, db': Db) {
    && db'.events == db.events && db'.runs == db.runs && db'.states == db.states
    && db'.approvals == db.approvals && db'.notices == db.notices
  }

  predicate SameMemory(w: World, w': World) {
    w'.workers == w.workers && w'.outcomes == w.outcomes && w'.commits == w.commits
  }

  /** A revision row keeps everything but its path for as long as it exists. */
  ghost predicate RevisionsStay(before: map<Id, Revision>, after: map<Id, Revision>) {
    forall r :: r in before ==> r in after && after[r] == before[r].(path := after[r].path)
  }

  lemma DeployFrame(env: Env, db: Db, manifest: Manifest, hash: string, path: string, attested: bool, job: Job)
    ensures var db' := Deploy(env, db, manifest, hash, path, attested, job).db;
            && SameTraffic(db, db') && db'.now == db.now && db'.secrets == db.secrets
            && RevisionsStay(db.revisions.rows, db'.revisions.rows)
            && (job.Direct? ==> db'.deployments == db.deployments)
  {
  }

  lemma ReleaseFrame(env: Env, w: World, a: ReleaseAction)
    ensures var w' := Switching(env, w, a);
            && SameTraffic(w.db, w'.db) && SameMemory(w, w') && w'.db.now == w.db.now
            && RevisionsStay(w.db.revisions.rows, w'.db.revisions.rows) && w'.claims == w.claims
            && (!a.ActivatingBuild? ==>
                  w'.db.deployments == w.db.deployments && w'.builders == w.builders && w'.activations == w.activations)
  {
    match a
    case Deploying(manifest, hash, path, attested) => DeployFrame(env, w.db, manifest, hash, path, attested, Direct);
    case ActivatingBuild(worker, manifest, hash, path, attested) =>
      if worker in w.builders.rows {
        DeployFrame(env, w.db, manifest, hash, path, attested, ByDeployment(w.builders.rows[worker].0, worker));
      }
    case _ =>
  }

  lemma BuildFrame(w: World, a: BuildAction)
    ensures var w' := BuildingOn(w, a);
            && w'.db == w.db.(deployments := w'.db.deployments) && SameMemory(w, w')
            && w'.activations == w.activations && w'.firings == w.firings
  {
    TxFrame(w, a);
  }

  lemma TxFrame(w: World, a: BuildAction)
    ensures BuildTx(w, a) == w.db.(deployments := BuildTx(w, a).deployments)
  {
  }

  lemma UpkeepFrame(db: Db, a: UpkeepAction)
    ensures var db' := Keeping(db, a);
            && SameTraffic(db, db') && db'.automations == db.automations && db'.triggers == db.triggers
            && db'.deployments == db.deployments && db.now <= db'.now && (!a.Tick? ==> db'.now == db.now)
            && RevisionsStay(db.revisions.rows, db'.revisions.rows)
  {
  }
}
