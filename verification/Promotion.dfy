/** Deployments: cancellation beats activation, and one activation makes one success. */
module Promotion {
  import opened Basics
  import opened Tables
  import opened Transactions

  import opened World

  ghost predicate Sound(d: Deployment) {
    && (d.cancelRequested ==> InProgress(d.stage) || d.stage == Cancelled)
    && (d.stage == Cancelled ==> d.cancelRequested)
    && (d.lease.Some? <==> InProgress(d.stage))
    && (d.revision.Some? <==> d.stage == Done)
    && (!Terminal(d.stage) ==> d.source != "")
  }

  ghost predicate AllSound(deployments: map<Id, Deployment>) {
    && (forall d :: d in deployments ==> Sound(deployments[d]))
    && (forall d, e :: d in deployments && e in deployments && deployments[d].key == deployments[e].key ==> d == e)
  }

  /** A worker the deployment still names holds its latest claim. */
  ghost predicate Latest(builders: map<Id, (Id, nat)>, claims: map<Id, nat>, deployments: map<Id, Deployment>) {
    forall k :: k in builders ==>
      var (id, n) := builders[k];
      && id in deployments && 1 <= n <= CountOf(claims, id)
      && (OwnedBy(deployments[id].lease, k) ==> n == CountOf(claims, id))
  }

  ghost predicate HasActivation(activations: seq<Activation>, d: Id) {
    exists i :: 0 <= i < |activations| && activations[i].deployment == d
  }

  /** Succeeded deployments and activations correspond one to one. */
  ghost predicate Matched(activations: seq<Activation>, deployments: map<Id, Deployment>) {
    && (forall i :: 0 <= i < |activations| ==>
          && activations[i].deployment in deployments && deployments[activations[i].deployment].stage == Done
          && deployments[activations[i].deployment].revision == Some(activations[i].revision))
    && (forall i, j :: 0 <= i < j < |activations| ==> activations[i].deployment != activations[j].deployment)
    && (forall d :: d in deployments && deployments[d].stage == Done ==> HasActivation(activations, d))
  }

  ghost predicate Promoted(w: World) {
    && AllSound(w.db.deployments.rows)
    && Latest(w.builders.rows, w.claims.rows, w.db.deployments.rows)
    && Matched(w.activations, w.db.deployments.rows)
  }

  /** What no step undoes for one deployment row. */
  ghost predicate Forward(d: Deployment, d': Deployment) {
    && d'.key == d.key && d'.strand == d.strand && d'.retryOf == d.retryOf
    && (d.cancelRequested ==> d'.cancelRequested)
    && (Terminal(d.stage) ==> d'.stage == d.stage && d'.revision == d.revision)
    && (d'.stage == Done && d.stage != Done ==> !d.cancelRequested && d.stage == Stage.Activating)
  }

  ghost predicate AllForward(before: map<Id, Deployment>, after: map<Id, Deployment>) {
    forall d :: d in before ==> d in after && Forward(before[d], after[d])
  }

  // ---------------------------------------------------------------- one row changes

  /** A row of the queue changes without finishing. */
  ghost predicate Moved(before: map<Id, Deployment>, after: map<Id, Deployment>, id: Id) {
    && id in after && after == before[id := after[id]] && Sound(after[id]) && after[id].stage != Done
    && (id in before ==> before[id].stage != Done && Forward(before[id], after[id]))
    && (id !in before ==> !DeploymentKeyTaken(before, after[id].key) && after[id].stage == Waiting)
  }

  lemma MoveRows(activations: seq<Activation>, before: map<Id, Deployment>, after: map<Id, Deployment>, id: Id)
    requires AllSound(before) && Matched(activations, before) && Moved(before, after, id)
    ensures AllSound(after) && Matched(activations, after) && AllForward(before, after)
  {
  }

  lemma MoveKept(w: World, w': World, id: Id)
    requires Promoted(w) && Moved(w.db.deployments.rows, w'.db.deployments.rows, id)
    requires w'.activations == w.activations && w'.builders == w.builders && w'.claims == w.claims
    requires forall k :: OwnedBy(w'.db.deployments.rows[id].lease, k) ==>
               id in w.db.deployments.rows && OwnedBy(w.db.deployments.rows[id].lease, k)
    ensures Promoted(w') && AllForward(w.db.deployments.rows, w'.db.deployments.rows)
  {
    MoveRows(w.activations, w.db.deployments.rows, w'.db.deployments.rows, id);
  }

  lemma ClaimLatest(
    builders: map<Id, (Id, nat)>, claims: map<Id, nat>, deployments: map<Id, Deployment>, k: Id, id: Id, d: Deployment)
    requires Latest(builders, claims, deployments) && k !in builders && id in deployments
    requires forall other :: OwnedBy(d.lease, other) ==> other == k
    ensures var n := CountOf(claims, id) + 1; Latest(builders[k := (id, n)], claims[id := n], deployments[id := d])
  {
  }

  lemma ClaimKept(w: World, worker: Id, id: Id)
    requires Promoted(w) && worker !in w.builders.rows
    requires AcquireDeployment(w.db, worker, id, RUN_LEASE).result.Ok?
    ensures var w' := BuildingOn(w, ClaimingBuild(worker, id));
            Promoted(w') && AllForward(w.db.deployments.rows, w'.db.deployments.rows)
  {
    var before, after := w.db.deployments.rows, AcquireDeployment(w.db, worker, id, RUN_LEASE).db.deployments.rows;
    ClaimMoves(w.db, worker, id);
    MoveRows(w.activations, before, after, id);
    ClaimLatest(w.builders.rows, w.claims.rows, before, worker, id, after[id]);
  }

  lemma ClaimMoves(db: Db, worker: Id, id: Id)
    requires AllSound(db.deployments.rows) && AcquireDeployment(db, worker, id, RUN_LEASE).result.Ok?
    ensures var after := AcquireDeployment(db, worker, id, RUN_LEASE).db.deployments.rows;
            && id in db.deployments.rows && Moved(db.deployments.rows, after, id)
            && after == db.deployments.rows[id := after[id]] && forall k :: OwnedBy(after[id].lease, k) ==> k == worker
  {
    assert Sound(db.deployments.rows[id]);
  }

  lemma ForgetKept(w: World, w': World, worker: Id)
    requires Promoted(w) && w'.db.deployments == w.db.deployments && w'.activations == w.activations
    requires w'.claims == w.claims && w'.builders.rows == Idle(w.builders.rows, worker)
    ensures Promoted(w')
  {
  }

  lemma SubmitKept(w: World, id: Id, key: Id, source: string, digest: string)
    requires Promoted(w) && source != ""
    ensures var w' := BuildingOn(w, Submitting(id, key, source, digest));
            Promoted(w') && AllForward(w.db.deployments.rows, w'.db.deployments.rows)
  {
    if !DeploymentKeyTaken(w.db.deployments.rows, key) && id !in w.db.deployments.rows {
      MoveKept(w, BuildingOn(w, Submitting(id, key, source, digest)), id);
    }
  }

  lemma RetryKept(w: World, original: Id, id: Id, key: Id, strand: bool)
    requires Promoted(w)
    ensures var w' := BuildingOn(w, Retrying(original, id, key, strand));
            Promoted(w') && AllForward(w.db.deployments.rows, w'.db.deployments.rows)
  {
    var rows := w.db.deployments.rows;
    if !DeploymentKeyTaken(rows, key) && RetryDeployment(w.db, original, id, key, strand).result.Ok? {
      assert Sound(BuildTx(w, Retrying(original, id, key, strand)).deployments.rows[id]);
      MoveKept(w, BuildingOn(w, Retrying(original, id, key, strand)), id);
    }
  }

  lemma CancelKept(w: World, id: Id)
    requires Promoted(w)
    ensures var w' := BuildingOn(w, Cancelling(id));
            Promoted(w') && AllForward(w.db.deployments.rows, w'.db.deployments.rows)
  {
    if RequestDeploymentCancellation(w.db, id).result.Ok? {
      assert Sound(w.db.deployments.rows[id]);
      MoveKept(w, BuildingOn(w, Cancelling(id)), id);
    }
  }

  /** The actions of a worker on the deployment it is processing. */
  predicate OnClaim(a: BuildAction) {
    a.RenewingBuild? || a.Staging? || a.Stepping? || a.ConfirmingCancel? || a.FailingBuild?
  }

  lemma HeldMoves(w: World, a: BuildAction, id: Id)
    requires OnClaim(a) && a.worker in w.builders.rows && w.builders.rows[a.worker].0 == id
    requires HoldsDeployment(w.db, id, a.worker) && Sound(w.db.deployments.rows[id])
    ensures var after := BuildTx(w, a).deployments.rows;
            && Moved(w.db.deployments.rows, after, id)
            && forall k :: OwnedBy(after[id].lease, k) ==> OwnedBy(w.db.deployments.rows[id].lease, k)
  {
  }

  lemma UnheldStays(w: World, a: BuildAction)
    requires OnClaim(a)
    requires a.worker in w.builders.rows ==> !HoldsDeployment(w.db, w.builders.rows[a.worker].0, a.worker)
    ensures BuildTx(w, a) == w.db
  {
  }

  lemma HeldMoved(w: World, a: BuildAction)
    requires Promoted(w) && OnClaim(a)
    ensures var moved := w.(db := BuildTx(w, a));
            Promoted(moved) && AllForward(w.db.deployments.rows, moved.db.deployments.rows)
  {
    if a.worker in w.builders.rows && HoldsDeployment(w.db, w.builders.rows[a.worker].0, a.worker) {
      var id := w.builders.rows[a.worker].0;
      HeldMoves(w, a, id);
      MoveKept(w, w.(db := BuildTx(w, a)), id);
    } else {
      UnheldStays(w, a);
    }
  }

  lemma HeldKept(w: World, a: BuildAction)
    requires Promoted(w) && OnClaim(a)
    ensures var w' := BuildingOn(w, a);
            Promoted(w') && AllForward(w.db.deployments.rows, w'.db.deployments.rows)
  {
    HeldMoved(w, a);
    if a.ConfirmingCancel? || a.FailingBuild? { ForgetKept(w.(db := BuildTx(w, a)), BuildingOn(w, a), a.worker); }
  }

  lemma DetachKept(w: World, path: string)
    requires Promoted(w)
    ensures var w' := BuildingOn(w, DetachingSource(path));
            Promoted(w') && AllForward(w.db.deployments.rows, w'.db.deployments.rows)
  {
    var before, after := w.db.deployments.rows, DetachSource(w.db, path).deployments.rows;
    DetachEmpties(w.db, path);
    EmptiedSound(before, after);
    EmptiedKept(w.activations, w.builders.rows, w.claims.rows, before, after);
  }

  /** Rows lose at most their source, and only terminal ones do. */
  ghost predicate Emptied(before: map<Id, Deployment>, after: map<Id, Deployment>) {
    && after.Keys == before.Keys
    && forall d :: d in before ==> after[d] == before[d] || (Terminal(before[d].stage) && after[d] == before[d].(source := ""))
  }

  lemma DetachEmpties(db: Db, path: string)
    ensures Emptied(db.deployments.rows, DetachSource(db, path).deployments.rows)
  {
  }

  lemma EmptiedSound(before: map<Id, Deployment>, after: map<Id, Deployment>)
    requires AllSound(before) && Emptied(before, after)
    ensures AllSound(after) && AllForward(before, after)
  {
    forall d | d in after ensures Sound(after[d]) && Forward(before[d], after[d]) { assert Sound(before[d]); }
  }

  lemma EmptiedKept(
    activations: seq<Activation>, builders: map<Id, (Id, nat)>, claims: map<Id, nat>, before: map<Id, Deployment>,
    after: map<Id, Deployment>)
    requires Latest(builders, claims, before) && Matched(activations, before) && Emptied(before, after)
    ensures Latest(builders, claims, after) && Matched(activations, after)
  {
  }

  lemma BuildKept(w: World, a: BuildAction)
    requires Promoted(w) && Legal(w, Build(a))
    ensures var w' := BuildingOn(w, a);
            Promoted(w') && AllForward(w.db.deployments.rows, w'.db.deployments.rows)
  {
    if OnClaim(a) { HeldKept(w, a); } else {
      match a
      case Submitting(id, key, source, digest) => SubmitKept(w, id, key, source, digest);
      case Retrying(original, id, key, strand) => RetryKept(w, original, id, key, strand);
      case ClaimingBuild(worker, id) =>
        if worker !in w.builders.rows && AcquireDeployment(w.db, worker, id, RUN_LEASE).result.Ok? {
          ClaimKept(w, worker, id);
        }
      case Cancelling(id) => CancelKept(w, id);
      case ForgettingBuild(worker) => ForgetKept(w, BuildingOn(w, a), worker);
      case DetachingSource(path) => DetachKept(w, path);
    }
  }

  // ---------------------------------------------------------------- activation

  lemma FinishMatched(activations: seq<Activation>, deployments: map<Id, Deployment>, act: Activation, d: Deployment)
    requires Matched(activations, deployments) && act.deployment in deployments
    requires deployments[act.deployment].stage != Done && d.stage == Done && d.revision == Some(act.revision)
    ensures Matched(activations + [act], deployments[act.deployment := d])
  {
    var activations', deployments' := activations + [act], deployments[act.deployment := d];
    forall e | e in deployments' && deployments'[e].stage == Done ensures HasActivation(activations', e) {
      if e == act.deployment {
        assert activations'[|activations|].deployment == e;
      } else {
        assert HasActivation(activations, e);
        var i :| 0 <= i < |activations| && activations[i].deployment == e;
        assert activations'[i].deployment == e;
      }
    }
  }

  /** An activation that takes effect is by the latest claim, was not cancelled, ends the deployment
      and makes its revision the active one, all in one step. */
  ghost predicate Activates(w: World, w': World, worker: Id, manifest: Manifest, hash: string) {
    && worker in w.builders.rows
    && var (id, n) := w.builders.rows[worker];
    && id in w.db.deployments.rows && id in w'.db.deployments.rows
    && n == CountOf(w.claims.rows, id) && !w.db.deployments.rows[id].cancelRequested
    && w.db.deployments.rows[id].stage == Stage.Activating && w'.db.deployments.rows[id].stage == Done
    && |hash| >= 24 && w'.db.deployments.rows[id].revision == Some(RevisionId(hash))
    && manifest.name in w'.db.automations.rows
    && w'.db.automations.rows[manifest.name].active == Some(RevisionId(hash))
    && w'.activations == w.activations + [Activation(id, n, RevisionId(hash))]
    && w'.db.deployments.rows == w.db.deployments.rows[id := w'.db.deployments.rows[id]]
  }

  lemma ActivateShape(
    env: Env, w: World, worker: Id, manifest: Manifest, hash: string, path: string, attested: bool)
    requires Promoted(w)
    ensures var w' := ActivateStep(env, w, worker, manifest, hash, path, attested);
            w' == w || Activates(w, w', worker, manifest, hash)
  {
  }

  lemma ActivateKept(
    env: Env, w: World, worker: Id, manifest: Manifest, hash: string, path: string, attested: bool)
    requires Promoted(w)
    ensures var w' := ActivateStep(env, w, worker, manifest, hash, path, attested);
            Promoted(w') && AllForward(w.db.deployments.rows, w'.db.deployments.rows)
  {
    var w' := ActivateStep(env, w, worker, manifest, hash, path, attested);
    if worker in w.builders.rows {
      var (id, n) := w.builders.rows[worker];
      if Deploy(env, w.db, manifest, hash, path, attested, ByDeployment(id, worker)).result.Ok? {
        FinishKept(w, w', worker, w'.db.deployments.rows[id], RevisionId(hash));
      }
    }
  }

  lemma FinishKept(w: World, w': World, worker: Id, d: Deployment, revision: Id)
    requires Promoted(w) && worker in w.builders.rows && Activatable(w.db, w.builders.rows[worker].0, worker)
    requires var (id, n) := w.builders.rows[worker];
             && d == w.db.deployments.rows[id].(stage := Done, revision := Some(revision), lease := None)
             && w'.db.deployments.rows == w.db.deployments.rows[id := d]
             && w'.activations == w.activations + [Activation(id, n, revision)]
    requires w'.claims == w.claims && w'.builders.rows == Idle(w.builders.rows, worker)
    ensures Promoted(w') && AllForward(w.db.deployments.rows, w'.db.deployments.rows)
  {
    var (id, n) := w.builders.rows[worker];
    FinishSound(w.db.deployments.rows, id, d, revision);
    FinishLatest(w.builders.rows, w.claims.rows, w.db.deployments.rows, worker, id, d);
    FinishMatched(w.activations, w.db.deployments.rows, Activation(id, n, revision), d);
  }

  lemma FinishSound(deployments: map<Id, Deployment>, id: Id, d: Deployment, revision: Id)
    requires AllSound(deployments) && id in deployments && deployments[id].stage == Stage.Activating
    requires !deployments[id].cancelRequested
    requires d == deployments[id].(stage := Done, revision := Some(revision), lease := None)
    ensures AllSound(deployments[id := d]) && AllForward(deployments, deployments[id := d])
  {
    assert Sound(deployments[id]);
  }

  lemma FinishLatest(
    builders: map<Id, (Id, nat)>, claims: map<Id, nat>, deployments: map<Id, Deployment>, worker: Id, id: Id, d: Deployment)
    requires Latest(builders, claims, deployments) && id in deployments && d.lease.None?
    ensures Latest(Idle(builders, worker), claims, deployments[id := d])
  {
  }
}
