/** What retention selects and what the database lets it detach are the same storage. */
module Detachment {
  import opened Basics
  import opened Tables
  import opened Transactions

  import opened Retention

  ghost predicate RunOn(db: Db, revision: Id) {
    exists run :: run in db.runs.rows && db.runs.rows[run].revision == revision && Live(db.runs.rows[run])
  }

  ghost predicate BuildOf(db: Db, row: Revision) {
    exists d :: d in db.deployments.rows && db.deployments.rows[d].automation == row.automation
      && db.deployments.rows[d].contentHash == row.contentHash && InProgress(db.deployments.rows[d].stage)
  }

  /** One row of the artifact listing. */
  ghost predicate ArtifactRow(db: Db, r: Record) {
    && r.ArtifactRecord? && r.id in db.revisions.rows
    && var row := db.revisions.rows[r.id];
    && r.path == row.path != "" && r.automation == row.automation && row.automation in db.automations.rows
    && r.active == (db.automations.rows[row.automation].active == Some(r.id))
    && r.byRun == RunOn(db, r.id) && r.byDeployment == BuildOf(db, row)
  }

  ghost predicate ListsArtifacts(db: Db, records: seq<Record>) {
    && (forall r :: r in records ==> ArtifactRow(db, r))
    && forall id :: id in db.revisions.rows && db.revisions.rows[id].path != "" ==> Recorded(records, id)
  }

  ghost predicate Recorded(records: seq<Record>, id: Id) { exists r :: r in records && r.id == id }

  ghost predicate SourceRow(db: Db, r: Record) {
    && r.SourceRecord? && r.id in db.deployments.rows
    && var row := db.deployments.rows[r.id];
    r.path == row.source != "" && r.automation == row.automation && r.stage == row.stage
  }

  ghost predicate ListsSources(db: Db, records: seq<Record>) {
    && (forall r :: r in records ==> SourceRow(db, r))
    && forall id :: id in db.deployments.rows && db.deployments.rows[id].source != "" ==> Recorded(records, id)
  }

  /** The database detaches an artifact exactly when no listed record holds it, and then no revision
      names it any more and exactly the secret references of those that did are released; otherwise it changes nothing. */
  lemma ArtifactDetachedExactly(db: Db, records: seq<Record>, p: string)
    requires ListsArtifacts(db, records) && p != ""
    ensures Held(records, p) ==> DetachArtifact(db, p) == db
    ensures !Held(records, p) ==>
              var after := DetachArtifact(db, p).revisions.rows;
              && after.Keys == db.revisions.rows.Keys
              && forall id :: id in after ==>
                   after[id] == if db.revisions.rows[id].path == p then db.revisions.rows[id].(path := "") else db.revisions.rows[id]
    ensures !Held(records, p) ==>
              forall ref :: ref in DetachArtifact(db, p).secretRefs.all <==>
                ref in db.secretRefs.all && !(ref.0 in db.revisions.rows && db.revisions.rows[ref.0].path == p)
  {
  }

  /** The same for deployment sources. */
  lemma SourceDetachedExactly(db: Db, records: seq<Record>, p: string)
    requires ListsSources(db, records) && p != ""
    ensures Held(records, p) ==> DetachSource(db, p) == db
    ensures !Held(records, p) ==>
              var after := DetachSource(db, p).deployments.rows;
              && after.Keys == db.deployments.rows.Keys
              && forall id :: id in after ==>
                   after[id] ==
                     if db.deployments.rows[id].source == p then db.deployments.rows[id].(source := "") else db.deployments.rows[id]
  {
  }

  /** A listed source counts as retryable exactly when the store would accept a retry of its deployment. */
  lemma RetryableIsAccepted(db: Db, r: Record, id: Id, key: Id, strand: bool)
    requires SourceRow(db, r) && id !in db.deployments.rows && !DeploymentKeyTaken(db.deployments.rows, key)
    ensures Retryable(r) <==> RetryDeployment(db, r.id, id, key, strand).result == Ok(true)
  {
  }
}
