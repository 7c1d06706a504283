/** No lost update: committed automation state is one chain of successful stateful runs. */
module StateChain {
  import opened Basics
  import opened Tables
  import opened Transactions
  import opened Shapes
  import opened World

  import opened Moves

  function LogOf(commits: map<Id, seq<Commit>>, automation: Id): seq<Commit> {
    if automation in commits then commits[automation] else []
  }

  /** The value after the first `n` commits. */
  function ValueAt(log: seq<Commit>, n: nat): Value
    requires n <= |log|
  {
    if n == 0 then EMPTY_STATE else log[n - 1].value
  }

  /** Every version was computed from the snapshot of the version just before it. */
  ghost predicate Chained(log: seq<Commit>) {
    forall i {:trigger Link(log, i)} :: 0 <= i < |log| ==> Link(log, i)
  }

  ghost predicate Link(log: seq<Commit>, i: nat)
    requires i < |log|
  {
    log[i].basisVersion == i && log[i].basis == ValueAt(log, i)
  }

  /** The stateful successes of one automation, in the order they took effect. */
  function Successes(outcomes: seq<Outcome>, automation: Id): seq<(Id, nat)> {
    if outcomes == [] then [] else
    var o := outcomes[|outcomes| - 1];
    var before := Successes(outcomes[..|outcomes| - 1], automation);
    if o.kind == Success && o.stateful && o.automation == automation then before + [(o.run, o.attempt)] else before
  }

  function Authors(log: seq<Commit>): seq<(Id, nat)> {
    seq(|log|, i requires 0 <= i < |log| => (log[i].run, log[i].attempt))
  }

  ghost predicate Current(states: map<Id, StateRow>, commits: map<Id, seq<Commit>>) {
    && (forall a :: a in commits ==> a in states && Chained(commits[a]))
    && (forall a :: a in states ==>
          && a in commits && states[a].version == |commits[a]| >= 1
          && states[a].value == ValueAt(commits[a], |commits[a]|))
  }

  ghost predicate Snapshots(workers: map<Id, Claim>, commits: map<Id, seq<Commit>>) {
    forall k :: k in workers ==>
      var log := LogOf(commits, workers[k].automation);
      workers[k].stateVersion <= |log| && workers[k].stateValue == ValueAt(log, workers[k].stateVersion)
  }

  ghost predicate Credited(outcomes: seq<Outcome>, commits: map<Id, seq<Commit>>) {
    forall a :: Authors(LogOf(commits, a)) == Successes(outcomes, a)
  }

  ghost predicate Serial(w: World) {
    && Current(w.db.states.rows, w.commits.rows)
    && Snapshots(w.workers.rows, w.commits.rows)
    && Credited(w.outcomes, w.commits.rows)
  }

  lemma CommitCurrent(
    states: map<Id, StateRow>, commits: map<Id, seq<Commit>>, workers: map<Id, Claim>, k: Id, value: Value)
    requires Current(states, commits) && Snapshots(workers, commits) && k in workers
    requires var c := workers[k]; c.manifest.stateful && !StateRefused(states, c, Some(value))
    ensures var c := workers[k];
            Current(WithState(states, c, Some(value)),
                    Push(commits, c.automation, Commit(c.run, c.attempt, c.stateVersion, c.stateValue, value)))
  {
    var c := workers[k];
    var log := LogOf(commits, c.automation);
    var log' := log + [Commit(c.run, c.attempt, c.stateVersion, c.stateValue, value)];
    assert c.stateVersion == |log|;
    assert Chained(log') by {
      forall i | 0 <= i < |log'| ensures Link(log', i) {
        if i < |log| { assert Link(log, i); }
      }
    }
    assert Push(commits, c.automation, log'[|log|]) == commits[c.automation := log'];
  }

  lemma CommitSnapshots(commits: map<Id, seq<Commit>>, workers: map<Id, Claim>, automation: Id, entry: Commit)
    requires Snapshots(workers, commits)
    ensures Snapshots(workers, Push(commits, automation, entry))
  {
  }

  lemma CommitSerial(
    states: map<Id, StateRow>, commits: map<Id, seq<Commit>>, workers: map<Id, Claim>, k: Id, value: Value)
    requires Current(states, commits) && Snapshots(workers, commits) && k in workers
    requires var c := workers[k]; c.manifest.stateful && !StateRefused(states, c, Some(value))
    ensures var c := workers[k];
            var entry := Commit(c.run, c.attempt, c.stateVersion, c.stateValue, value);
            var commits' := Push(commits, c.automation, entry);
            && Current(WithState(states, c, Some(value)), commits')
            && Snapshots(Idle(workers, k), commits')
  {
    var c := workers[k];
    CommitCurrent(states, commits, workers, k, value);
    CommitSnapshots(commits, workers, c.automation, Commit(c.run, c.attempt, c.stateVersion, c.stateValue, value));
  }

  lemma RecordCredited(outcomes: seq<Outcome>, commits: map<Id, seq<Commit>>, o: Outcome, entry: Option<Commit>)
    requires Credited(outcomes, commits)
    requires entry.Some? <==> o.kind == Success && o.stateful
    requires entry.Some? ==> entry.value.run == o.run && entry.value.attempt == o.attempt
    ensures Credited(outcomes + [o], if entry.Some? then Push(commits, o.automation, entry.value) else commits)
  {
    var commits' := if entry.Some? then Push(commits, o.automation, entry.value) else commits;
    assert (outcomes + [o])[..|outcomes|] == outcomes;
    forall a ensures Authors(LogOf(commits', a)) == Successes(outcomes + [o], a) {
      assert Authors(LogOf(commits, a)) == Successes(outcomes, a);
    }
  }

  lemma CompleteSerial(w: World, worker: Id, state: Option<Value>, control: Control, draw: Draw)
    requires Serial(w)
    ensures Serial(CompleteStep(w, worker, state, control, draw))
  {
    if worker in w.workers.rows {
      var claim := w.workers.rows[worker];
      if CompleteRun(w.db, worker, claim, state, control, draw).result.Ok? {
        var o := Outcome(claim.run, claim.attempt, Success, control, claim.automation, claim.manifest.stateful);
        if claim.manifest.stateful {
          CommitSerial(w.db.states.rows, w.commits.rows, w.workers.rows, worker, state.value);
          RecordCredited(w.outcomes, w.commits.rows, o,
                         Some(Commit(claim.run, claim.attempt, claim.stateVersion, claim.stateValue, state.value)));
        } else {
          RecordCredited(w.outcomes, w.commits.rows, o, None);
        }
      }
    }
  }

  lemma WorkSerial(w: World, a: WorkerAction)
    requires Serial(w)
    ensures Serial(Working(w, a))
  {
    var w' := Working(w, a);
    match a
    case Completing(worker, state, control, draw) => CompleteSerial(w, worker, state, control, draw);
    case Failing(worker) =>
      if Fenced(w, worker) { RecordCredited(w.outcomes, w.commits.rows, w'.outcomes[|w.outcomes|], None); }
    case Releasing(worker) =>
      if Fenced(w, worker) { RecordCredited(w.outcomes, w.commits.rows, w'.outcomes[|w.outcomes|], None); }
    case _ =>
  }

  // ---------------------------------------------------------------- refinement of a sequential run

  /** The automation's successes run one after another from the empty state. */
  function Sequential(exec: (Id, nat, Value) -> Value, log: seq<Commit>, n: nat): Value
    requires n <= |log|
  {
    if n == 0 then EMPTY_STATE else exec(log[n - 1].run, log[n - 1].attempt, Sequential(exec, log, n - 1))
  }

  /** Whatever each attempt computes from its snapshot, the interleaved history committed the same
      values as running the successes alone, in order. */
  lemma {:induction false} ChainIsSequential(exec: (Id, nat, Value) -> Value, log: seq<Commit>, n: nat)
    requires Chained(log) && n <= |log|
    requires forall i :: 0 <= i < |log| ==> log[i].value == exec(log[i].run, log[i].attempt, log[i].basis)
    ensures ValueAt(log, n) == Sequential(exec, log, n)
  {
    if n > 0 {
      assert Link(log, n - 1);
      ChainIsSequential(exec, log, n - 1);
    }
  }
}
