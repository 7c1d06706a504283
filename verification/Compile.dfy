/** Turning selected operations into an ordered step graph with an approval gate. */
module Compile {
  import opened Basics
  import opened Text
  import opened Order
  import opened Collections

  import opened Steps

  datatype Operation = Operation(id: Id, title: string, connector: string, operation: string, effect: string, stage: int)

  /** What the model answered; probabilities are real numbers. */
  datatype Answers = Answers(
    primary: Id, primaryOdds: Id -> real, relevance: Id -> real, dependency: (Id, Id) -> real, approval: real, risk: real)

  const SELECTION: real := 0.60
  const PRIMARY_CANDIDATE: real := 0.18
  const DEPENDENCY: real := 0.65
  const APPROVAL: real := 0.60
  const MAX_OPERATIONS: nat := 6
  const REVIEW: Id := "review"
  const UPDATE: Id := "sheets-update"
  const CLEAR: Id := "sheets-clear"

  const CATALOG: seq<Operation> := [
    Operation("zoom-recording", "Read a Zoom recording", "zoom", "recording", "read", 10),
    Operation("sheets-read", "Read Google Sheets values", "google-sheets", "values", "read", 10),
    Operation("openai-transcribe", "Transcribe audio", "openai", "transcribe", "compute", 20),
    Operation("openai-vision", "Analyze an image", "openai", "vision", "compute", 20),
    Operation("openai-chat", "Transform or summarize content", "openai", "chat", "compute", 30),
    Operation("operator-notify", "Notify the operator", "werkt", "notify", "write", 40),
    Operation("sheets-update", "Update Google Sheets values", "google-sheets", "update", "write", 40),
    Operation("sheets-clear", "Clear a Google Sheets range", "google-sheets", "clear", "write", 40)]

  /** A catalog any of whose selections can be compiled. */
  ghost predicate Usable(catalog: seq<Operation>) {
    && (forall i, j :: 0 <= i < j < |catalog| ==> catalog[i].id != catalog[j].id)
    && (forall op :: op in catalog ==> Fits(op))
  }

  predicate Fits(op: Operation) {
    && IsIdentifier(op.id) && op.id != REVIEW && KnownEffect(op.effect)
    && !Blank(op.title) && !Blank(op.connector) && !Blank(op.operation)
  }

  // ---------------------------------------------------------------- selection

  datatype Selected = Selected(spec: Operation, probability: real, dependsOn: seq<Id>)

  predicate Chosen(answers: Answers, op: Operation) {
    op.id == answers.primary || answers.relevance(op.id) >= SELECTION || answers.primaryOdds(op.id) >= PRIMARY_CANDIDATE
  }

  /** Earlier stage first, then by id. */
  predicate Precedes(a: Operation, b: Operation) {
    a.stage < b.stage || (a.stage == b.stage && a.id != b.id && Leq(a.id, b.id))
  }

  lemma PrecedesTotal(a: Operation, b: Operation)
    requires a.id != b.id
    ensures Precedes(a, b) || Precedes(b, a)
  {
    LeqTotal(a.id, b.id);
  }

  lemma PrecedesTransitive(a: Operation, b: Operation, c: Operation)
    requires Precedes(a, b) && Precedes(b, c)
    ensures Precedes(a, c)
  {
    if a.stage == b.stage == c.stage {
      LeqTransitive(a.id, b.id, c.id);
      if a.id == c.id { LeqTotal(a.id, b.id); }
    }
  }

  ghost predicate Ascending(selected: seq<Selected>) {
    forall i, j :: 0 <= i < j < |selected| ==>
      Precedes(selected[i].spec, selected[j].spec) && selected[i].spec.id != selected[j].spec.id
  }

  predicate Includes(selected: seq<Selected>, op: Operation) {
    exists s :: s in selected && s.spec == op
  }

  function Pick(answers: Answers, op: Operation): Selected { Selected(op, answers.relevance(op.id), []) }

  method InsertSelected(selected: seq<Selected>, s: Selected) returns (r: seq<Selected>)
    requires Ascending(selected) && forall x :: x in selected ==> x.spec.id != s.spec.id
    ensures Ascending(r) && |r| == |selected| + 1 && forall x :: x in r <==> x in selected || x == s
  {
    var k := 0;
    while k < |selected| && Precedes(selected[k].spec, s.spec)
      invariant 0 <= k <= |selected|
      invariant forall i :: 0 <= i < k ==> Precedes(selected[i].spec, s.spec)
    {
      k := k + 1;
    }
    forall i | k <= i < |selected| ensures Precedes(s.spec, selected[i].spec) {
      assert selected[k] in selected;
      PrecedesTotal(s.spec, selected[k].spec);
      if k < i { PrecedesTransitive(s.spec, selected[k].spec, selected[i].spec); }
    }
    r := selected[..k] + [s] + selected[k..];
    InsertedAscending(selected, k, s, r);
    assert selected == selected[..k] + selected[k..];
  }

  lemma InsertedAscending(selected: seq<Selected>, k: nat, s: Selected, r: seq<Selected>)
    requires k <= |selected| && Ascending(selected) && |r| == |selected| + 1
    requires forall i {:trigger r[i]} :: 0 <= i < |r| ==>
               r[i] == if i < k then selected[i] else if i == k then s else selected[i - 1]
    requires forall i :: 0 <= i < |selected| ==> selected[i].spec.id != s.spec.id
    requires forall i :: 0 <= i < k ==> Precedes(selected[i].spec, s.spec)
    requires forall i :: k <= i < |selected| ==> Precedes(s.spec, selected[i].spec)
    ensures Ascending(r)
  {
  }

  /** The chosen operations that come before this one. */
  ghost function Ahead(catalog: seq<Operation>, answers: Answers, op: Operation): set<Operation> {
    set o | o in catalog && Chosen(answers, o) && Precedes(o, op)
  }

  ghost function Specs(selected: seq<Selected>): set<Operation> { set s | s in selected :: s.spec }

  lemma {:induction false} SpecsCount(selected: seq<Selected>)
    requires Ascending(selected)
    ensures |Specs(selected)| == |selected|
  {
    if selected != [] {
      var rest, last := selected[..|selected| - 1], selected[|selected| - 1];
      SpecsCount(rest);
      assert selected == rest + [last];
      assert Specs(selected) == Specs(rest) + {last.spec};
    }
  }

  /** A chosen operation is among the first six exactly when fewer than six come before it. */
  lemma IncludedExactly(catalog: seq<Operation>, answers: Answers, r: seq<Selected>, op: Operation)
    requires Ascending(r) && |r| <= MAX_OPERATIONS && op in catalog && Chosen(answers, op)
    requires forall s :: s in r ==> s.spec in catalog && Chosen(answers, s.spec)
    requires forall o :: o in catalog && Chosen(answers, o) ==>
               Includes(r, o) || (|r| == MAX_OPERATIONS && forall s :: s in r ==> Precedes(s.spec, o))
    ensures Includes(r, op) <==> |Ahead(catalog, answers, op)| < MAX_OPERATIONS
  {
    var ahead := Ahead(catalog, answers, op);
    SpecsCount(r);
    if Includes(r, op) {
      forall o | o in ahead ensures o in Specs(r) - {op} {
        if Precedes(op, o) { PrecedesTransitive(op, o, op); }
      }
      SubsetSize(ahead, Specs(r) - {op});
    } else {
      SubsetSize(Specs(r), ahead);
    }
  }

  /** The first six chosen operations in stage order: one that is chosen and missing comes after six others. */
  method SelectOperations(catalog: seq<Operation>, answers: Answers) returns (r: seq<Selected>)
    requires Usable(catalog)
    ensures Ascending(r) && |r| <= MAX_OPERATIONS
    ensures forall s :: s in r ==> s.spec in catalog && Chosen(answers, s.spec) && s == Pick(answers, s.spec)
    ensures forall op :: op in catalog && Chosen(answers, op) ==>
              Includes(r, op) || (|r| == MAX_OPERATIONS && forall s :: s in r ==> Precedes(s.spec, op))
  {
    r := [];
    for k := 0 to |catalog|
      invariant Ascending(r)
      invariant forall s :: s in r <==> s.spec in catalog[..k] && Chosen(answers, s.spec) && s == Pick(answers, s.spec)
    {
      assert catalog[..k + 1] == catalog[..k] + [catalog[k]];
      if Chosen(answers, catalog[k]) {
        r := InsertSelected(r, Pick(answers, catalog[k]));
      }
    }
    assert catalog[..|catalog|] == catalog;
    if |r| > MAX_OPERATIONS {
      ghost var all := r;
      r := r[..MAX_OPERATIONS];
      forall op | op in catalog && Chosen(answers, op) && !Includes(r, op)
        ensures forall s :: s in r ==> Precedes(s.spec, op)
      {
        assert Pick(answers, op) in all;
        var j :| 0 <= j < |all| && all[j] == Pick(answers, op);
        FirstSix(all, j, op);
      }
    } else {
      forall op | op in catalog && Chosen(answers, op) ensures Includes(r, op) { assert Pick(answers, op) in r; }
    }
  }

  lemma FirstSix(all: seq<Selected>, j: nat, op: Operation)
    requires Ascending(all) && MAX_OPERATIONS < |all| && j < |all| && all[j].spec == op && !Includes(all[..MAX_OPERATIONS], op)
    ensures forall s :: s in all[..MAX_OPERATIONS] ==> Precedes(s.spec, op)
  {
  }

  // ---------------------------------------------------------------- conflicts and dependencies

  /** Whether an update and a clear of the same sheet compete, and which of them gives way. */
  predicate Loses(selected: seq<Selected>, primary: Id, s: Selected) {
    exists u, c :: u in selected && c in selected && u.spec.id == UPDATE && c.spec.id == CLEAR
      && s == if primary == CLEAR || (primary != UPDATE && c.probability > u.probability) then u else c
  }

  method ResolveOperationConflicts(selected: seq<Selected>, primary: Id) returns (r: seq<Selected>)
    requires Ascending(selected)
    ensures Ascending(r) && (selected != [] ==> r != []) && |r| <= |selected|
    ensures forall s :: s in r <==> s in selected && !Loses(selected, primary, s)
  {
    var left, right := -1, -1;
    for k := 0 to |selected|
      invariant -1 <= left < k && -1 <= right < k
      invariant left >= 0 ==> selected[left].spec.id == UPDATE
      invariant right >= 0 ==> selected[right].spec.id == CLEAR
      invariant forall i :: 0 <= i < k && selected[i].spec.id == UPDATE ==> left == i
      invariant forall i :: 0 <= i < k && selected[i].spec.id == CLEAR ==> right == i
    {
      if selected[k].spec.id == UPDATE {
        assert left < 0;
        left := k;
      } else if selected[k].spec.id == CLEAR {
        assert right < 0;
        right := k;
      }
    }
    if left < 0 || right < 0 { return selected; }
    var remove := right;
    if primary == CLEAR || (primary != UPDATE && selected[right].probability > selected[left].probability) { remove := left; }
    r := selected[..remove] + selected[remove + 1..];
    assert forall s :: Loses(selected, primary, s) <==> s == selected[remove];
    RemovedOne(selected, remove);
  }

  lemma RemovedOne(selected: seq<Selected>, k: nat)
    requires Ascending(selected) && k < |selected|
    ensures var r := selected[..k] + selected[k + 1..];
            Ascending(r) && forall s :: s in r <==> s in selected && s != selected[k]
  {
  }

  predicate FeedsInto(selected: seq<Selected>, answers: Answers, i: nat, j: nat)
    requires i < |selected| && j < |selected|
  {
    && selected[j].spec.stage < selected[i].spec.stage
    && answers.dependency(selected[i].spec.id, selected[j].spec.id) >= DEPENDENCY
  }

  ghost predicate Feeds(selected: seq<Selected>, answers: Answers, i: nat, d: Id)
    requires i < |selected|
  {
    exists j :: 0 <= j < |selected| && selected[j].spec.id == d && FeedsInto(selected, answers, i, j)
  }

  /** The operation at `i`, with what the answers say it needs. */
  ghost predicate LinkedAt(selected: seq<Selected>, answers: Answers, linked: Selected, i: nat)
    requires i < |selected|
  {
    linked.spec == selected[i].spec && forall d :: d in linked.dependsOn <==> Feeds(selected, answers, i, d)
  }

  /** The dependency loop: exactly the earlier stages the model says an operation needs. */
  method AddDependencies(selected: seq<Selected>, answers: Answers) returns (r: seq<Selected>)
    requires forall s :: s in selected ==> s.dependsOn == []
    ensures |r| == |selected| && forall i :: 0 <= i < |r| ==> LinkedAt(selected, answers, r[i], i)
  {
    r := [];
    for k := 0 to |selected|
      invariant |r| == k && forall i :: 0 <= i < k ==> LinkedAt(selected, answers, r[i], i)
    {
      var needs := NeedsOf(selected, answers, k);
      r := r + [selected[k].(dependsOn := needs)];
    }
  }

  method NeedsOf(selected: seq<Selected>, answers: Answers, i: nat) returns (needs: seq<Id>)
    requires i < |selected|
    ensures forall d :: d in needs <==> Feeds(selected, answers, i, d)
  {
    needs := [];
    for j := 0 to |selected|
      invariant forall d :: d in needs ==> Feeds(selected, answers, i, d)
      invariant forall m :: 0 <= m < j && FeedsInto(selected, answers, i, m) ==> selected[m].spec.id in needs
    {
      if FeedsInto(selected, answers, i, j) {
        needs := needs + [selected[j].spec.id];
      }
    }
  }

  // ---------------------------------------------------------------- steps and the gate

  function ToStep(s: Selected): Step {
    Step(s.spec.id, s.spec.title, s.spec.connector, s.spec.operation, s.spec.effect, s.dependsOn)
  }

  method ToSteps(selected: seq<Selected>) returns (steps: seq<Step>)
    ensures |steps| == |selected| && forall i :: 0 <= i < |steps| ==> steps[i] == ToStep(selected[i])
  {
    steps := [];
    for k := 0 to |selected|
      invariant |steps| == k && forall i :: 0 <= i < k ==> steps[i] == ToStep(selected[i])
    {
      steps := steps + [ToStep(selected[k])];
    }
  }

  /** Compiled operations are well formed: what an operation needs stands before it. */
  lemma CompiledWellFormed(catalog: seq<Operation>, selected: seq<Selected>, answers: Answers, r: seq<Selected>, steps: seq<Step>)
    requires Usable(catalog) && Ascending(selected) && forall s :: s in selected ==> s.spec in catalog
    requires |r| == |selected| == |steps|
    requires forall i :: 0 <= i < |r| ==> LinkedAt(selected, answers, r[i], i) && steps[i] == ToStep(r[i])
    ensures WellFormed(steps) && forall s :: s in steps ==> s.id != REVIEW
  {
    forall i | 0 <= i < |steps|
      ensures IsIdentifier(steps[i].id) && Complete(steps[i]) && KnownEffect(steps[i].effect) && steps[i].id != REVIEW
    {
      assert selected[i] in selected && LinkedAt(selected, answers, r[i], i);
    }
    forall i, j | 0 <= i < j < |steps| ensures steps[i].id != steps[j].id {
      assert LinkedAt(selected, answers, r[i], i) && LinkedAt(selected, answers, r[j], j);
    }
    forall i, d | 0 <= i < |steps| && d in steps[i].dependsOn ensures DeclaredBefore(steps, i, d) {
      assert LinkedAt(selected, answers, r[i], i) && Feeds(selected, answers, i, d);
      var j :| 0 <= j < |selected| && selected[j].spec.id == d && FeedsInto(selected, answers, i, j);
      assert j < i && LinkedAt(selected, answers, r[j], j);
      assert steps[j].id == d;
    }
  }

  function IdsOf(steps: seq<Step>): (r: seq<Id>)
    ensures |r| == |steps| && forall i :: 0 <= i < |r| ==> r[i] == steps[i].id
  {
    seq(|steps|, i requires 0 <= i < |steps| => steps[i].id)
  }

  function Review(needs: seq<Id>): Step {
    Step(REVIEW, "Review consequential execution", "werkt", "request-approval", "approval", needs)
  }

  function Await(step: Step): Step { step.(dependsOn := Joined(step.dependsOn, REVIEW)) }

  /** The gate at `at`: nothing before it writes, it waits for all of that, and all after it waits for it. */
  ghost predicate GateAt(steps: seq<Step>, at: nat) {
    && at < |steps| && steps[at] == Review(IdsOf(steps[..at]))
    && (forall i :: 0 <= i < at ==> steps[i].effect != "write")
    && (forall i :: at < i < |steps| ==> REVIEW in steps[i].dependsOn)
  }

  /** The steps of `r` around the gate are those of `steps`, unchanged but for waiting. */
  ghost predicate Wraps(steps: seq<Step>, r: seq<Step>, at: nat) {
    && |r| == |steps| + 1 && at <= |steps|
    && (forall i :: 0 <= i < at ==> r[i] == steps[i])
    && (forall i :: at <= i < |steps| ==> r[i + 1] == Await(steps[i]))
  }

  method InsertApproval(steps: seq<Step>) returns (r: seq<Step>, at: nat)
    ensures GateAt(r, at) && Wraps(steps, r, at)
    ensures at < |steps| ==> steps[at].effect == "write"
  {
    var firstWrite := 0;
    var needs: seq<Id> := [];
    while firstWrite < |steps| && steps[firstWrite].effect != "write"
      invariant 0 <= firstWrite <= |steps| && needs == IdsOf(steps[..firstWrite])
      invariant forall i :: 0 <= i < firstWrite ==> steps[i].effect != "write"
    {
      needs := needs + [steps[firstWrite].id];
      firstWrite := firstWrite + 1;
    }
    at := firstWrite;
    r := steps[..firstWrite] + [Review(needs)];
    for k := firstWrite to |steps|
      invariant |r| == k + 1 && r[..firstWrite] == steps[..firstWrite] && r[firstWrite] == Review(needs)
      invariant forall i :: firstWrite <= i < k ==> r[i + 1] == Await(steps[i])
    {
      var needed := AppendUnique(steps[k].dependsOn, REVIEW);
      r := r + [steps[k].(dependsOn := needed)];
    }
    forall i | at < i < |r| ensures REVIEW in r[i].dependsOn { assert r[i - 1 + 1] == Await(steps[i - 1]); }
  }

  /** Inserting the gate keeps the list well formed. */
  lemma GatedWellFormed(steps: seq<Step>, r: seq<Step>, at: nat)
    requires WellFormed(steps) && (forall s :: s in steps ==> s.id != REVIEW) && GateAt(r, at) && Wraps(steps, r, at)
    ensures WellFormed(r)
  {
    forall i | 0 <= i < |r| ensures IsIdentifier(r[i].id) && Complete(r[i]) && KnownEffect(r[i].effect) {
      GatedComplete(steps, r, at, i);
    }
    forall i, j | 0 <= i < j < |r| ensures r[i].id != r[j].id { GatedDistinct(steps, r, at, i, j); }
    forall i, d | 0 <= i < |r| && d in r[i].dependsOn ensures DeclaredBefore(r, i, d) { GatedNeed(steps, r, at, i, d); }
  }

  lemma GatedComplete(steps: seq<Step>, r: seq<Step>, at: nat, i: nat)
    requires WellFormed(steps) && GateAt(r, at) && Wraps(steps, r, at) && i < |r|
    ensures IsIdentifier(r[i].id) && Complete(r[i]) && KnownEffect(r[i].effect)
  {
    if i == at { ReviewIsComplete(IdsOf(r[..at])); } else if i > at { assert r[i - 1 + 1] == Await(steps[i - 1]); }
  }

  lemma ReviewIsComplete(needs: seq<Id>)
    ensures IsIdentifier(REVIEW) && Complete(Review(needs)) && KnownEffect("approval")
  {
    NotBlank("Review consequential execution");
    NotBlank("werkt");
    NotBlank("request-approval");
  }

  lemma GatedDistinct(steps: seq<Step>, r: seq<Step>, at: nat, i: nat, j: nat)
    requires WellFormed(steps) && (forall s :: s in steps ==> s.id != REVIEW) && GateAt(r, at) && Wraps(steps, r, at)
    requires i < j < |r|
    ensures r[i].id != r[j].id
  {
    if i > at { assert r[i - 1 + 1] == Await(steps[i - 1]); }
    if j > at { assert r[j - 1 + 1] == Await(steps[j - 1]); }
    if i == at { assert steps[j - 1] in steps; }
    if j == at { assert steps[i] in steps; }
  }

  lemma GatedNeed(steps: seq<Step>, r: seq<Step>, at: nat, i: nat, d: Id)
    requires WellFormed(steps) && GateAt(r, at) && Wraps(steps, r, at) && i < |r| && d in r[i].dependsOn
    ensures DeclaredBefore(r, i, d)
  {
    if i < at {
      assert DeclaredBefore(steps, i, d);
      var j :| 0 <= j < i && steps[j].id == d;
      assert r[j].id == d;
    } else if i == at {
      var j :| 0 <= j < |IdsOf(r[..at])| && IdsOf(r[..at])[j] == d;
      assert r[j].id == d;
    } else {
      assert r[i - 1 + 1] == Await(steps[i - 1]);
      if d == REVIEW {
        assert r[at].id == d;
      } else {
        assert DeclaredBefore(steps, i - 1, d);
        var j :| 0 <= j < i - 1 && steps[j].id == d;
        if j < at { assert r[j].id == d; } else { assert r[j + 1] == Await(steps[j]); }
      }
    }
  }

  // ---------------------------------------------------------------- compilation

  ghost predicate HasStep(steps: seq<Step>, id: Id) { exists i :: 0 <= i < |steps| && steps[i].id == id }

  /** The step is the operation, as the catalog describes it. */
  predicate Describes(step: Step, op: Operation) {
    && step.id == op.id && step.title == op.title && step.connector == op.connector && step.operation == op.operation
    && step.effect == op.effect
  }

  /** One compiled operation needs another: it is of an earlier stage and the answers say so. */
  ghost predicate Needed(catalog: seq<Operation>, answers: Answers, p: Operation, q: Operation) {
    && Compiled(catalog, answers, p) && Compiled(catalog, answers, q)
    && q.stage < p.stage && answers.dependency(p.id, q.id) >= DEPENDENCY
  }

  ghost predicate NeededBy(catalog: seq<Operation>, answers: Answers, p: Operation, d: Id) {
    exists q: Operation :: q.id == d && Needed(catalog, answers, p, q)
  }

  /** The step stands for a compiled operation, and depends on exactly the operations that one needs. */
  ghost predicate Stands(catalog: seq<Operation>, answers: Answers, step: Step, op: Operation) {
    && Compiled(catalog, answers, op) && Describes(step, op)
    && forall d :: d != REVIEW ==> (d in step.dependsOn <==> NeededBy(catalog, answers, op, d))
  }

  ghost predicate StandsForOne(catalog: seq<Operation>, answers: Answers, step: Step) {
    exists op :: Stands(catalog, answers, step, op)
  }

  /** Apart from the review, the steps are the compiled operations, each with what it needs. */
  ghost predicate Renders(catalog: seq<Operation>, answers: Answers, steps: seq<Step>) {
    && (forall i :: 0 <= i < |steps| && steps[i].id != REVIEW ==> StandsForOne(catalog, answers, steps[i]))
    && (forall op :: Compiled(catalog, answers, op) ==> HasStep(steps, op.id))
  }

  ghost predicate Covers(catalog: seq<Operation>, answers: Answers, selected: seq<Selected>) {
    forall op :: Includes(selected, op) <==> Compiled(catalog, answers, op)
  }

  lemma LinkedStands(catalog: seq<Operation>, answers: Answers, selected: seq<Selected>, linked: Selected, i: nat)
    requires Covers(catalog, answers, selected) && i < |selected| && LinkedAt(selected, answers, linked, i)
    ensures Stands(catalog, answers, ToStep(linked), linked.spec)
  {
    assert selected[i] in selected;
    assert Includes(selected, linked.spec);
    forall d ensures Feeds(selected, answers, i, d) <==> NeededBy(catalog, answers, linked.spec, d) {
      if Feeds(selected, answers, i, d) {
        var j :| 0 <= j < |selected| && selected[j].spec.id == d && FeedsInto(selected, answers, i, j);
        assert selected[j] in selected && Includes(selected, selected[j].spec);
        assert Needed(catalog, answers, linked.spec, selected[j].spec);
      }
      if NeededBy(catalog, answers, linked.spec, d) {
        var q: Operation :| q.id == d && Needed(catalog, answers, linked.spec, q);
        assert Includes(selected, q);
        var s :| s in selected && s.spec == q;
        var j :| 0 <= j < |selected| && selected[j] == s;
        assert FeedsInto(selected, answers, i, j);
      }
    }
  }

  lemma CompiledRenders(
    catalog: seq<Operation>, answers: Answers, selected: seq<Selected>, linked: seq<Selected>, steps: seq<Step>)
    requires Covers(catalog, answers, selected) && |linked| == |selected| == |steps|
    requires forall i :: 0 <= i < |linked| ==> LinkedAt(selected, answers, linked[i], i)
    requires forall i :: 0 <= i < |steps| ==> steps[i] == ToStep(linked[i])
    ensures Renders(catalog, answers, steps)
  {
    forall i | 0 <= i < |steps| ensures StandsForOne(catalog, answers, steps[i]) {
      LinkedStands(catalog, answers, selected, linked[i], i);
    }
    forall op | Compiled(catalog, answers, op) ensures HasStep(steps, op.id) {
      assert Includes(selected, op);
      var s :| s in selected && s.spec == op;
      var i :| 0 <= i < |selected| && selected[i] == s;
      assert steps[i] == ToStep(linked[i]) && LinkedAt(selected, answers, linked[i], i);
      assert steps[i].id == op.id;
    }
  }

  lemma AwaitStands(catalog: seq<Operation>, answers: Answers, step: Step)
    requires StandsForOne(catalog, answers, step)
    ensures StandsForOne(catalog, answers, Await(step))
  {
    var op :| Stands(catalog, answers, step, op);
    assert Stands(catalog, answers, Await(step), op);
  }

  lemma GatedStep(catalog: seq<Operation>, answers: Answers, steps: seq<Step>, r: seq<Step>, at: nat, i: nat)
    requires forall j :: 0 <= j < |steps| ==> StandsForOne(catalog, answers, steps[j])
    requires GateAt(r, at) && Wraps(steps, r, at) && i < |r| && r[i].id != REVIEW
    ensures StandsForOne(catalog, answers, r[i])
  {
    if i > at {
      assert r[i - 1 + 1] == Await(steps[i - 1]);
      AwaitStands(catalog, answers, steps[i - 1]);
    }
  }

  lemma GatedRenders(catalog: seq<Operation>, answers: Answers, steps: seq<Step>, r: seq<Step>, at: nat)
    requires Usable(catalog) && Renders(catalog, answers, steps) && GateAt(r, at) && Wraps(steps, r, at)
    requires forall s :: s in steps ==> s.id != REVIEW
    ensures Renders(catalog, answers, r)
  {
    forall j | 0 <= j < |steps| ensures StandsForOne(catalog, answers, steps[j]) { assert steps[j] in steps; }
    forall i | 0 <= i < |r| && r[i].id != REVIEW ensures StandsForOne(catalog, answers, r[i]) {
      GatedStep(catalog, answers, steps, r, at, i);
    }
    forall op | Compiled(catalog, answers, op) ensures HasStep(r, op.id) {
      assert Fits(op);
      GatedIds(steps, r, at, op.id);
    }
  }

  /** The step graph of a draft.  It passes every check; it is gated exactly when the answers or a
      destructive operation ask for it, and then every write waits for the review before it; an update
      never meets a clear; the primary operation is in it exactly when fewer than six others of the chosen
      ones come first; and apart from the review its steps are exactly the compiled operations, each
      depending on exactly the earlier-stage ones the answers say it needs. */
  method CompileSteps(catalog: seq<Operation>, answers: Answers) returns (r: Option<seq<Step>>)
    requires Usable(catalog)
    ensures r.Some? <==> exists op :: op in catalog && op.id == answers.primary
    ensures r.Some? ==> WellFormed(r.value) && 1 <= |r.value| <= MAX_OPERATIONS + 1
    ensures r.Some? ==> (HasStep(r.value, REVIEW) <==>
                         answers.approval >= APPROVAL || answers.risk >= 2.0 || HasStep(r.value, CLEAR))
    ensures r.Some? && HasStep(r.value, REVIEW) ==> exists at :: GateAt(r.value, at)
    ensures r.Some? ==> !HasStep(r.value, UPDATE) || !HasStep(r.value, CLEAR)
    ensures r.Some? ==> (HasStep(r.value, answers.primary) <==> PrimaryFits(catalog, answers))
    ensures r.Some? ==> Renders(catalog, answers, r.value)
  {
    var known := exists op :: op in catalog && op.id == answers.primary;
    if !known { return None; }
    var steps := Ungated(catalog, answers);
    var destructive := exists i :: 0 <= i < |steps| && steps[i].id == CLEAR;
    if answers.approval >= APPROVAL || answers.risk >= 2.0 || destructive {
      var gated, at := InsertApproval(steps);
      GatedWellFormed(steps, gated, at);
      GatedRenders(catalog, answers, steps, gated, at);
      GatedIds(steps, gated, at, CLEAR);
      GatedIds(steps, gated, at, UPDATE);
      GatedIds(steps, gated, at, answers.primary);
      return Some(gated);
    }
    forall i | 0 <= i < |steps| ensures steps[i].id != REVIEW { assert steps[i] in steps; }
    return Some(steps);
  }

  /** The steps before any gate. */
  method Ungated(catalog: seq<Operation>, answers: Answers) returns (steps: seq<Step>)
    requires Usable(catalog) && exists op :: op in catalog && op.id == answers.primary
    ensures WellFormed(steps) && 1 <= |steps| <= MAX_OPERATIONS && forall s :: s in steps ==> s.id != REVIEW
    ensures !HasStep(steps, UPDATE) || !HasStep(steps, CLEAR)
    ensures HasStep(steps, answers.primary) <==> PrimaryFits(catalog, answers)
    ensures Renders(catalog, answers, steps) && answers.primary != REVIEW
  {
    var selected := Choose(catalog, answers);
    var linked := AddDependencies(selected, answers);
    steps := ToSteps(linked);
    CompiledWellFormed(catalog, selected, answers, linked, steps);
    CompiledRenders(catalog, answers, selected, linked, steps);
    forall i | 0 <= i < |steps| ensures steps[i].id == selected[i].spec.id {
      assert LinkedAt(selected, answers, linked[i], i);
    }
    SameIds(selected, steps, CLEAR);
    SameIds(selected, steps, UPDATE);
    SameIds(selected, steps, answers.primary);
  }

  /** The operations to compile: never none, and never both an update and a clear. */
  method Choose(catalog: seq<Operation>, answers: Answers) returns (selected: seq<Selected>)
    requires Usable(catalog) && exists op :: op in catalog && op.id == answers.primary
    ensures Ascending(selected) && 1 <= |selected| <= MAX_OPERATIONS
    ensures forall s :: s in selected ==> s.spec in catalog && Chosen(answers, s.spec) && s.dependsOn == []
    ensures forall u, c :: u in selected && c in selected && u.spec.id == UPDATE ==> c.spec.id != CLEAR
    ensures (exists s :: s in selected && s.spec.id == answers.primary) <==> PrimaryFits(catalog, answers)
    ensures Covers(catalog, answers, selected)
  {
    var chosen := SelectOperations(catalog, answers);
    selected := ResolveOperationConflicts(chosen, answers.primary);
    ChosenCompiled(catalog, answers, chosen, selected);
    ghost var primary :| primary in catalog && primary.id == answers.primary;
    assert chosen != [];
    OneOfBoth(chosen, selected, answers.primary);
    PrimaryKept(catalog, answers, chosen, selected, primary);
  }

  /** The operation is chosen and fewer than six chosen ones come before it. */
  ghost predicate Fitting(catalog: seq<Operation>, answers: Answers, op: Operation) {
    op in catalog && Chosen(answers, op) && |Ahead(catalog, answers, op)| < MAX_OPERATIONS
  }

  /** An update and a clear both fit, and this is the one that gives way: the one that is not primary, or
      else the less relevant one, the clear when they are equally relevant. */
  ghost predicate GivesWay(catalog: seq<Operation>, answers: Answers, op: Operation) {
    exists u, c :: Fitting(catalog, answers, u) && Fitting(catalog, answers, c) && u.id == UPDATE && c.id == CLEAR
      && op == if UpdateYields(answers) then u else c
  }

  ghost predicate Compiled(catalog: seq<Operation>, answers: Answers, op: Operation) {
    Fitting(catalog, answers, op) && !GivesWay(catalog, answers, op)
  }

  lemma ChosenFits(catalog: seq<Operation>, answers: Answers, chosen: seq<Selected>)
    requires Ascending(chosen) && |chosen| <= MAX_OPERATIONS
    requires forall s :: s in chosen ==> s.spec in catalog && Chosen(answers, s.spec)
    requires forall o :: o in catalog && Chosen(answers, o) ==>
               Includes(chosen, o) || (|chosen| == MAX_OPERATIONS && forall s :: s in chosen ==> Precedes(s.spec, o))
    ensures forall op :: Includes(chosen, op) <==> Fitting(catalog, answers, op)
  {
    forall op ensures Includes(chosen, op) <==> Fitting(catalog, answers, op) {
      if op in catalog && Chosen(answers, op) { IncludedExactly(catalog, answers, chosen, op); }
    }
  }

  /** Whether the update gives way to the clear. */
  predicate UpdateYields(answers: Answers) {
    answers.primary == CLEAR || (answers.primary != UPDATE && answers.relevance(CLEAR) > answers.relevance(UPDATE))
  }

  lemma LosesGivesWay(catalog: seq<Operation>, answers: Answers, chosen: seq<Selected>, s: Selected)
    requires forall x :: x in chosen ==> x == Pick(answers, x.spec)
    requires forall op :: Includes(chosen, op) <==> Fitting(catalog, answers, op)
    requires Loses(chosen, answers.primary, s)
    ensures GivesWay(catalog, answers, s.spec)
  {
    var u, c :| u in chosen && c in chosen && u.spec.id == UPDATE && c.spec.id == CLEAR
      && s == if answers.primary == CLEAR || (answers.primary != UPDATE && c.probability > u.probability) then u else c;
    assert Includes(chosen, u.spec) && Includes(chosen, c.spec);
    assert s == if UpdateYields(answers) then u else c;
  }

  lemma GivesWayLoses(catalog: seq<Operation>, answers: Answers, chosen: seq<Selected>, s: Selected)
    requires forall x :: x in chosen ==> x == Pick(answers, x.spec)
    requires forall op :: Includes(chosen, op) <==> Fitting(catalog, answers, op)
    requires s in chosen && GivesWay(catalog, answers, s.spec)
    ensures Loses(chosen, answers.primary, s)
  {
    var u, c :| Fitting(catalog, answers, u) && Fitting(catalog, answers, c) && u.id == UPDATE && c.id == CLEAR
      && s.spec == if UpdateYields(answers) then u else c;
    assert Includes(chosen, u) && Includes(chosen, c);
    assert Pick(answers, u) in chosen && Pick(answers, c) in chosen;
  }

  lemma ChosenCompiled(catalog: seq<Operation>, answers: Answers, chosen: seq<Selected>, selected: seq<Selected>)
    requires Ascending(chosen) && |chosen| <= MAX_OPERATIONS
    requires forall s :: s in chosen ==> s.spec in catalog && Chosen(answers, s.spec) && s == Pick(answers, s.spec)
    requires forall o :: o in catalog && Chosen(answers, o) ==>
               Includes(chosen, o) || (|chosen| == MAX_OPERATIONS && forall s :: s in chosen ==> Precedes(s.spec, o))
    requires forall s :: s in selected <==> s in chosen && !Loses(chosen, answers.primary, s)
    ensures Covers(catalog, answers, selected)
  {
    ChosenFits(catalog, answers, chosen);
    forall s | s in chosen ensures Loses(chosen, answers.primary, s) <==> GivesWay(catalog, answers, s.spec) {
      if Loses(chosen, answers.primary, s) { LosesGivesWay(catalog, answers, chosen, s); }
      if GivesWay(catalog, answers, s.spec) { GivesWayLoses(catalog, answers, chosen, s); }
    }
    forall op ensures Includes(selected, op) <==> Compiled(catalog, answers, op) {
      if Includes(chosen, op) {
        var s :| s in chosen && s.spec == op;
        assert s in selected <==> !GivesWay(catalog, answers, op);
      }
    }
  }

  /** Fewer than six chosen operations come before the primary one. */
  ghost predicate PrimaryFits(catalog: seq<Operation>, answers: Answers) {
    exists op :: op in catalog && op.id == answers.primary && |Ahead(catalog, answers, op)| < MAX_OPERATIONS
  }

  lemma SameOperation(catalog: seq<Operation>, a: Operation, b: Operation)
    requires Usable(catalog) && a in catalog && b in catalog && a.id == b.id
    ensures a == b
  {
    var i :| 0 <= i < |catalog| && catalog[i] == a;
    var j :| 0 <= j < |catalog| && catalog[j] == b;
  }

  /** The primary operation never gives way in a conflict, so only the cap can drop it. */
  lemma PrimaryKept(
    catalog: seq<Operation>, answers: Answers, chosen: seq<Selected>, selected: seq<Selected>, primary: Operation)
    requires Usable(catalog) && primary in catalog && primary.id == answers.primary
    requires Ascending(chosen) && |chosen| <= MAX_OPERATIONS
    requires forall s :: s in chosen ==> s.spec in catalog && Chosen(answers, s.spec)
    requires forall o :: o in catalog && Chosen(answers, o) ==>
               Includes(chosen, o) || (|chosen| == MAX_OPERATIONS && forall s :: s in chosen ==> Precedes(s.spec, o))
    requires forall s :: s in selected <==> s in chosen && !Loses(chosen, answers.primary, s)
    ensures (exists s :: s in selected && s.spec.id == answers.primary) <==> PrimaryFits(catalog, answers)
  {
    IncludedExactly(catalog, answers, chosen, primary);
    forall op | op in catalog && op.id == answers.primary ensures op == primary { SameOperation(catalog, op, primary); }
    PrimaryWins(chosen, answers.primary);
  }

  lemma PrimaryWins(chosen: seq<Selected>, primary: Id)
    ensures forall s :: s in chosen && s.spec.id == primary ==> !Loses(chosen, primary, s)
  {
  }

  lemma OneOfBoth(chosen: seq<Selected>, selected: seq<Selected>, primary: Id)
    requires Ascending(chosen) && forall s :: s in selected <==> s in chosen && !Loses(chosen, primary, s)
    ensures forall u, c :: u in selected && c in selected && u.spec.id == UPDATE ==> c.spec.id != CLEAR
  {
  }

  lemma SameIds(selected: seq<Selected>, steps: seq<Step>, id: Id)
    requires |steps| == |selected| && forall i :: 0 <= i < |steps| ==> steps[i].id == selected[i].spec.id
    ensures HasStep(steps, id) <==> exists s :: s in selected && s.spec.id == id
  {
  }

  lemma GatedIds(steps: seq<Step>, r: seq<Step>, at: nat, id: Id)
    requires GateAt(r, at) && Wraps(steps, r, at) && id != REVIEW
    ensures HasStep(r, REVIEW) && (HasStep(r, id) <==> HasStep(steps, id))
  {
    if HasStep(steps, id) {
      var i :| 0 <= i < |steps| && steps[i].id == id;
      if i < at { assert r[i].id == id; } else { assert r[i + 1] == Await(steps[i]); }
    }
    if HasStep(r, id) {
      var i :| 0 <= i < |r| && r[i].id == id;
      if i < at { assert steps[i].id == id; } else { assert r[i - 1 + 1] == Await(steps[i - 1]); }
    }
  }

  lemma CatalogTitles(op: Operation)
    requires op in CATALOG
    ensures !Blank(op.title)
  {
    NotBlank(op.title);
  }

  lemma CatalogConnectors(op: Operation)
    requires op in CATALOG
    ensures !Blank(op.connector) && !Blank(op.operation)
  {
    NotBlank(op.connector);
    NotBlank(op.operation);
  }

  lemma CatalogNames(op: Operation)
    requires op in CATALOG
    ensures IsIdentifier(op.id)
  {
    var i :| 0 <= i < |CATALOG| && CATALOG[i] == op;
    if i < 4 { FirstNames(i); } else { LastNames(i); }
  }

  lemma FirstNames(i: nat)
    requires i < 4
    ensures IsIdentifier(CATALOG[i].id)
  {
  }

  lemma LastNames(i: nat)
    requires 4 <= i < |CATALOG|
    ensures IsIdentifier(CATALOG[i].id)
  {
  }

  lemma CatalogEffects(op: Operation)
    requires op in CATALOG
    ensures op.id != REVIEW && KnownEffect(op.effect)
  {
  }

  lemma CatalogIdsDiffer(i: nat, j: nat)
    requires i < j < |CATALOG|
    ensures CATALOG[i].id != CATALOG[j].id
  {
  }

  lemma CatalogIsUsable()
    ensures Usable(CATALOG)
  {
    forall i, j | 0 <= i < j < |CATALOG| ensures CATALOG[i].id != CATALOG[j].id { CatalogIdsDiffer(i, j); }
    forall op | op in CATALOG ensures Fits(op) {
      CatalogNames(op);
      CatalogEffects(op);
      CatalogTitles(op);
      CatalogConnectors(op);
    }
  }

  /** Everything in the shipped catalog is relevant, and updating a sheet is the point. */
  function Everything(): Answers { Answers(UPDATE, id => 0.0, id => 1.0, (later, earlier) => 0.0, 0.0, 0.0) }

  ghost function FirstOf(catalog: seq<Operation>, n: nat): set<Operation>
    requires n <= |catalog|
  {
    set i | 0 <= i < n :: catalog[i]
  }

  lemma {:induction false} FirstCount(catalog: seq<Operation>, n: nat)
    requires Usable(catalog) && n <= |catalog|
    ensures |FirstOf(catalog, n)| == n
  {
    if n > 0 {
      FirstCount(catalog, n - 1);
      assert FirstOf(catalog, n) == FirstOf(catalog, n - 1) + {catalog[n - 1]};
    }
  }

  lemma SixFirst(catalog: seq<Operation>, answers: Answers)
    requires Usable(catalog) && |catalog| > 6
    requires forall i :: 0 <= i < 6 ==> Precedes(catalog[i], catalog[6]) && Chosen(answers, catalog[i])
    ensures |Ahead(catalog, answers, catalog[6])| >= MAX_OPERATIONS
  {
    FirstCount(catalog, 6);
    SubsetSize(FirstOf(catalog, 6), Ahead(catalog, answers, catalog[6]));
  }

  lemma EarlierInCatalog(i: nat)
    requires i < 6
    ensures Precedes(CATALOG[i], CATALOG[6])
  {
    assert Leq(CATALOG[5].id, CATALOG[6].id);
  }

  /** The cap does drop a primary operation of the shipped catalog. */
  method PrimaryDropped() returns (answers: Answers, steps: seq<Step>)
    ensures steps != [] && !HasStep(steps, answers.primary) && exists op :: op in CATALOG && op.id == answers.primary
  {
    CatalogIsUsable();
    answers := Everything();
    forall i | 0 <= i < 6 ensures Precedes(CATALOG[i], CATALOG[6]) { EarlierInCatalog(i); }
    SixFirst(CATALOG, answers);
    assert CATALOG[6] in CATALOG;
    var compiled := CompileSteps(CATALOG, answers);
    forall op | op in CATALOG && op.id == UPDATE ensures op == CATALOG[6] { OneUpdate(op); }
    steps := compiled.value;
  }

  lemma OneUpdate(op: Operation)
    requires op in CATALOG && op.id == UPDATE
    ensures op == CATALOG[6]
  {
    CatalogIsUsable();
    SameOperation(CATALOG, op, CATALOG[6]);
  }
}
