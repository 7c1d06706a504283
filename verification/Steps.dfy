/** The authored step graph: its checks, and the search for a dependency cycle. */
module Steps {
  import opened Basics
  import opened Text

  datatype Step = Step(id: Id, title: string, connector: string, operation: string, effect: string, dependsOn: seq<Id>)

  datatype Problem =
    | WrongCount
    | BadId(index: nat)
    | Duplicate(index: nat)
    | Incomplete(index: nat)
    | BadEffect(index: nat)
    | Unknown(id: Id, dependency: Id)
    | Misplaced(id: Id, dependency: Id)
    | Cycle

  /** What each step id depends on; of several declarations the last one counts. */
  type Graph = map<Id, seq<Id>>

  function Needs(graph: Graph, id: Id): seq<Id> { if id in graph then graph[id] else [] }

  predicate Edge(graph: Graph, x: Id, y: Id) { y in Needs(graph, x) }

  /** Each step of the walk depends on the next. */
  ghost predicate Walk(graph: Graph, walk: seq<Id>) {
    forall i :: 0 <= i < |walk| - 1 ==> Link(graph, walk, i)
  }

  predicate Link(graph: Graph, walk: seq<Id>, i: nat)
    requires i < |walk| - 1
  {
    Edge(graph, walk[i], walk[i + 1])
  }

  ghost predicate Cyclic(graph: Graph) {
    exists walk :: |walk| >= 2 && Walk(graph, walk) && walk[0] == walk[|walk| - 1]
  }

  // ---------------------------------------------------------------- the search

  /** Every entry depends only on entries before it. */
  ghost predicate Topological(graph: Graph, order: seq<Id>) {
    forall i :: 0 <= i < |order| ==> Grounded(graph, order, i)
  }

  ghost predicate Grounded(graph: Graph, order: seq<Id>, i: nat)
    requires i < |order|
  {
    forall y :: Edge(graph, order[i], y) ==> y in order[..i]
  }

  /** The first place an id has in the order. */
  function Place(order: seq<Id>, x: Id): (k: nat)
    requires x in order
    ensures k < |order| && order[k] == x && forall j :: 0 <= j < k ==> order[j] != x
  {
    if order[0] == x then 0 else
    assert order == [order[0]] + order[1..];
    1 + Place(order[1..], x)
  }

  /** Along a walk that starts in a topological order, places go down. */
  lemma {:induction false} WalkDescends(graph: Graph, order: seq<Id>, walk: seq<Id>, n: nat)
    requires Topological(graph, order) && Walk(graph, walk) && n < |walk| && walk[0] in order
    ensures walk[n] in order && Place(order, walk[n]) + n <= Place(order, walk[0])
  {
    if n > 0 {
      WalkDescends(graph, order, walk, n - 1);
      var k := Place(order, walk[n - 1]);
      assert Link(graph, walk, n - 1);
      assert Grounded(graph, order, k);
      PlaceWithin(order, k, walk[n]);
    }
  }

  lemma PlaceWithin(order: seq<Id>, k: nat, x: Id)
    requires k <= |order| && x in order[..k]
    ensures x in order && Place(order, x) < k
  {
  }

  lemma OrderedIsAcyclic(graph: Graph, order: seq<Id>)
    requires Topological(graph, order) && forall x :: x in graph ==> x in order
    ensures !Cyclic(graph)
  {
    if walk :| |walk| >= 2 && Walk(graph, walk) && walk[0] == walk[|walk| - 1] {
      assert Link(graph, walk, 0);
      WalkDescends(graph, order, walk, |walk| - 1);
      assert false;
    }
  }

  /** The ids a search can meet. */
  function Ids(graph: Graph): set<Id> {
    graph.Keys + set x, y | x in graph && y in graph[x] :: y
  }

  /** The set of ids in the list. */
  ghost predicate Holds(ids: set<Id>, list: seq<Id>) { forall x :: x in ids <==> x in list }

  class Search {
    const graph: Graph
    var visiting: set<Id>
    var visited: set<Id>
    /** The ids being visited, outermost first, and the visited ones in the order they were left. */
    ghost var stack: seq<Id>
    ghost var order: seq<Id>

    constructor (graph: Graph)
      ensures this.graph == graph && Valid() && stack == [] && visited == {}
    {
      this.graph, visiting, visited, stack, order := graph, {}, {}, [], [];
    }

    ghost predicate Valid()
      reads this
    {
      && Holds(visiting, stack) && Holds(visited, order)
      && visiting <= Ids(graph) && Walk(graph, stack) && Topological(graph, order)
    }

    method Enter(id: Id)
      requires Valid() && id in Ids(graph) && id !in visiting && (stack != [] ==> Edge(graph, stack[|stack| - 1], id))
      modifies this
      ensures Valid() && visiting == old(visiting) + {id} && stack == old(stack) + [id] && visited == old(visited)
    {
      PushedWalk(graph, stack, id);
      visiting := visiting + {id};
      stack := stack + [id];
    }

    method Leave(id: Id)
      requires Valid() && stack != [] && stack[|stack| - 1] == id && id !in stack[..|stack| - 1]
      requires forall y :: y in Needs(graph, id) ==> y in visited
      modifies this
      ensures Valid() && visiting == old(visiting) - {id} && visited == old(visited) + {id}
      ensures stack == old(stack)[..|old(stack)| - 1]
    {
      assert stack == stack[..|stack| - 1] + [id];
      PoppedWalk(graph, stack);
      LeftLast(graph, order, id);
      visiting := visiting - {id};
      visited := visited + {id};
      stack := stack[..|stack| - 1];
      order := order + [id];
    }

    method Visit(id: Id) returns (cyclic: bool)
      requires Valid() && id in Ids(graph) && (stack != [] ==> Edge(graph, stack[|stack| - 1], id))
      modifies this
      ensures cyclic ==> Cyclic(graph)
      ensures !cyclic ==> Valid() && visiting == old(visiting) && stack == old(stack) && id in visited && old(visited) <= visited
      decreases |Ids(graph) - visiting|, 0
    {
      if id in visiting {
        Closes(graph, stack, id);
        return true;
      }
      if id in visited { return false; }
      Shrinks(Ids(graph), visiting, id);
      Enter(id);
      cyclic := VisitNeeds(id);
      if !cyclic {
        assert stack[..|stack| - 1] == old(stack);
        Leave(id);
      }
    }

    /** The loop of a visit, over what the id depends on. */
    method VisitNeeds(id: Id) returns (cyclic: bool)
      requires Valid() && stack != [] && stack[|stack| - 1] == id
      modifies this
      ensures cyclic ==> Cyclic(graph)
      ensures !cyclic ==> Valid() && visiting == old(visiting) && stack == old(stack) && old(visited) <= visited
      ensures !cyclic ==> forall y :: y in Needs(graph, id) ==> y in visited
      decreases |Ids(graph) - visiting|, 1
    {
      var needs := Needs(graph, id);
      for k := 0 to |needs|
        invariant Valid() && visiting == old(visiting) && stack == old(stack) && old(visited) <= visited
        invariant forall j :: 0 <= j < k ==> needs[j] in visited
      {
        NeededIsKnown(graph, id, needs[k]);
        var found := Visit(needs[k]);
        if found { return true; }
      }
      return false;
    }
  }

  lemma NeededIsKnown(graph: Graph, x: Id, y: Id)
    requires Edge(graph, x, y)
    ensures y in Ids(graph)
  {
  }

  lemma PushedWalk(graph: Graph, stack: seq<Id>, id: Id)
    requires Walk(graph, stack) && (stack != [] ==> Edge(graph, stack[|stack| - 1], id))
    ensures Walk(graph, stack + [id])
  {
    var more := stack + [id];
    forall i | 0 <= i < |more| - 1 ensures Link(graph, more, i) {
      if i < |stack| - 1 { assert Link(graph, stack, i); }
    }
  }

  lemma PoppedWalk(graph: Graph, stack: seq<Id>)
    requires Walk(graph, stack) && stack != []
    ensures Walk(graph, stack[..|stack| - 1])
  {
    var less := stack[..|stack| - 1];
    forall i | 0 <= i < |less| - 1 ensures Link(graph, less, i) { assert Link(graph, stack, i); }
  }

  lemma LeftLast(graph: Graph, order: seq<Id>, id: Id)
    requires Topological(graph, order) && forall y :: y in Needs(graph, id) ==> y in order
    ensures Topological(graph, order + [id])
  {
    var more := order + [id];
    forall i | 0 <= i < |more| ensures Grounded(graph, more, i) {
      if i < |order| { assert Grounded(graph, order, i) && more[..i] == order[..i]; } else { assert more[..i] == order; }
    }
  }

  lemma Shrinks(all: set<Id>, below: set<Id>, id: Id)
    requires id in all && id !in below
    ensures |all - (below + {id})| < |all - below|
  {
    assert all - below == (all - (below + {id})) + {id};
  }

  lemma Closes(graph: Graph, stack: seq<Id>, id: Id)
    requires Walk(graph, stack) && id in stack && Edge(graph, stack[|stack| - 1], id)
    ensures Cyclic(graph)
  {
    var k :| 0 <= k < |stack| && stack[k] == id;
    var walk := stack[k..] + [id];
    forall i | 0 <= i < |walk| - 1 ensures Link(graph, walk, i) {
      if i < |walk| - 2 { assert Link(graph, stack, k + i); }
    }
    assert Walk(graph, walk);
  }

  /** The search finds a cycle exactly when there is one, whatever order the ids come in. */
  method HasCycle(graph: Graph) returns (cyclic: bool)
    ensures cyclic <==> Cyclic(graph)
  {
    var search := new Search(graph);
    var left := graph.Keys;
    while left != {}
      invariant left <= graph.Keys && search.Valid() && search.stack == [] && fresh(search) && search.graph == graph
      invariant forall x :: x in graph && x !in left ==> x in search.visited
      decreases |left|
    {
      var id :| id in left;
      left := left - {id};
      var found := search.Visit(id);
      if found { return true; }
    }
    OrderedIsAcyclic(graph, search.order);
    return false;
  }

  // ---------------------------------------------------------------- the checks

  predicate IsIdentifier(s: string) {
    && 1 <= |s| <= 63 && 'a' <= s[0] <= 'z'
    && forall i :: 0 <= i < |s| ==> 'a' <= s[i] <= 'z' || Digit(s[i]) || s[i] == '-'
  }

  predicate Complete(step: Step) { !Blank(step.title) && !Blank(step.connector) && !Blank(step.operation) }

  predicate KnownEffect(effect: string) { effect in ["read", "write", "compute", "approval"] }

  function Declared(steps: seq<Step>): Graph {
    if steps == [] then map[] else
    var last := |steps| - 1;
    Declared(steps[..last])[steps[last].id := steps[last].dependsOn]
  }

  /** Where each id is declared last. */
  function Positions(steps: seq<Step>): map<Id, nat> {
    if steps == [] then map[] else
    var last := |steps| - 1;
    Positions(steps[..last])[steps[last].id := last]
  }

  lemma {:induction false} PositionsHold(steps: seq<Step>)
    ensures Positions(steps).Keys == Declared(steps).Keys
    ensures forall i :: 0 <= i < |steps| ==> steps[i].id in Positions(steps) && i <= Positions(steps)[steps[i].id]
    ensures forall id :: id in Positions(steps) ==>
              var k := Positions(steps)[id]; k < |steps| && steps[k].id == id && Declared(steps)[id] == steps[k].dependsOn
  {
    if steps != [] {
      var rest := steps[..|steps| - 1];
      PositionsHold(rest);
      forall i | 0 <= i < |steps| ensures steps[i].id in Positions(steps) && i <= Positions(steps)[steps[i].id] {
        if i < |rest| { assert rest[i] == steps[i]; }
      }
    }
  }

  predicate Repeats(steps: seq<Step>, i: nat)
    requires i < |steps|
  {
    exists j :: 0 <= j < i && steps[j].id == steps[i].id
  }

  predicate Late(steps: seq<Step>, id: Id, d: Id) {
    id in Positions(steps) && d in Positions(steps) && Positions(steps)[d] >= Positions(steps)[id]
  }

  /** When each problem is there. */
  ghost predicate Objects(steps: seq<Step>, q: Problem) {
    match q
    case WrongCount => false
    case BadId(i) => i < |steps| && !IsIdentifier(steps[i].id)
    case Duplicate(i) => i < |steps| && Repeats(steps, i)
    case Incomplete(i) => i < |steps| && !Complete(steps[i])
    case BadEffect(i) => i < |steps| && !KnownEffect(steps[i].effect)
    case Unknown(id, d) => Edge(Declared(steps), id, d) && d !in Declared(steps)
    case Misplaced(id, d) => Edge(Declared(steps), id, d) && Late(steps, id, d)
    case Cycle => Cyclic(Declared(steps))
  }

  /** Problems of single steps, and what the later checks need. */
  method CheckEach(steps: seq<Step>) returns (problems: seq<Problem>, graph: Graph, positions: map<Id, nat>)
    ensures graph == Declared(steps) && positions == Positions(steps)
    ensures forall q :: q in problems <==>
              (q.BadId? || q.Duplicate? || q.Incomplete? || q.BadEffect?) && q.index < |steps| && Objects(steps, q)
  {
    problems, graph, positions := [], map[], map[];
    for k := 0 to |steps|
      invariant graph == Declared(steps[..k]) && positions == Positions(steps[..k])
      invariant forall q :: q in problems <==>
                  (q.BadId? || q.Duplicate? || q.Incomplete? || q.BadEffect?) && q.index < k && Objects(steps, q)
    {
      var step := steps[k];
      assert steps[..k + 1][..k] == steps[..k];
      SeenBefore(steps, k);
      if !IsIdentifier(step.id) { problems := problems + [BadId(k)]; }
      if step.id in graph { problems := problems + [Duplicate(k)]; }
      if !Complete(step) { problems := problems + [Incomplete(k)]; }
      if !KnownEffect(step.effect) { problems := problems + [BadEffect(k)]; }
      graph := graph[step.id := step.dependsOn];
      positions := positions[step.id := k];
    }
    assert steps[..|steps|] == steps;
  }

  lemma SeenBefore(steps: seq<Step>, k: nat)
    requires k < |steps|
    ensures steps[k].id in Declared(steps[..k]) <==> Repeats(steps, k)
  {
    PositionsHold(steps[..k]);
    if Repeats(steps, k) {
      var j :| 0 <= j < k && steps[j].id == steps[k].id;
      assert steps[..k][j].id == steps[k].id;
    }
  }

  ghost predicate Ordering(graph: Graph, positions: map<Id, nat>, q: Problem)
    requires positions.Keys == graph.Keys
  {
    || (q.Unknown? && Edge(graph, q.id, q.dependency) && q.dependency !in graph)
    || (q.Misplaced? && Edge(graph, q.id, q.dependency) && q.dependency in graph && q.id in graph
        && positions[q.dependency] >= positions[q.id])
  }

  method CheckOrder(graph: Graph, positions: map<Id, nat>) returns (problems: seq<Problem>)
    requires positions.Keys == graph.Keys
    ensures forall q :: q in problems <==> Ordering(graph, positions, q)
  {
    problems := [];
    var left := graph.Keys;
    while left != {}
      invariant left <= graph.Keys
      invariant forall q :: q in problems <==> Ordering(graph, positions, q) && q.id !in left
      decreases |left|
    {
      var id :| id in left;
      var found := CheckNeeds(graph, positions, id);
      problems := problems + found;
      left := left - {id};
    }
  }

  method CheckNeeds(graph: Graph, positions: map<Id, nat>, id: Id) returns (problems: seq<Problem>)
    requires positions.Keys == graph.Keys && id in graph
    ensures forall q :: q in problems <==> Ordering(graph, positions, q) && q.id == id
  {
    problems := [];
    var needs := graph[id];
    for k := 0 to |needs|
      invariant forall q :: q in problems <==> Ordering(graph, positions, q) && q.id == id && q.dependency in needs[..k]
    {
      var d := needs[k];
      assert needs[..k + 1] == needs[..k] + [d];
      if d !in graph { problems := problems + [Unknown(id, d)]; }
      else if positions[d] >= positions[id] { problems := problems + [Misplaced(id, d)]; }
    }
    assert needs[..|needs|] == needs;
  }

  /** The reported problems are exactly the ones there are. */
  method ValidateSteps(steps: seq<Step>) returns (problems: seq<Problem>)
    ensures |steps| == 0 || |steps| > 32 ==> problems == [WrongCount]
    ensures 1 <= |steps| <= 32 ==> forall q :: q in problems <==> Objects(steps, q)
  {
    if |steps| == 0 || |steps| > 32 { return [WrongCount]; }
    var graph, positions;
    problems, graph, positions := CheckEach(steps);
    PositionsHold(steps);
    var misplaced := CheckOrder(graph, positions);
    forall q ensures Ordering(graph, positions, q) <==> (q.Unknown? || q.Misplaced?) && Objects(steps, q) {
    }
    problems := problems + misplaced;
    var cyclic := HasCycle(graph);
    if cyclic { problems := problems + [Cycle]; }
  }

  // ---------------------------------------------------------------- what passing means

  /** A list that passes the position check has no cycle: the search then never reports one. */
  lemma PlacedIsAcyclic(steps: seq<Step>)
    requires forall id, d :: !Objects(steps, Misplaced(id, d))
    ensures !Cyclic(Declared(steps))
  {
    var graph := Declared(steps);
    PositionsHold(steps);
    if walk :| |walk| >= 2 && Walk(graph, walk) && walk[0] == walk[|walk| - 1] {
      assert Link(graph, walk, 0);
      PlacesDescend(steps, walk, |walk| - 1);
      assert false;
    }
  }

  lemma {:induction false} PlacesDescend(steps: seq<Step>, walk: seq<Id>, n: nat)
    requires forall id, d :: !Objects(steps, Misplaced(id, d))
    requires Positions(steps).Keys == Declared(steps).Keys
    requires Walk(Declared(steps), walk) && n < |walk| && walk[0] in Declared(steps) && walk[|walk| - 1] in Declared(steps)
    ensures walk[n] in Declared(steps) && Positions(steps)[walk[n]] + n <= Positions(steps)[walk[0]]
  {
    if n > 0 {
      PlacesDescend(steps, walk, n - 1);
      assert Link(Declared(steps), walk, n - 1);
      if n < |walk| - 1 { assert Link(Declared(steps), walk, n); }
      assert !Objects(steps, Misplaced(walk[n - 1], walk[n]));
    }
  }

  /** Ids are well formed and used once, steps are complete, and each needs only steps before it. */
  ghost predicate WellFormed(steps: seq<Step>) {
    && (forall i :: 0 <= i < |steps| ==> IsIdentifier(steps[i].id) && Complete(steps[i]) && KnownEffect(steps[i].effect))
    && (forall i, j :: 0 <= i < j < |steps| ==> steps[i].id != steps[j].id)
    && (forall i, d :: 0 <= i < |steps| && d in steps[i].dependsOn ==> DeclaredBefore(steps, i, d))
  }

  ghost predicate DeclaredBefore(steps: seq<Step>, i: nat, d: Id)
    requires i < |steps|
  {
    exists j :: 0 <= j < i && steps[j].id == d
  }

  lemma NeedIsPlaced(steps: seq<Step>, id: Id, d: Id)
    requires WellFormed(steps) && Edge(Declared(steps), id, d)
    ensures d in Declared(steps) && !Late(steps, id, d)
  {
    PositionsHold(steps);
    var k := Positions(steps)[id];
    assert DeclaredBefore(steps, k, d);
    var j :| 0 <= j < k && steps[j].id == d;
    assert steps[Positions(steps)[d]].id == steps[j].id;
  }

  lemma WellFormedPasses(steps: seq<Step>)
    requires WellFormed(steps)
    ensures forall q :: !Objects(steps, q)
  {
    forall id, d ensures !Objects(steps, Misplaced(id, d)) {
      if Edge(Declared(steps), id, d) { NeedIsPlaced(steps, id, d); }
    }
    PlacedIsAcyclic(steps);
    forall q ensures !Objects(steps, q) {
      if q.Unknown? && Edge(Declared(steps), q.id, q.dependency) { NeedIsPlaced(steps, q.id, q.dependency); }
    }
  }

  lemma PassingIsWellFormed(steps: seq<Step>)
    requires forall q :: !Objects(steps, q)
    ensures WellFormed(steps)
  {
    PositionsHold(steps);
    forall i | 0 <= i < |steps| ensures IsIdentifier(steps[i].id) && Complete(steps[i]) && KnownEffect(steps[i].effect) {
      assert !Objects(steps, BadId(i)) && !Objects(steps, Incomplete(i)) && !Objects(steps, BadEffect(i));
    }
    forall i, j | 0 <= i < j < |steps| ensures steps[i].id != steps[j].id {
      assert !Objects(steps, Duplicate(j));
    }
    forall i, d | 0 <= i < |steps| && d in steps[i].dependsOn ensures DeclaredBefore(steps, i, d) {
      var id := steps[i].id;
      assert steps[Positions(steps)[id]].id == id;
      assert Positions(steps)[id] == i;
      assert !Objects(steps, Unknown(id, d)) && !Objects(steps, Misplaced(id, d));
      assert steps[Positions(steps)[d]].id == d;
    }
  }
}
