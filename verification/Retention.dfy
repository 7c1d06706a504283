/** Choosing which stored sources and artifacts may be deleted.

    Records that share a path are one group.  Map iteration order is left open, and so is which of
    several equally new groups a count protects.  Times count from the zero time, before every record.
  */
module Retention {
  import opened Basics
  import opened Tables
  import opened Order

  import opened Collections

  /** In the order of their names, "artifact" before "source". */
  datatype Kind = Artifact | Source

  datatype Record =
    | SourceRecord(id: Id, automation: Id, path: string, createdAt: nat, stage: Stage)
    | ArtifactRecord(id: Id, automation: Id, path: string, createdAt: nat, active: bool, byRun: bool, byDeployment: bool)

  datatype Item = Item(kind: Kind, path: string, resources: seq<Id>, automations: seq<Id>, reason: string)

  /** What is known of one path while records are read. */
  datatype Group = Group(resources: seq<Id>, automations: seq<Id>, newest: nat, held: bool, retryable: bool)

  const UNRESOLVED: Id := "_unresolved"
  const SOURCE_REASON: string := "terminal deployment source exceeded sourceMaxAge"
  const RETRYABLE_REASON: string := SOURCE_REASON + " and keepRetryableSources"
  const ARTIFACT_REASON: string := "inactive revision artifact exceeded artifactMaxAge and keepInactiveRevisions"

  /** The record forbids deleting its path, whatever its age. */
  predicate Pins(r: Record) {
    match r
    case SourceRecord(_, _, _, _, stage) => !Terminal(stage)
    case ArtifactRecord(_, _, _, _, active, byRun, byDeployment) => active || byRun || byDeployment
  }

  predicate Retryable(r: Record) { r.SourceRecord? && (r.stage == Broken || r.stage == Cancelled) }

  // ---------------------------------------------------------------- what the records say of a path

  ghost predicate Has(records: seq<Record>, p: string) { exists r :: r in records && r.path == p }

  ghost predicate Held(records: seq<Record>, p: string) { exists r :: r in records && r.path == p && Pins(r) }

  ghost predicate CanRetry(records: seq<Record>, p: string) { exists r :: r in records && r.path == p && Retryable(r) }

  ghost predicate Names(records: seq<Record>, p: string, a: Id) {
    exists r :: r in records && r.path == p && r.automation == a
  }

  function Newest(records: seq<Record>, p: string): nat {
    if records == [] then 0 else
    var last := records[|records| - 1];
    var before := Newest(records[..|records| - 1], p);
    if last.path == p && last.createdAt > before then last.createdAt else before
  }

  function Resources(records: seq<Record>, p: string): multiset<Id> {
    if records == [] then multiset{} else
    var last := records[|records| - 1];
    Resources(records[..|records| - 1], p) + if last.path == p then multiset{last.id} else multiset{}
  }

  /** The automations whose count a path counts in; a source nobody owns counts for one shared owner. */
  ghost predicate Owns(kind: Kind, records: seq<Record>, p: string, a: Id) {
    || (a != "" && Names(records, p, a))
    || (kind == Source && a == UNRESOLVED && forall b :: Names(records, p, b) ==> b == "")
  }

  ghost predicate Competes(kind: Kind, records: seq<Record>, p: string) {
    Has(records, p) && if kind == Source then CanRetry(records, p) else !Held(records, p)
  }

  ghost predicate Rival(kind: Kind, records: seq<Record>, a: Id, p: string) {
    Competes(kind, records, p) && Owns(kind, records, p, a)
  }

  /** At least `keep` protected paths of the owner are as new. */
  ghost predicate Outnumbered(kind: Kind, records: seq<Record>, keep: nat, kept: set<string>, p: string, a: Id) {
    exists s: set<string> :: AsNew(kind, records, a, p, s) && |s| == keep && s <= kept
  }

  ghost predicate AsNew(kind: Kind, records: seq<Record>, a: Id, p: string, s: set<string>) {
    forall q :: q in s ==> Rival(kind, records, a, q) && Newest(records, q) >= Newest(records, p)
  }

  /** Fewer than `keep` paths of the owner are newer. */
  ghost predicate Leading(kind: Kind, records: seq<Record>, keep: nat, p: string, a: Id) {
    forall s: set<string> :: (forall q :: q in s ==> Rival(kind, records, a, q) && Newest(records, q) > Newest(records, p))
      ==> |s| < keep
  }

  /** Some owner of the path has it among its newest. */
  ghost predicate Led(kind: Kind, records: seq<Record>, keep: nat, p: string) {
    exists a :: Rival(kind, records, a, p) && Leading(kind, records, keep, p, a)
  }

  /** `kept` is what keeping the newest `keep` paths of each owner protects, ties broken either way. */
  ghost predicate Protects(kind: Kind, records: seq<Record>, keep: nat, kept: set<string>) {
    && (forall p, a :: Rival(kind, records, a, p) && p !in kept ==> Outnumbered(kind, records, keep, kept, p, a))
    && (forall p :: p in kept ==> Led(kind, records, keep, p))
  }

  ghost predicate Deletable(records: seq<Record>, limit: int, kept: set<string>, p: string) {
    Has(records, p) && !Held(records, p) && Newest(records, p) < limit && p !in kept
  }

  // ---------------------------------------------------------------- grouping

  ghost predicate Summarizes(records: seq<Record>, p: string, g: Group) {
    && multiset(g.resources) == Resources(records, p) && g.newest == Newest(records, p)
    && (g.held <==> Held(records, p)) && (g.retryable <==> CanRetry(records, p))
    && Distinct(g.automations) && forall a :: a in g.automations <==> Names(records, p, a)
  }

  ghost predicate Grouped(records: seq<Record>, groups: map<string, Group>) {
    Covered(records, groups.Keys) && Summarized(records, groups)
  }

  ghost predicate Covered(records: seq<Record>, paths: set<string>) { forall p :: p in paths <==> Has(records, p) }

  ghost predicate Summarized(records: seq<Record>, groups: map<string, Group>) {
    forall p :: p in groups ==> Summarizes(records, p, groups[p])
  }

  method GroupRecords(records: seq<Record>) returns (groups: map<string, Group>)
    ensures Grouped(records, groups)
  {
    groups := map[];
    for k := 0 to |records|
      invariant Grouped(records[..k], groups)
    {
      var r := records[k];
      assert records[..k + 1] == records[..k] + [r];
      var group := if r.path in groups then groups[r.path] else Group([], [], 0, false, false);
      var automations := AppendUnique(group.automations, r.automation);
      var next := Group(group.resources + [r.id], automations, if r.createdAt > group.newest then r.createdAt else group.newest,
                        group.held || Pins(r), group.retryable || Retryable(r));
      assert Summarizes(records[..k], r.path, group) by {
        if r.path !in groups { Absent(records[..k], r.path); }
      }
      GroupStep(records[..k], r, groups, group, next);
      groups := groups[r.path := next];
    }
    assert records[..|records|] == records;
  }

  lemma {:induction false} Absent(records: seq<Record>, p: string)
    requires !Has(records, p)
    ensures Newest(records, p) == 0 && Resources(records, p) == multiset{}
  {
    if records != [] {
      assert records[|records| - 1] in records;
      Absent(records[..|records| - 1], p);
    }
  }

  lemma GroupStep(records: seq<Record>, r: Record, groups: map<string, Group>, group: Group, next: Group)
    requires Grouped(records, groups) && Summarizes(records, r.path, group)
    requires next.resources == group.resources + [r.id]
    requires next.newest == if r.createdAt > group.newest then r.createdAt else group.newest
    requires next.held == (group.held || Pins(r)) && next.retryable == (group.retryable || Retryable(r))
    requires Distinct(next.automations) && forall a :: a in next.automations <==> a in group.automations || a == r.automation
    ensures Grouped(records + [r], groups[r.path := next])
  {
    NextSummary(records, r, group, next);
    SummariesKept(records, r, groups, next);
    assert groups[r.path := next].Keys == groups.Keys + {r.path};
    CoveredMore(records, r, groups.Keys);
  }

  lemma CoveredMore(records: seq<Record>, r: Record, paths: set<string>)
    requires Covered(records, paths)
    ensures Covered(records + [r], paths + {r.path})
  {
  }

  lemma SummariesKept(records: seq<Record>, r: Record, groups: map<string, Group>, next: Group)
    requires Summarized(records, groups) && Summarizes(records + [r], r.path, next)
    ensures Summarized(records + [r], groups[r.path := next])
  {
  }

  lemma NextSummary(records: seq<Record>, r: Record, group: Group, next: Group)
    requires Summarizes(records, r.path, group)
    requires next.resources == group.resources + [r.id]
    requires next.newest == if r.createdAt > group.newest then r.createdAt else group.newest
    requires next.held == (group.held || Pins(r)) && next.retryable == (group.retryable || Retryable(r))
    requires Distinct(next.automations) && forall a :: a in next.automations <==> a in group.automations || a == r.automation
    ensures Summarizes(records + [r], r.path, next)
  {
  }

  // ---------------------------------------------------------------- protection by count

  predicate Competing(kind: Kind, g: Group) { if kind == Source then g.retryable else !g.held }

  predicate Key(kind: Kind, g: Group, a: Id) {
    || (a != "" && a in g.automations)
    || (kind == Source && a == UNRESOLVED && forall b :: b in g.automations ==> b == "")
  }

  predicate Counts(kind: Kind, groups: map<string, Group>, a: Id, p: string) {
    p in groups && Competing(kind, groups[p]) && Key(kind, groups[p], a)
  }

  lemma CountsIsRival(kind: Kind, records: seq<Record>, groups: map<string, Group>, a: Id, p: string)
    requires Grouped(records, groups)
    ensures Counts(kind, groups, a, p) <==> Rival(kind, records, a, p)
  {
  }

  method NonEmpty(values: seq<Id>) returns (r: seq<Id>)
    requires Distinct(values)
    ensures Distinct(r) && forall v :: v in r <==> v in values && v != ""
  {
    r := [];
    for k := 0 to |values|
      invariant Distinct(r) && forall v :: v in r <==> v in values[..k] && v != ""
    {
      assert values[..k + 1] == values[..k] + [values[k]] && values[k] !in values[..k];
      if values[k] != "" { r := r + [values[k]]; }
    }
    assert values[..|values|] == values;
  }

  method OwnerKeys(kind: Kind, g: Group) returns (keys: seq<Id>)
    requires Distinct(g.automations)
    ensures Distinct(keys) && forall a :: a in keys <==> Key(kind, g, a)
  {
    keys := NonEmpty(g.automations);
    if kind == Source && |keys| == 0 {
      assert forall b :: b in g.automations ==> b == "";
      keys := [UNRESOLVED];
    } else if kind == Source {
      assert keys[0] in g.automations && keys[0] != "";
    }
  }

  predicate Lists(lists: map<Id, seq<string>>, a: Id, p: string) { a in lists && p in lists[a] }

  /** The competing paths of each owner, in the order they are met. */
  method ByAutomation(kind: Kind, groups: map<string, Group>) returns (lists: map<Id, seq<string>>)
    requires forall p :: p in groups ==> Distinct(groups[p].automations)
    ensures forall a, p :: Lists(lists, a, p) <==> Counts(kind, groups, a, p)
    ensures forall a :: a in lists ==> Distinct(lists[a])
  {
    lists := map[];
    var left := groups.Keys;
    while left != {}
      invariant left <= groups.Keys
      invariant forall a, p :: Lists(lists, a, p) <==> p !in left && Counts(kind, groups, a, p)
      invariant forall a :: a in lists ==> Distinct(lists[a])
      decreases |left|
    {
      var p :| p in left;
      left := left - {p};
      if Competing(kind, groups[p]) {
        var keys := OwnerKeys(kind, groups[p]);
        forall a | a in lists ensures p !in lists[a] { assert !Lists(lists, a, p); }
        lists := AddToEach(lists, keys, p);
      }
    }
  }

  function Listed(lists: map<Id, seq<string>>, a: Id): seq<string> { if a in lists then lists[a] else [] }

  /** `r` lists one path more, at the end, for each of the keys. */
  ghost predicate Extended(lists: map<Id, seq<string>>, keys: seq<Id>, p: string, r: map<Id, seq<string>>) {
    && (forall a :: a in keys ==> Listed(r, a) == Listed(lists, a) + [p])
    && (forall a :: a !in keys ==> Listed(r, a) == Listed(lists, a))
  }

  method AddToEach(lists: map<Id, seq<string>>, keys: seq<Id>, p: string) returns (r: map<Id, seq<string>>)
    requires Distinct(keys) && forall a :: a in lists ==> Distinct(lists[a]) && p !in lists[a]
    ensures forall a, q :: Lists(r, a, q) <==> Lists(lists, a, q) || (a in keys && q == p)
    ensures forall a :: a in r ==> Distinct(r[a])
  {
    r := lists;
    for k := 0 to |keys|
      invariant Extended(lists, keys[..k], p, r)
    {
      assert keys[..k + 1] == keys[..k] + [keys[k]] && keys[k] !in keys[..k];
      r := r[keys[k] := Listed(r, keys[k]) + [p]];
    }
    assert keys[..|keys|] == keys;
    ExtendedLists(lists, keys, p, r);
  }

  lemma ExtendedLists(lists: map<Id, seq<string>>, keys: seq<Id>, p: string, r: map<Id, seq<string>>)
    requires Extended(lists, keys, p, r) && forall a :: a in lists ==> Distinct(lists[a]) && p !in lists[a]
    ensures forall a, q :: Lists(r, a, q) <==> Lists(lists, a, q) || (a in keys && q == p)
    ensures forall a :: a in r ==> Distinct(r[a])
  {
    forall a, q ensures Lists(r, a, q) <==> Lists(lists, a, q) || (a in keys && q == p) {
      assert Lists(r, a, q) <==> q in Listed(r, a);
    }
    forall a | a in r ensures Distinct(r[a]) { assert r[a] == Listed(r, a); }
  }

  /** Newest first. */
  ghost predicate Descending(groups: map<string, Group>, paths: seq<string>) {
    && (forall p :: p in paths ==> p in groups)
    && forall i, j :: 0 <= i < j < |paths| ==> groups[paths[i]].newest >= groups[paths[j]].newest
  }

  method SortNewest(groups: map<string, Group>, paths: seq<string>) returns (r: seq<string>)
    requires Distinct(paths) && forall p :: p in paths ==> p in groups
    ensures Descending(groups, r) && Distinct(r) && |r| == |paths| && forall p :: p in r <==> p in paths
  {
    r := [];
    for k := 0 to |paths|
      invariant Descending(groups, r) && Distinct(r) && |r| == k && forall p :: p in r <==> p in paths[..k]
    {
      assert paths[..k + 1] == paths[..k] + [paths[k]] && paths[k] !in paths[..k];
      var i := 0;
      while i < |r| && groups[r[i]].newest >= groups[paths[k]].newest
        invariant 0 <= i <= |r|
        invariant forall j :: 0 <= j < i ==> groups[r[j]].newest >= groups[paths[k]].newest
      {
        i := i + 1;
      }
      InsertedDistinct(r, i, paths[k]);
      InsertedDescending(groups, r, i, paths[k]);
      r := InsertAt(r, i, paths[k]);
    }
    assert paths[..|paths|] == paths;
  }

  function InsertAt(r: seq<string>, i: nat, p: string): seq<string>
    requires i <= |r|
  {
    r[..i] + [p] + r[i..]
  }

  lemma InsertedDistinct(r: seq<string>, i: nat, p: string)
    requires i <= |r| && Distinct(r) && p !in r
    ensures Distinct(InsertAt(r, i, p)) && forall q :: q in InsertAt(r, i, p) <==> q in r || q == p
  {
  }

  lemma InsertedDescending(groups: map<string, Group>, r: seq<string>, i: nat, p: string)
    requires i <= |r| && Descending(groups, r) && p in groups
    requires forall j :: 0 <= j < i ==> groups[r[j]].newest >= groups[p].newest
    requires i < |r| ==> groups[r[i]].newest <= groups[p].newest
    ensures Descending(groups, InsertAt(r, i, p))
  {
  }

  lemma {:induction false} DistinctSize(xs: seq<string>)
    requires Distinct(xs)
    ensures |set x | x in xs| == |xs|
  {
    if xs != [] {
      var rest := xs[..|xs| - 1];
      DistinctSize(rest);
      assert (set x | x in xs) == (set x | x in rest) + {xs[|xs| - 1]};
      assert xs[|xs| - 1] !in rest;
    }
  }

  /** The newest `keep` of an owner's paths. */
  ghost predicate Top(kind: Kind, records: seq<Record>, keep: nat, a: Id, top: set<string>) {
    && |top| <= keep && (forall p :: p in top ==> Rival(kind, records, a, p))
    && forall p :: Rival(kind, records, a, p) && p !in top ==>
         |top| == keep && forall q :: q in top ==> Newest(records, q) >= Newest(records, p)
  }

  lemma TopLeads(kind: Kind, records: seq<Record>, keep: nat, a: Id, top: set<string>, p: string)
    requires Top(kind, records, keep, a, top) && p in top
    ensures Leading(kind, records, keep, p, a)
  {
    forall s: set<string> | forall q :: q in s ==> Rival(kind, records, a, q) && Newest(records, q) > Newest(records, p)
      ensures |s| < keep
    {
      assert s <= top - {p};
      SubsetSize(s, top - {p});
    }
  }

  lemma TopOutnumbers(kind: Kind, records: seq<Record>, keep: nat, a: Id, top: set<string>, kept: set<string>, p: string)
    requires Top(kind, records, keep, a, top) && top <= kept && Rival(kind, records, a, p) && p !in top
    ensures Outnumbered(kind, records, keep, kept, p, a)
  {
  }

  method TopNewest(kind: Kind, ghost records: seq<Record>, groups: map<string, Group>, ghost a: Id, paths: seq<string>, keep: nat)
    returns (top: set<string>)
    requires Grouped(records, groups) && Distinct(paths)
    requires forall p :: p in paths <==> Counts(kind, groups, a, p)
    ensures Top(kind, records, keep, a, top)
  {
    forall p ensures p in paths <==> Rival(kind, records, a, p) { CountsIsRival(kind, records, groups, a, p); }
    var sorted := SortNewest(groups, paths);
    var n := if keep < |sorted| then keep else |sorted|;
    DistinctSize(sorted[..n]);
    top := set p | p in sorted[..n];
    forall j | 0 <= j < n ensures sorted[j] in top { assert sorted[..n][j] == sorted[j]; }
    forall p | Rival(kind, records, a, p) && p !in top
      ensures |top| == keep && forall q :: q in top ==> Newest(records, q) >= Newest(records, p)
    {
      assert p in sorted;
      var j :| 0 <= j < |sorted| && sorted[j] == p;
      OlderThan(records, groups, sorted, n, j);
    }
  }

  lemma OlderThan(records: seq<Record>, groups: map<string, Group>, sorted: seq<string>, n: nat, j: nat)
    requires Grouped(records, groups) && Descending(groups, sorted) && n <= j < |sorted|
    ensures forall q :: q in sorted[..n] ==> Newest(records, q) >= Newest(records, sorted[j])
  {
  }

  /** The owners handled so far protect their newest paths. */
  ghost predicate Partly(kind: Kind, records: seq<Record>, keep: nat, kept: set<string>, todo: set<Id>) {
    && (forall p, a :: a !in todo && Rival(kind, records, a, p) && p !in kept ==> Outnumbered(kind, records, keep, kept, p, a))
    && (forall p :: p in kept ==> Led(kind, records, keep, p))
  }

  lemma StillOutnumbered(
    kind: Kind, records: seq<Record>, keep: nat, kept: set<string>, more: set<string>, p: string, a: Id)
    requires Outnumbered(kind, records, keep, kept, p, a) && kept <= more
    ensures Outnumbered(kind, records, keep, more, p, a)
  {
  }

  lemma PartlyMore(kind: Kind, records: seq<Record>, keep: nat, kept: set<string>, todo: set<Id>, a: Id, top: set<string>)
    requires Partly(kind, records, keep, kept, todo) && Top(kind, records, keep, a, top)
    ensures Partly(kind, records, keep, kept + top, todo - {a})
  {
    var more := kept + top;
    forall p, b | b !in todo - {a} && Rival(kind, records, b, p) && p !in more
      ensures Outnumbered(kind, records, keep, more, p, b)
    {
      if b == a { TopOutnumbers(kind, records, keep, a, top, more, p); } else {
        StillOutnumbered(kind, records, keep, kept, more, p, b);
      }
    }
    forall p | p in top ensures Led(kind, records, keep, p) { TopLeads(kind, records, keep, a, top, p); }
  }

  method MarkNewest(kind: Kind, ghost records: seq<Record>, groups: map<string, Group>, keep: nat)
    returns (kept: set<string>)
    requires Grouped(records, groups)
    ensures Protects(kind, records, keep, kept)
  {
    forall p | p in groups ensures Distinct(groups[p].automations) { assert Summarizes(records, p, groups[p]); }
    var lists := ByAutomation(kind, groups);
    forall a, p | Rival(kind, records, a, p) ensures a in lists {
      CountsIsRival(kind, records, groups, a, p);
      assert Lists(lists, a, p);
    }
    var todo := lists.Keys;
    kept := {};
    while todo != {}
      invariant todo <= lists.Keys && Partly(kind, records, keep, kept, todo)
      decreases |todo|
    {
      var a :| a in todo;
      forall p ensures p in lists[a] <==> Counts(kind, groups, a, p) { assert Lists(lists, a, p) <==> p in lists[a]; }
      var top := TopNewest(kind, records, groups, a, lists[a], keep);
      PartlyMore(kind, records, keep, kept, todo, a, top);
      kept, todo := kept + top, todo - {a};
    }
  }

  // ---------------------------------------------------------------- selection

  predicate Before(a: Item, b: Item) {
    (a.kind == Artifact && b.kind == Source) || (a.kind == b.kind && a.path != b.path && Leq(a.path, b.path))
  }

  /** Strictly increasing by kind and path, so without repeats. */
  ghost predicate Ordered(items: seq<Item>) {
    forall i, j :: 0 <= i < j < |items| ==> Before(items[i], items[j])
  }

  ghost predicate Listing(items: seq<Item>, kind: Kind, p: string) {
    exists i :: 0 <= i < |items| && items[i].kind == kind && items[i].path == p
  }

  /** The item names exactly the records of its path and their automations, sorted, and its reason. */
  ghost predicate Describes(item: Item, records: seq<Record>) {
    && Sorted(item.resources) && multiset(item.resources) == Resources(records, item.path)
    && Sorted(item.automations) && Distinct(item.automations)
    && (forall a :: a in item.automations <==> a != "" && Names(records, item.path, a))
    && (item.kind == Artifact ==> item.reason == ARTIFACT_REASON)
    && (item.kind == Source ==> item.reason == if CanRetry(records, item.path) then RETRYABLE_REASON else SOURCE_REASON)
  }

  method Describe(kind: Kind, p: string, group: Group, ghost records: seq<Record>) returns (item: Item)
    requires Summarizes(records, p, group)
    ensures item.kind == kind && item.path == p && Describes(item, records)
  {
    var resources := SortStrings(group.resources);
    var named := NonEmpty(group.automations);
    var automations := SortStrings(named);
    SameTexts(named, automations);
    var reason := ARTIFACT_REASON;
    if kind == Source {
      reason := SOURCE_REASON;
      if group.retryable { reason := reason + " and keepRetryableSources"; }
    }
    item := Item(kind, p, resources, automations, reason);
  }

  lemma SameTexts(xs: seq<string>, ys: seq<string>)
    requires multiset(xs) == multiset(ys) && Distinct(xs)
    ensures Distinct(ys) && forall x :: x in ys <==> x in xs
  {
    forall x ensures x in ys <==> x in xs { assert multiset(xs)[x] == multiset(ys)[x]; }
    forall i, j | 0 <= i < j < |ys| ensures ys[i] != ys[j] {
      if ys[i] == ys[j] {
        Twice(ys, i, j);
        OnlyOnce(xs, ys[i]);
        assert false;
      }
    }
  }

  lemma Twice(ys: seq<string>, i: nat, j: nat)
    requires i < j < |ys| && ys[i] == ys[j]
    ensures multiset(ys)[ys[i]] >= 2
  {
    assert ys == ys[..i] + [ys[i]] + ys[i + 1..j] + [ys[j]] + ys[j + 1..];
  }

  lemma {:induction false} OnlyOnce(xs: seq<string>, x: string)
    requires Distinct(xs)
    ensures multiset(xs)[x] <= 1
  {
    if xs != [] {
      var rest := xs[..|xs| - 1];
      assert xs == rest + [xs[|xs| - 1]];
      OnlyOnce(rest, x);
      assert xs[|xs| - 1] !in rest;
    }
  }

  lemma BeforeTotal(a: Item, b: Item)
    requires a.kind != b.kind || a.path != b.path
    ensures Before(a, b) || Before(b, a)
  {
    LeqTotal(a.path, b.path);
  }

  lemma BeforeTransitive(a: Item, b: Item, c: Item)
    requires Before(a, b) && Before(b, c)
    ensures Before(a, c)
  {
    if a.kind == b.kind == c.kind {
      LeqTransitive(a.path, b.path, c.path);
      LeqTotal(a.path, b.path);
      if a.path == c.path { LeqTotal(b.path, c.path); }
    }
  }

  /** Where the final sort puts one more item. */
  method InsertItem(items: seq<Item>, item: Item) returns (r: seq<Item>)
    requires Ordered(items) && !Listing(items, item.kind, item.path)
    ensures Ordered(r) && forall x :: x in r <==> x in items || x == item
  {
    var k := 0;
    while k < |items| && Before(items[k], item)
      invariant 0 <= k <= |items|
      invariant forall i :: 0 <= i < k ==> Before(items[i], item)
    {
      k := k + 1;
    }
    forall i | k <= i < |items| ensures Before(item, items[i]) {
      BeforeTotal(item, items[k]);
      if k < i { BeforeTransitive(item, items[k], items[i]); }
    }
    r := items[..k] + [item] + items[k..];
    assert items == items[..k] + items[k..];
  }

  ghost predicate Selects(kind: Kind, records: seq<Record>, limit: int, kept: set<string>, x: Item) {
    x.kind == kind && Deletable(records, limit, kept, x.path) && Describes(x, records)
  }

  /** Add the items of one kind, whatever order the groups come in. */
  method SelectKind(
    kind: Kind, ghost records: seq<Record>, groups: map<string, Group>, limit: int, ghost keep: nat, kept: set<string>,
    before: seq<Item>) returns (items: seq<Item>)
    requires Grouped(records, groups) && Protects(kind, records, keep, kept)
    requires Ordered(before) && forall x :: x in before ==> x.kind != kind
    ensures Ordered(items)
    ensures forall x :: x in items ==> x in before || Selects(kind, records, limit, kept, x)
    ensures forall x :: x in before ==> x in items
    ensures forall p :: Deletable(records, limit, kept, p) ==> Listing(items, kind, p)
  {
    items := before;
    var left := groups.Keys;
    while left != {}
      invariant left <= groups.Keys && Ordered(items)
      invariant forall x :: x in items ==> x in before || (x.path !in left && Selects(kind, records, limit, kept, x))
      invariant forall x :: x in before ==> x in items
      invariant forall p :: p in groups && p !in left && Deletable(records, limit, kept, p) ==> Listing(items, kind, p)
      decreases |left|
    {
      var p :| p in left;
      left := left - {p};
      KeptOut(kind, records, groups, limit, keep, kept, p);
      if Stays(kind, groups[p], limit, p in kept) { continue; }
      var item := Describe(kind, p, groups[p], records);
      var more := InsertItem(items, item);
      StillListed(items, more, item);
      items := more;
    }
  }

  /** The selection test on one group. */
  predicate Stays(kind: Kind, group: Group, limit: int, kept: bool) {
    group.held || group.newest >= limit || ((kind == Source ==> group.retryable) && kept)
  }

  lemma KeptOut(
    kind: Kind, records: seq<Record>, groups: map<string, Group>, limit: int, keep: nat, kept: set<string>, p: string)
    requires Grouped(records, groups) && Protects(kind, records, keep, kept) && p in groups
    ensures Summarizes(records, p, groups[p])
    ensures Stays(kind, groups[p], limit, p in kept) <==> !Deletable(records, limit, kept, p)
  {
  }

  lemma StillListed(items: seq<Item>, more: seq<Item>, item: Item)
    requires forall x :: x in more <==> x in items || x == item
    ensures Listing(more, item.kind, item.path)
    ensures forall kind, p :: Listing(items, kind, p) ==> Listing(more, kind, p)
  {
    assert item in more;
    forall kind, p | Listing(items, kind, p) ensures Listing(more, kind, p) {
      var i :| 0 <= i < |items| && items[i].kind == kind && items[i].path == p;
      assert items[i] in more;
    }
  }

  datatype Policy = Policy(sourceAge: nat, artifactAge: nat, keepSources: nat, keepArtifacts: nat)

  /** Exactly the deletable paths are listed, in order and once each, where count protection keeps the
      newest paths of every owner. */
  method SelectRetentionCandidates(now: nat, policy: Policy, sources: seq<Record>, artifacts: seq<Record>)
    returns (items: seq<Item>, keptSources: set<string>, keptArtifacts: set<string>)
    ensures Protects(Source, sources, policy.keepSources, keptSources)
    ensures Protects(Artifact, artifacts, policy.keepArtifacts, keptArtifacts)
    ensures Ordered(items)
    ensures forall p :: Listing(items, Source, p) <==> Deletable(sources, now - policy.sourceAge, keptSources, p)
    ensures forall p :: Listing(items, Artifact, p) <==> Deletable(artifacts, now - policy.artifactAge, keptArtifacts, p)
    ensures forall x :: x in items ==> Describes(x, if x.kind == Source then sources else artifacts)
  {
    var sourceGroups := GroupRecords(sources);
    keptSources := MarkNewest(Source, sources, sourceGroups, policy.keepSources);
    var artifactGroups := GroupRecords(artifacts);
    keptArtifacts := MarkNewest(Artifact, artifacts, artifactGroups, policy.keepArtifacts);
    var first := SelectKind(Source, sources, sourceGroups, now - policy.sourceAge, policy.keepSources, keptSources, []);
    items := SelectKind(Artifact, artifacts, artifactGroups, now - policy.artifactAge, policy.keepArtifacts, keptArtifacts, first);
    forall p | Listing(first, Source, p) ensures Listing(items, Source, p) {
      var i :| 0 <= i < |first| && first[i].kind == Source && first[i].path == p;
      assert first[i] in items;
    }
  }

  /** Deleting never takes the newest paths: with at least `keep` of them left, every owner keeps that many. */
  lemma OwnersKeepNewest(kind: Kind, records: seq<Record>, keep: nat, kept: set<string>, limit: int, p: string, a: Id)
    requires Protects(kind, records, keep, kept) && Deletable(records, limit, kept, p) && Rival(kind, records, a, p)
    ensures exists s: set<string> :: AsNew(kind, records, a, p, s) && |s| == keep && forall q :: q in s ==>
              !Deletable(records, limit, kept, q)
  {
  }

  /** The age of a path is that of its newest record. */
  lemma {:induction false} NewestIsLatest(records: seq<Record>, p: string)
    ensures forall r :: r in records && r.path == p ==> r.createdAt <= Newest(records, p)
    ensures Has(records, p) ==> exists r :: r in records && r.path == p && r.createdAt == Newest(records, p)
  {
    if records != [] {
      var init, last := records[..|records| - 1], records[|records| - 1];
      assert records == init + [last];
      NewestIsLatest(init, p);
      if Has(init, p) {
        var r :| r in init && r.path == p && r.createdAt == Newest(init, p);
        assert r in records;
      } else {
        Absent(init, p);
      }
    }
  }

  /** The resources of a path are the identifiers of its records. */
  lemma {:induction false} ResourcesAre(records: seq<Record>, p: string, id: Id)
    ensures id in Resources(records, p) <==> exists r :: r in records && r.path == p && r.id == id
  {
    if records != [] {
      var init, last := records[..|records| - 1], records[|records| - 1];
      assert records == init + [last];
      ResourcesAre(init, p, id);
      if id in Resources(init, p) {
        var r :| r in init && r.path == p && r.id == id;
        assert r in records;
      }
    }
  }
}
