/** Applying a retention plan, by any number of appliers one after another or, once a lease has
    expired, beside each other.

    Each store call and each removal is one step, and an applier can stop between any two.  A position
    stands for the storage of one item.
  */
module Applying {
  import opened Basics

  const LEASE: int := 5 * 60 * SECOND

  datatype Status = Planned | Deleted | Skipped | Failed

  datatype PlanStatus = Ready | InProgress | Applied

  datatype Phase =
    | Reading
    | Working(k: nat)
    | Removing(k: nat, detach: nat)
    | Recording(k: nat, status: Status)

  /** The item statuses an applier read, the positions it found still eligible, and where it is. */
  datatype Applier = Applier(seen: seq<Status>, eligible: set<nat>, phase: Phase)

  datatype System = System(
    now: Time,
    plan: PlanStatus,
    expires: Time,
    lease: Time,
    items: seq<Status>,
    /** Positions whose location the database no longer records. */
    cleared: set<nat>,
    appliers: map<Id, Applier>,
    /** History: claims granted, detachments in order, the detachments whose storage was removed, and
        the positions recorded anew after a detachment. */
    claims: nat,
    detaches: seq<nat>,
    removals: set<nat>,
    again: set<nat>)

  datatype Step =
    | Tick(elapsed: nat)
    | Claim(applier: Id)
    | Read(applier: Id, eligible: set<nat>)
    | Pass(applier: Id)
    | Drop(applier: Id)
    | Break(applier: Id)
    | Detach(applier: Id, free: bool)
    | Remove(applier: Id, ok: bool)
    | Record(applier: Id)
    | Complete(applier: Id)
    | Stop(applier: Id)
    | Rerecord(k: nat)

  function Init(now: Time, expires: Time, n: nat): System {
    System(now, Ready, expires, now, seq(n, i => Planned), {}, map[], 0, [], {}, {})
  }

  predicate Claimable(s: System) {
    s.now < s.expires && (s.plan == Ready || (s.plan == InProgress && s.lease < s.now))
  }

  function At(s: System, l: Id, phase: Phase): System
    requires l in s.appliers
  {
    s.(appliers := s.appliers[l := s.appliers[l].(phase := phase)])
  }

  function Gone(s: System, l: Id): System { s.(appliers := s.appliers - {l}) }

  /** The applier stands before an item it saw planned. */
  predicate Facing(s: System, l: Id) {
    && l in s.appliers && s.appliers[l].phase.Working?
    && s.appliers[l].phase.k < |s.items| && s.appliers[l].phase.k < |s.appliers[l].seen|
  }

  predicate FacingPlanned(s: System, l: Id) { Facing(s, l) && s.appliers[l].seen[s.appliers[l].phase.k] == Planned }

  function DetachStep(s: System, l: Id, free: bool): System
    requires FacingPlanned(s, l)
  {
    var k := s.appliers[l].phase.k;
    if !free || k in s.cleared then At(s, l, Recording(k, Skipped)) else
    At(s, l, Removing(k, |s.detaches|)).(cleared := s.cleared + {k}, detaches := s.detaches + [k])
  }

  function RecordStep(s: System, l: Id): System
    requires l in s.appliers && s.appliers[l].phase.Recording?
  {
    var Recording(k, status) := s.appliers[l].phase;
    if k >= |s.items| || s.items[k] != Planned then Gone(s, l) else
    At(s, l, Working(k + 1)).(items := s.items[k := status])
  }

  function Next(s: System, step: Step): System {
    match step
    case Tick(elapsed) => s.(now := s.now + elapsed)
    case Claim(l) =>
      if l in s.appliers || !Claimable(s) then s else
      s.(plan := InProgress, lease := s.now + LEASE, claims := s.claims + 1,
         appliers := s.appliers[l := Applier([], {}, Reading)])
    case Read(l, eligible) =>
      if l !in s.appliers || !s.appliers[l].phase.Reading? then s else
      s.(appliers := s.appliers[l := Applier(s.items, eligible, Working(0))])
    case Pass(l) =>
      if !Facing(s, l) || FacingPlanned(s, l) then s else At(s, l, Working(s.appliers[l].phase.k + 1))
    case Drop(l) =>
      if !FacingPlanned(s, l) || s.appliers[l].phase.k in s.appliers[l].eligible then s else
      At(s, l, Recording(s.appliers[l].phase.k, Skipped))
    case Break(l) =>
      if !FacingPlanned(s, l) || s.appliers[l].phase.k !in s.appliers[l].eligible then s else
      At(s, l, Recording(s.appliers[l].phase.k, Failed))
    case Detach(l, free) =>
      if !FacingPlanned(s, l) || s.appliers[l].phase.k !in s.appliers[l].eligible then s else DetachStep(s, l, free)
    case Remove(l, ok) =>
      if l !in s.appliers || !s.appliers[l].phase.Removing? then s else
      var Removing(k, detach) := s.appliers[l].phase;
      if ok then At(s, l, Recording(k, Deleted)).(removals := s.removals + {detach}) else At(s, l, Recording(k, Failed))
    case Record(l) => if l !in s.appliers || !s.appliers[l].phase.Recording? then s else RecordStep(s, l)
    case Complete(l) =>
      if l !in s.appliers || !s.appliers[l].phase.Working? || s.appliers[l].phase.k < |s.items| then s else
      Gone(s, l).(plan := if s.plan == InProgress then Applied else s.plan)
    case Stop(l) => Gone(s, l)
    case Rerecord(k) => if k !in s.cleared then s else s.(cleared := s.cleared - {k}, again := s.again + {k})
  }

  function Reach(s: System, steps: seq<Step>): System
    decreases |steps|
  {
    if steps == [] then s else Reach(Next(s, steps[0]), steps[1..])
  }

  ghost predicate Reachable(s: System) {
    exists now, expires, n, steps :: Reach(Init(now, expires, n), steps) == s
  }

  // ---------------------------------------------------------------- statuses

  ghost predicate DoneBelow(items: seq<Status>, k: nat) { forall i :: 0 <= i < k && i < |items| ==> items[i] != Planned }

  ghost predicate Keeps(before: seq<Status>, after: seq<Status>) {
    |after| == |before| && forall i :: 0 <= i < |before| && before[i] != Planned ==> after[i] == before[i]
  }

  function Place(phase: Phase): nat { if phase.Reading? then 0 else phase.k }

  /** The applier's copy is right about finished items, and everything before its place is finished. */
  ghost predicate Current(s: System, l: Id)
    requires l in s.appliers
  {
    var a := s.appliers[l];
    && (!a.phase.Reading? ==> Keeps(a.seen, s.items)) && DoneBelow(s.items, Place(a.phase))
    && (a.phase.Removing? || a.phase.Recording? ==> Place(a.phase) < |s.items|)
    && (a.phase.Recording? ==> a.phase.status != Planned)
  }

  ghost predicate AllCurrent(s: System) {
    && (forall l :: l in s.appliers ==> Current(s, l))
    && (s.plan == Applied ==> DoneBelow(s.items, |s.items|))
  }

  lemma StepKeeps(s: System, step: Step)
    ensures Keeps(s.items, Next(s, step).items)
  {
  }

  lemma StepCurrent(s: System, step: Step)
    requires AllCurrent(s)
    ensures AllCurrent(Next(s, step))
  {
    if step.Record? && step.applier in s.appliers && s.appliers[step.applier].phase.Recording? {
      RecordCurrent(s, step.applier);
    } else if step.Detach? && FacingPlanned(s, step.applier) {
      DetachCurrent(s, step.applier, step.free);
    } else if !step.Record? && !step.Detach? {
      if step.Claim? || step.Read? { StartCurrent(s, step); } else { OtherCurrent(s, step); }
    }
  }

  lemma StartCurrent(s: System, step: Step)
    requires AllCurrent(s) && (step.Claim? || step.Read?)
    ensures AllCurrent(Next(s, step))
  {
  }

  lemma OtherCurrent(s: System, step: Step)
    requires AllCurrent(s) && !step.Claim? && !step.Read? && !step.Record? && !step.Detach?
    ensures AllCurrent(Next(s, step))
  {
  }

  lemma RecordCurrent(s: System, l: Id)
    requires AllCurrent(s) && l in s.appliers && s.appliers[l].phase.Recording?
    ensures AllCurrent(RecordStep(s, l))
  {
  }

  lemma DetachCurrent(s: System, l: Id, free: bool)
    requires AllCurrent(s) && FacingPlanned(s, l)
    ensures AllCurrent(DetachStep(s, l, free))
  {
  }

  // ---------------------------------------------------------------- storage

  predicate RemovalOf(s: System, d: nat) { d in s.removals && d < |s.detaches| }

  ghost predicate Removed(s: System, k: nat) { exists d: nat :: RemovalOf(s, d) && s.detaches[d] == k }

  predicate Erasing(s: System, l: Id) { l in s.appliers && s.appliers[l].phase.Removing? }

  /** A removal belongs to one detachment, and a position not recorded anew was detached at most once. */
  ghost predicate Traced(s: System) {
    && (forall d :: d in s.removals ==> d < |s.detaches|)
    && (forall d, e :: 0 <= d < e < |s.detaches| && s.detaches[d] !in s.again ==> s.detaches[e] != s.detaches[d])
    && (forall d :: 0 <= d < |s.detaches| && s.detaches[d] !in s.again ==> s.detaches[d] in s.cleared)
  }

  /** Each applier about to remove storage holds a detachment of its own, not used yet. */
  ghost predicate Entitled(s: System) {
    && (forall l :: Erasing(s, l) ==>
          && s.appliers[l].phase.detach < |s.detaches| && s.detaches[s.appliers[l].phase.detach] == s.appliers[l].phase.k
          && s.appliers[l].phase.detach !in s.removals)
    && (forall l, m :: Erasing(s, l) && Erasing(s, m) && l != m ==> s.appliers[l].phase.detach != s.appliers[m].phase.detach)
  }

  predicate Claims(s: System, l: Id) { l in s.appliers && s.appliers[l].phase.Recording? && s.appliers[l].phase.status == Deleted }

  /** What is, or is about to be, recorded as deleted was removed. */
  ghost predicate Truthful(s: System) {
    && (forall l :: Claims(s, l) ==> Removed(s, s.appliers[l].phase.k))
    && (forall k :: 0 <= k < |s.items| && s.items[k] == Deleted ==> Removed(s, k))
  }

  lemma RemovedStays(s: System, step: Step, k: nat)
    requires Removed(s, k)
    ensures Removed(Next(s, step), k)
  {
    var s' := Next(s, step);
    var d: nat :| RemovalOf(s, d) && s.detaches[d] == k;
    assert RemovalOf(s', d) && s'.detaches[d] == k;
  }

  lemma StepTraced(s: System, step: Step)
    requires Traced(s) && Entitled(s)
    ensures Traced(Next(s, step))
  {
  }

  lemma DetachEntitled(s: System, l: Id, free: bool)
    requires Traced(s) && Entitled(s) && FacingPlanned(s, l)
    ensures Entitled(DetachStep(s, l, free))
  {
  }

  lemma StepEntitled(s: System, step: Step)
    requires Traced(s) && Entitled(s)
    ensures Entitled(Next(s, step))
  {
    if step.Detach? {
      if FacingPlanned(s, step.applier) { DetachEntitled(s, step.applier, step.free); }
    } else if step.Remove? {
      RemoveEntitled(s, step);
    } else {
      OtherEntitled(s, step);
    }
  }

  lemma RemoveEntitled(s: System, step: Step)
    requires Entitled(s) && step.Remove?
    ensures Entitled(Next(s, step))
  {
  }

  lemma OtherEntitled(s: System, step: Step)
    requires Entitled(s) && !step.Detach? && !step.Remove?
    ensures Entitled(Next(s, step))
  {
  }

  lemma StepTruthful(s: System, step: Step)
    requires Entitled(s) && Truthful(s)
    ensures Truthful(Next(s, step))
  {
    var s' := Next(s, step);
    forall k | Removed(s, k) ensures Removed(s', k) { RemovedStays(s, step, k); }
    if step.Remove? && Erasing(s, step.applier) && step.ok {
      assert RemovalOf(s', s.appliers[step.applier].phase.detach);
    }
  }

  // ---------------------------------------------------------------- a plan claimed once

  /** Nothing an applier skips, or is about to, was detached for this plan. */
  ghost predicate Untouched(s: System) {
    && (s.claims == 0 ==> s.appliers == map[] && s.detaches == [])
    && (forall l, m :: l in s.appliers && m in s.appliers ==> l == m)
    && (forall l :: l in s.appliers ==> Behind(s, s.appliers[l].phase) && Exact(s, s.appliers[l]))
    && (forall d :: 0 <= d < |s.detaches| ==> s.detaches[d] < |s.items| && s.items[s.detaches[d]] != Skipped)
  }

  /** Nobody else decided the items still ahead of the applier. */
  ghost predicate Exact(s: System, a: Applier) {
    a.phase.Reading? || (|a.seen| == |s.items| && forall i :: Place(a.phase) <= i < |s.items| ==> s.items[i] == a.seen[i])
  }

  /** Detachments lie before the applier's place, or at it while it follows one up. */
  ghost predicate Behind(s: System, phase: Phase) {
    forall d :: 0 <= d < |s.detaches| ==>
      if phase.Removing? || (phase.Recording? && phase.status != Skipped) then s.detaches[d] <= Place(phase)
      else s.detaches[d] < Place(phase)
  }

  lemma RecordUntouched(s: System, l: Id)
    requires Untouched(s) && AllCurrent(s) && l in s.appliers && s.appliers[l].phase.Recording?
    ensures Untouched(RecordStep(s, l))
  {
  }

  lemma DetachUntouched(s: System, l: Id, free: bool)
    requires Untouched(s) && AllCurrent(s) && FacingPlanned(s, l)
    ensures Untouched(DetachStep(s, l, free))
  {
  }

  lemma StepUntouched(s: System, step: Step)
    requires (s.claims <= 1 ==> Untouched(s)) && AllCurrent(s)
    ensures Next(s, step).claims <= 1 ==> Untouched(Next(s, step))
  {
    if s.claims <= 1 {
      if step.Record? {
        if step.applier in s.appliers && s.appliers[step.applier].phase.Recording? { RecordUntouched(s, step.applier); }
      } else if step.Detach? {
        if FacingPlanned(s, step.applier) { DetachUntouched(s, step.applier, step.free); }
      } else if step.Claim? || step.Read? {
        StartUntouched(s, step);
      } else {
        OtherUntouched(s, step);
      }
    }
  }

  lemma StartUntouched(s: System, step: Step)
    requires Untouched(s) && (step.Claim? || step.Read?)
    ensures Next(s, step).claims <= 1 ==> Untouched(Next(s, step))
  {
  }

  lemma OtherUntouched(s: System, step: Step)
    requires Untouched(s) && !step.Record? && !step.Detach? && !step.Claim? && !step.Read?
    ensures Untouched(Next(s, step))
  {
  }

  // ---------------------------------------------------------------- every reachable system

  ghost predicate Inv(s: System) {
    AllCurrent(s) && Traced(s) && Entitled(s) && Truthful(s) && (s.claims <= 1 ==> Untouched(s))
  }

  lemma InvNext(s: System, step: Step)
    requires Inv(s)
    ensures Inv(Next(s, step))
  {
    StepCurrent(s, step);
    StepTraced(s, step);
    StepEntitled(s, step);
    StepTruthful(s, step);
    StepUntouched(s, step);
  }

  lemma {:induction false} InvReach(s: System, steps: seq<Step>)
    requires Inv(s)
    ensures Inv(Reach(s, steps)) && Keeps(s.items, Reach(s, steps).items)
    decreases |steps|
  {
    if steps != [] {
      StepKeeps(s, steps[0]);
      InvNext(s, steps[0]);
      InvReach(Next(s, steps[0]), steps[1..]);
    }
  }

  lemma ReachableInv(s: System)
    requires Reachable(s)
    ensures Inv(s)
  {
    var now, expires, n, steps :| Reach(Init(now, expires, n), steps) == s;
    InvReach(Init(now, expires, n), steps);
  }

  /** A recorded status is final, whatever any applier does later. */
  lemma StatusIsFinal(s: System, steps: seq<Step>, k: nat)
    requires Reachable(s) && k < |s.items| && s.items[k] != Planned
    ensures |Reach(s, steps).items| == |s.items| && Reach(s, steps).items[k] == s.items[k]
  {
    ReachableInv(s);
    InvReach(s, steps);
  }

  /** Two detachments of one position that was not recorded anew. */
  predicate Same(s: System, d: nat, e: nat) {
    d < |s.detaches| && e < |s.detaches| && s.detaches[d] == s.detaches[e] && s.detaches[d] !in s.again
  }

  /** A plan is applied only with every item decided; what is recorded deleted was detached and then
      removed; and storage whose location was not recorded anew is removed at most once. */
  lemma AppliedIsDecided(s: System)
    requires Reachable(s)
    ensures s.plan == Applied ==> forall k :: 0 <= k < |s.items| ==> s.items[k] != Planned
    ensures forall k :: 0 <= k < |s.items| && s.items[k] == Deleted ==> Removed(s, k)
    ensures forall d: nat, e: nat :: RemovalOf(s, d) && RemovalOf(s, e) && Same(s, d, e) ==> d == e
  {
    ReachableInv(s);
  }

  /** A skipped item of a plan claimed once still has its storage. */
  lemma SkippedIsUntouched(s: System, k: nat)
    requires Reachable(s) && s.claims <= 1 && k < |s.items| && s.items[k] == Skipped
    ensures k !in s.detaches && !Removed(s, k)
  {
    ReachableInv(s);
  }

  // ---------------------------------------------------------------- what a second claim can do

  /** The clock, the plan's expiry and its lease, seen from the start. */
  ghost predicate Timed(s: System, now: Time, expires: Time) {
    && s.expires == expires && now <= s.now && (s.claims == 0 <==> s.plan == Ready)
    && (s.claims >= 1 ==> now + LEASE <= s.lease) && (s.claims >= 2 ==> now + LEASE + 1 < expires)
  }

  lemma {:induction false} TimedReach(s: System, steps: seq<Step>, now: Time, expires: Time)
    requires Timed(s, now, expires)
    ensures Timed(Reach(s, steps), now, expires)
    decreases |steps|
  {
    if steps != [] {
      TimedNext(s, steps[0], now, expires);
      TimedReach(Next(s, steps[0]), steps[1..], now, expires);
    }
  }

  lemma TimedNext(s: System, step: Step, now: Time, expires: Time)
    requires Timed(s, now, expires)
    ensures Timed(Next(s, step), now, expires)
  {
  }

  /** The record says skipped, but the storage was removed. */
  ghost predicate Misreported(s: System, k: nat) { k < |s.items| && s.items[k] == Skipped && Removed(s, k) }

  /** Some run of the appliers from here misreports an item. */
  ghost predicate CanMisreport(s: System) { exists steps, k: nat :: Misreported(Reach(s, steps), k) }

  /** A plan can come to misreport an item exactly when it has one and outlives a lease, so that it can be
      claimed again while its first applier is still at work. */
  lemma MisreportsExactly(now: Time, expires: Time, n: nat)
    ensures CanMisreport(Init(now, expires, n)) <==> n >= 1 && now + LEASE + 1 < expires
  {
    var init := Init(now, expires, n);
    forall steps, k: nat | Misreported(Reach(init, steps), k) ensures n >= 1 && now + LEASE + 1 < expires {
      var s := Reach(init, steps);
      assert Reachable(s);
      InvReach(init, steps);
      TimedReach(init, steps, now, expires);
      if s.claims <= 1 { SkippedIsUntouched(s, k); }
    }
    if n >= 1 && now + LEASE + 1 < expires {
      var steps := ReclaimedSkips(now, expires, n);
      assert Misreported(Reach(init, steps), 0);
    }
  }

  /** Claimed again after its lease ran out, a plan records as skipped an item that its first applier has
      detached and goes on to remove. */
  lemma ReclaimedSkips(now: Time, expires: Time, n: nat) returns (steps: seq<Step>)
    requires n >= 1 && now + LEASE + 1 < expires
    ensures Misreported(Reach(Init(now, expires, n), steps), 0)
  {
    var init := Init(now, expires, n);
    var s;
    s, steps := FirstDetaches(now, expires, n);
    s, steps := After(init, s, steps, Claim("b"));
    s, steps := After(init, s, steps, Read("b", {}));
    assert s.appliers["b"] == Applier(s.items, {}, Working(0)) && s.items[0] == Planned;
    s, steps := After(init, s, steps, Drop("b"));
    s, steps := After(init, s, steps, Record("b"));
    assert s.items[0] == Skipped;
    s, steps := After(init, s, steps, Remove("a", true));
    assert RemovalOf(s, 0);
  }

  lemma FirstDetaches(now: Time, expires: Time, n: nat) returns (s: System, steps: seq<Step>)
    requires n >= 1 && now + LEASE + 1 < expires
    ensures s == Reach(Init(now, expires, n), steps)
    ensures s == System(now + LEASE + 1, InProgress, expires, now + LEASE, s.items, {0},
                        map["a" := Applier(s.items, {0}, Removing(0, 0))], 1, [0], {}, {})
    ensures |s.items| == n && s.items[0] == Planned
  {
    var init := Init(now, expires, n);
    s, steps := init, [];
    s, steps := After(init, s, steps, Claim("a"));
    s, steps := After(init, s, steps, Read("a", {0}));
    assert s.items == init.items && s.appliers == map["a" := Applier(s.items, {0}, Working(0))];
    s, steps := After(init, s, steps, Detach("a", true));
    assert s.detaches == [0] && s.cleared == {0} && s.appliers == map["a" := Applier(s.items, {0}, Removing(0, 0))];
    s, steps := After(init, s, steps, Tick(LEASE + 1));
  }

  /** One step more. */
  lemma After(init: System, s: System, steps: seq<Step>, step: Step) returns (s': System, steps': seq<Step>)
    requires s == Reach(init, steps)
    ensures s' == Next(s, step) && s' == Reach(init, steps')
  {
    s', steps' := Next(s, step), steps + [step];
    Together(init, steps, [step]);
    assert Reach(s, [step]) == Reach(s', [step][1..]);
  }

  lemma {:induction false} Together(s: System, first: seq<Step>, second: seq<Step>)
    ensures Reach(s, first + second) == Reach(Reach(s, first), second)
    decreases |first|
  {
    if first == [] {
      assert first + second == second;
    } else {
      assert (first + second)[1..] == first[1..] + second;
      Together(Next(s, first[0]), first[1..], second);
    }
  }

  // ---------------------------------------------------------------- an applier left alone

  /** One applier, before item `k`, with nothing but planned items ahead that all passed the check. */
  ghost predicate Alone(s: System, l: Id, k: nat) {
    && s.plan == InProgress && k <= |s.items| && s.appliers.Keys == {l} && s.appliers[l].phase == Working(k)
    && |s.appliers[l].seen| == |s.items|
    && forall i :: k <= i < |s.items| ==>
         s.items[i] == Planned && s.appliers[l].seen[i] == Planned && i in s.appliers[l].eligible && i !in s.cleared
  }

  /** What becomes of one item: skipped when its location is in use, otherwise deleted or failed as its
      storage could be removed or not. */
  function Verdict(free: bool, ok: bool): Status {
    if !free then Skipped else if ok then Deleted else Failed
  }

  /** Detach, remove if detached, record. */
  function Decide(s: System, l: Id, free: bool, ok: bool): System {
    var detached := Next(s, Detach(l, free));
    Next(if free then Next(detached, Remove(l, ok)) else detached, Record(l))
  }

  lemma ItemDecided(s: System, l: Id, k: nat, free: bool, ok: bool)
    requires Alone(s, l, k) && k < |s.items|
    ensures var s' := Decide(s, l, free, ok);
            && Alone(s', l, k + 1) && s'.items == s.items[k := Verdict(free, ok)]
            && s'.detaches == s.detaches + (if free then [k] else [])
            && s'.removals == s.removals + (if free && ok then {|s.detaches|} else {})
  {
    assert FacingPlanned(s, l);
  }

  function ItemSteps(l: Id, free: bool, ok: bool): seq<Step> {
    if free then [Detach(l, true), Remove(l, ok), Record(l)] else [Detach(l, false), Record(l)]
  }

  function StepsFrom(l: Id, verdicts: seq<(bool, bool)>): seq<Step> {
    if verdicts == [] then [Complete(l)] else ItemSteps(l, verdicts[0].0, verdicts[0].1) + StepsFrom(l, verdicts[1..])
  }

  lemma ItemReached(s: System, l: Id, free: bool, ok: bool)
    ensures Reach(s, ItemSteps(l, free, ok)) == Decide(s, l, free, ok)
  {
    var detached := Next(s, Detach(l, free));
    if free {
      assert ItemSteps(l, free, ok)[1..] == [Remove(l, ok), Record(l)] && [Remove(l, ok), Record(l)][1..] == [Record(l)];
      OneStep(Next(detached, Remove(l, ok)), Record(l));
    } else {
      assert ItemSteps(l, free, ok)[1..] == [Record(l)];
      OneStep(detached, Record(l));
    }
  }

  lemma OneStep(s: System, step: Step)
    ensures Reach(s, [step]) == Next(s, step)
  {
    assert Reach(Next(s, step), [step][1..]) == Next(s, step);
  }

  /** Left alone, an applier decides every item as it finds it and applies the plan. */
  lemma {:induction false} AppliesAlone(s: System, l: Id, k: nat, verdicts: seq<(bool, bool)>)
    requires Alone(s, l, k) && |verdicts| == |s.items| - k
    ensures var s' := Reach(s, StepsFrom(l, verdicts)); s'.plan == Applied && Decided(s.items, k, verdicts, s'.items)
    decreases |verdicts|
  {
    if verdicts == [] {
      OneStep(s, Complete(l));
    } else {
      var (free, ok) := verdicts[0];
      var next := Decide(s, l, free, ok);
      ItemDecided(s, l, k, free, ok);
      ItemReached(s, l, free, ok);
      Together(s, ItemSteps(l, free, ok), StepsFrom(l, verdicts[1..]));
      AppliesAlone(next, l, k + 1, verdicts[1..]);
      DecidedMore(s.items, k, verdicts, Reach(s, StepsFrom(l, verdicts)).items);
    }
  }

  /** The items from `k` on have their verdicts, the ones before stay. */
  ghost predicate Decided(before: seq<Status>, k: nat, verdicts: seq<(bool, bool)>, after: seq<Status>) {
    && k <= |before| && |verdicts| == |before| - k && |after| == |before| && after[..k] == before[..k]
    && forall i :: 0 <= i < |verdicts| ==> after[k + i] == Verdict(verdicts[i].0, verdicts[i].1)
  }

  lemma DecidedMore(before: seq<Status>, k: nat, verdicts: seq<(bool, bool)>, after: seq<Status>)
    requires verdicts != [] && k < |before|
    requires Decided(before[k := Verdict(verdicts[0].0, verdicts[0].1)], k + 1, verdicts[1..], after)
    ensures Decided(before, k, verdicts, after)
  {
    var verdict := Verdict(verdicts[0].0, verdicts[0].1);
    assert after[..k + 1] == before[k := verdict][..k + 1];
    assert after[k] == after[..k + 1][k] == verdict;
    assert after[..k] == after[..k + 1][..k] == before[..k];
    forall i | 1 <= i < |verdicts| ensures after[k + i] == Verdict(verdicts[i].0, verdicts[i].1) {
      assert verdicts[i] == verdicts[1..][i - 1];
      assert after[k + 1 + (i - 1)] == Verdict(verdicts[1..][i - 1].0, verdicts[1..][i - 1].1);
    }
  }
}
