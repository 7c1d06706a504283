/** Launchers, operators and the unattended investigator around one registry.

    Every registry call and every file replacement is one step, and a process can stop between any
    two of them.  A reply can be lost, in which case the caller stops although the registry acted; a
    request that arrives after its caller stopped is the same as one sent by an operator, and operators
    reserve and update whatever they like.
  */
module Launches {
  import opened Basics
  import opened Investigation

  import opened Registry

  /** How far one `launch` call has come. */
  datatype Launcher =
    | Looking(spec: Spec, newGeneration: bool)
    | Posting(spec: Spec)
    | Marking(spec: Spec, version: nat)
    | Submitting(spec: Spec, version: nat)
    | Recording(spec: Spec, version: nat, taskId: Id, taskUrl: string)

  /** Where the investigator is in one `run`; `Off` between runs. */
  datatype Phase =
    | Off
    | Reviewing(active: Option<Spec>, todo: set<Id>, remaining: set<Id>)
    | ReviewSeen(active: Option<Spec>, todo: set<Id>, remaining: set<Id>, seen: Record)
    | SlotRead(slot: Spec)
    | SlotSeen(slot: Spec, seen: Record)
    | SlotRefetch(slot: Spec, seen: Record)
    | SlotDecided(slot: Spec, status: Status)
    | SlotClearing(slot: Spec)
    | Choosing
    | Starting(spec: Spec)
    | Launching

  datatype System = System(
    now: Time,
    book: Book,
    launchers: map<Id, Launcher>,
    /** Requests handed to the cloud, oldest first. */
    submissions: seq<Id>,
    /** The investigator's files: the execution slot and the review queue. */
    slot: Option<Spec>,
    queue: set<Id>,
    phase: Phase,
    /** Requests the investigator called `launch` for. */
    launched: set<Id>)

  /** The launcher name of the investigator; a file lock keeps it to one process. */
  const AGENT: Id := "investigator"

  datatype Task = Task(status: string, updatedAt: Time, attempts: int)

  datatype Step =
    | Tick(elapsed: nat)
    | Reserving(spec: Spec)
    | Updating(id: Id, expected: nat, state: State)
    | Starts(launcher: Id, spec: Spec, newGeneration: bool)
    | Looks(launcher: Id)
    | Posts(launcher: Id, delivered: bool)
    | Marks(launcher: Id, delivered: bool)
    | Submits(launcher: Id, answer: Option<(Id, string)>)
    | Records(launcher: Id)
    | Stops(launcher: Id)
    | Agent(move: Move)

  datatype Move =
    | Begin
    | ReviewGet(id: Id)
    | ReviewObserve(task: Task, delivered: bool, raises: bool)
    | ReviewsDone
    | SlotGet
    | SlotObserve(task: Task, delivered: bool)
    | SlotGetAgain
    | Decide
    | Clear
    | Choose(spec: Spec)
    | Launch
    | Halt

  function Init(now: Time): System {
    System(now, Book(map[], map[]), map[], [], None, {}, Off, {})
  }

  // ---------------------------------------------------------------- launch

  predicate Blocks(records: map<Id, Record>, spec: Spec, newGeneration: bool) {
    exists r :: r in records && SameSubject(records[r].spec, spec)
      && (!newGeneration || !Terminal(records[r].state.status))
  }

  function Attached(taskId: Id, taskUrl: string): State {
    Bare(Running).(taskId := taskId, taskUrl := taskUrl, attempt := 1)
  }

  function Gone(s: System, l: Id): System { s.(launchers := s.launchers - {l}) }

  function LookStep(s: System, l: Id): System {
    if l !in s.launchers || !s.launchers[l].Looking? then s else
    if Blocks(s.book.records, s.launchers[l].spec, s.launchers[l].newGeneration) then Gone(s, l) else
    s.(launchers := s.launchers[l := Posting(s.launchers[l].spec)])
  }

  function PostStep(s: System, l: Id, delivered: bool): System {
    if l !in s.launchers || !s.launchers[l].Posting? then s else
    var reply := ReserveIn(s.book, s.launchers[l].spec);
    var acted := s.(book := reply.book);
    if !delivered || reply.result.Err? || !reply.result.value.1 then Gone(acted, l) else
    acted.(launchers := s.launchers[l := Marking(s.launchers[l].spec, reply.result.value.0.version)])
  }

  function MarkStep(https: string -> bool, s: System, l: Id, delivered: bool): System {
    if l !in s.launchers || !s.launchers[l].Marking? then s else
    var spec := s.launchers[l].spec;
    var reply := UpdateIn(https, s.now, s.book, spec.requestId, s.launchers[l].version, Bare(SubmissionUnknown));
    var acted := s.(book := reply.book);
    if !delivered || reply.result.Err? then Gone(acted, l) else
    acted.(launchers := s.launchers[l := Submitting(spec, reply.result.value.version)])
  }

  function SubmitStep(s: System, l: Id, answer: Option<(Id, string)>): System {
    if l !in s.launchers || !s.launchers[l].Submitting? then s else
    var Submitting(spec, version) := s.launchers[l];
    var submitted := s.(submissions := s.submissions + [spec.requestId]);
    if answer.None? then Gone(submitted, l) else
    submitted.(launchers := s.launchers[l := Recording(spec, version, answer.value.0, answer.value.1)])
  }

  function RecordStep(https: string -> bool, s: System, l: Id): System {
    if l !in s.launchers || !s.launchers[l].Recording? then s else
    var Recording(spec, version, taskId, taskUrl) := s.launchers[l];
    var reply := UpdateIn(https, s.now, s.book, spec.requestId, version, Attached(taskId, taskUrl));
    Gone(s.(book := reply.book), l)
  }

  // ---------------------------------------------------------------- the investigator

  predicate Settled(status: Status) { status == Review || status == Local || Terminal(status) }

  /** What an observation of the cloud task makes of a state; None when nothing changed. */
  function Observed(state: State, task: Task, now: Time): Option<State> {
    if state.cloudStatus == task.status && state.cloudUpdatedAt == Some(task.updatedAt)
       && (task.status != "ready" || state.attempt == task.attempts) then None else
    var seen := state.(cloudStatus := task.status, cloudUpdatedAt := Some(task.updatedAt), observedAt := Some(now));
    Some(
      if task.status == "ready" then
        seen.(status := NeedsInput, attempt := task.attempts, reason := "The cloud agent is ready.")
      else if task.status in ["failed", "error", "cancelled"] then
        seen.(status := Failed, reason := "Cloud requires operator review.")
      else if task.status in ["blocked", "needs_input", "waiting_for_input"] then
        seen.(status := NeedsInput, reason := "The cloud agent needs clarification.")
      else if state.status in {NeedsInput, Failed, Review} then
        seen.(status := Running, reason := "The agent conversation is active again.")
      else seen)
  }

  /** The write of one observation, fenced by the version it was made on. */
  function ObserveIn(https: string -> bool, s: System, seen: Record, task: Task): Reply<Record> {
    if seen.state.taskId == "" || Settled(seen.state.status) then Reply(s.book, Ok(seen)) else
    var updated := Observed(seen.state, task, s.now);
    if updated.None? then Reply(s.book, Ok(seen)) else
    UpdateIn(https, s.now, s.book, seen.spec.requestId, seen.version, updated.value)
  }

  function Halted(s: System): System { Gone(s, AGENT).(phase := Off) }

  function ReviewMove(https: string -> bool, s: System, m: Move): System {
    match (s.phase, m)
    case (Reviewing(active, todo, remaining), ReviewGet(id)) =>
      if id !in todo then s else
      if id !in s.book.records then Halted(s) else
      if Settled(s.book.records[id].state.status) then s.(phase := Reviewing(active, todo - {id}, remaining - {id})) else
      s.(phase := ReviewSeen(active, todo - {id}, remaining, s.book.records[id]))
    case (ReviewSeen(active, todo, remaining, seen), ReviewObserve(task, delivered, raises)) =>
      var reply := ObserveIn(https, s, seen, task);
      var acted := s.(book := reply.book);
      if (delivered && reply.result.Ok?) || !raises then acted.(phase := Reviewing(active, todo, remaining)) else Halted(acted)
    case (Reviewing(active, todo, remaining), ReviewsDone) =>
      if todo != {} then s else
      s.(queue := remaining, phase := if active.Some? then SlotRead(active.value) else Choosing)
    case _ => s
  }

  function SlotMove(https: string -> bool, s: System, m: Move): System {
    match (s.phase, m)
    case (SlotRead(slot), SlotGet) =>
      if slot.requestId !in s.book.records || !SameSubject(s.book.records[slot.requestId].spec, slot) then Halted(s) else
      var record := s.book.records[slot.requestId];
      s.(phase := if record.state.status == Running then SlotSeen(slot, record) else SlotDecided(slot, record.state.status))
    case (SlotSeen(slot, seen), SlotObserve(task, delivered)) =>
      var reply := ObserveIn(https, s, seen, task);
      var acted := s.(book := reply.book);
      acted.(phase := if delivered && reply.result.Ok? then SlotDecided(slot, reply.result.value.state.status)
                      else SlotRefetch(slot, seen))
    case (SlotRefetch(slot, seen), SlotGetAgain) =>
      if slot.requestId !in s.book.records then Halted(s) else
      var current := s.book.records[slot.requestId];
      if current.version > seen.version && Settled(current.state.status) then s.(phase := SlotDecided(slot, current.state.status))
      else Halted(s)
    case (SlotDecided(slot, status), Decide) =>
      if Settled(status) then s.(phase := SlotClearing(slot)) else
      if status == NeedsInput || status == Failed then
        s.(queue := s.queue + {slot.requestId}, phase := SlotClearing(slot))
      else Halted(s)
    case (SlotClearing(slot), Clear) => s.(slot := None, phase := Choosing)
    case _ => s
  }

  function AgentMove(https: string -> bool, s: System, m: Move): System {
    match m
    case Begin => if s.phase.Off? then s.(phase := Reviewing(s.slot, s.queue, s.queue)) else s
    case Choose(spec) =>
      if !s.phase.Choosing? || Blocks(s.book.records, spec, false) then s else
      s.(slot := Some(spec), phase := Starting(spec))
    case Launch =>
      if !s.phase.Starting? then s else
      s.(launchers := s.launchers[AGENT := Looking(s.phase.spec, false)], launched := s.launched + {s.phase.spec.requestId},
         phase := Launching)
    case Halt => Halted(s)
    case ReviewGet(_) => ReviewMove(https, s, m)
    case ReviewObserve(_, _, _) => ReviewMove(https, s, m)
    case ReviewsDone => ReviewMove(https, s, m)
    case _ => SlotMove(https, s, m)
  }

  function Next(https: string -> bool, s: System, step: Step): System {
    match step
    case Tick(elapsed) => s.(now := s.now + elapsed)
    case Reserving(spec) => s.(book := ReserveIn(s.book, spec).book)
    case Updating(id, expected, state) => s.(book := UpdateIn(https, s.now, s.book, id, expected, state).book)
    case Starts(l, spec, newGeneration) =>
      if l in s.launchers || l == AGENT then s else s.(launchers := s.launchers[l := Looking(spec, newGeneration)])
    case Looks(l) => LookStep(s, l)
    case Posts(l, delivered) => PostStep(s, l, delivered)
    case Marks(l, delivered) => MarkStep(https, s, l, delivered)
    case Submits(l, answer) => SubmitStep(s, l, answer)
    case Records(l) => RecordStep(https, s, l)
    case Stops(l) => if l == AGENT then s else Gone(s, l)
    case Agent(move) => AgentMove(https, s, move)
  }

  function Reach(https: string -> bool, s: System, steps: seq<Step>): System
    decreases |steps|
  {
    if steps == [] then s else Reach(https, Next(https, s, steps[0]), steps[1..])
  }

  ghost predicate Reachable(https: string -> bool, s: System) {
    exists now, steps :: Reach(https, Init(now), steps) == s
  }

  // ---------------------------------------------------------------- the registry under every step

  /** The request was in one of these statuses at some accepted version. */
  ghost predicate Ever(book: Book, id: Id, statuses: set<Status>) {
    exists n: nat :: Has(book, id, n) && At(book, id, n).status in statuses
  }

  const ENDED: set<Status> := {Review, Local, Completed, Abandoned}
  const BEYOND: set<Status> := {NeedsInput, Failed, Review, Local, Completed, Abandoned}

  lemma EverKept(before: Book, after: Book, id: Id, statuses: set<Status>)
    requires Keeps(before, after) && Ever(before, id, statuses)
    ensures Ever(after, id, statuses)
  {
    var n: nat :| Has(before, id, n) && At(before, id, n).status in statuses;
    assert Has(after, id, n);
  }

  lemma EverNow(https: string -> bool, book: Book, id: Id)
    requires Kept(https, book, id)
    ensures Ever(book, id, {book.records[id].state.status})
  {
    assert Has(book, id, book.records[id].version);
  }

  lemma ObserveBook(https: string -> bool, s: System, seen: Record, task: Task)
    requires Sound(https, s.book)
    ensures var after := ObserveIn(https, s, seen, task).book; Sound(https, after) && Keeps(s.book, after)
  {
    var updated := Observed(seen.state, task, s.now);
    if updated.Some? {
      UpdateSound(https, s.now, s.book, seen.spec.requestId, seen.version, updated.value);
    }
  }

  /** A move of the investigator writes the registry only where it records an observation. */
  ghost predicate Moved(https: string -> bool, s: System, m: Move, after: Book) {
    if (s.phase.ReviewSeen? && m.ReviewObserve?) || (s.phase.SlotSeen? && m.SlotObserve?)
    then after == ObserveIn(https, s, s.phase.seen, m.task).book else after == s.book
  }

  lemma AgentMoved(https: string -> bool, s: System, m: Move)
    ensures Moved(https, s, m, AgentMove(https, s, m).book)
  {
    if m.ReviewGet? || m.ReviewObserve? || m.ReviewsDone? { ReviewMoved(https, s, m); } else { SlotMoved(https, s, m); }
  }

  lemma ReviewMoved(https: string -> bool, s: System, m: Move)
    requires m.ReviewGet? || m.ReviewObserve? || m.ReviewsDone?
    ensures Moved(https, s, m, ReviewMove(https, s, m).book)
  {
  }

  lemma SlotMoved(https: string -> bool, s: System, m: Move)
    requires !m.ReviewObserve?
    ensures Moved(https, s, m, SlotMove(https, s, m).book)
  {
  }

  lemma MovedBook(https: string -> bool, s: System, m: Move, after: Book)
    requires Sound(https, s.book) && Moved(https, s, m, after)
    ensures Sound(https, after) && Keeps(s.book, after)
  {
    if after != s.book { ObserveBook(https, s, s.phase.seen, m.task); }
  }

  lemma MarkBook(https: string -> bool, s: System, l: Id, delivered: bool)
    requires Sound(https, s.book)
    ensures var after := MarkStep(https, s, l, delivered).book; Sound(https, after) && Keeps(s.book, after)
  {
    if l in s.launchers && s.launchers[l].Marking? {
      UpdateSound(https, s.now, s.book, s.launchers[l].spec.requestId, s.launchers[l].version, Bare(SubmissionUnknown));
    }
  }

  lemma PostBook(https: string -> bool, s: System, l: Id, delivered: bool)
    requires Sound(https, s.book)
    ensures var after := PostStep(s, l, delivered).book; Sound(https, after) && Keeps(s.book, after)
  {
    if l in s.launchers { ReserveSound(https, s.book, s.launchers[l].spec); }
  }

  lemma RecordBook(https: string -> bool, s: System, l: Id)
    requires Sound(https, s.book)
    ensures var after := RecordStep(https, s, l).book; Sound(https, after) && Keeps(s.book, after)
  {
    if l in s.launchers && s.launchers[l].Recording? {
      var r := s.launchers[l];
      UpdateSound(https, s.now, s.book, r.spec.requestId, r.version, Attached(r.taskId, r.taskUrl));
    }
  }

  lemma StepBook(https: string -> bool, s: System, step: Step)
    requires Sound(https, s.book)
    ensures var after := Next(https, s, step).book; Sound(https, after) && Keeps(s.book, after)
  {
    match step
    case Reserving(spec) => ReserveSound(https, s.book, spec);
    case Updating(id, expected, state) => UpdateSound(https, s.now, s.book, id, expected, state);
    case Posts(l, delivered) => PostBook(https, s, l, delivered);
    case Marks(l, delivered) => MarkBook(https, s, l, delivered);
    case Records(l) => RecordBook(https, s, l);
    case Agent(move) =>
      AgentMoved(https, s, move);
      MovedBook(https, s, move, AgentMove(https, s, move).book);
    case _ => assert Next(https, s, step).book == s.book;
  }

  // ---------------------------------------------------------------- at most one submission

  /** The launcher was told that it created the reservation, and has not submitted yet. */
  predicate Entitled(l: Launcher) { l.Marking? || l.Submitting? }

  ghost predicate Single(s: System) {
    && (forall l :: l in s.launchers && Entitled(s.launchers[l]) ==>
          s.launchers[l].spec.requestId in s.book.records && s.launchers[l].spec.requestId !in s.submissions)
    && (forall l, k :: l in s.launchers && k in s.launchers && l != k && Entitled(s.launchers[l]) && Entitled(s.launchers[k]) ==>
          s.launchers[l].spec.requestId != s.launchers[k].spec.requestId)
    && (forall l :: l in s.launchers && s.launchers[l].Submitting? ==>
          Ever(s.book, s.launchers[l].spec.requestId, {SubmissionUnknown}))
    && (forall id :: id in s.submissions ==> Ever(s.book, id, {SubmissionUnknown}))
    && (forall i, j :: 0 <= i < j < |s.submissions| ==> s.submissions[i] != s.submissions[j])
  }

  /** Steps that entitle nobody and submit nothing. */
  ghost predicate Quiet(s: System, s': System) {
    && s'.submissions == s.submissions
    && forall l :: l in s'.launchers && Entitled(s'.launchers[l]) ==> l in s.launchers && s.launchers[l] == s'.launchers[l]
  }

  lemma QuietSingle(s: System, s': System)
    requires Single(s) && Keeps(s.book, s'.book) && Quiet(s, s')
    ensures Single(s')
  {
    forall id | Ever(s.book, id, {SubmissionUnknown}) ensures Ever(s'.book, id, {SubmissionUnknown}) {
      EverKept(s.book, s'.book, id, {SubmissionUnknown});
    }
  }

  lemma StepQuiet(https: string -> bool, s: System, step: Step)
    requires !step.Posts? && !step.Marks? && !step.Submits?
    ensures Quiet(s, Next(https, s, step))
  {
  }

  lemma CreatedSingle(s: System, s': System, l: Id)
    requires Single(s) && Keeps(s.book, s'.book) && s'.submissions == s.submissions
    requires l in s'.launchers && s'.launchers[l].Marking? && s'.launchers == s.launchers[l := s'.launchers[l]]
    requires var id := s'.launchers[l].spec.requestId; id !in s.book.records && id in s'.book.records
    ensures Single(s')
  {
    forall r | Ever(s.book, r, {SubmissionUnknown})
      ensures r != s'.launchers[l].spec.requestId && Ever(s'.book, r, {SubmissionUnknown})
    {
      EverKept(s.book, s'.book, r, {SubmissionUnknown});
    }
  }

  lemma PostSingle(https: string -> bool, s: System, l: Id, delivered: bool)
    requires Single(s) && Keeps(s.book, PostStep(s, l, delivered).book)
    ensures Single(PostStep(s, l, delivered))
  {
    var s' := PostStep(s, l, delivered);
    if l in s'.launchers && s'.launchers[l].Marking? && s'.launchers[l] != s.launchers[l] {
      CreatedSingle(s, s', l);
    } else {
      QuietSingle(s, s');
    }
  }

  lemma AcknowledgedSingle(s: System, l: Id, version: nat)
    requires Single(s) && l in s.launchers && s.launchers[l].Marking?
    requires Ever(s.book, s.launchers[l].spec.requestId, {SubmissionUnknown})
    ensures Single(s.(launchers := s.launchers[l := Submitting(s.launchers[l].spec, version)]))
  {
  }

  lemma MarkedEver(https: string -> bool, s: System, id: Id, version: nat)
    requires Sound(https, s.book) && UpdateIn(https, s.now, s.book, id, version, Bare(SubmissionUnknown)).result.Ok?
    ensures Ever(UpdateIn(https, s.now, s.book, id, version, Bare(SubmissionUnknown)).book, id, {SubmissionUnknown})
  {
    UpdateSound(https, s.now, s.book, id, version, Bare(SubmissionUnknown));
    EverNow(https, UpdateIn(https, s.now, s.book, id, version, Bare(SubmissionUnknown)).book, id);
  }

  lemma MarkSingle(https: string -> bool, s: System, l: Id, delivered: bool)
    requires Single(s) && Sound(https, s.book) && Keeps(s.book, MarkStep(https, s, l, delivered).book)
    ensures Single(MarkStep(https, s, l, delivered))
  {
    var s' := MarkStep(https, s, l, delivered);
    if l in s'.launchers && s'.launchers[l].Submitting? && s.launchers[l].Marking? {
      MarkedEver(https, s, s.launchers[l].spec.requestId, s.launchers[l].version);
      QuietSingle(s, s.(book := s'.book));
      AcknowledgedSingle(s.(book := s'.book), l, s'.launchers[l].version);
    } else {
      QuietSingle(s, s');
    }
  }

  lemma SubmitSingle(s: System, l: Id, answer: Option<(Id, string)>)
    requires Single(s)
    ensures Single(SubmitStep(s, l, answer))
  {
  }

  lemma StepSingle(https: string -> bool, s: System, step: Step)
    requires Single(s) && Sound(https, s.book)
    ensures Single(Next(https, s, step))
  {
    StepBook(https, s, step);
    match step
    case Posts(l, delivered) => PostSingle(https, s, l, delivered);
    case Marks(l, delivered) => MarkSingle(https, s, l, delivered);
    case Submits(l, answer) => SubmitSingle(s, l, answer);
    case _ =>
      StepQuiet(https, s, step);
      QuietSingle(s, Next(https, s, step));
  }

  // ---------------------------------------------------------------- the investigator forgets nothing

  predicate InSlot(s: System, id: Id) { s.slot.Some? && s.slot.value.requestId == id }

  /** Every launched request is in a file until it was settled, and out of the slot only after it got
      beyond running. */
  ghost predicate Remembered(s: System) {
    && (forall id :: id in s.launched ==> InSlot(s, id) || id in s.queue || Ever(s.book, id, ENDED))
    && (forall id :: id in s.launched ==> InSlot(s, id) || Ever(s.book, id, BEYOND))
  }

  ghost predicate Dropped(s: System, remaining: set<Id>) {
    remaining <= s.queue && forall id :: id in s.queue && id !in remaining ==> Ever(s.book, id, ENDED)
  }

  ghost predicate SeenIn(book: Book, slot: Spec, seen: Record) {
    seen.spec.requestId == slot.requestId && Ever(book, slot.requestId, {seen.state.status})
  }

  /** What the investigator's memory has to do with its files and the registry. */
  ghost predicate Mindful(s: System) {
    match s.phase
    case Off => true
    case Reviewing(active, _, remaining) => s.slot == active && Dropped(s, remaining)
    case ReviewSeen(active, _, remaining, _) => s.slot == active && Dropped(s, remaining)
    case SlotRead(slot) => s.slot == Some(slot)
    case SlotSeen(slot, seen) => s.slot == Some(slot) && SeenIn(s.book, slot, seen)
    case SlotRefetch(slot, seen) => s.slot == Some(slot) && SeenIn(s.book, slot, seen)
    case SlotDecided(slot, status) => s.slot == Some(slot) && Ever(s.book, slot.requestId, {status})
    case SlotClearing(slot) =>
      && s.slot == Some(slot) && Ever(s.book, slot.requestId, BEYOND)
      && (slot.requestId in s.queue || Ever(s.book, slot.requestId, ENDED))
    case Choosing => s.slot == None
    case Starting(spec) => s.slot == Some(spec)
    case Launching => true
  }

  /** The investigator launches what its slot says. */
  ghost predicate Declared(s: System) {
    AGENT in s.launchers ==> s.phase.Launching? && s.slot == Some(s.launchers[AGENT].spec)
  }

  /** Only the registry and the launchers' progress changed. */
  ghost predicate Bystander(s: System, s': System) {
    && s'.slot == s.slot && s'.queue == s.queue && s'.phase == s.phase && s'.launched == s.launched
    && (AGENT in s'.launchers ==> AGENT in s.launchers && s'.launchers[AGENT].spec == s.launchers[AGENT].spec)
  }

  lemma StepBystander(https: string -> bool, s: System, step: Step)
    requires !step.Agent?
    ensures Bystander(s, Next(https, s, step))
  {
  }

  lemma AllEverKept(before: Book, after: Book)
    requires Keeps(before, after)
    ensures forall id, statuses :: Ever(before, id, statuses) ==> Ever(after, id, statuses)
  {
    forall id, statuses | Ever(before, id, statuses) ensures Ever(after, id, statuses) {
      EverKept(before, after, id, statuses);
    }
  }

  lemma BystanderMindful(s: System, s': System)
    requires Mindful(s) && Remembered(s) && Declared(s) && Keeps(s.book, s'.book) && Bystander(s, s')
    ensures Mindful(s') && Remembered(s') && Declared(s')
  {
    AllEverKept(s.book, s'.book);
  }

  lemma ReviewGetMindful(https: string -> bool, s: System, m: Move)
    requires Mindful(s) && Remembered(s) && Declared(s) && Sound(https, s.book) && m.ReviewGet?
    ensures var s' := ReviewMove(https, s, m); Mindful(s') && Remembered(s') && Declared(s')
  {
    if m.id in s.book.records { EverNow(https, s.book, m.id); }
  }

  lemma ReviewMindful(https: string -> bool, s: System, m: Move)
    requires Mindful(s) && Remembered(s) && Declared(s) && !m.ReviewGet?
    requires Keeps(s.book, ReviewMove(https, s, m).book)
    ensures var s' := ReviewMove(https, s, m); Mindful(s') && Remembered(s') && Declared(s')
  {
    BystanderMindful(s, s.(book := ReviewMove(https, s, m).book));
  }

  lemma ObservedEver(https: string -> bool, s: System, seen: Record, task: Task)
    requires Sound(https, s.book) && Ever(s.book, seen.spec.requestId, {seen.state.status})
    requires ObserveIn(https, s, seen, task).result.Ok?
    ensures var reply := ObserveIn(https, s, seen, task);
            Ever(reply.book, seen.spec.requestId, {reply.result.value.state.status})
  {
    var reply := ObserveIn(https, s, seen, task);
    ObserveBook(https, s, seen, task);
    if reply.book != s.book { EverNow(https, reply.book, seen.spec.requestId); }
  }

  lemma SlotReadMindful(https: string -> bool, s: System, m: Move)
    requires Mindful(s) && Remembered(s) && Declared(s) && s.phase.SlotRead?
    requires s.phase.slot.requestId in s.book.records ==> Kept(https, s.book, s.phase.slot.requestId)
    ensures var s' := SlotMove(https, s, m); Mindful(s') && Remembered(s') && Declared(s')
  {
    var id := s.phase.slot.requestId;
    if id in s.book.records { EverNow(https, s.book, id); }
  }

  lemma SlotRefetchMindful(https: string -> bool, s: System, m: Move)
    requires Mindful(s) && Remembered(s) && Declared(s) && s.phase.SlotRefetch?
    requires s.phase.slot.requestId in s.book.records ==> Kept(https, s.book, s.phase.slot.requestId)
    ensures var s' := SlotMove(https, s, m); Mindful(s') && Remembered(s') && Declared(s')
  {
    var id := s.phase.slot.requestId;
    if id in s.book.records { EverNow(https, s.book, id); }
  }

  lemma SlotSeenMindful(https: string -> bool, s: System, m: Move)
    requires Mindful(s) && Remembered(s) && Declared(s) && Sound(https, s.book) && s.phase.SlotSeen?
    requires Keeps(s.book, SlotMove(https, s, m).book)
    ensures var s' := SlotMove(https, s, m); Mindful(s') && Remembered(s') && Declared(s')
  {
    BystanderMindful(s, s.(book := SlotMove(https, s, m).book));
    if m.SlotObserve? && ObserveIn(https, s, s.phase.seen, m.task).result.Ok? {
      ObservedEver(https, s, s.phase.seen, m.task);
    }
  }

  lemma SlotEndMindful(https: string -> bool, s: System, m: Move)
    requires Mindful(s) && Remembered(s) && Declared(s)
    requires !s.phase.SlotRead? && !s.phase.SlotRefetch? && !s.phase.SlotSeen?
    ensures var s' := SlotMove(https, s, m); Mindful(s') && Remembered(s') && Declared(s')
  {
  }

  lemma FileMindful(https: string -> bool, s: System, m: Move)
    requires Mindful(s) && Remembered(s) && Declared(s) && (m.Begin? || m.Choose? || m.Launch? || m.Halt?)
    ensures var s' := AgentMove(https, s, m); Mindful(s') && Remembered(s') && Declared(s')
  {
  }

  lemma AgentMindful(https: string -> bool, s: System, m: Move)
    requires Mindful(s) && Remembered(s) && Declared(s) && Sound(https, s.book)
    requires Keeps(s.book, AgentMove(https, s, m).book)
    ensures var s' := AgentMove(https, s, m); Mindful(s') && Remembered(s') && Declared(s')
  {
    match m
    case ReviewGet(_) => ReviewGetMindful(https, s, m);
    case ReviewObserve(_, _, _) => ReviewMindful(https, s, m);
    case ReviewsDone => ReviewMindful(https, s, m);
    case Begin => FileMindful(https, s, m);
    case Choose(_) => FileMindful(https, s, m);
    case Launch => FileMindful(https, s, m);
    case Halt => FileMindful(https, s, m);
    case _ => SlotMindful(https, s, m);
  }

  lemma SlotMindful(https: string -> bool, s: System, m: Move)
    requires Mindful(s) && Remembered(s) && Declared(s) && Sound(https, s.book)
    requires Keeps(s.book, SlotMove(https, s, m).book)
    ensures var s' := SlotMove(https, s, m); Mindful(s') && Remembered(s') && Declared(s')
  {
    if s.phase.SlotRead? { SlotReadMindful(https, s, m); }
    else if s.phase.SlotRefetch? { SlotRefetchMindful(https, s, m); }
    else if s.phase.SlotSeen? { SlotSeenMindful(https, s, m); }
    else { SlotEndMindful(https, s, m); }
  }

  // ---------------------------------------------------------------- every reachable system

  ghost predicate Inv(https: string -> bool, s: System) {
    Sound(https, s.book) && Single(s) && Mindful(s) && Remembered(s) && Declared(s)
  }

  lemma StepMindful(https: string -> bool, s: System, step: Step)
    requires Sound(https, s.book) && Mindful(s) && Remembered(s) && Declared(s)
    requires Keeps(s.book, Next(https, s, step).book)
    ensures var s' := Next(https, s, step); Mindful(s') && Remembered(s') && Declared(s')
  {
    var s' := Next(https, s, step);
    if step.Agent? {
      assert s' == AgentMove(https, s, step.move);
      AgentMindful(https, s, step.move);
    } else {
      StepBystander(https, s, step);
      BystanderMindful(s, s');
    }
  }

  lemma InvNext(https: string -> bool, s: System, step: Step)
    requires Inv(https, s)
    ensures Inv(https, Next(https, s, step)) && Keeps(s.book, Next(https, s, step).book)
  {
    StepBook(https, s, step);
    StepSingle(https, s, step);
    StepMindful(https, s, step);
  }

  lemma {:induction false} InvReach(https: string -> bool, s: System, steps: seq<Step>)
    requires Inv(https, s)
    ensures Inv(https, Reach(https, s, steps)) && Keeps(s.book, Reach(https, s, steps).book)
    decreases |steps|
  {
    if steps != [] {
      InvNext(https, s, steps[0]);
      InvReach(https, Next(https, s, steps[0]), steps[1..]);
    }
  }

  lemma ReachableInv(https: string -> bool, s: System)
    requires Reachable(https, s)
    ensures Inv(https, s)
  {
    var now, steps :| Reach(https, Init(now), steps) == s;
    InvReach(https, Init(now), steps);
  }

  /** Whatever launchers, crashes, lost replies and reruns there are, no request is submitted twice. */
  lemma SubmittedOnce(https: string -> bool, s: System)
    requires Reachable(https, s)
    ensures forall i, j :: 0 <= i < j < |s.submissions| ==> s.submissions[i] != s.submissions[j]
  {
    ReachableInv(https, s);
  }

  /** The record exists and has left `reserved`; nobody may reserve the request anew or is about to submit it. */
  ghost predicate Spent(s: System, id: Id) {
    && id in s.book.records && s.book.records[id].state.status != Reserved
    && (forall spec: Spec :: spec.requestId == id && ReserveIn(s.book, spec).result.Ok? ==>
          !ReserveIn(s.book, spec).result.value.1)
    && forall l :: l in s.launchers && Entitled(s.launchers[l]) ==> s.launchers[l].spec.requestId != id
  }

  lemma SubmittedIsSpent(https: string -> bool, s: System, id: Id)
    requires Inv(https, s) && id in s.submissions
    ensures Spent(s, id)
  {
    LeftReserved(https, s.book, id);
  }

  lemma SubmittingLeft(https: string -> bool, s: System, l: Id, answer: Option<(Id, string)>)
    requires Inv(https, s) && l in s.launchers && s.launchers[l].Submitting?
    ensures var id := s.launchers[l].spec.requestId;
            && id in s.book.records && s.book.records[id].state.status != Reserved
            && id in Next(https, s, Submits(l, answer)).submissions
  {
    LeftReserved(https, s.book, s.launchers[l].spec.requestId);
  }

  /** When a submission starts the record has durably left `reserved`, and from then on, whatever
      happens, the request is spent. */
  lemma SubmissionIsDurable(https: string -> bool, s: System, l: Id, answer: Option<(Id, string)>, steps: seq<Step>)
    requires Reachable(https, s) && l in s.launchers && s.launchers[l].Submitting?
    ensures var id := s.launchers[l].spec.requestId;
            && id in s.book.records && s.book.records[id].state.status != Reserved
            && Spent(Reach(https, Next(https, s, Submits(l, answer)), steps), id)
  {
    ReachableInv(https, s);
    SubmittingLeft(https, s, l, answer);
    InvNext(https, s, Submits(l, answer));
    SubmittedStays(https, Next(https, s, Submits(l, answer)), steps, s.launchers[l].spec.requestId);
  }

  lemma SubmittedStays(https: string -> bool, s: System, steps: seq<Step>, id: Id)
    requires Inv(https, s) && id in s.submissions
    ensures Spent(Reach(https, s, steps), id)
  {
    InvReach(https, s, steps);
    SubmissionsStay(https, s, steps, id);
    SubmittedIsSpent(https, Reach(https, s, steps), id);
  }

  lemma LeftReserved(https: string -> bool, book: Book, id: Id)
    requires Sound(https, book) && Ever(book, id, {SubmissionUnknown})
    ensures id in book.records && book.records[id].state.status != Reserved
  {
    var n: nat :| Has(book, id, n) && At(book, id, n).status == SubmissionUnknown;
    HistoryExtends(https, book, id, n, book.records[id].version);
  }

  lemma {:induction false} SubmissionsStay(https: string -> bool, s: System, steps: seq<Step>, id: Id)
    requires id in s.submissions
    ensures id in Reach(https, s, steps).submissions
    decreases |steps|
  {
    if steps != [] {
      SubmissionStays(https, s, steps[0], id);
      SubmissionsStay(https, Next(https, s, steps[0]), steps[1..], id);
    }
  }

  lemma SubmissionStays(https: string -> bool, s: System, step: Step, id: Id)
    requires id in s.submissions
    ensures id in Next(https, s, step).submissions
  {
  }

  /** At every point between two steps, each request the investigator launched is in its slot or its
      queue, or has been in review, taken over locally, completed or abandoned. */
  lemma NothingForgotten(https: string -> bool, s: System, id: Id)
    requires Reachable(https, s) && id in s.launched
    ensures InSlot(s, id) || id in s.queue || Ever(s.book, id, ENDED)
  {
    ReachableInv(https, s);
  }

  /** The investigator submits only what its slot names, and only when every other request it launched
      got beyond reserved, unknown and running. */
  lemma SubmitsAlone(https: string -> bool, s: System)
    requires Reachable(https, s) && AGENT in s.launchers && s.launchers[AGENT].Submitting?
    ensures InSlot(s, s.launchers[AGENT].spec.requestId)
    ensures forall id :: id in s.launched && id != s.launchers[AGENT].spec.requestId ==> Ever(s.book, id, BEYOND)
  {
    ReachableInv(https, s);
  }

  /** Every record of a reachable registry has its whole history, version by version, and one subject
      or one cloud task never has two open investigations. */
  lemma HistoriesKept(https: string -> bool, s: System, id: Id)
    requires Reachable(https, s) && id in s.book.records
    ensures Kept(https, s.book, id) && Indexed(s.book.records)
  {
    ReachableInv(https, s);
  }
}
