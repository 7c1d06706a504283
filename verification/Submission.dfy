/** What each step of a launch writes, and the launch that nothing disturbs. */
module Submission {
  import opened Basics
  import opened Text
  import opened Investigation
  import opened Registry
  import opened Launches

  /** The version the launcher was told of holds what the launcher wrote. */
  ghost predicate Written(book: Book, spec: Spec, n: nat, state: State) {
    && (spec.requestId, n) in book.versions && book.versions[(spec.requestId, n)] == state
    && spec.requestId in book.records && book.records[spec.requestId].spec == spec
  }

  ghost predicate Told(book: Book, l: Launcher) {
    match l
    case Marking(spec, version) => Written(book, spec, version, Bare(Reserved))
    case Submitting(spec, version) => Written(book, spec, version, Bare(SubmissionUnknown))
    case Recording(spec, version, _, _) => Written(book, spec, version, Bare(SubmissionUnknown))
    case _ => true
  }

  ghost predicate Informed(s: System) { forall l :: l in s.launchers ==> Told(s.book, s.launchers[l]) }

  lemma ToldStays(before: Book, after: Book, l: Launcher)
    requires Keeps(before, after) && Told(before, l)
    ensures Told(after, l)
  {
  }

  /** The launcher a step moves, if it moves one. */
  function Mover(step: Step): Option<Id> {
    match step
    case Looks(l) => Some(l)
    case Posts(l, _) => Some(l)
    case Marks(l, _) => Some(l)
    case Submits(l, _) => Some(l)
    case _ => None
  }

  lemma OthersStay(https: string -> bool, s: System, step: Step, l: Id)
    requires l in Next(https, s, step).launchers && Mover(step) != Some(l)
    ensures var l' := Next(https, s, step).launchers[l]; l'.Looking? || (l in s.launchers && l' == s.launchers[l])
  {
  }

  lemma MarkTold(https: string -> bool, s: System, l: Id, delivered: bool)
    requires l in MarkStep(https, s, l, delivered).launchers && l in s.launchers && Told(s.book, s.launchers[l])
    ensures Told(MarkStep(https, s, l, delivered).book, MarkStep(https, s, l, delivered).launchers[l])
  {
  }

  lemma PostTold(s: System, l: Id, delivered: bool)
    requires l in PostStep(s, l, delivered).launchers && l in s.launchers && Told(s.book, s.launchers[l])
    ensures Told(PostStep(s, l, delivered).book, PostStep(s, l, delivered).launchers[l])
  {
  }

  lemma MoverTold(https: string -> bool, s: System, step: Step, l: Id)
    requires l in Next(https, s, step).launchers && l in s.launchers && Mover(step) == Some(l) && Told(s.book, s.launchers[l])
    ensures Told(Next(https, s, step).book, Next(https, s, step).launchers[l])
  {
    match step
    case Posts(_, delivered) => PostTold(s, l, delivered);
    case Marks(_, delivered) => MarkTold(https, s, l, delivered);
    case _ =>
  }

  lemma StepInformed(https: string -> bool, s: System, step: Step)
    requires Informed(s) && Keeps(s.book, Next(https, s, step).book)
    ensures Informed(Next(https, s, step))
  {
    var s' := Next(https, s, step);
    forall l | l in s'.launchers ensures Told(s'.book, s'.launchers[l]) {
      if Mover(step) == Some(l) {
        assert l in s.launchers;
        MoverTold(https, s, step, l);
      } else {
        OthersStay(https, s, step, l);
        if l in s.launchers { ToldStays(s.book, s'.book, s.launchers[l]); }
      }
    }
  }

  lemma {:induction false} InformedReach(https: string -> bool, s: System, steps: seq<Step>)
    requires Inv(https, s) && Informed(s)
    ensures Informed(Reach(https, s, steps))
    decreases |steps|
  {
    if steps != [] {
      InvNext(https, s, steps[0]);
      StepInformed(https, s, steps[0]);
      InformedReach(https, Next(https, s, steps[0]), steps[1..]);
    }
  }

  lemma ReachableInformed(https: string -> bool, s: System)
    requires Reachable(https, s)
    ensures Inv(https, s) && Informed(s)
  {
    ReachableInv(https, s);
    var now, steps :| Reach(https, Init(now), steps) == s;
    InvReach(https, Init(now), []);
    InformedReach(https, Init(now), steps);
  }

  // ---------------------------------------------------------------- what each step writes

  /** A launch goes on past its lookup exactly when nothing recorded for the subject stands against it. */
  lemma LooksExactly(https: string -> bool, s: System, l: Id)
    requires l in s.launchers && s.launchers[l].Looking?
    ensures var s' := Next(https, s, Looks(l));
            && s'.book == s.book
            && (l in s'.launchers <==>
                forall r :: r in s.book.records && SameSubject(s.book.records[r].spec, s.launchers[l].spec) ==>
                  s.launchers[l].newGeneration && Terminal(s.book.records[r].state.status))
            && (l in s'.launchers ==> s'.launchers[l] == Posting(s.launchers[l].spec))
  {
  }

  /** A reservation is created exactly for a valid new request on a free subject, and only a launcher that
      hears so goes on. */
  lemma PostsExactly(https: string -> bool, s: System, l: Id, delivered: bool)
    requires Reachable(https, s) && l in s.launchers && s.launchers[l].Posting?
    ensures var s', spec := Next(https, s, Posts(l, delivered)), s.launchers[l].spec;
            var created := ValidSpec(spec) && spec.requestId !in s.book.records && !SubjectTaken(s.book.records, spec);
            && s'.book.records == (if created then s.book.records[spec.requestId := Record(spec, Bare(Reserved), 1)]
                                   else s.book.records)
            && (l in s'.launchers <==> created && delivered) && (l in s'.launchers ==> s'.launchers[l] == Marking(spec, 1))
  {
    ReachableInv(https, s);
    PostOwn(https, s, l, delivered);
  }

  lemma PostOwn(https: string -> bool, s: System, l: Id, delivered: bool)
    requires l in s.launchers && s.launchers[l].Posting? && forall id, n: nat :: (id, n) in s.book.versions ==> id in s.book.records
    ensures var s', spec := PostStep(s, l, delivered), s.launchers[l].spec;
            var created := ValidSpec(spec) && spec.requestId !in s.book.records && !SubjectTaken(s.book.records, spec);
            && s'.book.records == (if created then s.book.records[spec.requestId := Record(spec, Bare(Reserved), 1)]
                                   else s.book.records)
            && (l in s'.launchers <==> created && delivered) && (l in s'.launchers ==> s'.launchers[l] == Marking(spec, 1))
  {
  }

  lemma MarkIsValid(https: string -> bool, now: Time)
    ensures ValidTransition(https, now, Bare(Reserved), Bare(SubmissionUnknown))
  {
  }

  /** The uncertainty is recorded exactly when the reservation is still the launcher's own, and only a
      launcher that hears so submits. */
  lemma MarksExactly(https: string -> bool, s: System, l: Id, delivered: bool)
    requires Reachable(https, s) && l in s.launchers && s.launchers[l].Marking?
    ensures var s', spec, version := Next(https, s, Marks(l, delivered)), s.launchers[l].spec, s.launchers[l].version;
            && spec.requestId in s.book.records
            && var mine := s.book.records[spec.requestId].version == version;
            && s'.book.records == (if mine then s.book.records[spec.requestId := Record(spec, Bare(SubmissionUnknown), version + 1)]
                                   else s.book.records)
            && (l in s'.launchers <==> mine && delivered)
            && (l in s'.launchers ==> s'.launchers[l] == Submitting(spec, version + 1))
  {
    ReachableInformed(https, s);
    MarkOwn(https, s, l, delivered);
  }

  lemma MarkOwn(https: string -> bool, s: System, l: Id, delivered: bool)
    requires l in s.launchers && s.launchers[l].Marking? && Told(s.book, s.launchers[l])
    requires Kept(https, s.book, s.launchers[l].spec.requestId)
    ensures var s', spec, version := MarkStep(https, s, l, delivered), s.launchers[l].spec, s.launchers[l].version;
            var mine := s.book.records[spec.requestId].version == version;
            && s'.book.records == (if mine then s.book.records[spec.requestId := Record(spec, Bare(SubmissionUnknown), version + 1)]
                                   else s.book.records)
            && (l in s'.launchers <==> mine && delivered)
            && (l in s'.launchers ==> s'.launchers[l] == Submitting(spec, version + 1))
  {
    MarkIsValid(https, s.now);
    UpdateExactly(https, s.now, s.book, s.launchers[l].spec.requestId, s.launchers[l].version, Bare(SubmissionUnknown));
  }

  /** The cloud's answer names a task that can be attached. */
  predicate Attachable(https: string -> bool, records: map<Id, Record>, id: Id, taskId: Id, taskUrl: string) {
    IsId(taskId) && https(taskUrl) && Bytes(taskUrl) <= 2048 && !TaskTaken(records, id, taskId)
  }

  lemma AttachIsValid(https: string -> bool, now: Time, taskId: Id, taskUrl: string)
    ensures ValidTransition(https, now, Bare(SubmissionUnknown), Attached(taskId, taskUrl)) <==>
              IsId(taskId) && https(taskUrl) && Bytes(taskUrl) <= 2048
  {
  }

  /** The task of an answered submission is attached exactly when the record is still the launcher's own
      and the task can be attached; then the investigation is running with that task. */
  lemma RecordsExactly(https: string -> bool, s: System, l: Id)
    requires Reachable(https, s) && l in s.launchers && s.launchers[l].Recording?
    ensures var Recording(spec, version, taskId, taskUrl) := s.launchers[l];
            var s' := Next(https, s, Records(l));
            && spec.requestId in s.book.records && l !in s'.launchers
            && (if s.book.records[spec.requestId].version == version
                   && Attachable(https, s.book.records, spec.requestId, taskId, taskUrl)
                then s'.book.records == s.book.records[spec.requestId := Record(spec, Attached(taskId, taskUrl), version + 1)]
                else s'.book == s.book)
  {
    ReachableInformed(https, s);
    RecordOwn(https, s, l);
  }

  lemma RecordOwn(https: string -> bool, s: System, l: Id)
    requires l in s.launchers && s.launchers[l].Recording? && Told(s.book, s.launchers[l])
    requires Kept(https, s.book, s.launchers[l].spec.requestId)
    ensures var Recording(spec, version, taskId, taskUrl) := s.launchers[l];
            var s' := RecordStep(https, s, l);
            && l !in s'.launchers
            && (if s.book.records[spec.requestId].version == version
                   && Attachable(https, s.book.records, spec.requestId, taskId, taskUrl)
                then s'.book.records == s.book.records[spec.requestId := Record(spec, Attached(taskId, taskUrl), version + 1)]
                else s'.book == s.book)
  {
    var Recording(spec, version, taskId, taskUrl) := s.launchers[l];
    AttachIsValid(https, s.now, taskId, taskUrl);
    UpdateExactly(https, s.now, s.book, spec.requestId, version, Attached(taskId, taskUrl));
  }

  /** Every submission is logged, and only an answered one is followed up. */
  lemma SubmitsExactly(https: string -> bool, s: System, l: Id, answer: Option<(Id, string)>)
    requires l in s.launchers && s.launchers[l].Submitting?
    ensures var s', spec, version := Next(https, s, Submits(l, answer)), s.launchers[l].spec, s.launchers[l].version;
            && s'.book == s.book && s'.submissions == s.submissions + [spec.requestId] && (l in s'.launchers <==> answer.Some?)
            && (answer.Some? ==> s'.launchers[l] == Recording(spec, version, answer.value.0, answer.value.1))
  {
  }

  // ---------------------------------------------------------------- the whole launch

  lemma {:induction false} ReachMore(https: string -> bool, s: System, steps: seq<Step>, step: Step)
    ensures Reach(https, s, steps + [step]) == Next(https, Reach(https, s, steps), step)
    decreases |steps|
  {
    if steps == [] {
      assert [] + [step] == [step] && [step][1..] == [];
      assert Reach(https, Next(https, s, step), []) == Next(https, s, step);
    } else {
      assert (steps + [step])[1..] == steps[1..] + [step];
      ReachMore(https, Next(https, s, steps[0]), steps[1..], step);
    }
  }

  lemma ReachNext(https: string -> bool, s: System, step: Step)
    requires Reachable(https, s)
    ensures Reachable(https, Next(https, s, step))
  {
    var now, steps :| Reach(https, Init(now), steps) == s;
    ReachMore(https, Init(now), steps, step);
  }

  /** The steps of one launch from its lookup on, every reply delivered and the cloud answering. */
  function Undisturbed(l: Id, taskId: Id, taskUrl: string): seq<Step> {
    [Looks(l), Posts(l, true), Marks(l, true), Submits(l, Some((taskId, taskUrl))), Records(l)]
  }

  /** A launch of a valid request on a subject without records, with a task that can be attached. */
  ghost predicate Clear(https: string -> bool, book: Book, spec: Spec, taskId: Id, taskUrl: string) {
    && ValidSpec(spec) && spec.requestId !in book.records && !Blocks(book.records, spec, false)
    && Attachable(https, book.records, spec.requestId, taskId, taskUrl)
  }

  /** Run through without disturbance, such a launch submits once and leaves the investigation running
      with the task the cloud named. */
  lemma LaunchSucceeds(https: string -> bool, s: System, l: Id, spec: Spec, taskId: Id, taskUrl: string)
    requires Reachable(https, s) && l in s.launchers && s.launchers[l] == Looking(spec, false)
    requires Clear(https, s.book, spec, taskId, taskUrl)
    ensures var s' := Reach(https, s, Undisturbed(l, taskId, taskUrl));
            && s'.submissions == s.submissions + [spec.requestId]
            && s'.book.records == s.book.records[spec.requestId := Record(spec, Attached(taskId, taskUrl), 3)]
  {
    var s1 := Marked(https, s, l, spec);
    var s2 := Answered(https, s, s1, l, spec, taskId, taskUrl);
    FiveSteps(https, s, Undisturbed(l, taskId, taskUrl));
  }

  /** Up to the reservation. */
  lemma Posted(https: string -> bool, s: System, l: Id, spec: Spec) returns (s': System)
    requires Reachable(https, s) && l in s.launchers && s.launchers[l] == Looking(spec, false) && ValidSpec(spec)
    requires spec.requestId !in s.book.records && !Blocks(s.book.records, spec, false)
    ensures s' == Next(https, Next(https, s, Looks(l)), Posts(l, true))
    ensures Reachable(https, s') && l in s'.launchers && s'.launchers[l] == Marking(spec, 1)
    ensures s'.submissions == s.submissions
    ensures s'.book.records == s.book.records[spec.requestId := Record(spec, Bare(Reserved), 1)]
  {
    var s1 := Next(https, s, Looks(l));
    LooksExactly(https, s, l);
    ReachNext(https, s, Looks(l));
    s' := Next(https, s1, Posts(l, true));
    PostsExactly(https, s1, l, true);
    ReachNext(https, s1, Posts(l, true));
  }

  /** Up to the durable uncertainty. */
  lemma Marked(https: string -> bool, s: System, l: Id, spec: Spec) returns (s': System)
    requires Reachable(https, s) && l in s.launchers && s.launchers[l] == Looking(spec, false) && ValidSpec(spec)
    requires spec.requestId !in s.book.records && !Blocks(s.book.records, spec, false)
    ensures s' == Next(https, Next(https, Next(https, s, Looks(l)), Posts(l, true)), Marks(l, true))
    ensures Reachable(https, s') && l in s'.launchers && s'.launchers[l] == Submitting(spec, 2)
    ensures s'.submissions == s.submissions
    ensures s'.book.records == s.book.records[spec.requestId := Record(spec, Bare(SubmissionUnknown), 2)]
  {
    var s1 := Posted(https, s, l, spec);
    s' := Next(https, s1, Marks(l, true));
    MarksExactly(https, s1, l, true);
    ReachNext(https, s1, Marks(l, true));
  }

  /** From there to the attached task. */
  lemma Answered(https: string -> bool, s: System, s1: System, l: Id, spec: Spec, taskId: Id, taskUrl: string)
    returns (s': System)
    requires Reachable(https, s1) && l in s1.launchers && s1.launchers[l] == Submitting(spec, 2)
    requires s1.book.records == s.book.records[spec.requestId := Record(spec, Bare(SubmissionUnknown), 2)]
    requires Attachable(https, s.book.records, spec.requestId, taskId, taskUrl)
    ensures s' == Next(https, Next(https, s1, Submits(l, Some((taskId, taskUrl)))), Records(l))
    ensures s'.submissions == s1.submissions + [spec.requestId]
    ensures s'.book.records == s.book.records[spec.requestId := Record(spec, Attached(taskId, taskUrl), 3)]
  {
    var s2 := Next(https, s1, Submits(l, Some((taskId, taskUrl))));
    SubmitsExactly(https, s1, l, Some((taskId, taskUrl)));
    ReachNext(https, s1, Submits(l, Some((taskId, taskUrl))));
    RecordsExactly(https, s2, l);
    s' := Next(https, s2, Records(l));
  }

  lemma FiveSteps(https: string -> bool, s: System, steps: seq<Step>)
    requires |steps| == 5
    ensures Reach(https, s, steps) ==
              Next(https, Next(https, Next(https, Next(https, Next(https, s, steps[0]), steps[1]), steps[2]), steps[3]), steps[4])
  {
    TwoSteps(https, s, steps);
    var s2 := Next(https, Next(https, s, steps[0]), steps[1]);
    TwoSteps(https, s2, steps[2..]);
    assert steps[2..][2..] == [steps[4]];
    var s4 := Next(https, Next(https, s2, steps[2]), steps[3]);
    assert Reach(https, s4, [steps[4]]) == Reach(https, Next(https, s4, steps[4]), []);
  }

  lemma TwoSteps(https: string -> bool, s: System, steps: seq<Step>)
    requires |steps| >= 2
    ensures Reach(https, s, steps) == Reach(https, Next(https, Next(https, s, steps[0]), steps[1]), steps[2..])
  {
    assert steps[1..][1..] == steps[2..];
  }

  // ---------------------------------------------------------------- the investigator's own launch

  /** With an empty slot and nothing to review, a run takes up a subject without records: the request is in
      the slot before anything is reserved, and the same launch follows. */
  lemma InvestigatorLaunches(https: string -> bool, s: System, spec: Spec, taskId: Id, taskUrl: string)
    requires Reachable(https, s) && s.phase.Off? && s.slot == None && s.queue == {}
    requires Clear(https, s.book, spec, taskId, taskUrl)
    ensures var began := Next(https, Next(https, s, Agent(Begin)), Agent(ReviewsDone));
            var slotted := Next(https, began, Agent(Choose(spec)));
            var s' := Reach(https, Next(https, slotted, Agent(Launch)), Undisturbed(AGENT, taskId, taskUrl));
            && slotted.slot == Some(spec) && slotted.book == s.book && slotted.submissions == s.submissions
            && spec.requestId in s'.launched && s'.submissions == s.submissions + [spec.requestId]
            && s'.book.records == s.book.records[spec.requestId := Record(spec, Attached(taskId, taskUrl), 3)]
  {
    var s1 := Next(https, s, Agent(Begin));
    ReachNext(https, s, Agent(Begin));
    var s2 := Next(https, s1, Agent(ReviewsDone));
    ReachNext(https, s1, Agent(ReviewsDone));
    var s3 := Next(https, s2, Agent(Choose(spec)));
    ReachNext(https, s2, Agent(Choose(spec)));
    var s4 := Next(https, s3, Agent(Launch));
    ReachNext(https, s3, Agent(Launch));
    LaunchSucceeds(https, s4, AGENT, spec, taskId, taskUrl);
    LaunchedStays(https, s4, Undisturbed(AGENT, taskId, taskUrl), spec.requestId);
  }

  lemma {:induction false} LaunchedStays(https: string -> bool, s: System, steps: seq<Step>, id: Id)
    requires id in s.launched
    ensures id in Reach(https, s, steps).launched
    decreases |steps|
  {
    if steps != [] { LaunchedStays(https, Next(https, s, steps[0]), steps[1..], id); }
  }
}
