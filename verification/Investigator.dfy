/** What each move of the unattended investigator does. */
module Investigator {
  import opened Basics
  import opened Investigation
  import opened Registry
  import opened Launches

  /** A run starts from the files: what the slot holds and what the queue holds. */
  lemma BeginsWithFiles(https: string -> bool, s: System)
    requires s.phase.Off?
    ensures Next(https, s, Agent(Begin)) == s.(phase := Reviewing(s.slot, s.queue, s.queue))
  {
  }

  /** A queued request leaves the queue exactly when it is seen settled; otherwise it is observed. */
  lemma ReviewsExactly(https: string -> bool, s: System, id: Id)
    requires s.phase.Reviewing? && id in s.phase.todo && id in s.book.records
    ensures var s' := Next(https, s, Agent(ReviewGet(id)));
            var settled := s.book.records[id].state.status in {Review, Local, Completed, Abandoned};
            && s'.slot == s.slot && s'.queue == s.queue && s'.book == s.book && s'.launched == s.launched
            && s'.phase.todo == s.phase.todo - {id}
            && s'.phase.remaining == (if settled then s.phase.remaining - {id} else s.phase.remaining)
            && (settled <==> s'.phase.Reviewing?) && (!settled ==> s'.phase.ReviewSeen? && s'.phase.seen == s.book.records[id])
  {
  }

  /** When every queued request was looked at, the file holds what remains, and the slot comes next. */
  lemma QueueIsRewritten(https: string -> bool, s: System)
    requires s.phase.Reviewing? && s.phase.todo == {}
    ensures var s' := Next(https, s, Agent(ReviewsDone));
            && s'.queue == s.phase.remaining && s'.slot == s.slot
            && s'.phase == if s.phase.active.Some? then SlotRead(s.phase.active.value) else Choosing
  {
  }

  /** A slot is given up exactly when its request is settled, needs input or failed, and in the last two
      cases only after the request is in the queue; otherwise the run ends with the slot occupied. */
  lemma DecidesExactly(https: string -> bool, s: System)
    requires s.phase.SlotDecided?
    ensures var s', status := Next(https, s, Agent(Decide)), s.phase.status;
            && s'.slot == s.slot && s'.book == s.book
            && (status in {Review, Local, Completed, Abandoned} ==>
                  s'.phase == SlotClearing(s.phase.slot) && s'.queue == s.queue)
            && (status in {NeedsInput, Failed} ==>
                  s'.phase == SlotClearing(s.phase.slot) && s'.queue == s.queue + {s.phase.slot.requestId})
            && (status in {Reserved, SubmissionUnknown, Running} ==> s'.phase == Off && s'.queue == s.queue)
  {
  }

  lemma ClearsSlot(https: string -> bool, s: System)
    requires s.phase.SlotClearing?
    ensures var s' := Next(https, s, Agent(Clear)); s'.slot == None && s'.queue == s.queue && s'.phase == Choosing
  {
  }

  /** A new request takes the slot exactly when its subject has no record at all, and is launched from there. */
  lemma ChoosesExactly(https: string -> bool, s: System, spec: Spec)
    requires s.phase.Choosing?
    ensures var s' := Next(https, s, Agent(Choose(spec)));
            if exists r :: r in s.book.records && SameSubject(s.book.records[r].spec, spec) then s' == s
            else
              && s' == s.(slot := Some(spec), phase := Starting(spec))
              && var s2 := Next(https, s', Agent(Launch));
                 && AGENT in s2.launchers && s2.launchers[AGENT] == Looking(spec, false)
                 && s2.launched == s.launched + {spec.requestId} && s2.phase == Launches.Launching
  {
  }

  /** The meaning of an observation: an idle task asks for its snapshot, a failed one for the operator, a
      blocked one for input, and a task at work again puts the investigation back to running. */
  lemma ObservationMeans(state: State, task: Task, now: Time)
    requires Observed(state, task, now).Some?
    ensures var seen := Observed(state, task, now).value;
            && seen.cloudStatus == task.status && seen.cloudUpdatedAt == Some(task.updatedAt) && seen.observedAt == Some(now)
            && seen.taskId == state.taskId && seen.taskUrl == state.taskUrl && seen.actualBase == state.actualBase
            && (task.status == "ready" ==> seen.status == NeedsInput && seen.attempt == task.attempts)
            && (task.status in ["failed", "error", "cancelled"] ==> seen.status == Failed)
            && (task.status in ["blocked", "needs_input", "waiting_for_input"] ==> seen.status == NeedsInput)
            && (task.status !in ["ready", "failed", "error", "cancelled", "blocked", "needs_input", "waiting_for_input"] ==>
                  seen.status == if state.status in {NeedsInput, Failed, Review} then Running else state.status)
  {
  }

  /** Nothing is written when the cloud reports what is recorded already. */
  lemma UnchangedIsQuiet(state: State, task: Task, now: Time)
    ensures Observed(state, task, now).None? <==>
              && state.cloudStatus == task.status && state.cloudUpdatedAt == Some(task.updatedAt)
              && (task.status == "ready" ==> state.attempt == task.attempts)
  {
  }
}
