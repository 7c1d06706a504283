/** The workflow of one investigation: which state may replace which. */
module Investigation {
  import opened Basics
  import opened Text

  const MINUTE: int := 60 * SECOND

  datatype Status =
    Reserved | SubmissionUnknown | Running | NeedsInput | Failed | Review | Local | Completed | Abandoned

  datatype Spec = Spec(
    requestId: Id, repositoryId: Id, repository: string, issue: int, fingerprint: string, environment: string,
    branch: string, expectedBase: string)

  datatype State = State(
    status: Status, taskId: Id, taskUrl: string, attempt: int, actualBase: string, cloudStatus: string,
    cloudUpdatedAt: Option<Time>, observedAt: Option<Time>, handoff: string, patchRef: string, patchSha256: string,
    deliveryEvidence: string, reason: string)

  /** A state that holds nothing but its status. */
  function Bare(status: Status): State {
    State(status, "", "", 0, "", "", None, None, "", "", "", "", "")
  }

  predicate Terminal(status: Status) { status == Completed || status == Abandoned }

  // ---------------------------------------------------------------- texts

  predicate Hex(s: string) { forall c :: c in s ==> Digit(c) || 'a' <= c <= 'f' }

  predicate IsId(s: string) {
    && 1 <= |s| <= 128 && (Letter(s[0]) || Digit(s[0]))
    && forall c :: c in s ==> Letter(c) || Digit(c) || c in "._:-"
  }

  predicate IsSha256(s: string) { |s| == 64 && Hex(s) }

  predicate IsCommit(s: string) { (|s| == 40 || |s| == 64) && Hex(s) }

  predicate NameChars(s: string) { s != "" && forall c :: c in s ==> Letter(c) || Digit(c) || c in "_.-" }

  predicate IsRepositoryName(s: string) {
    exists k :: 0 <= k < |s| && s[k] == '/' && NameChars(s[..k]) && NameChars(s[k + 1..])
  }

  predicate IsRepositoryId(s: string) {
    1 <= |s| <= 20 && '1' <= s[0] <= '9' && forall c :: c in s ==> Digit(c)
  }

  predicate ShortText(s: string, max: nat) {
    !Blank(s) && Bytes(s) <= max && '\0' !in s && '\r' !in s && '\n' !in s
  }

  predicate ValidSpec(s: Spec) {
    && IsRepositoryId(s.repositoryId) && s.issue > 0 && IsId(s.requestId) && IsRepositoryName(s.repository)
    && Bytes(s.repository) <= 256 && IsSha256(s.fingerprint) && IsCommit(s.expectedBase)
    && ShortText(s.environment, 256) && ShortText(s.branch, 256)
  }

  // ---------------------------------------------------------------- transitions

  /** The statuses an update may move to; staying is always allowed outside a terminal status. */
  function Options(status: Status): set<Status> {
    match status
    case Reserved => {SubmissionUnknown, Abandoned}
    case SubmissionUnknown => {Running, NeedsInput, Review, Failed, Abandoned}
    case Running => {NeedsInput, Review, Failed}
    case NeedsInput => {Running, Review, Failed, Abandoned}
    case Failed => {Running, Review, Abandoned}
    case Review => {Running, Local, Completed, Abandoned}
    case Local => {Review, Completed, Abandoned}
    case Completed => {}
    case Abandoned => {}
  }

  predicate Follows(next: Status, previous: Status) {
    !Terminal(previous) && (next == previous || next in Options(previous))
  }

  predicate WithinLimits(s: State) {
    && Bytes(s.handoff) <= 65536 && Bytes(s.reason) <= 4096 && Bytes(s.deliveryEvidence) <= 8192 && Bytes(s.patchRef) <= 2048
    && Bytes(s.taskUrl) <= 2048 && Bytes(s.cloudStatus) <= 128
    && '\0' !in s.handoff && '\0' !in s.reason && '\0' !in s.deliveryEvidence && '\0' !in s.patchRef
  }

  /** Cloud evidence hangs on an attached task.  `https` is the URL library's verdict. */
  predicate TaskSound(https: string -> bool, s: State) {
    if s.taskId != "" then IsId(s.taskId) && https(s.taskUrl) && 1 <= s.attempt <= 100
    else
      && s.taskUrl == "" && s.attempt == 0 && s.cloudStatus == "" && s.cloudUpdatedAt.None? && s.observedAt.None?
      && s.actualBase == ""
  }

  predicate TaskFits(s: State) {
    && (s.status == Reserved || s.status == SubmissionUnknown ==> s.taskId == "")
    && (s.status != Reserved && s.status != SubmissionUnknown && s.status != Abandoned ==> s.taskId != "")
  }

  predicate IdentityKept(previous: State, s: State) {
    && (previous.taskId != "" ==> s.taskId == previous.taskId && s.taskUrl == previous.taskUrl)
    && (s.actualBase != "" ==> IsCommit(s.actualBase))
    && (previous.actualBase != "" ==> s.actualBase == previous.actualBase)
    && (s.patchRef == "" <==> s.patchSha256 == "") && (s.patchSha256 != "" ==> IsSha256(s.patchSha256))
  }

  predicate TimesKept(now: Time, previous: State, s: State) {
    && (s.cloudUpdatedAt.Some? ==> s.observedAt.Some?)
    && (s.observedAt.Some? ==>
          && s.observedAt.value <= now + MINUTE
          && (previous.observedAt.Some? ==> s.observedAt.value >= previous.observedAt.value))
    && (s.cloudUpdatedAt.Some? && s.observedAt.Some? ==>
          && s.cloudUpdatedAt.value <= s.observedAt.value + MINUTE
          && (previous.cloudUpdatedAt.Some? ==> s.cloudUpdatedAt.value >= previous.cloudUpdatedAt.value))
    && (previous.observedAt.Some? ==> s.observedAt.Some?)
    && (previous.cloudUpdatedAt.Some? ==> s.cloudUpdatedAt.Some?)
  }

  /** A local takeover rests on a fresh observation and a saved snapshot, and keeps to them. */
  predicate LocalSound(now: Time, previous: State, s: State) {
    s.status == Local ==>
      && s.cloudStatus == "ready" && s.cloudUpdatedAt.Some? && s.observedAt.Some?
      && now - s.observedAt.value <= 5 * MINUTE
      && s.actualBase != "" && s.patchSha256 != "" && !Blank(s.handoff)
      && (previous.status == Local ==>
            && s.cloudUpdatedAt == previous.cloudUpdatedAt && s.patchSha256 == previous.patchSha256
            && s.attempt == previous.attempt)
  }

  predicate EndingSound(s: State) {
    && (s.status == Completed ==> !Blank(s.deliveryEvidence) && !Blank(s.handoff))
    && (s.status == Abandoned ==> !Blank(s.reason))
  }

  predicate ValidTransition(https: string -> bool, now: Time, previous: State, s: State) {
    && Follows(s.status, previous.status) && WithinLimits(s) && TaskSound(https, s) && TaskFits(s)
    && IdentityKept(previous, s) && TimesKept(now, previous, s) && LocalSound(now, previous, s) && EndingSound(s)
  }

  // ---------------------------------------------------------------- what a chain of updates keeps

  /** `later` was reached from `earlier`: identity and evidence only grow, the workflow does not restart. */
  predicate Extends(earlier: State, later: State) {
    && (earlier.taskId != "" ==> later.taskId == earlier.taskId && later.taskUrl == earlier.taskUrl)
    && (earlier.actualBase != "" ==> later.actualBase == earlier.actualBase)
    && NotBefore(earlier.observedAt, later.observedAt) && NotBefore(earlier.cloudUpdatedAt, later.cloudUpdatedAt)
    && Stage(earlier.status) <= Stage(later.status)
  }

  predicate NotBefore(earlier: Option<Time>, later: Option<Time>) {
    earlier.Some? ==> later.Some? && earlier.value <= later.value
  }

  /** Reserved, then submitted without an answer, then attached to a task, then ended. */
  function Stage(status: Status): nat {
    match status
    case Reserved => 0
    case SubmissionUnknown => 1
    case Completed => 3
    case Abandoned => 3
    case _ => 2
  }

  lemma TransitionExtends(https: string -> bool, now: Time, previous: State, s: State)
    requires ValidTransition(https, now, previous, s)
    ensures Extends(previous, s) && !Terminal(previous.status)
  {
  }

  lemma ExtendsTransitive(a: State, b: State, c: State)
    requires Extends(a, b) && Extends(b, c)
    ensures Extends(a, c)
  {
  }
}
