/** The investigation registry: reservations, optimistic updates, and every accepted version. */
module Registry {
  import opened Basics
  import opened Text
  import opened Investigation

  datatype Record = Record(spec: Spec, state: State, version: nat)

  datatype Error = Invalid | Missing | Conflict

  datatype Result<+T> = Ok(value: T) | Err(error: Error)

  /** The two tables: current records, and the retained versions. */
  datatype Book = Book(records: map<Id, Record>, versions: map<(Id, nat), State>)

  datatype Reply<+T> = Reply(book: Book, result: Result<T>)

  predicate SameSubject(a: Spec, b: Spec) {
    a.repositoryId == b.repositoryId && a.issue == b.issue
  }

  /** The partial unique index: the subject already has an investigation that has not ended. */
  predicate SubjectTaken(records: map<Id, Record>, spec: Spec) {
    exists r :: r in records && SameSubject(records[r].spec, spec) && !Terminal(records[r].state.status)
  }

  /** The other unique index: the cloud task is attached to another investigation. */
  predicate TaskTaken(records: map<Id, Record>, id: Id, taskId: Id) {
    taskId != "" && exists r :: r in records && r != id && records[r].state.taskId == taskId
  }

  /** Commit intent; a replay of the same request returns the record and creates nothing. */
  function ReserveIn(book: Book, spec: Spec): Reply<(Record, bool)> {
    if !ValidSpec(spec) then Reply(book, Err(Invalid)) else
    if spec.requestId in book.records then
      var record := book.records[spec.requestId];
      Reply(book, if record.spec == spec then Ok((record, false)) else Err(Conflict))
    else if SubjectTaken(book.records, spec) || (spec.requestId, 1) in book.versions then Reply(book, Err(Conflict))
    else
      var record := Record(spec, Bare(Reserved), 1);
      Reply(Book(book.records[spec.requestId := record], book.versions[(spec.requestId, 1) := record.state]),
            Ok((record, true)))
  }

  /** Replace the state of the expected version by one the workflow allows. */
  function UpdateIn(https: string -> bool, now: Time, book: Book, id: Id, expected: nat, state: State): Reply<Record> {
    if id !in book.records then Reply(book, Err(Missing)) else
    var prior := book.records[id];
    if prior.version != expected then Reply(book, Err(Conflict)) else
    if !ValidTransition(https, now, prior.state, state) then Reply(book, Err(Invalid)) else
    if TaskTaken(book.records, id, state.taskId) || (id, prior.version + 1) in book.versions then Reply(book, Err(Conflict)) else
    var record := Record(prior.spec, state, prior.version + 1);
    Reply(Book(book.records[id := record], book.versions[(id, record.version) := state]), Ok(record))
  }

  class Store {
    var records: map<Id, Record>
    var versions: map<(Id, nat), State>
    const https: string -> bool

    function Contents(): Book
      reads this
    {
      Book(records, versions)
    }

    constructor (https: string -> bool)
      ensures Contents() == Book(map[], map[]) && this.https == https && Sound(https, Contents())
    {
      records, versions, this.https := map[], map[], https;
    }

    method Reserve(spec: Spec) returns (r: Result<(Record, bool)>)
      requires Sound(https, Contents())
      modifies this
      ensures Sound(https, Contents()) && Keeps(old(Contents()), Contents())
      ensures r.Ok? && r.value.1 <==>
                ValidSpec(spec) && spec.requestId !in old(records) && !SubjectTaken(old(records), spec)
      ensures r.Ok? && r.value.1 ==>
                && r.value.0 == Record(spec, Bare(Reserved), 1) && records == old(records)[spec.requestId := r.value.0]
                && versions == old(versions)[(spec.requestId, 1) := Bare(Reserved)]
      ensures r.Ok? && !r.value.1 ==>
                spec.requestId in records && r.value.0 == records[spec.requestId] && r.value.0.spec == spec
      ensures !(r.Ok? && r.value.1) ==> Contents() == old(Contents())
      ensures Reply(Contents(), r) == ReserveIn(old(Contents()), spec)
    {
      ReserveSound(https, Contents(), spec);
      if !ValidSpec(spec) { return Err(Invalid); }
      var created := false;
      if spec.requestId !in records {
        var taken := FindActive(spec);
        if taken { return Err(Conflict); }
        if (spec.requestId, 1) in versions { return Err(Conflict); }
        records := records[spec.requestId := Record(spec, Bare(Reserved), 1)];
        created := true;
      }
      var value := records[spec.requestId];
      if value.spec != spec { return Err(Conflict); }
      if created { versions := versions[(spec.requestId, value.version) := value.state]; }
      r := Ok((value, created));
    }

    /** Accepted exactly on the expected version of a known request, for a state the workflow allows with a
        task nobody else has; then that state is the next version, and every other record, every earlier
        version and both indexes are as they were.  Refused, nothing changed. */
    method Update(now: Time, id: Id, expected: nat, state: State) returns (r: Result<Record>)
      requires Sound(https, Contents())
      modifies this
      ensures Sound(https, Contents()) && Keeps(old(Contents()), Contents())
      ensures r.Ok? <==>
                && id in old(records) && old(records)[id].version == expected
                && ValidTransition(https, now, old(records)[id].state, state) && !TaskTaken(old(records), id, state.taskId)
      ensures r.Ok? ==>
                && r.value == Record(old(records)[id].spec, state, expected + 1)
                && records == old(records)[id := r.value] && versions == old(versions)[(id, expected + 1) := state]
      ensures r.Err? ==> Contents() == old(Contents())
      ensures Reply(Contents(), r) == UpdateIn(https, now, old(Contents()), id, expected, state)
    {
      UpdateSound(https, now, Contents(), id, expected, state);
      if id !in records { return Err(Missing); }
      assert Kept(https, Contents(), id);
      var value := records[id];
      if value.version != expected { return Err(Conflict); }
      if !ValidTransition(https, now, value.state, state) { return Err(Invalid); }
      if TaskTaken(records, id, state.taskId) || (id, value.version + 1) in versions { return Err(Conflict); }
      value := value.(state := state, version := value.version + 1);
      records := records[id := value];
      versions := versions[(id, value.version) := state];
      r := Ok(value);
    }

    method FindActive(spec: Spec) returns (taken: bool)
      ensures taken == SubjectTaken(records, spec)
    {
      var left := records.Keys;
      while left != {}
        invariant left <= records.Keys
        invariant forall r :: r in records && r !in left ==>
                    !SameSubject(records[r].spec, spec) || Terminal(records[r].state.status)
        decreases |left|
      {
        var r :| r in left;
        if SameSubject(records[r].spec, spec) && !Terminal(records[r].state.status) { return true; }
        left := left - {r};
      }
      return false;
    }
  }

  // ---------------------------------------------------------------- histories

  /** The accepted states of one request, oldest first: `At(book, id, n)` is version n. */
  predicate Has(book: Book, id: Id, n: nat) {
    id in book.records && 1 <= n <= book.records[id].version && (id, n) in book.versions
  }

  function At(book: Book, id: Id, n: nat): State
    requires Has(book, id, n)
  {
    book.versions[(id, n)]
  }

  ghost predicate Accepted(https: string -> bool, previous: State, s: State) {
    exists now :: ValidTransition(https, now, previous, s)
  }

  /** Version n + 1 was validated against version n. */
  ghost predicate Validated(https: string -> bool, book: Book, id: Id, n: nat) {
    Has(book, id, n) && Has(book, id, n + 1) ==> Accepted(https, At(book, id, n), At(book, id, n + 1))
  }

  /** One record: version 1 is the bare reservation, each later version was validated against the one
      before, the last one is the current state, and nothing else is retained. */
  ghost predicate Kept(https: string -> bool, book: Book, id: Id) {
    && id in book.records && book.records[id].spec.requestId == id && book.records[id].version >= 1
    && (forall n: nat :: (id, n) in book.versions <==> 1 <= n <= book.records[id].version)
    && book.versions[(id, 1)] == Bare(Reserved)
    && book.versions[(id, book.records[id].version)] == book.records[id].state
    && (forall n: nat :: Validated(https, book, id, n))
  }

  ghost predicate Indexed(records: map<Id, Record>) {
    && (forall a, b :: a in records && b in records && a != b && SameSubject(records[a].spec, records[b].spec) ==>
          Terminal(records[a].state.status) || Terminal(records[b].state.status))
    && (forall a, b :: a in records && b in records && a != b && records[a].state.taskId != "" ==>
          records[a].state.taskId != records[b].state.taskId)
  }

  ghost predicate Sound(https: string -> bool, book: Book) {
    && (forall id :: id in book.records ==> Kept(https, book, id))
    && (forall id, n: nat :: (id, n) in book.versions ==> id in book.records)
    && Indexed(book.records)
  }

  /** An update is accepted exactly on the expected version, for an allowed state with a free task, and
      then appends that state. */
  lemma UpdateExactly(https: string -> bool, now: Time, book: Book, id: Id, expected: nat, state: State)
    requires Kept(https, book, id)
    ensures var reply := UpdateIn(https, now, book, id, expected, state);
            var prior := book.records[id];
            if prior.version == expected && ValidTransition(https, now, prior.state, state)
               && !TaskTaken(book.records, id, state.taskId)
            then
              && reply.result == Ok(Record(prior.spec, state, expected + 1))
              && reply.book == Book(book.records[id := Record(prior.spec, state, expected + 1)],
                                    book.versions[(id, expected + 1) := state])
            else reply.result.Err? && reply.book == book
  {
  }

  /** `after` holds every version `before` held, and every record. */
  ghost predicate Keeps(before: Book, after: Book) {
    && (forall id :: id in before.records ==>
          && id in after.records && after.records[id].spec == before.records[id].spec
          && before.records[id].version <= after.records[id].version)
    && (forall v :: v in before.versions ==> v in after.versions && after.versions[v] == before.versions[v])
  }

  lemma ReserveSound(https: string -> bool, book: Book, spec: Spec)
    requires Sound(https, book)
    ensures var after := ReserveIn(book, spec).book; Sound(https, after) && Keeps(book, after)
  {
    if ReserveIn(book, spec).result.Ok? && ReserveIn(book, spec).result.value.1 {
      NewRecordSound(https, book, spec);
    }
  }

  lemma NewRecordSound(https: string -> bool, book: Book, spec: Spec)
    requires Sound(https, book) && spec.requestId !in book.records && !SubjectTaken(book.records, spec)
    ensures var after := Book(book.records[spec.requestId := Record(spec, Bare(Reserved), 1)],
                              book.versions[(spec.requestId, 1) := Bare(Reserved)]);
            Sound(https, after) && Keeps(book, after)
  {
    var after := Book(book.records[spec.requestId := Record(spec, Bare(Reserved), 1)],
                      book.versions[(spec.requestId, 1) := Bare(Reserved)]);
    forall id | id in after.records ensures Kept(https, after, id) {
      if id in book.records { SameHistory(https, book, after, id); }
    }
  }

  lemma SameHistory(https: string -> bool, book: Book, after: Book, id: Id)
    requires Kept(https, book, id) && id in after.records && after.records[id] == book.records[id]
    requires forall n: nat :: (id, n) in after.versions <==> (id, n) in book.versions
    requires forall n: nat :: (id, n) in book.versions ==> after.versions[(id, n)] == book.versions[(id, n)]
    ensures Kept(https, after, id)
  {
    forall n: nat ensures Validated(https, after, id, n) { assert Validated(https, book, id, n); }
  }

  lemma UpdateSound(https: string -> bool, now: Time, book: Book, id: Id, expected: nat, state: State)
    requires Sound(https, book)
    ensures var after := UpdateIn(https, now, book, id, expected, state).book; Sound(https, after) && Keeps(book, after)
  {
    var reply := UpdateIn(https, now, book, id, expected, state);
    if reply.result.Ok? {
      forall r | r in reply.book.records ensures Kept(https, reply.book, r) {
        if r != id { SameHistory(https, book, reply.book, r); } else { UpdateKept(https, now, book, id, state); }
      }
      UpdateIndexed(https, now, book, id, expected, state);
    }
  }

  lemma UpdateKept(https: string -> bool, now: Time, book: Book, id: Id, state: State)
    requires Kept(https, book, id) && ValidTransition(https, now, book.records[id].state, state)
    ensures var prior := book.records[id];
            Kept(https, Book(book.records[id := Record(prior.spec, state, prior.version + 1)],
                             book.versions[(id, prior.version + 1) := state]), id)
  {
    var prior := book.records[id];
    var after := Book(book.records[id := Record(prior.spec, state, prior.version + 1)], book.versions[(id, prior.version + 1) := state]);
    forall n: nat ensures Validated(https, after, id, n) { assert Validated(https, book, id, n); }
  }

  lemma UpdateIndexed(https: string -> bool, now: Time, book: Book, id: Id, expected: nat, state: State)
    requires Indexed(book.records) && UpdateIn(https, now, book, id, expected, state).result.Ok?
    ensures Indexed(UpdateIn(https, now, book, id, expected, state).book.records)
  {
  }

  /** Over any span of accepted updates identity and evidence are kept, times do not go back or
      vanish, the workflow does not restart, and nothing follows a terminal state. */
  lemma {:induction false} HistoryExtends(https: string -> bool, book: Book, id: Id, m: nat, n: nat)
    requires Kept(https, book, id) && Has(book, id, m) && Has(book, id, n) && m <= n
    ensures Extends(At(book, id, m), At(book, id, n))
    ensures m < n ==> !Terminal(At(book, id, m).status)
    decreases n
  {
    if m < n {
      assert Has(book, id, n - 1);
      HistoryExtends(https, book, id, m, n - 1);
      VersionExtends(https, book, id, n - 1);
      ExtendsTransitive(At(book, id, m), At(book, id, n - 1), At(book, id, n));
    }
  }

  lemma VersionExtends(https: string -> bool, book: Book, id: Id, n: nat)
    requires Kept(https, book, id) && Has(book, id, n) && Has(book, id, n + 1)
    ensures Extends(At(book, id, n), At(book, id, n + 1)) && !Terminal(At(book, id, n).status)
  {
    assert Validated(https, book, id, n);
    var now :| ValidTransition(https, now, At(book, id, n), At(book, id, n + 1));
    TransitionExtends(https, now, At(book, id, n), At(book, id, n + 1));
  }

  /** A completed or locally owned investigation was in review before. */
  lemma {:induction false} ReviewedFirst(https: string -> bool, book: Book, id: Id, n: nat)
    requires Kept(https, book, id) && Has(book, id, n)
    requires At(book, id, n).status == Completed || At(book, id, n).status == Local
    ensures exists m: nat :: m < n && Has(book, id, m) && At(book, id, m).status == Review
    decreases n
  {
    assert n > 1;
    var p: nat := n - 1;
    assert Has(book, id, p) && Validated(https, book, id, p);
    if At(book, id, p).status != Review { ReviewedFirst(https, book, id, p); }
  }

  /** An unbroken local takeover rests on one snapshot throughout. */
  lemma {:induction false} LocalSnapshotFixed(https: string -> bool, book: Book, id: Id, m: nat, n: nat)
    requires Kept(https, book, id) && Has(book, id, m) && Has(book, id, n) && m <= n
    requires forall k: nat :: m <= k <= n && Has(book, id, k) ==> At(book, id, k).status == Local
    ensures var a, b := At(book, id, m), At(book, id, n);
            && a.cloudUpdatedAt == b.cloudUpdatedAt && a.patchSha256 == b.patchSha256 && a.attempt == b.attempt
            && a.taskId == b.taskId && a.actualBase == b.actualBase && b.patchSha256 != "" && b.taskId != ""
            && b.actualBase != ""
    decreases n
  {
    assert n > 1;
    var p: nat := n - 1;
    assert Has(book, id, p) && Validated(https, book, id, p);
    if m < n { LocalSnapshotFixed(https, book, id, m, p); }
  }

  /** What every accepted version is, whatever led to it: a task and its evidence go together, the statuses
      that need a task have one, a takeover rests on an idle task with base, patch and findings, an end is
      explained, and texts are bounded. */
  lemma VersionIsSound(https: string -> bool, book: Book, id: Id, n: nat)
    requires Kept(https, book, id) && Has(book, id, n)
    ensures var s := At(book, id, n);
            && (s.taskId != "" ==> IsId(s.taskId) && https(s.taskUrl) && 1 <= s.attempt <= 100)
            && (s.taskId == "" ==> s.taskUrl == "" && s.attempt == 0 && s.cloudStatus == "" && s.actualBase == ""
                                   && s.cloudUpdatedAt == None && s.observedAt == None)
            && (s.taskId == "" <==> s.status in {Reserved, SubmissionUnknown} || (s.status == Abandoned && s.taskId == ""))
            && (s.patchRef == "" <==> s.patchSha256 == "") && (s.patchSha256 != "" ==> IsSha256(s.patchSha256))
            && (s.actualBase != "" ==> IsCommit(s.actualBase))
            && (s.cloudUpdatedAt.Some? ==> s.observedAt.Some? && s.cloudUpdatedAt.value <= s.observedAt.value + MINUTE)
            && (s.status == Local ==> s.cloudStatus == "ready" && s.cloudUpdatedAt.Some? && s.actualBase != ""
                                      && s.patchSha256 != "" && !Blank(s.handoff))
            && (s.status == Completed ==> !Blank(s.deliveryEvidence) && !Blank(s.handoff))
            && (s.status == Abandoned ==> !Blank(s.reason))
            && (n > 1 ==> Bytes(s.handoff) <= 65536 && Bytes(s.reason) <= 4096 && Bytes(s.deliveryEvidence) <= 8192)
  {
    if n > 1 {
      assert Has(book, id, n - 1) && Validated(https, book, id, n - 1);
      var now :| ValidTransition(https, now, At(book, id, n - 1), At(book, id, n));
    }
  }

  /** Every listed move of the workflow is open to a state that brings what its target asks for. */
  lemma MoveIsOpen(https: string -> bool, now: Time, previous: State, s: State)
    requires WithinLimits(s) && TaskSound(https, s) && TaskFits(s) && IdentityKept(previous, s)
    requires TimesKept(now, previous, s) && LocalSound(now, previous, s) && EndingSound(s)
    ensures ValidTransition(https, now, previous, s) <==>
              match previous.status
              case Reserved => s.status in {Reserved, SubmissionUnknown, Abandoned}
              case SubmissionUnknown => s.status in {SubmissionUnknown, Running, NeedsInput, Review, Failed, Abandoned}
              case Running => s.status in {Running, NeedsInput, Review, Failed}
              case NeedsInput => s.status in {NeedsInput, Running, Review, Failed, Abandoned}
              case Failed => s.status in {Failed, Running, Review, Abandoned}
              case Review => s.status in {Review, Running, Local, Completed, Abandoned}
              case Local => s.status in {Local, Review, Completed, Abandoned}
              case Completed => false
              case Abandoned => false
  {
  }
}
