/** Reading a guest file in ranges, from a guest that may lie, change or stop reporting sizes. */
module Download {
  import opened Basics
  import opened Husker

  /** What one read request came back with; `size` is the length the guest claims for `data`. */
  datatype Answer =
    | Lost
    | Range(data: Content, size: nat, total: Option<nat>, modified: Option<nat>)

  datatype Error = Request | WrongSize | TooLarge | Changed | Overrun | Stalled

  datatype Result = Ok(data: Content) | Err(error: Error)

  /** A guest: its answer to the k-th request, for the given offset and length. */
  type Guest = (nat, nat, nat) -> Answer

  /** The size and modification time the first answer reported. */
  datatype Expected = Expected(size: nat, modified: Option<nat>)

  /** What remains to be read is bounded by the reported size, which never changes. */
  function Left(max: nat, expected: Option<Expected>, have: nat): int {
    if expected.None? then max + 1 else if have < expected.value.size then expected.value.size - have else 0
  }

  /** A download after `k` requests: before the first answer, or in the middle of a file of known size. */
  predicate Underway(max: nat, k: nat, have: Content, expected: Option<Expected>) {
    if k == 0 then expected.None? && have == [] else expected.Some? && |have| < expected.value.size <= max
  }

  datatype Verdict = Stop(result: Result) | More(have: Content, expected: Expected)

  /** What one answer makes of a download. */
  function Judge(max: nat, have: Content, expected: Option<Expected>, answer: Answer): (v: Verdict)
    ensures v.More? ==> |have| < |v.have| < v.expected.size <= max && (expected.Some? ==> v.expected == expected.value)
  {
    match answer
    case Lost => Stop(Err(Request))
    case Range(data, size, total, modified) =>
      if size != |data| then Stop(Err(WrongSize)) else
      if total.None? then Stop(if |data| > max then Err(TooLarge) else Ok(have + data))
      else if total.value > max then Stop(Err(TooLarge))
      else if expected.Some? && expected.value != Expected(total.value, modified) then Stop(Err(Changed))
      else if |have| + |data| > total.value then Stop(Err(Overrun))
      else if |have| + |data| == total.value then Stop(Ok(have + data))
      else if data == [] then Stop(Err(Stalled))
      else More(have + data, Expected(total.value, modified))
  }

  /** Continue a download that has read `have` in `k` requests. */
  function Continue(
    guest: Guest, chunk: nat, max: nat, k: nat, have: Content, expected: Option<Expected>): Result
    requires Underway(max, k, have, expected)
    decreases Left(max, expected, |have|)
  {
    match Judge(max, have, expected, guest(k, |have|, chunk))
    case Stop(result) => result
    case More(more, size) => Continue(guest, chunk, max, k + 1, more, Some(size))
  }

  /** The number and the offset of the request whose answer ends the download. */
  function Final(
    guest: Guest, chunk: nat, max: nat, k: nat, have: Content, expected: Option<Expected>): (nat, nat)
    requires Underway(max, k, have, expected)
    decreases Left(max, expected, |have|)
  {
    match Judge(max, have, expected, guest(k, |have|, chunk))
    case Stop(_) => (k, |have|)
    case More(more, size) => Final(guest, chunk, max, k + 1, more, Some(size))
  }

  function Downloaded(guest: Guest, chunk: nat, max: nat): Result {
    Continue(guest, chunk, max, 0, [], None)
  }

  /** The download loop: it ends for every guest, with the result of the function above. */
  method ReadFileLimited(guest: Guest, chunk: nat, max: nat) returns (r: Result)
    ensures r == Downloaded(guest, chunk, max)
  {
    var result: Content, k := [], 0;
    var expected: Option<Expected> := None;
    while true
      invariant Underway(max, k, result, expected)
      invariant Continue(guest, chunk, max, k, result, expected) == Downloaded(guest, chunk, max)
      decreases Left(max, expected, |result|)
    {
      var answer := guest(k, |result|, chunk);
      if answer.Lost? { return Err(Request); }
      if answer.size != |answer.data| { return Err(WrongSize); }
      if answer.total.None? {
        if |answer.data| > max { return Err(TooLarge); }
        return Ok(result + answer.data);
      }
      if answer.total.value > max { return Err(TooLarge); }
      if expected.None? {
        expected := Some(Expected(answer.total.value, answer.modified));
      } else if expected.value.size != answer.total.value || expected.value.modified != answer.modified {
        return Err(Changed);
      }
      result := result + answer.data;
      if |result| > expected.value.size { return Err(Overrun); }
      if |result| == expected.value.size { return Ok(result); }
      if answer.data == [] { return Err(Stalled); }
      k := k + 1;
    }
  }

  // ---------------------------------------------------------------- the size limit

  /** The guest either reports the total in every answer or never reports it. */
  ghost predicate Steady(guest: Guest) {
    || (forall k, offset, len :: guest(k, offset, len).Range? ==> guest(k, offset, len).total.Some?)
    || (forall k, offset, len :: guest(k, offset, len).Range? ==> guest(k, offset, len).total.None?)
  }

  /** An answer that leaves out the total size after an earlier one reported it. */
  ghost predicate StopsReporting(guest: Guest, k: nat, offset: nat, len: nat) {
    k > 0 && guest(k, offset, len).Range? && guest(k, offset, len).total.None?
  }

  /** However the guest behaves, less than twice the limit is accepted; and more than the limit exactly
      when the answer that ended the download left out the size reported before and was too long. */
  lemma {:induction false} LimitHolds(
    guest: Guest, chunk: nat, max: nat, k: nat, have: Content, expected: Option<Expected>)
    requires Underway(max, k, have, expected)
    ensures var r := Continue(guest, chunk, max, k, have, expected);
            var (j, offset) := Final(guest, chunk, max, k, have, expected);
            r.Ok? ==>
              && (max == 0 ==> r.data == []) && (max > 0 ==> |r.data| < 2 * max)
              && (|r.data| > max <==>
                  StopsReporting(guest, j, offset, chunk) && offset + |guest(j, offset, chunk).data| > max)
    decreases Left(max, expected, |have|)
  {
    var verdict := Judge(max, have, expected, guest(k, |have|, chunk));
    if verdict.More? { LimitHolds(guest, chunk, max, k + 1, verdict.have, Some(verdict.expected)); }
  }

  lemma SteadyWithinLimit(guest: Guest, chunk: nat, max: nat)
    requires Steady(guest) && Downloaded(guest, chunk, max).Ok?
    ensures |Downloaded(guest, chunk, max).data| <= max
  {
    LimitHolds(guest, chunk, max, 0, [], None);
    var first, have := guest(0, 0, chunk), [];
    assert |have| == 0;
    var (j, offset) := Final(guest, chunk, max, 0, have, None);
    if j > 0 {
      assert Judge(max, have, None, first).More?;
      assert first.Range? && first.total.Some?;
      assert guest(j, offset, chunk).Range? ==> guest(j, offset, chunk).total.Some?;
    }
  }

  /** Reports `max` bytes, hands over one less, then hands over `max` more without a total. */
  function Forgetful(max: nat): Guest
    requires max >= 1
  {
    (k, offset, len) => if k == 0 then Range(Filler(max - 1), max - 1, Some(max), None) else Range(Filler(max), max, None, None)
  }

  function Filler(n: nat): Content { seq(n, i => 0) }

  /** The bound above is met: for every limit of at least two bytes some guest exceeds it that far. */
  lemma LimitExceeded(max: nat, chunk: nat)
    requires max >= 2
    ensures Downloaded(Forgetful(max), chunk, max) == Ok(Filler(max - 1) + Filler(max))
    ensures |Filler(max - 1) + Filler(max)| == 2 * max - 1 > max
  {
    var guest := Forgetful(max);
    var first := [] + Filler(max - 1);
    assert first == Filler(max - 1);
    assert Continue(guest, chunk, max, 1, first, Some(Expected(max, None))) == Ok(first + Filler(max));
  }

  // ---------------------------------------------------------------- an honest guest

  datatype Snapshot = Snapshot(content: Content, modified: nat)

  function Min(a: nat, b: nat): nat { if a < b then a else b }

  function Served(file: Snapshot, offset: nat, len: nat): Answer {
    var size := |file.content|;
    var data := file.content[Min(offset, size)..Min(offset + len, size)];
    Range(data, |data|, Some(size), Some(file.modified))
  }

  /** The k-th request finds the file as `files(k)`, or is lost. */
  ghost predicate Honest(guest: Guest, files: nat -> Snapshot) {
    forall k, offset, len :: guest(k, offset, len) == Served(files(k), offset, len) || guest(k, offset, len) == Lost
  }

  /** A change of the content shows in its size or its modification time. */
  ghost predicate Versioned(files: nat -> Snapshot) {
    forall i, j :: |files(i).content| == |files(j).content| && files(i).modified == files(j).modified ==> files(i) == files(j)
  }

  /** A file that changes under the download is never returned as a mixture: what is returned is the
      file as the first request found it. */
  lemma {:induction false} NothingTorn(
    guest: Guest, files: nat -> Snapshot, chunk: nat, max: nat, k: nat, have: Content, expected: Option<Expected>)
    requires Honest(guest, files) && Versioned(files)
    requires Underway(max, k, have, expected)
    requires expected.Some? ==> expected.value == Expected(|files(0).content|, Some(files(0).modified))
    requires have == files(0).content[..|have|]
    ensures var r := Continue(guest, chunk, max, k, have, expected); r.Ok? ==> r.data == files(0).content
    decreases Left(max, expected, |have|)
  {
    var file := files(k);
    var answer := guest(k, |have|, chunk);
    if answer.Range? && answer.total.value <= max
       && (expected.None? || expected.value == Expected(answer.total.value, answer.modified)) {
      assert answer == Served(file, |have|, chunk) && file == files(0);
      assert have + answer.data == file.content[..|have| + |answer.data|];
      if |have| + |answer.data| < answer.total.value && answer.data != [] {
        NothingTorn(guest, files, chunk, max, k + 1, have + answer.data, Some(Expected(answer.total.value, answer.modified)));
      }
    }
  }

  /** The guest that keeps the file as it is. */
  function Serving(file: Snapshot): Guest {
    (k: nat, offset: nat, len: nat) => Served(file, offset, len)
  }

  /** An unchanged file within the limit is read back exactly, and a larger one is refused. */
  lemma {:induction false} ReadBack(file: Snapshot, chunk: nat, max: nat, k: nat, have: Content, expected: Option<Expected>)
    requires chunk > 0
    requires Underway(max, k, have, expected)
    requires expected.Some? ==> expected.value == Expected(|file.content|, Some(file.modified))
    requires have == file.content[..|have|]
    ensures Continue(Serving(file), chunk, max, k, have, expected)
         == if |file.content| <= max then Ok(file.content) else Err(TooLarge)
    decreases Left(max, expected, |have|)
  {
    var guest := Serving(file);
    var answer := guest(k, |have|, chunk);
    assert answer == Served(file, |have|, chunk);
    assert have + answer.data == file.content[..|have| + |answer.data|];
    if |file.content| <= max && |have| + |answer.data| < |file.content| {
      ReadBack(file, chunk, max, k + 1, have + answer.data, Some(Expected(|file.content|, Some(file.modified))));
    }
  }

  /** A guest that never reports sizes answers with the whole file. */
  lemma ReadWhole(content: Content, chunk: nat, max: nat)
    ensures Downloaded((_, _, _) => Range(content, |content|, None, None), chunk, max)
         == if |content| <= max then Ok(content) else Err(TooLarge)
  {
  }

  // ---------------------------------------------------------------- reading what was uploaded

  /** One range of a guest file, through the retrying client. */
  method ReadRange(host: Host, vm: Id, path: string, modified: nat, offset: nat, len: nat, deadline: Time)
    returns (answer: Answer)
    modifies host
    ensures host.guests == old(host.guests)
    ensures answer == Lost
         || ((vm, path) in host.guests && answer == Served(Snapshot(host.guests[(vm, path)], modified), offset, len))
  {
    var error := host.DoJSON(Read(vm, path, offset, len), deadline);
    if error.Some? || (vm, path) !in host.guests { return Lost; }
    answer := Served(Snapshot(host.guests[(vm, path)], modified), offset, len);
  }

  /** A whole guest file, range by range: exactly the file, or a lost request, or a file that is too large. */
  method ReadFile(host: Host, vm: Id, path: string, modified: nat, chunk: nat, max: nat, deadline: Time) returns (r: Result)
    requires chunk > 0
    modifies host
    ensures host.guests == old(host.guests)
    ensures r.Ok? ==> (vm, path) in host.guests && r.data == host.guests[(vm, path)]
    ensures r.Err? ==>
              || r.error == Request
              || (r.error == TooLarge && (vm, path) in host.guests && |host.guests[(vm, path)]| > max)
  {
    var have: Content, k := [], 0;
    var expected: Option<Expected> := None;
    while true
      invariant Underway(max, k, have, expected) && host.guests == old(host.guests)
      invariant k > 0 ==> (vm, path) in host.guests && PartOf(Snapshot(host.guests[(vm, path)], modified), have, expected)
      decreases Left(max, expected, |have|)
    {
      var answer := ReadRange(host, vm, path, modified, |have|, chunk, deadline);
      if answer == Lost { return Err(Request); }
      ServedJudged(Snapshot(host.guests[(vm, path)], modified), chunk, max, have, expected);
      var verdict := Judge(max, have, expected, answer);
      if verdict.Stop? { return verdict.result; }
      have, expected, k := verdict.have, Some(verdict.expected), k + 1;
    }
  }

  /** What has been read is the beginning of the file, and what is expected is the file. */
  ghost predicate PartOf(file: Snapshot, have: Content, expected: Option<Expected>) {
    && have <= file.content
    && (expected.Some? ==> expected.value == Expected(|file.content|, Some(file.modified)))
  }

  lemma ServedJudged(file: Snapshot, chunk: nat, max: nat, have: Content, expected: Option<Expected>)
    requires chunk > 0 && PartOf(file, have, expected) && (expected.Some? ==> |have| < |file.content|)
    requires expected.None? ==> have == []
    ensures match Judge(max, have, expected, Served(file, |have|, chunk))
            case Stop(result) => if |file.content| <= max then result == Ok(file.content) else result == Err(TooLarge)
            case More(more, size) => PartOf(file, more, Some(size))
  {
    var answer := Served(file, |have|, chunk);
    assert have + answer.data == file.content[..|have| + |answer.data|];
  }

  /** What an upload left in the guest reads back as the data uploaded. */
  method UploadThenRead(
    host: Host, vm: Id, path: string, data: Content, modified: nat, chunk: nat, max: nat, deadline: Time)
    returns (uploaded: bool, r: Result)
    requires host.chunk > 0 && chunk > 0
    modifies host
    ensures uploaded ==> host.guests == old(host.guests)[(vm, path) := data]
    ensures uploaded ==> r == Ok(data) || r == Err(Request) || (r == Err(TooLarge) && |data| > max)
  {
    var error := host.UploadFile(vm, path, data, deadline);
    if error.Some? { return false, Err(Request); }
    uploaded := true;
    r := ReadFile(host, vm, path, modified, chunk, max, deadline);
  }
}
