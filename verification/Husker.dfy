/** Talking to the VM host: retries, chunked upload and ranged download.

    What the network and the host do is a script read one exchange at a time, so a result proved for
    every script holds for every behaviour of the host.  A rate-limited request was not handled, a
    successful one was, and after any other failure nobody knows.
  */
module Husker {
  import opened Basics

  type Content = seq<bv8>

  const MAX_ATTEMPTS: nat := 5
  const MAX_RETRY_AFTER: int := 60 * SECOND

  datatype Verb = Get | Post | Delete

  datatype Request =
    | Write(vm: Id, path: string, data: Content, append: bool)
    | Read(vm: Id, path: string, offset: nat, len: nat)
    | Ready(vm: Id)
    | Remove(vm: Id)

  /** Guest files by VM and path. */
  type Guests = map<(Id, string), Content>

  datatype Failure = Status(code: int, retryAfter: int) | Transport | Undecodable | Unsent

  /** One sending: the error it returns, whether the host acted on it if that is in doubt, and then the
      clock, whether the caller's context has ended, and whether a wait would run its course. */
  datatype Exchange = Exchange(error: Option<Failure>, acted: bool, now: Time, ended: bool, waits: bool)

  function VerbOf(request: Request): Verb {
    match request
    case Write(_, _, _, _) => Post
    case Read(_, _, _, _) => Post
    case Ready(_) => Get
    case Remove(_) => Delete
  }

  function Apply(guests: Guests, request: Request): Guests {
    match request
    case Write(vm, path, data, append) =>
      guests[(vm, path) := if append && (vm, path) in guests then guests[(vm, path)] + data else data]
    case Remove(vm) => map g | g in guests && g.0 != vm :: guests[g]
    case _ => guests
  }

  predicate Acts(e: Exchange) {
    e.error.None? || (e.error.value != Unsent && !RateLimited(e) && e.acted)
  }

  predicate RateLimited(e: Exchange) { e.error.Some? && e.error.value.Status? && e.error.value.code == 429 }

  /** The gateway was unavailable or the connection dropped. */
  predicate Unavailable(e: Exchange) {
    e.error.Some? && (e.error.value.Transport? || (e.error.value.Status? && e.error.value.code in {502, 503, 504}))
  }

  function Backoff(attempt: nat): int
    requires attempt >= 1
    decreases attempt
  {
    if attempt == 1 then SECOND else 2 * Backoff(attempt - 1)
  }

  /** The wait before sending again, or None when the error is final. */
  function RetryDelay(e: Exchange, verb: Verb, attempt: nat, deadline: Time): Option<int>
    requires attempt >= 1
  {
    if e.error.None? || attempt >= MAX_ATTEMPTS || e.ended then None else
    if RateLimited(e) then
      var delay := if e.error.value.retryAfter > 0 then e.error.value.retryAfter else Backoff(attempt);
      if delay > MAX_RETRY_AFTER || deadline - e.now <= delay then None else Some(delay)
    else if Unavailable(e) && verb != Post then
      if deadline - e.now <= Backoff(attempt) then None else Some(Backoff(attempt))
    else None
  }

  /** Whether an error may be followed by another sending of the same request. */
  predicate Repeatable(e: Exchange, verb: Verb) {
    RateLimited(e) || (verb != Post && Unavailable(e))
  }

  /** The announced wait, or the backoff. */
  function Wait(e: Exchange, attempt: nat): int
    requires attempt >= 1
  {
    if RateLimited(e) && e.error.value.retryAfter > 0 then e.error.value.retryAfter else Backoff(attempt)
  }

  lemma {:induction false} BackoffGrows(attempt: nat)
    requires 1 <= attempt < MAX_ATTEMPTS
    ensures Backoff(attempt) == [1, 2, 4, 8][attempt - 1] * SECOND
  {
    assert Backoff(1) == SECOND && Backoff(2) == 2 * SECOND && Backoff(3) == 4 * SECOND && Backoff(4) == 8 * SECOND;
  }

  /** Exactly the repeatable errors are retried, while attempts, context and deadline allow, and only
      after a wait of at most a minute. */
  lemma RetriedExactly(e: Exchange, verb: Verb, attempt: nat, deadline: Time)
    requires attempt >= 1
    ensures RetryDelay(e, verb, attempt, deadline).Some? <==>
              && Repeatable(e, verb) && attempt < MAX_ATTEMPTS && !e.ended
              && Wait(e, attempt) <= MAX_RETRY_AFTER && e.now + Wait(e, attempt) < deadline
    ensures RetryDelay(e, verb, attempt, deadline).Some? ==>
              RetryDelay(e, verb, attempt, deadline).value ==
                if RateLimited(e) && e.error.value.retryAfter > 0 then e.error.value.retryAfter else [1, 2, 4, 8][attempt - 1] * SECOND
  {
    if attempt < MAX_ATTEMPTS { BackoffGrows(attempt); }
  }

  lemma RepeatedIsOnce(guests: Guests, request: Request)
    requires VerbOf(request) != Post
    ensures Apply(Apply(guests, request), request) == Apply(guests, request)
  {
  }

  /** Removing a machine takes all of its files and no other machine's. */
  lemma RemovalIsWhole(guests: Guests, vm: Id, other: Id, path: string)
    ensures (other, path) in Apply(guests, Remove(vm)) <==> (other, path) in guests && other != vm
    ensures (other, path) in guests && other != vm ==> Apply(guests, Remove(vm))[(other, path)] == guests[(other, path)]
  {
  }

  class Host {
    const script: nat -> Exchange
    const chunk: nat
    /** Requests sent so far, and what the guests hold. */
    var sent: nat
    var guests: Guests

    constructor (script: nat -> Exchange, chunk: nat)
      ensures this.script == script && this.chunk == chunk && sent == 0 && guests == map[]
    {
      this.script, this.chunk, sent, guests := script, chunk, 0, map[];
    }

    method SendJSON(request: Request) returns (error: Option<Failure>)
      modifies this
      ensures sent == old(sent) + 1 && error == script(old(sent)).error
      ensures guests == if Acts(script(old(sent))) then Apply(old(guests), request) else old(guests)
    {
      var e := script(sent);
      if Acts(e) { guests := Apply(guests, request); }
      sent := sent + 1;
      error := e.error;
    }

    /** A success took effect exactly once, a failure at most once; and a request that must not be
        repeated was resent only after the host had refused to handle it. */
    method DoJSON(request: Request, deadline: Time) returns (error: Option<Failure>)
      modifies this
      ensures old(sent) < sent <= old(sent) + MAX_ATTEMPTS && error == script(sent - 1).error
      ensures error.None? ==> guests == Apply(old(guests), request)
      ensures error.Some? ==> guests == old(guests) || guests == Apply(old(guests), request)
      ensures forall k :: old(sent) <= k < sent - 1 ==> Repeatable(script(k), VerbOf(request))
    {
      if VerbOf(request) != Post { RepeatedIsOnce(guests, request); }
      var attempt := 1;
      while true
        invariant 1 <= attempt <= MAX_ATTEMPTS && sent == old(sent) + attempt - 1
        invariant guests == old(guests) || (VerbOf(request) != Post && guests == Apply(old(guests), request))
        invariant forall k :: old(sent) <= k < sent ==> Repeatable(script(k), VerbOf(request))
        decreases MAX_ATTEMPTS - attempt
      {
        var e := script(sent);
        error := SendJSON(request);
        var delay := RetryDelay(e, VerbOf(request), attempt, deadline);
        if delay.None? { return; }
        if !e.waits { return; }
        attempt := attempt + 1;
      }
    }

    method WriteChunk(vm: Id, path: string, data: Content, append: bool, deadline: Time) returns (error: Option<Failure>)
      modifies this
      ensures error.None? ==> guests == Apply(old(guests), Write(vm, path, data, append))
      ensures error.Some? ==> guests == old(guests) || guests == Apply(old(guests), Write(vm, path, data, append))
    {
      error := DoJSON(Write(vm, path, data, append), deadline);
    }

    /** Success leaves exactly the data in the file, whatever it held before; failure leaves the file as
        it was or a prefix of the data; no other file is touched. */
    method UploadFile(vm: Id, path: string, data: Content, deadline: Time) returns (error: Option<Failure>)
      requires chunk > 0
      modifies this
      ensures error.None? ==> guests == old(guests)[(vm, path) := data]
      ensures error.Some? ==>
                guests == old(guests)
                || exists n :: 0 <= n <= |data| && guests == old(guests)[(vm, path) := data[..n]]
    {
      if |data| == 0 {
        error := WriteChunk(vm, path, [], false, deadline);
        assert data[..0] == [] == data;
        return;
      }
      var offset := 0;
      while offset < |data|
        invariant 0 <= offset <= |data|
        invariant guests == if offset == 0 then old(guests) else old(guests)[(vm, path) := data[..offset]]
      {
        var end := if offset + chunk < |data| then offset + chunk else |data|;
        assert data[..offset] + data[offset..end] == data[..end];
        assert offset == 0 ==> data[offset..end] == data[..end];
        error := WriteChunk(vm, path, data[offset..end], offset > 0, deadline);
        if error.Some? { return; }
        offset := end;
      }
      assert data[..|data|] == data;
      error := None;
    }
  }
}
