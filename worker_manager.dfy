/**
 * The main-thread side of the worker protocol: requests are numbered, kept
 * pending until the worker answers, rejected together when it reports an
 * error, and rejected one by one when their timer fires.
 *
 * Promises are modelled as bookkeeping. A call either fails at once, completes
 * at once, or leaves a pending entry under its message id; every later
 * resolution or rejection of a pending entry is appended to `settled`. The
 * worker itself is reduced to the messages posted to it (`posted`); its
 * replies, its `onerror` and the timers arrive as method calls.
 */
module Manager {
  import opened Wrappers
  import opened Types
  import opened TypeGuards

  const AlreadyInitializedError := "Worker already initialized"
  const NotAvailableError := "Worker not available"
  const NotInitializedError := "Worker not initialized"
  const TimeoutError := "Worker message timeout"
  const WorkerFailure := "Worker error"
  const DestroyedError := "Worker destroyed"
  const UnknownWorkerError := "Unknown worker error"
  /** The message of an error built from a truthy `error` field that is not a string. */
  const NonStringError := "[non-string error]"
  /** How long a request may stay pending, in milliseconds. */
  const TimeoutMs := 5000

  /** How a pending request ended. */
  datatype Resolution = Resolved(response: Value) | Rejected(reason: string)

  /** The end of the request with message id `id`, sent for `purpose`. */
  datatype Settlement = Settlement(id: nat, purpose: MessageKind, outcome: Resolution)

  /** What a call returns at once: a failure, an immediate completion, or the id it waits on. */
  datatype Call = Refused(reason: string) | Completed | Awaiting(id: nat)

  /** The message ids of a run of settlements. */
  function IdsOf(s: seq<Settlement>): set<nat> {
    set j | 0 <= j < |s| :: s[j].id
  }

  /**
   * The rejections `rejectAllPendingMessages` issues for the entries of `p`
   * with ids below `n`: one per entry, in increasing id order (the insertion
   * order of the pending map), each with the same reason.
   */
  function RejectionsBelow(p: map<nat, MessageKind>, n: nat, reason: string): (r: seq<Settlement>)
    ensures IdsOf(r) == set k | k in p && k < n
    ensures forall j :: 0 <= j < |r| ==>
      r[j].id in p && r[j].id < n && r[j].purpose == p[r[j].id] && r[j].outcome == Rejected(reason)
    ensures forall i, j :: 0 <= i < j < |r| ==> r[i].id < r[j].id
  {
    if n == 0 then []
    else
      var prefix := RejectionsBelow(p, n - 1, reason);
      if n - 1 in p then
        IdsOfAppend(prefix, Settlement(n - 1, p[n - 1], Rejected(reason)));
        prefix + [Settlement(n - 1, p[n - 1], Rejected(reason))]
      else prefix
  }

  lemma IdsOfAppend(s: seq<Settlement>, x: Settlement)
    ensures IdsOf(s + [x]) == IdsOf(s) + {x.id}
  {
    assert forall j :: 0 <= j < |s| ==> (s + [x])[j] == s[j];
    assert (s + [x])[|s|] == x;
  }

  /**
   * The message of the `Error` built from an error reply:
   * `response.error || 'Unknown worker error'`.
   */
  function ErrorReason(response: Value): (reason: string)
    ensures Get(response, "error").Str? && Get(response, "error").s != "" ==> reason == Get(response, "error").s
    ensures !Truthy(Get(response, "error")) ==> reason == UnknownWorkerError
  {
    var e := Get(response, "error");
    if !Truthy(e) then UnknownWorkerError
    else if e.Str? then e.s
    else NonStringError
  }

  /** An encoded error reply is rejected with its own message, or the fallback when it has none. */
  lemma ErrorReplyReason(error: string)
    ensures error != "" ==> ErrorReason(EncodeResponse(ErrorResponse(error))) == error
    ensures error == "" ==> ErrorReason(EncodeResponse(ErrorResponse(error))) == UnknownWorkerError
  {
    assert Get(EncodeResponse(ErrorResponse(error)), "error") == Str(error);
  }

  class WorkerManager {
    var hasWorker: bool
    var isInitialized: bool
    var messageId: nat
    /** The pending requests by message id, with the type of message each was sent for. */
    var pending: map<nat, MessageKind>
    /** Every message posted to the worker, oldest first; message id `k` is `posted[k]`. */
    var posted: seq<WorkerMessage>
    /** Every resolution and rejection of a pending request, in the order they happened. */
    var settled: seq<Settlement>

    /**
     * Ids are handed out in order and each request ends at most once: pending
     * ids were issued and match their message, settled ids were issued, are no
     * longer pending and are all different. Without a worker nothing is
     * pending and the manager is not initialized.
     */
    ghost predicate Valid()
      reads this
    {
      && |posted| == messageId
      && (forall k :: k in pending ==> k < messageId && pending[k] == posted[k].kind)
      && (forall j :: 0 <= j < |settled| ==> settled[j].id < messageId && settled[j].id !in pending)
      && (forall i, j :: 0 <= i < j < |settled| ==> settled[i].id != settled[j].id)
      && (!hasWorker ==> pending == map[] && !isInitialized)
    }

    constructor ()
      ensures Valid()
      ensures !hasWorker && !isInitialized && messageId == 0
      ensures pending == map[] && posted == [] && settled == []
    {
      hasWorker, isInitialized, messageId := false, false, 0;
      pending, posted, settled := map[], [], [];
    }

    /** `initialize`: refused if a worker exists; otherwise create one and send it `init`. */
    method Initialize(config: FullConfig) returns (call: Call)
      requires Valid()
      modifies this
      ensures Valid()
      ensures old(hasWorker) ==> call == Refused(AlreadyInitializedError) && unchanged(this)
      ensures !old(hasWorker) ==>
        && call == Awaiting(old(messageId))
        && hasWorker && isInitialized == old(isInitialized)
        && messageId == old(messageId) + 1
        && pending == old(pending)[old(messageId) := InitKind]
        && posted == old(posted) + [WorkerMessage(InitKind, Some(Loosen(config)), None)]
        && settled == old(settled)
    {
      if hasWorker {
        return Refused(AlreadyInitializedError);
      }
      hasWorker := true;
      call := SendMessage(WorkerMessage(InitKind, Some(Loosen(config)), None));
    }

    /**
     * `sendMessage`: without a worker the promise is rejected at once and
     * nothing is recorded; otherwise the message gets the next id, is
     * registered as pending and is posted.
     */
    method SendMessage(message: WorkerMessage) returns (call: Call)
      requires Valid()
      modifies this`messageId, this`pending, this`posted
      ensures Valid()
      ensures !hasWorker ==> call == Refused(NotAvailableError) && unchanged(this)
      ensures hasWorker ==>
        && call == Awaiting(old(messageId))
        && messageId == old(messageId) + 1
        && pending == old(pending)[old(messageId) := message.kind]
        && posted == old(posted) + [message]
    {
      if !hasWorker {
        return Refused(NotAvailableError);
      }
      var id := messageId;
      messageId := messageId + 1;
      pending := pending[id := message.kind];
      posted := posted + [message];
      call := Awaiting(id);
    }

    /** `processAudio`: refused before initialization; otherwise the chunk is sent. */
    method ProcessAudio(chunk: AudioChunk) returns (call: Call)
      requires Valid()
      modifies this`messageId, this`pending, this`posted
      ensures Valid()
      ensures !(isInitialized && hasWorker) ==> call == Refused(NotInitializedError) && unchanged(this)
      ensures isInitialized && hasWorker ==>
        && call == Awaiting(old(messageId))
        && messageId == old(messageId) + 1
        && pending == old(pending)[old(messageId) := ProcessKind]
        && posted == old(posted) + [WorkerMessage(ProcessKind, None, Some(chunk))]
    {
      if !isInitialized || !hasWorker {
        return Refused(NotInitializedError);
      }
      call := SendMessage(WorkerMessage(ProcessKind, None, Some(AudioChunk(chunk.data, chunk.timestamp, chunk.sampleRate))));
    }

    /** `reset`: completes at once before initialization; otherwise sends `reset`. */
    method Reset() returns (call: Call)
      requires Valid()
      modifies this`messageId, this`pending, this`posted
      ensures Valid()
      ensures !(isInitialized && hasWorker) ==> call == Completed && unchanged(this)
      ensures isInitialized && hasWorker ==>
        && call == Awaiting(old(messageId))
        && messageId == old(messageId) + 1
        && pending == old(pending)[old(messageId) := ResetKind]
        && posted == old(posted) + [WorkerMessage(ResetKind, None, None)]
    {
      if !isInitialized || !hasWorker {
        return Completed;
      }
      call := SendMessage(WorkerMessage(ResetKind, None, None));
    }

    /**
     * `destroy`: with a worker, send `destroy` and finish when it is
     * answered (see `Settle`); without one, clear the flag and reject
     * everything still pending at once.
     */
    method Destroy() returns (call: Call)
      requires Valid()
      modifies this
      ensures Valid()
      ensures hasWorker == old(hasWorker)
      ensures old(hasWorker) ==>
        && call == Awaiting(old(messageId))
        && isInitialized == old(isInitialized)
        && messageId == old(messageId) + 1
        && pending == old(pending)[old(messageId) := DestroyKind]
        && posted == old(posted) + [WorkerMessage(DestroyKind, None, None)]
        && settled == old(settled)
      ensures !old(hasWorker) ==>
        && call == Completed && !isInitialized
        && messageId == old(messageId) && posted == old(posted) && pending == map[]
        && settled == old(settled) + RejectionsBelow(old(pending), old(messageId), DestroyedError)
    {
      if hasWorker {
        call := SendMessage(WorkerMessage(DestroyKind, None, None));
        return;
      }
      isInitialized := false;
      RejectAllPendingMessages(DestroyedError);
      call := Completed;
    }

    /**
     * `rejectAllPendingMessages`: reject every pending request, in id order,
     * with the same reason, then clear the map.
     */
    method RejectAllPendingMessages(reason: string)
      requires Valid()
      modifies this`pending, this`settled
      ensures Valid()
      ensures pending == map[]
      ensures settled == old(settled) + RejectionsBelow(old(pending), messageId, reason)
    {
      RejectionsKeepIdsApart(settled, pending, messageId, reason);
      var i := 0;
      while i < messageId
        invariant i <= messageId
        invariant pending == old(pending)
        invariant settled == old(settled) + RejectionsBelow(pending, i, reason)
      {
        if i in pending {
          settled := settled + [Settlement(i, pending[i], Rejected(reason))];
        }
        i := i + 1;
      }
      pending := map[];
    }

    /** The worker's `onmessage`: a value that fails `isWorkerResponse` is ignored. */
    method OnMessage(response: Value)
      requires Valid()
      modifies this
      ensures Valid()
      ensures !IsWorkerResponse(response) ==> unchanged(this)
      ensures IsWorkerResponse(response) ==> Handled(response)
    {
      if !IsWorkerResponse(response) {
        return;
      }
      HandleWorkerResponse(response);
    }

    /** The new state after `handleWorkerResponse` (and the continuation it resumes) has run. */
    twostate predicate Handled(response: Value)
      requires IsWorkerResponse(response)
      reads this
    {
      var last := old(messageId) - 1;
      && messageId == old(messageId) && posted == old(posted)
      && (ResponseKindOf(response) == ErrorKind ==>
            && hasWorker == old(hasWorker) && isInitialized == old(isInitialized)
            && pending == map[]
            && settled == old(settled) + RejectionsBelow(old(pending), old(messageId), ErrorReason(response)))
      && (ResponseKindOf(response) != ErrorKind && (old(messageId) == 0 || last !in old(pending)) ==>
            && hasWorker == old(hasWorker) && isInitialized == old(isInitialized)
            && pending == old(pending) && settled == old(settled))
      && (ResponseKindOf(response) != ErrorKind && old(messageId) > 0 && last in old(pending) ==>
            Resumed(last, old(pending)[last], response))
    }

    /**
     * The resolution of request `id` and what its caller does next: `init`
     * marks the manager initialized; `destroy` terminates the worker and
     * rejects whatever is still pending; other callers just receive the reply.
     */
    twostate predicate Resumed(id: nat, purpose: MessageKind, response: Value)
      requires old(messageId) > 0
      reads this
    {
      var resolved := old(settled) + [Settlement(id, purpose, Resolved(response))];
      var rest := old(pending) - {id};
      && (purpose == InitKind ==>
            hasWorker == old(hasWorker) && isInitialized && pending == rest && settled == resolved)
      && (purpose == DestroyKind ==>
            && !hasWorker && !isInitialized && pending == map[]
            && settled == resolved + RejectionsBelow(rest, old(messageId), DestroyedError))
      && (purpose in {ProcessKind, ResetKind} ==>
            hasWorker == old(hasWorker) && isInitialized == old(isInitialized)
            && pending == rest && settled == resolved)
    }

    /**
     * `handleWorkerResponse`: an error reply rejects every pending request;
     * any other reply resolves the request with the newest id, whichever
     * request it answers, if that one is still pending.
     */
    method HandleWorkerResponse(response: Value)
      requires Valid() && IsWorkerResponse(response)
      modifies this
      ensures Valid()
      ensures Handled(response)
    {
      if ResponseKindOf(response) == ErrorKind {
        RejectAllPendingMessages(ErrorReason(response));
        return;
      }
      if messageId == 0 || messageId - 1 !in pending {
        return;
      }
      var id := messageId - 1;
      var purpose := pending[id];
      Settle(id, purpose, response);
    }

    /** Resolve pending request `id` and run the continuation of its caller. */
    method Settle(id: nat, purpose: MessageKind, response: Value)
      requires Valid() && id == messageId - 1 && id in pending && pending[id] == purpose
      modifies this
      ensures Valid()
      ensures messageId == old(messageId) && posted == old(posted)
      ensures Resumed(id, purpose, response)
    {
      assert forall j :: 0 <= j < |settled| ==> settled[j].id != id;
      pending := pending - {id};
      settled := settled + [Settlement(id, purpose, Resolved(response))];
      assert Valid();
      match purpose {
        case InitKind => isInitialized := true;
        case DestroyKind =>
          // `terminate`, drop the worker and clear the flag, then reject the rest
          RejectAllPendingMessages(DestroyedError);
          hasWorker := false;
          isInitialized := false;
        case _ =>
      }
    }

    /** The worker's `onerror`: reject every pending request with "Worker error". */
    method OnError()
      requires Valid()
      modifies this`pending, this`settled
      ensures Valid()
      ensures pending == map[]
      ensures settled == old(settled) + RejectionsBelow(old(pending), messageId, WorkerFailure)
    {
      RejectAllPendingMessages(WorkerFailure);
    }

    /** The 5000 ms timer of request `id`: rejects it only if it is still pending. */
    method Timeout(id: nat)
      requires Valid()
      modifies this`pending, this`settled
      ensures Valid()
      ensures id !in old(pending) ==> pending == old(pending) && settled == old(settled)
      ensures id in old(pending) ==>
        && pending == old(pending) - {id}
        && settled == old(settled) + [Settlement(id, old(pending)[id], Rejected(TimeoutError))]
    {
      if id in pending {
        settled := settled + [Settlement(id, pending[id], Rejected(TimeoutError))];
        pending := pending - {id};
      }
    }
  }

  /**
   * Appending the rejections of the pending entries to settlements whose ids
   * are issued and not pending keeps every settled id issued and different.
   */
  lemma RejectionsKeepIdsApart(s: seq<Settlement>, p: map<nat, MessageKind>, n: nat, reason: string)
    requires forall j :: 0 <= j < |s| ==> s[j].id < n && s[j].id !in p
    requires forall i, j :: 0 <= i < j < |s| ==> s[i].id != s[j].id
    ensures var t := s + RejectionsBelow(p, n, reason);
      && (forall j :: 0 <= j < |t| ==> t[j].id < n)
      && (forall i, j :: 0 <= i < j < |t| ==> t[i].id != t[j].id)
  {
    var r := RejectionsBelow(p, n, reason);
    var t := s + r;
    forall i, j | 0 <= i < j < |t|
      ensures t[i].id != t[j].id
    {
      if j >= |s| && i < |s| {
        assert t[j] == r[j - |s|];
        assert t[j].id in p;
      } else if i >= |s| {
        assert t[i] == r[i - |s|] && t[j] == r[j - |s|];
      }
    }
  }

  /** `rejectAllPendingMessages` settles each pending request exactly once and nothing else. */
  lemma RejectAllSettlesEachOnce(p: map<nat, MessageKind>, n: nat, reason: string)
    requires forall k :: k in p ==> k < n
    ensures IdsOf(RejectionsBelow(p, n, reason)) == p.Keys
    ensures |RejectionsBelow(p, n, reason)| == |p|
  {
    var r := RejectionsBelow(p, n, reason);
    assert IdsOf(r) == p.Keys;
    DistinctIdsCount(r);
  }

  /** A run of settlements with increasing ids has as many ids as entries. */
  lemma {:induction false} DistinctIdsCount(r: seq<Settlement>)
    requires forall i, j :: 0 <= i < j < |r| ==> r[i].id < r[j].id
    ensures |IdsOf(r)| == |r|
  {
    if |r| > 0 {
      var init := r[..|r| - 1];
      DistinctIdsCount(init);
      assert IdsOf(r) == IdsOf(init) + {r[|r| - 1].id};
      assert r[|r| - 1].id !in IdsOf(init);
    }
  }

  /** Calls made before `initialize` are refused at once and nothing is posted. */
  method CallsBeforeInitialize(chunk: AudioChunk) returns (process: Call, reset: Call, posted: seq<WorkerMessage>)
    ensures process == Refused(NotInitializedError)
    ensures reset == Completed
    ensures posted == []
  {
    var m := new WorkerManager();
    process := m.ProcessAudio(chunk);
    reset := m.Reset();
    posted := m.posted;
  }

  /**
   * The handshake: `initialize` posts `init` under id 0, the worker's
   * `ready` resolves it and the manager becomes initialized; a second
   * `initialize` is refused.
   */
  method InitializeHandshake(config: FullConfig) returns (first: Call, second: Call, initialized: bool, settled: seq<Settlement>)
    ensures first == Awaiting(0)
    ensures second == Refused(AlreadyInitializedError)
    ensures initialized
    ensures settled == [Settlement(0, InitKind, Resolved(EncodeResponse(ReadyResponse())))]
  {
    var m := new WorkerManager();
    first := m.Initialize(config);
    ResponseRoundTrip(ReadyResponse());
    m.OnMessage(EncodeResponse(ReadyResponse()));
    second := m.Initialize(config);
    initialized := m.isInitialized;
    settled := m.settled;
  }

  /** A manager whose `init` has been answered `ready`: initialized, with nothing pending. */
  method Handshaken(config: FullConfig) returns (m: WorkerManager)
    ensures fresh(m) && m.Valid()
    ensures m.hasWorker && m.isInitialized && m.messageId == 1 && m.pending == map[]
    ensures m.settled == [Settlement(0, InitKind, Resolved(EncodeResponse(ReadyResponse())))]
  {
    m := new WorkerManager();
    var _ := m.Initialize(config);
    ResponseRoundTrip(ReadyResponse());
    m.OnMessage(EncodeResponse(ReadyResponse()));
  }

  /**
   * Replies are not matched to requests: after request 1 times out, the
   * worker's late reply to it resolves request 2 with request 1's result.
   */
  method StaleReplyResolvesNextCall(config: FullConfig, chunk1: AudioChunk, chunk2: AudioChunk, late: VadResult)
    returns (settled: seq<Settlement>)
    ensures settled == [
      Settlement(0, InitKind, Resolved(EncodeResponse(ReadyResponse()))),
      Settlement(1, ProcessKind, Rejected(TimeoutError)),
      Settlement(2, ProcessKind, Resolved(EncodeResponse(ResultResponse(late))))]
  {
    var m := Handshaken(config);
    ghost var ready := Settlement(0, InitKind, Resolved(EncodeResponse(ReadyResponse())));
    var _ := m.ProcessAudio(chunk1);
    assert m.messageId == 2 && m.pending == map[1 := ProcessKind];
    m.Timeout(1);
    assert m.pending == map[] && m.settled == [ready, Settlement(1, ProcessKind, Rejected(TimeoutError))];
    var _ := m.ProcessAudio(chunk2);
    assert m.messageId == 3 && m.pending == map[2 := ProcessKind];
    ResponseRoundTrip(ResultResponse(late));
    m.OnMessage(EncodeResponse(ResultResponse(late)));
    settled := m.settled;
  }

  /** The rejections of two process requests in flight under ids 1 and 2. */
  lemma TwoInFlight(reason: string)
    ensures RejectionsBelow(map[1 := ProcessKind, 2 := ProcessKind], 3, reason)
            == [Settlement(1, ProcessKind, Rejected(reason)), Settlement(2, ProcessKind, Rejected(reason))]
  {
    var p := map[1 := ProcessKind, 2 := ProcessKind];
    assert RejectionsBelow(p, 1, reason) == [];
    assert RejectionsBelow(p, 2, reason) == [Settlement(1, ProcessKind, Rejected(reason))];
  }

  /**
   * An error reply rejects every request in flight, oldest first, with the
   * reply's message, and a timer that fires afterwards changes nothing.
   */
  method ErrorRejectsEveryRequest(config: FullConfig, chunk1: AudioChunk, chunk2: AudioChunk, error: string)
    returns (settled: seq<Settlement>, pending: map<nat, MessageKind>)
    requires error != ""
    ensures settled == [
      Settlement(0, InitKind, Resolved(EncodeResponse(ReadyResponse()))),
      Settlement(1, ProcessKind, Rejected(error)),
      Settlement(2, ProcessKind, Rejected(error))]
    ensures pending == map[]
  {
    var m := Handshaken(config);
    var _ := m.ProcessAudio(chunk1);
    assert m.messageId == 2 && m.pending == map[1 := ProcessKind];
    var _ := m.ProcessAudio(chunk2);
    ResponseRoundTrip(ErrorResponse(error));
    ErrorReplyReason(error);
    assert m.messageId == 3 && m.pending == map[1 := ProcessKind, 2 := ProcessKind];
    TwoInFlight(error);
    m.OnMessage(EncodeResponse(ErrorResponse(error)));
    m.Timeout(1);
    settled, pending := m.settled, m.pending;
  }

  /**
   * `destroy` after initialization: the worker's `ready` to `destroy`
   * terminates it and clears the flag, after which audio is refused.
   */
  method DestroyLifecycle(config: FullConfig, chunk: AudioChunk)
    returns (destroy: Call, afterwards: Call, hasWorker: bool, initialized: bool)
    ensures destroy == Awaiting(1)
    ensures afterwards == Refused(NotInitializedError)
    ensures !hasWorker && !initialized
  {
    var m := new WorkerManager();
    var _ := m.Initialize(config);
    ResponseRoundTrip(ReadyResponse());
    m.OnMessage(EncodeResponse(ReadyResponse()));
    destroy := m.Destroy();
    m.OnMessage(EncodeResponse(ReadyResponse()));
    afterwards := m.ProcessAudio(chunk);
    hasWorker, initialized := m.hasWorker, m.isInitialized;
  }
}
