/** The relay's table of in-flight connect requests, on values. The async
    handler of `POST /api/connect` runs in phases separated by `await`:
    `Arrive` runs from the start of the handler to the point where it awaits
    either an earlier request's promise or its own upstream call; `Resume`
    continues a duplicate once the promise it awaits has settled; `Complete`
    continues the request that called upstream once the call has finished.
    The deletion timers and the periodic sweep are `FireDeletion` and `Sweep`.
    Each promise is identified by its position in `promises`. */
module RelayTable {
  import opened Wrappers
  import opened Json
  import opened Timers
  import opened Relay

  /** REQUEST_DEDUP_WINDOW_MS. */
  const DedupWindowMs: int := 2000

  datatype Entry = Entry(timestamp: int, promise: nat)

  /** The state of the promise stored with an entry: it settles with the
      normalized credentials, or rejects with an error message. */
  datatype Settlement = Pending | Fulfilled(credentials: Credentials) | Rejected(message: string)

  /** How the upstream `/start` call ended: with a parsed JSON answer, or with
      an error (the network failed, the status was not 2xx, or the answer was
      not JSON). */
  datatype Upstream = Answered(data: JsonValue) | Unavailable(message: string)

  datatype RelayState = RelayState(
    inFlight: map<string, Entry>,
    promises: seq<Settlement>,
    deletions: seq<Timer<string>>,
    nextHandle: nat)

  function Initial(): RelayState {
    RelayState(map[], [], [], 0)
  }

  /** What a handler phase does next: reply, await the promise of an earlier
      request, or call upstream with its own new promise. */
  datatype Next =
    | Respond(reply: Reply)
    | AwaitEntry(promise: nat)
    | CallUpstream(promise: nat, key: string, name: JsonValue, payload: JsonValue)

  /** Every entry's promise exists, and the deletion timers carry distinct
      handles below the next one, in the order they were created. */
  predicate Inv(st: RelayState) {
    && (forall k :: k in st.inFlight ==> st.inFlight[k].promise < |st.promises|)
    && (forall i :: 0 <= i < |st.deletions| ==> st.deletions[i].handle < st.nextHandle)
    && Ascending(st.deletions)
  }

  /** The key of a request whose agent name is truthy. */
  function KeyOf(r: Request): string
    requires Truthy(AgentName(r))
  {
    RequestKey(AgentName(r).value, r.query)
  }

  /** A fresh upstream call: a new pending promise, stored under `key` with
      the current time. */
  function Issue(st: RelayState, key: string, name: JsonValue, r: Request, now: int): (res: (RelayState, Next))
    ensures res.1 == CallUpstream(|st.promises|, key, name, StartPayload(UpstreamBody(name, r)))
    ensures res.0.inFlight.Keys == st.inFlight.Keys + {key}
    ensures res.0.inFlight[key] == Entry(now, |st.promises|)
    ensures forall k :: k in st.inFlight && k != key ==> res.0.inFlight[k] == st.inFlight[k]
    ensures res.0.promises == st.promises + [Pending]
    ensures res.0.deletions == st.deletions && res.0.nextHandle == st.nextHandle
  {
    var p := |st.promises|;
    (st.(inFlight := st.inFlight[key := Entry(now, p)], promises := st.promises + [Pending]),
     CallUpstream(p, key, name, StartPayload(UpstreamBody(name, r))))
  }

  /** The handler up to its first `await`: 400 without a name; a younger
      entry under the same key is awaited; an older one is deleted and a fresh
      call is made, as it is when there is no entry. */
  function Arrive(st: RelayState, r: Request, now: int): (res: (RelayState, Next))
    ensures !Truthy(AgentName(r)) <==> res.1 == Respond(BadRequest)
    ensures res.1.Respond? ==> res.0 == st
    ensures res.1.AwaitEntry? <==>
      Truthy(AgentName(r)) && KeyOf(r) in st.inFlight && now - st.inFlight[KeyOf(r)].timestamp < DedupWindowMs
    ensures res.1.AwaitEntry? ==> res.0 == st && res.1.promise == st.inFlight[KeyOf(r)].promise
    ensures res.1.CallUpstream? ==>
      && res.0.inFlight == st.inFlight[KeyOf(r) := Entry(now, |st.promises|)]
      && res.0.promises == st.promises + [Pending]
      && res.0.deletions == st.deletions && res.0.nextHandle == st.nextHandle
      && res.1 == CallUpstream(|st.promises|, KeyOf(r), AgentName(r).value, StartPayload(UpstreamBody(AgentName(r).value, r)))
  {
    var name := AgentName(r);
    if !Truthy(name) then (st, Respond(BadRequest))
    else
      var key := RequestKey(name.value, r.query);
      if key in st.inFlight then
        if now - st.inFlight[key].timestamp < DedupWindowMs then (st, AwaitEntry(st.inFlight[key].promise))
        else
          RemoveThenPut(st.inFlight, key, Entry(now, |st.promises|));
          Issue(st.(inFlight := st.inFlight - {key}), key, name.value, r, now)
      else Issue(st, key, name.value, r, now)
  }

  /** A duplicate continues after awaiting promise `p`: it replies with the
      credentials the promise settled with, or, when the promise was rejected,
      deletes the key and makes a fresh call. */
  function Resume(st: RelayState, r: Request, p: nat, now: int): (res: (RelayState, Next))
    requires p < |st.promises| && Truthy(AgentName(r))
    ensures st.promises[p].Pending? ==> res == (st, AwaitEntry(p))
    ensures st.promises[p].Fulfilled? ==> res == (st, Respond(Ok(st.promises[p].credentials)))
    ensures st.promises[p].Rejected? ==>
      && res.0.inFlight == st.inFlight[KeyOf(r) := Entry(now, |st.promises|)]
      && res.0.promises == st.promises + [Pending]
      && res.0.deletions == st.deletions && res.0.nextHandle == st.nextHandle
      && res.1 == CallUpstream(|st.promises|, KeyOf(r), AgentName(r).value, StartPayload(UpstreamBody(AgentName(r).value, r)))
  {
    match st.promises[p]
    case Pending => (st, AwaitEntry(p))
    case Fulfilled(c) => (st, Respond(Ok(c)))
    case Rejected(_) =>
      var key := KeyOf(r);
      RemoveThenPut(st.inFlight, key, Entry(now, |st.promises|));
      Issue(st.(inFlight := st.inFlight - {key}), key, AgentName(r).value, r, now)
  }

  /** How the stored promise settles for an upstream outcome. */
  function Settle(outcome: Upstream, name: JsonValue): (s: Settlement)
    ensures !s.Pending?
    ensures s.Fulfilled? <==> outcome.Answered? && !outcome.data.JNull?
    ensures s.Fulfilled? ==> Normalize(outcome.data, name) == Success(s.credentials)
  {
    match outcome
    case Unavailable(m) => Rejected(m)
    case Answered(d) =>
      match Normalize(d, name)
      case Success(c) => Fulfilled(c)
      case Failure(m) => Rejected(m)
  }

  /** The message of the TypeError raised when the success log calls
      `substring` on a room URL that is not a string. */
  const RoomUrlTypeError := "roomUrl.substring is not a function"

  /** The success log reads `roomUrl.substring(0, 50)` whenever the room URL
      is truthy, which throws for anything but a string. */
  predicate LogThrows(c: Credentials) {
    Truthy(c.roomUrl) && !c.roomUrl.value.JStr?
  }

  /** The caller continues once its upstream call has ended: its promise
      settles; on success a deletion of the key is scheduled for 2000 ms later
      and the credentials are returned with 200; on failure the key is deleted
      at once and 500 is returned. A truthy room URL that is not a string
      makes the success log throw after the promise has fulfilled: the key is
      deleted at once and 500 is returned, while the promise keeps its
      credentials for the duplicates awaiting it. */
  function Complete(st: RelayState, p: nat, key: string, name: JsonValue, outcome: Upstream, now: int): (res: (RelayState, Reply))
    requires p < |st.promises|
    ensures res.0.promises == st.promises[p := Settle(outcome, name)]
    ensures Settle(outcome, name).Fulfilled? && !LogThrows(Settle(outcome, name).credentials) ==>
      && res.1 == Ok(Settle(outcome, name).credentials)
      && res.0.inFlight == st.inFlight
      && res.0.deletions == st.deletions + [Timer(st.nextHandle, now + DedupWindowMs, key)]
      && res.0.nextHandle == st.nextHandle + 1
    ensures Settle(outcome, name).Fulfilled? && LogThrows(Settle(outcome, name).credentials) ==>
      && res.1 == ServerError(RoomUrlTypeError)
      && res.0.inFlight == st.inFlight - {key}
      && res.0.deletions == st.deletions && res.0.nextHandle == st.nextHandle
    ensures Settle(outcome, name).Rejected? ==>
      && res.1 == ServerError(Settle(outcome, name).message)
      && res.0.inFlight == st.inFlight - {key}
      && res.0.deletions == st.deletions && res.0.nextHandle == st.nextHandle
  {
    var s := Settle(outcome, name);
    var st1 := st.(promises := st.promises[p := s]);
    match s
    case Fulfilled(c) =>
      if LogThrows(c) then (st1.(inFlight := st.inFlight - {key}), ServerError(RoomUrlTypeError))
      else (st1.(deletions := st.deletions + [Timer(st.nextHandle, now + DedupWindowMs, key)], nextHandle := st.nextHandle + 1), Ok(c))
    case Rejected(m) => (st1.(inFlight := st.inFlight - {key}), ServerError(m))
    case Pending => assert false; (st1, ServerError(""))
  }

  /** The deletion timer at position `k` runs: it leaves the queue and deletes
      whatever entry its key holds. */
  function FireDeletion(st: RelayState, k: nat): (r: RelayState)
    requires k < |st.deletions|
    ensures r.inFlight == st.inFlight - {st.deletions[k].kind}
    ensures r.deletions == Cancel(st.deletions, st.deletions[k].handle)
    ensures r.promises == st.promises && r.nextHandle == st.nextHandle
  {
    var t := st.deletions[k];
    st.(inFlight := st.inFlight - {t.kind}, deletions := Cancel(st.deletions, t.handle))
  }

  /** The entries the sweep keeps: those at most 2000 ms old. */
  function Unexpired(m: map<string, Entry>, now: int): (r: map<string, Entry>)
    ensures r.Keys <= m.Keys
    ensures forall k :: k in r ==> r[k] == m[k]
  {
    map k | k in m && now - m[k].timestamp <= DedupWindowMs :: m[k]
  }

  /** The periodic sweep. */
  function Sweep(st: RelayState, now: int): RelayState {
    st.(inFlight := Unexpired(st.inFlight, now))
  }

  // ---------------------------------------------------------------------------
  // The invariant

  datatype Event =
    | Arrival(r: Request, now: int)
    | Resumption(r: Request, p: nat, now: int)
    | Completion(p: nat, key: string, name: JsonValue, outcome: Upstream, now: int)
    | DeletionDue(k: nat)
    | SweepTick(now: int)

  /** The event can happen in this state: a resumed duplicate and a completed
      call refer to an existing promise, and a deletion to a pending timer. */
  predicate Enabled(st: RelayState, e: Event) {
    match e
    case Arrival(_, _) => true
    case Resumption(r, p, _) => p < |st.promises| && Truthy(AgentName(r))
    case Completion(p, _, _, _, _) => p < |st.promises|
    case DeletionDue(k) => k < |st.deletions|
    case SweepTick(_) => true
  }

  function Step(st: RelayState, e: Event): RelayState
    requires Enabled(st, e)
  {
    match e
    case Arrival(r, now) => Arrive(st, r, now).0
    case Resumption(r, p, now) => Resume(st, r, p, now).0
    case Completion(p, key, name, outcome, now) => Complete(st, p, key, name, outcome, now).0
    case DeletionDue(k) => FireDeletion(st, k)
    case SweepTick(now) => Sweep(st, now)
  }

  lemma IssueInv(st: RelayState, key: string, name: JsonValue, r: Request, now: int)
    requires Inv(st)
    ensures Inv(Issue(st, key, name, r, now).0)
  {
  }

  predicate Ascending(p: seq<Timer<string>>) {
    forall i, j :: 0 <= i < j < |p| ==> p[i].handle < p[j].handle
  }

  lemma CancelBounded(p: seq<Timer<string>>, h: nat, bound: nat)
    requires forall i :: 0 <= i < |p| ==> p[i].handle < bound
    ensures var c := Cancel(p, h); forall i :: 0 <= i < |c| ==> c[i].handle < bound
  {
    var c := Cancel(p, h);
    forall i | 0 <= i < |c|
      ensures c[i].handle < bound
    {
      assert c[i] in p;
    }
  }

  lemma {:induction false} CancelAscending(p: seq<Timer<string>>, h: nat)
    requires Ascending(p)
    ensures Ascending(Cancel(p, h))
  {
    if p != [] {
      var rest := Cancel(p[1..], h);
      CancelAscending(p[1..], h);
      if p[0].handle != h {
        assert Cancel(p, h) == [p[0]] + rest;
        forall j | 0 <= j < |rest|
          ensures p[0].handle < rest[j].handle
        {
          assert rest[j] in p[1..];
        }
      } else {
        assert Cancel(p, h) == rest;
      }
    }
  }

  lemma RemoveThenPut(m: map<string, Entry>, k: string, v: Entry)
    ensures (m - {k})[k := v] == m[k := v]
  {
  }

  /** An arriving request keeps the invariant. */
  lemma ArriveInv(st: RelayState, r: Request, now: int)
    requires Inv(st)
    ensures Inv(Arrive(st, r, now).0)
  {
    var name := AgentName(r);
    if Truthy(name) {
      var key := RequestKey(name.value, r.query);
      if key in st.inFlight {
        IssueInv(st.(inFlight := st.inFlight - {key}), key, name.value, r, now);
      } else {
        IssueInv(st, key, name.value, r, now);
      }
    }
  }

  /** Storing a new pending promise under a key, with the deletion timers
      untouched, keeps the invariant. */
  lemma PutPendingInv(st: RelayState, st': RelayState, key: string, now: int)
    requires Inv(st)
    requires st'.inFlight == st.inFlight[key := Entry(now, |st.promises|)]
    requires st'.promises == st.promises + [Pending]
    requires st'.deletions == st.deletions && st'.nextHandle == st.nextHandle
    ensures Inv(st')
  {
  }

  /** A resumed duplicate keeps the invariant. */
  lemma ResumeInv(st: RelayState, r: Request, p: nat, now: int)
    requires Inv(st) && p < |st.promises| && Truthy(AgentName(r))
    ensures Inv(Resume(st, r, p, now).0)
  {
    if st.promises[p].Rejected? {
      PutPendingInv(st, Resume(st, r, p, now).0, KeyOf(r), now);
    }
  }

  /** A run deletion timer keeps the invariant. */
  lemma FireDeletionInv(st: RelayState, k: nat)
    requires Inv(st) && k < |st.deletions|
    ensures Inv(FireDeletion(st, k))
  {
    CancelBounded(st.deletions, st.deletions[k].handle, st.nextHandle);
    CancelAscending(st.deletions, st.deletions[k].handle);
  }

  /** Every phase of the handler, the deletion timers and the sweep keep the
      invariant. */
  lemma StepInv(st: RelayState, e: Event)
    requires Inv(st) && Enabled(st, e)
    ensures Inv(Step(st, e))
  {
    match e
    case Arrival(r, now) => ArriveInv(st, r, now);
    case Resumption(r, p, now) => ResumeInv(st, r, p, now);
    case Completion(p, key, name, outcome, now) =>
    case DeletionDue(k) => FireDeletionInv(st, k);
    case SweepTick(now) =>
  }

  lemma InitialInv()
    ensures Inv(Initial())
  {
  }
}
