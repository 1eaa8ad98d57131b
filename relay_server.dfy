/** The relay's connect handler over the module-level `inFlightRequests` map,
    updated in place. Each method is one phase of the async handler (or a
    timer callback) and is proved to take the table exactly where the
    corresponding function of `RelayTable` says. */
module RelayServer {
  import opened Wrappers
  import opened Json
  import opened Timers
  import opened Relay
  import T = RelayTable

  class Server {
    /** `inFlightRequests`. */
    var inFlight: map<string, T.Entry>
    /** The promises stored with the entries, by creation order. */
    var promises: seq<T.Settlement>
    /** The pending `setTimeout` deletions. */
    var deletions: seq<Timer<string>>
    var nextHandle: nat

    function State(): T.RelayState
      reads this
    {
      T.RelayState(inFlight, promises, deletions, nextHandle)
    }

    predicate Valid()
      reads this
    {
      T.Inv(State())
    }

    constructor()
      ensures State() == T.Initial() && Valid()
    {
      inFlight := map[];
      promises := [];
      deletions := [];
      nextHandle := 0;
    }

    /** A fresh upstream call stored under `key` (the promise and the `set`). */
    method Issue(key: string, name: JsonValue, r: Request, now: int) returns (next: T.Next)
      modifies this
      ensures (State(), next) == T.Issue(old(State()), key, name, r, now)
    {
      var p := |promises|;
      var payload := StartPayload(UpstreamBody(name, r));
      promises := promises + [T.Pending];
      inFlight := inFlight[key := T.Entry(now, p)];
      next := T.CallUpstream(p, key, name, payload);
    }

    /** `POST /api/connect` up to its first `await`. */
    method Connect(r: Request, now: int) returns (next: T.Next)
      modifies this
      ensures (State(), next) == T.Arrive(old(State()), r, now)
      ensures old(Valid()) ==> Valid()
    {
      ghost var s0 := State();
      var name := AgentName(r);
      if !Truthy(name) {
        return T.Respond(BadRequest);
      }
      var key := RequestKey(name.value, r.query);
      if key in inFlight {
        var existing := inFlight[key];
        if now - existing.timestamp < T.DedupWindowMs {
          return T.AwaitEntry(existing.promise);
        }
        inFlight := inFlight - {key};
        T.RemoveThenPut(s0.inFlight, key, T.Entry(now, |promises|));
      }
      next := Issue(key, name.value, r, now);
      if T.Inv(s0) {
        T.StepInv(s0, T.Arrival(r, now));
      }
    }

    /** A duplicate continues once the promise it awaited has settled. */
    method Resume(r: Request, p: nat, now: int) returns (next: T.Next)
      requires p < |promises| && Truthy(AgentName(r))
      modifies this
      ensures (State(), next) == T.Resume(old(State()), r, p, now)
      ensures old(Valid()) ==> Valid()
    {
      ghost var s0 := State();
      if T.Inv(s0) {
        T.StepInv(s0, T.Resumption(r, p, now));
      }
      match promises[p] {
        case Pending =>
          next := T.AwaitEntry(p);
        case Fulfilled(c) =>
          next := T.Respond(Ok(c));
        case Rejected(_) =>
          var key := RequestKey(AgentName(r).value, r.query);
          inFlight := inFlight - {key};
          T.RemoveThenPut(s0.inFlight, key, T.Entry(now, |promises|));
          next := Issue(key, AgentName(r).value, r, now);
      }
    }

    /** The caller continues once its upstream call has ended. */
    method Complete(p: nat, key: string, name: JsonValue, outcome: T.Upstream, now: int) returns (reply: Reply)
      requires p < |promises|
      modifies this
      ensures (State(), reply) == T.Complete(old(State()), p, key, name, outcome, now)
      ensures old(Valid()) ==> Valid()
    {
      ghost var s0 := State();
      var settlement := T.Settle(outcome, name);
      promises := promises[p := settlement];
      match settlement {
        case Fulfilled(c) =>
          if T.LogThrows(c) {
            inFlight := inFlight - {key};
            reply := ServerError(T.RoomUrlTypeError);
          } else {
            deletions := deletions + [Timer(nextHandle, now + T.DedupWindowMs, key)];
            nextHandle := nextHandle + 1;
            reply := Ok(c);
          }
        case Rejected(m) =>
          inFlight := inFlight - {key};
          reply := ServerError(m);
      }
      if T.Inv(s0) {
        T.StepInv(s0, T.Completion(p, key, name, outcome, now));
      }
    }

    /** The event loop runs the earliest due deletion timer; `k` is its
        position, or -1 when none is due. */
    method FireNext(now: int) returns (k: int)
      modifies this
      ensures -1 <= k < |old(deletions)|
      ensures k == -1 <==> NoneDue(old(deletions), now)
      ensures k == -1 ==> State() == old(State())
      ensures k >= 0 ==> IsEarliestDue(old(deletions), now, k) && State() == T.FireDeletion(old(State()), k)
      ensures old(Valid()) ==> Valid()
    {
      ghost var s0 := State();
      k := EarliestDue(deletions, now);
      if k >= 0 {
        var t := deletions[k];
        deletions := Cancel(deletions, t.handle);
        inFlight := inFlight - {t.kind};
        if T.Inv(s0) {
          T.StepInv(s0, T.DeletionDue(k));
        }
      }
    }

    /** The periodic cleanup: every entry more than 2000 ms old is deleted. */
    method Sweep(now: int)
      modifies this
      ensures State() == T.Sweep(old(State()), now)
      ensures old(Valid()) ==> Valid()
    {
      ghost var s0 := State();
      var keys := inFlight.Keys;
      while keys != {}
        invariant keys <= s0.inFlight.Keys
        invariant inFlight == map k | k in s0.inFlight && (k in keys || now - s0.inFlight[k].timestamp <= T.DedupWindowMs) :: s0.inFlight[k]
        invariant promises == s0.promises && deletions == s0.deletions && nextHandle == s0.nextHandle
        decreases keys
      {
        var key :| key in keys;
        if now - inFlight[key].timestamp > T.DedupWindowMs {
          inFlight := inFlight - {key};
        }
        keys := keys - {key};
      }
      if T.Inv(s0) {
        T.StepInv(s0, T.SweepTick(now));
      }
    }
  }
}
