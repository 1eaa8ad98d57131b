/** Properties of the relay's deduplication table that relate several phases
    of the connect handler, the deletion timers and the sweep. */
module RelayProperties {
  import opened Wrappers
  import opened Json
  import opened Relay
  import opened RelayTable
  import Agents

  /** A request that repeats the key of a request that called upstream less
      than 2000 ms earlier awaits that call's promise: it neither calls
      upstream nor changes the table. */
  lemma DuplicateWithinWindow(st: RelayState, r1: Request, r2: Request, t1: int, t2: int)
    requires Truthy(AgentName(r1)) && Truthy(AgentName(r2)) && KeyOf(r1) == KeyOf(r2)
    requires t1 <= t2 < t1 + DedupWindowMs
    ensures var (st1, n1) := Arrive(st, r1, t1);
      n1.CallUpstream? ==> Arrive(st1, r2, t2) == (st1, AwaitEntry(n1.promise))
  {
  }

  /** The same request arriving 2000 ms or more after it called upstream (and
      before any deletion) calls upstream again with a new promise. */
  lemma RepeatAfterWindow(st: RelayState, r: Request, t1: int, t2: int)
    requires Truthy(AgentName(r)) && t2 >= t1 + DedupWindowMs
    ensures var (st1, n1) := Arrive(st, r, t1);
      var (st2, n2) := Arrive(st1, r, t2);
      n1.CallUpstream? ==> n2.CallUpstream? && n2.promise == n1.promise + 1 && st2.inFlight[KeyOf(r)] == Entry(t2, n2.promise)
  {
  }

  /** A double connect from the widget for the same agent within the window
      makes a single upstream call. */
  lemma WidgetConnectDeduplicated(st: RelayState, agent: Agents.AgentProfile, t1: int, t2: int)
    requires t1 <= t2 < t1 + DedupWindowMs
    ensures var (st1, n1) := Arrive(st, WidgetRequest(agent), t1);
      && (n1.CallUpstream? || n1.AwaitEntry?)
      && (n1.CallUpstream? ==> Arrive(st1, WidgetRequest(agent), t2) == (st1, AwaitEntry(n1.promise)))
  {
    WidgetName(agent);
    DuplicateWithinWindow(st, WidgetRequest(agent), WidgetRequest(agent), t1, t2);
  }

  /** A duplicate that awaited the caller's promise gets the reply the caller
      got when the call succeeded. When the caller answered 500, the duplicate
      calls upstream itself if the promise was rejected, but gets 200 with the
      credentials if the promise fulfilled and only the success log threw. */
  lemma DuplicateSharesOutcome(st: RelayState, p: nat, key: string, name: JsonValue, outcome: Upstream, now: int,
                               r: Request, later: int)
    requires p < |st.promises| && Truthy(AgentName(r))
    ensures var (st1, reply) := Complete(st, p, key, name, outcome, now);
      && (reply.Ok? ==> Resume(st1, r, p, later) == (st1, Respond(reply)))
      && (reply.ServerError? ==> (st1.promises[p].Rejected? || st1.promises[p].Fulfilled?))
      && (reply.ServerError? && st1.promises[p].Rejected? ==> Resume(st1, r, p, later).1.CallUpstream?)
      && (reply.ServerError? && st1.promises[p].Fulfilled? ==>
            && LogThrows(st1.promises[p].credentials)
            && Resume(st1, r, p, later) == (st1, Respond(Ok(st1.promises[p].credentials))))
  {
  }

  /** An upstream answer whose `room_url` is the number 5: the caller gets 500
      and its key is deleted, while a duplicate that awaited its promise gets
      200 with the credentials. */
  lemma NumericRoomUrlSplitsOutcome(st: RelayState, p: nat, key: string, name: JsonValue, now: int,
                                    r: Request, later: int)
    requires p < |st.promises| && Truthy(AgentName(r))
    ensures var data := JObj(map["room_url" := JNum(5), "token" := JStr("t")]);
      var (st1, reply) := Complete(st, p, key, name, Answered(data), now);
      && reply == ServerError(RoomUrlTypeError)
      && key !in st1.inFlight
      && Resume(st1, r, p, later).1 == Respond(Ok(Credentials(Some(JNum(5)), Some(JStr("t")), None, name)))
  {
    var data := JObj(map["room_url" := JNum(5), "token" := JStr("t")]);
    assert Get(data, "room_url") == Some(JNum(5)) && Get(data, "token") == Some(JStr("t"));
    assert Get(data, "sessionId") == None;
  }

  /** Duplicates that awaited a rejected promise each call upstream with a
      promise of their own: the retries are not deduplicated against each
      other. */
  lemma RetriesNotShared(st: RelayState, r1: Request, r2: Request, p: nat, t1: int, t2: int)
    requires p < |st.promises| && st.promises[p].Rejected?
    requires Truthy(AgentName(r1)) && Truthy(AgentName(r2)) && KeyOf(r1) == KeyOf(r2)
    ensures var (st1, n1) := Resume(st, r1, p, t1);
      var (st2, n2) := Resume(st1, r2, p, t2);
      n1.CallUpstream? && n2.CallUpstream? && n1.promise != n2.promise
      && st2.inFlight[KeyOf(r1)] == Entry(t2, n2.promise)
  {
  }

  /** After a successful call the key's deletion is pending for 2000 ms after
      completion, and running it removes the entry. */
  lemma SuccessEntryDeleted(st: RelayState, p: nat, key: string, name: JsonValue, outcome: Upstream, now: int)
    requires p < |st.promises| && Inv(st)
    ensures var (st1, reply) := Complete(st, p, key, name, outcome, now);
      reply.Ok? ==>
        && Inv(st1)
        && var k := |st.deletions|;
        && k < |st1.deletions| && st1.deletions[k].fireAt == now + DedupWindowMs
        && key !in FireDeletion(st1, k).inFlight
  {
    StepInv(st, Completion(p, key, name, outcome, now));
  }

  /** The sweep deletes exactly the entries more than 2000 ms old and leaves
      everything else of the table alone. */
  lemma SweepDropsStale(st: RelayState, now: int)
    ensures var sw := Sweep(st, now);
      && (forall k :: k in sw.inFlight <==> k in st.inFlight && now - st.inFlight[k].timestamp <= DedupWindowMs)
      && (forall k :: k in sw.inFlight ==> sw.inFlight[k] == st.inFlight[k])
      && sw.promises == st.promises && sw.deletions == st.deletions && sw.nextHandle == st.nextHandle
  {
  }

  lemma UnexpiredLater(m: map<string, Entry>, now: int, k: string)
    requires k in m && now - m[k].timestamp <= DedupWindowMs
    ensures k in Unexpired(m, now) && Unexpired(m, now)[k] == m[k]
  {
  }

  /** An entry written at or after the sweep's time survives it. */
  lemma UnexpiredPut(m: map<string, Entry>, now: int, k: string, e: Entry)
    requires now <= e.timestamp
    ensures Unexpired(m[k := e], now) == Unexpired(m, now)[k := e]
  {
    var a, b := Unexpired(m[k := e], now), Unexpired(m, now)[k := e];
    assert a.Keys == b.Keys;
  }

  /** Sweeping at `now` and then handling a request at `later` is the same as
      handling it first and sweeping afterwards: the sweep only removes
      entries that the handler would no longer reuse. */
  lemma SweepCommutes(st: RelayState, r: Request, now: int, later: int)
    requires now <= later
    ensures var (st1, n1) := Arrive(st, r, later);
      Arrive(Sweep(st, now), r, later) == (Sweep(st1, now), n1)
  {
    if Truthy(AgentName(r)) {
      var key := KeyOf(r);
      var sw := Sweep(st, now);
      if key in st.inFlight && later - st.inFlight[key].timestamp < DedupWindowMs {
        UnexpiredLater(st.inFlight, now, key);
      } else {
        var e := Entry(later, |st.promises|);
        assert key in sw.inFlight ==> later - sw.inFlight[key].timestamp >= DedupWindowMs;
        UnexpiredPut(st.inFlight, now, key, e);
        assert Arrive(sw, r, later).0.inFlight == Sweep(Arrive(st, r, later).0, now).inFlight;
      }
    }
  }

  /** A sweep never changes what a later request does. */
  lemma SweepInvisible(st: RelayState, r: Request, now: int, later: int)
    requires now <= later
    ensures Arrive(Sweep(st, now), r, later).1 == Arrive(st, r, later).1
  {
    SweepCommutes(st, r, now, later);
  }
}
