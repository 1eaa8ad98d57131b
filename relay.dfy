/** The pure parts of the relay's `POST /api/connect` handler: which agent a
    request names, the key that identifies duplicate requests, the body sent to
    the upstream `/start` endpoint, the normalized credentials returned to the
    widget, and the JSON replies. */
module Relay {
  import opened Wrappers
  import opened Json
  import Agents

  /** An incoming connect request: its query parameters in order, and its JSON
      body (an empty object when the client sends none). */
  datatype Request = Request(query: seq<(string, string)>, body: map<string, JsonValue>)

  /** `req.query.k`: the value of the first parameter named `k`. */
  function QueryGet(q: seq<(string, string)>, k: string): (r: Option<JsonValue>)
    ensures r.Some? <==> exists i :: 0 <= i < |q| && q[i].0 == k
    ensures r.Some? ==> r.value.JStr?
  {
    if q == [] then None
    else if q[0].0 == k then Some(JStr(q[0].1))
    else
      var r := QueryGet(q[1..], k);
      assert forall i :: 0 < i < |q| ==> q[i] == q[1..][i - 1];
      r
  }

  /** `req.body.k`. */
  function BodyGet(b: map<string, JsonValue>, k: string): (r: Option<JsonValue>)
    ensures r.Some? <==> k in b
    ensures r.Some? ==> r.value == b[k]
  {
    if k in b then Some(b[k]) else None
  }

  /** `req.query.voiceAgentName || req.body.voiceAgentName`; a falsy result is
      answered with 400. */
  function AgentName(r: Request): (name: Option<JsonValue>)
    ensures Truthy(name) <==> Truthy(QueryGet(r.query, "voiceAgentName")) || Truthy(BodyGet(r.body, "voiceAgentName"))
    ensures Truthy(QueryGet(r.query, "voiceAgentName")) ==> name == QueryGet(r.query, "voiceAgentName")
  {
    Or(QueryGet(r.query, "voiceAgentName"), BodyGet(r.body, "voiceAgentName"))
  }

  /** `${voiceAgentName}-${JSON.stringify(req.query)}`. */
  function RequestKey(name: JsonValue, q: seq<(string, string)>): string {
    ToText(name) + "-" + QueryJson(q)
  }

  /** The first separator of `t + "-" + j` is right after `t` when `t` has
      none. */
  lemma FirstSeparator(t: string, j: string)
    requires '-' !in t
    ensures (t + ("-" + j))[|t|] == '-'
    ensures forall i :: 0 <= i < |t| ==> (t + ("-" + j))[i] != '-'
  {
  }

  /** A text without the separator, the separator, then the rest: the text
      and the rest are determined. */
  lemma SplitAtSeparator(t1: string, j1: string, t2: string, j2: string)
    requires t1 + ("-" + j1) == t2 + ("-" + j2)
    requires '-' !in t1 && '-' !in t2
    ensures t1 == t2 && j1 == j2
  {
    var key := t1 + ("-" + j1);
    FirstSeparator(t1, j1);
    FirstSeparator(t2, j2);
    assert |t1| == |t2|;
    assert t1 == key[..|t1|] == t2;
    assert j1 == key[|t1| + 1..] == j2;
  }

  lemma SplitKey(t1: string, j1: string, t2: string, j2: string)
    requires t1 + "-" + j1 == t2 + "-" + j2
    requires '-' !in t1 && '-' !in t2
    ensures t1 == t2 && j1 == j2
  {
    assert t1 + "-" + j1 == t1 + ("-" + j1);
    assert t2 + "-" + j2 == t2 + ("-" + j2);
    SplitAtSeparator(t1, j1, t2, j2);
  }

  /** Two keys are equal only for the same name and the same query, as long as
      neither name contains the separator. */
  lemma KeyInjective(n1: JsonValue, q1: seq<(string, string)>, n2: JsonValue, q2: seq<(string, string)>)
    requires RequestKey(n1, q1) == RequestKey(n2, q2)
    requires '-' !in ToText(n1) && '-' !in ToText(n2)
    ensures ToText(n1) == ToText(n2) && q1 == q2
  {
    SplitKey(ToText(n1), QueryJson(q1), ToText(n2), QueryJson(q2));
    QueryJsonInjective(q1, q2);
  }

  // ---------------------------------------------------------------------------
  // The agent fields and the upstream body

  /** The optional agent fields, each taken from the query when truthy there and
      from the body otherwise; `userName` reads the query's `name`, then the
      body's `name`, then the body's `userName`. */
  datatype AgentFields = AgentFields(
    systemInstruction: Option<JsonValue>,
    voiceName: Option<JsonValue>,
    phoneNumber: Option<JsonValue>,
    userName: Option<JsonValue>,
    orderId: Option<JsonValue>)

  function FromQueryOrBody(r: Request, k: string): Option<JsonValue> {
    Or(QueryGet(r.query, k), BodyGet(r.body, k))
  }

  function SelectFields(r: Request): AgentFields {
    AgentFields(
      FromQueryOrBody(r, "systemInstruction"),
      FromQueryOrBody(r, "voiceName"),
      FromQueryOrBody(r, "phoneNumber"),
      Or(FromQueryOrBody(r, "name"), BodyGet(r.body, "userName")),
      FromQueryOrBody(r, "orderId"))
  }

  /** The selected value the upstream body carries under property `k`. */
  function Selected(f: AgentFields, k: string): Option<JsonValue> {
    if k == "systemInstruction" then f.systemInstruction
    else if k == "voiceName" then f.voiceName
    else if k == "phoneNumber" then f.phoneNumber
    else if k == "userName" then f.userName
    else if k == "orderId" then f.orderId
    else None
  }

  /** The properties `customBody` may take from the selection. */
  const OptionalKeys: set<string> := {"systemInstruction", "voiceName", "phoneNumber", "userName", "orderId"}

  /** `...(v && { k: v })` for each optional property: present only when its
      selected value is truthy. */
  function TruthySelection(f: AgentFields): (m: map<string, JsonValue>)
    ensures forall k :: k in m <==> k in OptionalKeys && Truthy(Selected(f, k))
    ensures forall k :: k in m ==> Truthy(Selected(f, k)) && m[k] == Selected(f, k).value
  {
    map k | k in OptionalKeys && Truthy(Selected(f, k)) :: Selected(f, k).value
  }

  /** `customBody`: the agent name, the truthy selected fields, then every
      property of the request body except its own `voiceAgentName`, later
      spreads overriding earlier ones. */
  function UpstreamBody(name: JsonValue, r: Request): (b: map<string, JsonValue>)
    ensures "voiceAgentName" in b && b["voiceAgentName"] == name
    ensures forall k :: k in r.body && k != "voiceAgentName" ==> k in b && b[k] == r.body[k]
    ensures forall k :: k !in r.body && k != "voiceAgentName" ==>
      (k in b <==> Truthy(Selected(SelectFields(r), k)))
      && (k in b ==> b[k] == Selected(SelectFields(r), k).value)
  {
    var sel := TruthySelection(SelectFields(r));
    SpreadOrder(name, sel, r.body, SelectFields(r));
    map["voiceAgentName" := name] + sel + (r.body - {"voiceAgentName"})
  }

  /** The three spreads of `customBody`, with the selection abstracted to the
      properties its contract gives it. */
  lemma SpreadOrder(name: JsonValue, sel: map<string, JsonValue>, body: map<string, JsonValue>, f: AgentFields)
    requires forall k :: k in sel <==> k in OptionalKeys && Truthy(Selected(f, k))
    requires forall k :: k in sel ==> Truthy(Selected(f, k)) && sel[k] == Selected(f, k).value
    ensures var b := map["voiceAgentName" := name] + sel + (body - {"voiceAgentName"});
      forall k :: k !in body && k != "voiceAgentName" ==>
        (k in b <==> Truthy(Selected(f, k))) && (k in b ==> b[k] == Selected(f, k).value)
  {
    var b := map["voiceAgentName" := name] + sel + (body - {"voiceAgentName"});
    forall k | k !in body && k != "voiceAgentName"
      ensures (k in b <==> Truthy(Selected(f, k))) && (k in b ==> b[k] == Selected(f, k).value)
    {
      assert k in b <==> k in sel;
      if !(k in OptionalKeys) {
        assert Selected(f, k) == None;
      }
    }
  }

  /** The selected value reaches the upstream body only when the request body
      does not carry the same property: a body value overrides the query value
      the selection preferred. */
  lemma BodyOverridesQuery(name: JsonValue, r: Request, k: string)
    requires k in {"systemInstruction", "voiceName", "phoneNumber", "orderId"}
    requires Truthy(QueryGet(r.query, k)) && k in r.body
    ensures Selected(SelectFields(r), k) == QueryGet(r.query, k)
    ensures UpstreamBody(name, r)[k] == r.body[k]
  {
  }

  /** The JSON object posted to the upstream `/start` endpoint. */
  function StartPayload(body: map<string, JsonValue>): JsonValue {
    JObj(map[
      "createDailyRoom" := JBool(true),
      "dailyRoomProperties" := JObj(map["start_video_off" := JBool(true)]),
      "body" := JObj(body)])
  }

  // ---------------------------------------------------------------------------
  // The upstream answer and the reply

  /** The credentials returned to the widget; an absent property is `None`
      (JSON.stringify leaves it out). */
  datatype Credentials = Credentials(
    roomUrl: Option<JsonValue>, token: Option<JsonValue>, sessionId: Option<JsonValue>, voiceAgentName: JsonValue)

  datatype Outcome<T> = Success(value: T) | Failure(message: string)

  /** The message of the TypeError raised by reading a property of `null`. */
  const NullDataMessage := "Cannot read properties of null (reading 'room_url')"

  /** `room_url` from `room_url` or `dailyRoom`, `token` from `token` or
      `dailyToken`, `sessionId` as is, and the request's agent name. Missing
      credentials are returned as they are. */
  function Normalize(data: JsonValue, name: JsonValue): (r: Outcome<Credentials>)
    ensures r.Failure? <==> data.JNull?
    ensures r.Success? ==>
      && r.value.voiceAgentName == name
      && r.value.sessionId == Get(data, "sessionId")
      && (Truthy(r.value.roomUrl) <==> Truthy(Get(data, "room_url")) || Truthy(Get(data, "dailyRoom")))
      && (Truthy(r.value.token) <==> Truthy(Get(data, "token")) || Truthy(Get(data, "dailyToken")))
      && (Truthy(Get(data, "room_url")) ==> r.value.roomUrl == Get(data, "room_url"))
      && (Truthy(Get(data, "token")) ==> r.value.token == Get(data, "token"))
      && (!Truthy(Get(data, "room_url")) ==> r.value.roomUrl == Get(data, "dailyRoom"))
      && (!Truthy(Get(data, "token")) ==> r.value.token == Get(data, "dailyToken"))
  {
    if data.JNull? then Failure(NullDataMessage)
    else
      Success(Credentials(
        Or(Get(data, "room_url"), Get(data, "dailyRoom")),
        Or(Get(data, "token"), Get(data, "dailyToken")),
        Get(data, "sessionId"),
        name))
  }

  /** The upstream API's own field names, `dailyRoom` and `dailyToken`, give
      the same credentials as `room_url` and `token` would. */
  lemma DailyFieldsNormalize(room: JsonValue, token: JsonValue, sessionId: JsonValue, name: JsonValue)
    requires Truthy(Some(room)) && Truthy(Some(token))
    ensures var daily := JObj(map["dailyRoom" := room, "dailyToken" := token, "sessionId" := sessionId]);
      var direct := JObj(map["room_url" := room, "token" := token, "sessionId" := sessionId]);
      && Normalize(daily, name) == Normalize(direct, name)
      && Normalize(daily, name) == Success(Credentials(Some(room), Some(token), Some(sessionId), name))
  {
    var daily := JObj(map["dailyRoom" := room, "dailyToken" := token, "sessionId" := sessionId]);
    var direct := JObj(map["room_url" := room, "token" := token, "sessionId" := sessionId]);
    assert Get(daily, "room_url") == None && Get(daily, "token") == None;
    assert Get(daily, "dailyRoom") == Some(room) && Get(daily, "dailyToken") == Some(token);
    assert Get(direct, "room_url") == Some(room) && Get(direct, "token") == Some(token);
  }

  function OptionalProperty(k: string, v: Option<JsonValue>): map<string, JsonValue> {
    if v.Some? then map[k := v.value] else map[]
  }

  /** The credentials as the JSON object sent to the client. */
  function CredentialsJson(c: Credentials): JsonValue {
    JObj(OptionalProperty("room_url", c.roomUrl) + OptionalProperty("token", c.token)
      + OptionalProperty("sessionId", c.sessionId) + map["voiceAgentName" := c.voiceAgentName])
  }

  /** Credentials whose room and token are truthy or absent come back unchanged
      when the relay's own answer is normalized again. */
  lemma NormalizeIdempotent(c: Credentials)
    requires c.roomUrl.None? || Truthy(c.roomUrl)
    requires c.token.None? || Truthy(c.token)
    ensures Normalize(CredentialsJson(c), c.voiceAgentName) == Success(c)
  {
    var d := CredentialsJson(c);
    assert Get(d, "room_url") == c.roomUrl;
    assert Get(d, "dailyRoom") == None;
    assert Get(d, "token") == c.token;
    assert Get(d, "dailyToken") == None;
    assert Get(d, "sessionId") == c.sessionId;
  }

  datatype Reply = Ok(credentials: Credentials) | BadRequest | ServerError(details: string)

  const MissingNameError := "voiceAgentName is required (as query parameter or in request body)"
  const StartFailedError := "Failed to start agent"

  /** The HTTP status and JSON body of a reply. */
  function ReplyJson(reply: Reply): (r: (int, JsonValue))
    ensures r.0 in {200, 400, 500}
    ensures r.0 == 200 <==> reply.Ok?
    ensures r.0 == 400 <==> reply.BadRequest?
    ensures r.1.JObj? && ("error" in r.1.fields <==> !reply.Ok?)
    ensures reply.BadRequest? ==> Get(r.1, "error") == Some(JStr(MissingNameError))
    ensures reply.ServerError? ==>
      Get(r.1, "error") == Some(JStr(StartFailedError)) && Get(r.1, "details") == Some(JStr(reply.details))
  {
    match reply
    case Ok(c) => (200, CredentialsJson(c))
    case BadRequest => (400, JObj(map["error" := JStr(MissingNameError)]))
    case ServerError(d) => (500, JObj(map["error" := JStr(StartFailedError), "details" := JStr(d)]))
  }

  /** The 200 body carries the credentials property by property, leaves out
      absent ones, and, when the room and token are truthy or absent, reads
      back as the same credentials. */
  lemma OkBodyCarriesCredentials(c: Credentials)
    ensures var body := ReplyJson(Ok(c)).1;
      && Get(body, "room_url") == c.roomUrl && Get(body, "token") == c.token
      && Get(body, "sessionId") == c.sessionId && Get(body, "voiceAgentName") == Some(c.voiceAgentName)
      && body.fields.Keys <= {"room_url", "token", "sessionId", "voiceAgentName"}
    ensures (c.roomUrl.None? || Truthy(c.roomUrl)) && (c.token.None? || Truthy(c.token)) ==>
      Normalize(ReplyJson(Ok(c)).1, c.voiceAgentName) == Success(c)
  {
    var body := CredentialsJson(c);
    assert Get(body, "room_url") == c.roomUrl;
    assert Get(body, "token") == c.token;
    assert Get(body, "sessionId") == c.sessionId;
    if (c.roomUrl.None? || Truthy(c.roomUrl)) && (c.token.None? || Truthy(c.token)) {
      NormalizeIdempotent(c);
    }
  }

  // ---------------------------------------------------------------------------
  // The widget's own requests

  /** The widget's connect request: the agent's query parameters and an empty
      body. */
  function WidgetRequest(agent: Agents.AgentProfile): Request {
    Request(Agents.ConnectQuery(agent), map[])
  }

  /** What the relay reads from the widget's query parameters. */
  lemma WidgetQueryGet(agent: Agents.AgentProfile, k: string)
    ensures QueryGet(Agents.ConnectQuery(agent), k) ==
      if k == "voiceAgentName" then Some(JStr(Agents.AgentId(agent.id)))
      else if k == "systemInstruction" then Some(JStr(agent.systemInstruction))
      else if k == "voiceName" then Some(JStr(agent.voiceName))
      else None
  {
    var q := Agents.ConnectQuery(agent);
    assert q[1..][1..][1..] == [];
    assert QueryGet(q[1..][1..], k) == if k == "voiceName" then Some(JStr(agent.voiceName)) else None;
    assert QueryGet(q[1..], k) == if k == "systemInstruction" then Some(JStr(agent.systemInstruction))
      else if k == "voiceName" then Some(JStr(agent.voiceName)) else None;
  }

  lemma AgentIdNoDash(t: Agents.AgentType)
    ensures '-' !in Agents.AgentId(t)
  {
  }

  /** The widget's request names its agent. */
  lemma WidgetName(agent: Agents.AgentProfile)
    ensures AgentName(WidgetRequest(agent)) == Some(JStr(Agents.AgentId(agent.id)))
  {
    WidgetQueryGet(agent, "voiceAgentName");
  }

  /** The relay reads the widget's request as the widget meant it: the agent
      id is the name, the key is built from it, and the upstream body carries
      the agent's instruction and voice exactly when they are non-empty. */
  lemma WidgetRequestRelayed(agent: Agents.AgentProfile)
    ensures AgentName(WidgetRequest(agent)) == Some(JStr(Agents.AgentId(agent.id)))
    ensures var b := UpstreamBody(JStr(Agents.AgentId(agent.id)), WidgetRequest(agent));
      && b["voiceAgentName"] == JStr(Agents.AgentId(agent.id))
      && ("systemInstruction" in b <==> agent.systemInstruction != "")
      && ("systemInstruction" in b ==> b["systemInstruction"] == JStr(agent.systemInstruction))
      && ("voiceName" in b <==> agent.voiceName != "")
      && ("voiceName" in b ==> b["voiceName"] == JStr(agent.voiceName))
      && b.Keys <= {"voiceAgentName", "systemInstruction", "voiceName"}
  {
    WidgetName(agent);
    WidgetFields(agent);
    var r := WidgetRequest(agent);
    var b := UpstreamBody(JStr(Agents.AgentId(agent.id)), r);
    forall k | k in b
      ensures k in {"voiceAgentName", "systemInstruction", "voiceName"}
    {
      if k != "voiceAgentName" {
        OnlyTruthySelected(SelectFields(r), k);
      }
    }
  }

  /** With phone, user name and order id falsy, only the instruction and the
      voice can be selected. */
  lemma OnlyTruthySelected(f: AgentFields, k: string)
    requires !Truthy(f.phoneNumber) && !Truthy(f.userName) && !Truthy(f.orderId)
    ensures Truthy(Selected(f, k)) ==> k == "systemInstruction" || k == "voiceName"
  {
  }

  /** The fields the relay selects from a widget request: the instruction
      and the voice when non-empty, and nothing else. */
  lemma WidgetFields(agent: Agents.AgentProfile)
    ensures var f := SelectFields(WidgetRequest(agent));
      && (Truthy(f.systemInstruction) <==> agent.systemInstruction != "")
      && (Truthy(f.systemInstruction) ==> f.systemInstruction == Some(JStr(agent.systemInstruction)))
      && (Truthy(f.voiceName) <==> agent.voiceName != "")
      && (Truthy(f.voiceName) ==> f.voiceName == Some(JStr(agent.voiceName)))
      && !Truthy(f.phoneNumber) && !Truthy(f.userName) && !Truthy(f.orderId)
  {
    WidgetQueryGet(agent, "systemInstruction");
    WidgetQueryGet(agent, "voiceName");
    WidgetQueryGet(agent, "phoneNumber");
    WidgetQueryGet(agent, "name");
    WidgetQueryGet(agent, "orderId");
  }

  /** Two widget requests share a key exactly when they are for the same
      agent with the same instruction and voice. */
  lemma WidgetKeys(a1: Agents.AgentProfile, a2: Agents.AgentProfile)
    ensures RequestKey(JStr(Agents.AgentId(a1.id)), Agents.ConnectQuery(a1))
         == RequestKey(JStr(Agents.AgentId(a2.id)), Agents.ConnectQuery(a2))
        <==> a1.id == a2.id && a1.systemInstruction == a2.systemInstruction && a1.voiceName == a2.voiceName
  {
    var n1, n2 := JStr(Agents.AgentId(a1.id)), JStr(Agents.AgentId(a2.id));
    if RequestKey(n1, Agents.ConnectQuery(a1)) == RequestKey(n2, Agents.ConnectQuery(a2)) {
      AgentIdNoDash(a1.id);
      AgentIdNoDash(a2.id);
      KeyInjective(n1, Agents.ConnectQuery(a1), n2, Agents.ConnectQuery(a2));
      Agents.AgentIdInjective(a1.id, a2.id);
      assert Agents.ConnectQuery(a1)[1] == Agents.ConnectQuery(a2)[1];
      assert Agents.ConnectQuery(a1)[2] == Agents.ConnectQuery(a2)[2];
    }
  }
}
