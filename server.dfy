/** The three HTTP handlers of the server: the ingestion guard of `POST /data` and the two
    read endpoints, which hand the store's answer back unchanged. */
module Server {
  import opened Telemetry

  /** A JSON value as the parsed request body holds it; `Undefined` is a missing key. */
  datatype Json =
    | Undefined
    | Null
    | Bool(b: bool)
    | Number(n: real)
    | Text(s: string)
    | Object(fields: map<string, Json>)
    | Array(items: seq<Json>)

  /** JavaScript truthiness: false, 0, '', null and undefined are falsy, everything else truthy.
      Numbers, null and undefined are judged as a metric value is. */
  predicate Truthy(v: Json) {
    match v
    case Undefined => Telemetry.Truthy(None)
    case Null => Telemetry.Truthy(None)
    case Bool(b) => b
    case Number(n) => Telemetry.Truthy(Some(n))
    case Text(s) => s != ""
    case Object(_) => true
    case Array(_) => true
  }

  /** `data[key]` on an object body. */
  function Field(body: map<string, Json>, key: string): Json {
    if key in body then body[key] else Undefined
  }

  datatype Reply = SuccessReply | MissingDataReply

  /** The outcome of `POST /data`: the status code, the reply body, and the payload handed to
      `saveData` (None when nothing is saved). */
  datatype PostResult = PostResult(status: int, reply: Reply, saved: Option<map<string, Json>>)

  /** `POST /data`: save and answer 200 when `weight` and `temperature` are both truthy,
      otherwise answer 400 and save nothing. */
  function HandlePostData(body: map<string, Json>): (r: PostResult)
    ensures r.status == 200 <==> Truthy(Field(body, "weight")) && Truthy(Field(body, "temperature"))
    ensures r.status == 200 <==> r.saved.Some?
    ensures r.status == 200 || r.status == 400
    ensures r.status == 200 ==> r.saved == Some(body) && r.reply == SuccessReply
    ensures r.status == 400 ==> r.reply == MissingDataReply
  {
    if Truthy(Field(body, "weight")) && Truthy(Field(body, "temperature")) then
      PostResult(200, SuccessReply, Some(body))
    else
      PostResult(400, MissingDataReply, None)
  }

  /** A missing, null, zero or empty weight or temperature is rejected. */
  lemma FalsyMetricRejected(body: map<string, Json>, key: string)
    requires key == "weight" || key == "temperature"
    requires !(key in body) || body[key] in {Null, Number(0.0), Text(""), Bool(false), Undefined}
    ensures HandlePostData(body).status == 400 && HandlePostData(body).saved.None?
  {
  }

  /** Humidity and audio are never checked: changing them does not change the decision. */
  lemma OtherFieldsIgnored(body: map<string, Json>, key: string, v: Json)
    requires key != "weight" && key != "temperature"
    ensures HandlePostData(body[key := v]).status == HandlePostData(body).status
  {
    assert Field(body[key := v], "weight") == Field(body, "weight");
    assert Field(body[key := v], "temperature") == Field(body, "temperature");
  }

  /** `GET /latest`: whatever the store returns is sent as the JSON reply. */
  function HandleLatest(storeResult: Json): (reply: Json)
    ensures reply == storeResult
  {
    storeResult
  }

  /** `GET /history`: the store is asked for its history with no arguments, so the reply is
      the same whatever the query string holds. */
  function HandleHistory(query: seq<(string, string)>, storeHistory: Json): (reply: Json)
    ensures reply == storeHistory
  {
    storeHistory
  }

  lemma HistoryIgnoresQuery(q1: seq<(string, string)>, q2: seq<(string, string)>, storeHistory: Json)
    ensures HandleHistory(q1, storeHistory) == HandleHistory(q2, storeHistory)
  {
  }
}
