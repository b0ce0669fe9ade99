/**
 * The server route of the with-dog chat (src/app/api/with-dog-chat/route.ts): it checks the
 * posted query and dog information, builds the request for the completion service, and
 * turns the service's reply into the page's reply. The call itself is a parameter.
 */
module WithDogChatRoute {
  import opened Wrappers
  import opened Text
  import opened Profile

  /** A JSON value as the route receives it. */
  datatype JsVal =
    | Undefined
    | Null
    | Bool(b: bool)
    | Num(n: int)
    | Str(s: string)
    | Obj(fields: map<string, JsVal>)

  /** JavaScript truthiness. */
  predicate Truthy(v: JsVal) {
    match v
    case Undefined => false
    case Null => false
    case Bool(b) => b
    case Num(n) => n != 0
    case Str(s) => s != ""
    case Obj(_) => true
  }

  /** `null` or `undefined`: reading a property of either throws. */
  predicate Nullish(v: JsVal) {
    v.Null? || v.Undefined?
  }

  /** `v.name` on a value that is neither `null` nor `undefined`: an own field, else `undefined`. */
  function Prop(v: JsVal, name: string): (r: JsVal)
    ensures r != Undefined ==> v.Obj? && name in v.fields && r == v.fields[name]
    ensures v.Obj? && name in v.fields ==> r == v.fields[name]
  {
    if v.Obj? && name in v.fields then v.fields[name] else Undefined
  }

  /** `String(v)`. */
  function ToJsString(v: JsVal): string {
    match v
    case Undefined => "undefined"
    case Null => "null"
    case Bool(b) => if b then "true" else "false"
    case Num(n) => IntToString(n)
    case Str(s) => s
    case Obj(_) => "[object Object]"
  }

  /** The five input variables of the outgoing request. */
  datatype Inputs = Inputs(breed: JsVal, ageMonths: JsVal, companionHours: JsVal, daysHome: string, generateDailyCard: string)

  /** The outgoing request body; `conversationId` is `None` when the field is left out. */
  datatype UpstreamBody = UpstreamBody(
    inputs: Inputs, query: string, responseMode: string, user: string, conversationId: Option<JsVal>)

  /** The body of the route's response. */
  datatype ResponseBody = ErrorBody(error: string) | ReplyBody(answer: JsVal, conversationId: JsVal)

  datatype Response = Response(status: nat, body: ResponseBody)

  /** What the service call produced: a non-ok status, an ok status with its parsed body, or an exception. */
  datatype Upstream = NotOk(status: nat) | Ok(data: JsVal) | Threw

  /** Either a response is returned before the call, or the call is made with this body. */
  datatype Prepared = Rejected(response: Response) | Forward(request: UpstreamBody)

  const InvalidQuery: string := "请输入有效内容"
  const IncompleteDogInfo: string := "狗狗信息不完整"
  const MissingKey: string := "服务配置错误"
  const NoReply: string := "无法获取回复"
  const NoAnswer: string := "没有收到回复"
  const Unexpected: string := "请求失败，请稍后再试"

  /** `!query || typeof query !== 'string'`. */
  predicate QueryInvalid(query: JsVal) {
    !Truthy(query) || !query.Str?
  }

  /** `!dogInfo || !dogInfo.breed || !dogInfo.ageMonths || !dogInfo.companionHours || !dogInfo.daysHome`. */
  predicate DogInfoIncomplete(dog: JsVal) {
    || !Truthy(dog) || !Truthy(Prop(dog, "breed")) || !Truthy(Prop(dog, "ageMonths"))
    || !Truthy(Prop(dog, "companionHours")) || !Truthy(Prop(dog, "daysHome"))
  }

  /**
   * Everything before the call. `body` is `None` when the request is not JSON; a `null` or
   * `undefined` body makes the destructuring throw. The checks run in order: query, dog information,
   * API key.
   */
  function Prepare(body: Option<JsVal>, apiKey: Option<string>): (r: Prepared)
    ensures (body.None? || Nullish(body.value)) ==> r == Rejected(Response(500, ErrorBody(Unexpected)))
    ensures body.Some? && !Nullish(body.value) && QueryInvalid(Prop(body.value, "query")) ==>
      r == Rejected(Response(400, ErrorBody(InvalidQuery)))
    ensures (&& body.Some? && !Nullish(body.value) && !QueryInvalid(Prop(body.value, "query"))
             && DogInfoIncomplete(Prop(body.value, "dogInfo"))) ==>
      r == Rejected(Response(400, ErrorBody(IncompleteDogInfo)))
    ensures (&& body.Some? && !Nullish(body.value) && !QueryInvalid(Prop(body.value, "query"))
             && !DogInfoIncomplete(Prop(body.value, "dogInfo")) && (apiKey.None? || apiKey.value == "")) ==>
      r == Rejected(Response(500, ErrorBody(MissingKey)))
    ensures r.Forward? <==>
      && body.Some? && !Nullish(body.value) && !QueryInvalid(Prop(body.value, "query"))
      && !DogInfoIncomplete(Prop(body.value, "dogInfo")) && apiKey.Some? && apiKey.value != ""
    ensures r.Forward? ==>
      var dog := Prop(body.value, "dogInfo");
      var req := r.request;
      && req.query == Prop(body.value, "query").s
      && req.inputs == Inputs(Prop(dog, "breed"), Prop(dog, "ageMonths"), Prop(dog, "companionHours"),
                              ToJsString(Prop(dog, "daysHome")),
                              if Truthy(Prop(body.value, "generateDailyCard")) then "true" else "false")
      && req.responseMode == "blocking" && req.user == "anonymous"
      && (req.conversationId.Some? <==> Truthy(Prop(body.value, "conversation_id")))
      && (req.conversationId.Some? ==> req.conversationId.value == Prop(body.value, "conversation_id"))
  {
    if body.None? || Nullish(body.value) then Rejected(Response(500, ErrorBody(Unexpected)))
    else
      var b := body.value;
      var query := Prop(b, "query");
      var dog := Prop(b, "dogInfo");
      if QueryInvalid(query) then Rejected(Response(400, ErrorBody(InvalidQuery)))
      else if DogInfoIncomplete(dog) then Rejected(Response(400, ErrorBody(IncompleteDogInfo)))
      else if apiKey.None? || apiKey.value == "" then Rejected(Response(500, ErrorBody(MissingKey)))
      else
        var inputs := Inputs(Prop(dog, "breed"), Prop(dog, "ageMonths"), Prop(dog, "companionHours"),
                             ToJsString(Prop(dog, "daysHome")),
                             if Truthy(Prop(b, "generateDailyCard")) then "true" else "false");
        var cid := Prop(b, "conversation_id");
        Forward(UpstreamBody(inputs, query.s, "blocking", "anonymous", if Truthy(cid) then Some(cid) else None))
  }

  /**
   * Everything after the call: a non-ok status is passed on with its own error; an ok body
   * gives its answer, or the fallback text when the answer is falsy, and its conversation
   * id; a `null` or `undefined` body, on which `data.answer` throws, or an exception gives
   * the generic 500.
   */
  function Finish(upstream: Upstream): (r: Response)
    ensures upstream.NotOk? ==> r == Response(upstream.status, ErrorBody(NoReply))
    ensures r.status == 200 <==> (upstream.Ok? && !Nullish(upstream.data)) || (upstream.NotOk? && upstream.status == 200)
    ensures upstream.Ok? && !Nullish(upstream.data) ==>
      && r.body.ReplyBody?
      && Truthy(r.body.answer)
      && (Truthy(Prop(upstream.data, "answer")) ==> r.body.answer == Prop(upstream.data, "answer"))
      && r.body.conversationId == Prop(upstream.data, "conversation_id")
    ensures upstream.Ok? && !Nullish(upstream.data) && !Truthy(Prop(upstream.data, "answer")) ==>
      r.body.answer == Str(NoAnswer)
    ensures upstream.Threw? || (upstream.Ok? && Nullish(upstream.data)) ==> r == Response(500, ErrorBody(Unexpected))
  {
    match upstream
    case NotOk(status) => Response(status, ErrorBody(NoReply))
    case Ok(data) =>
      if Nullish(data) then Response(500, ErrorBody(Unexpected))
      else
        var answer := Prop(data, "answer");
        Response(200, ReplyBody(if Truthy(answer) then answer else Str(NoAnswer), Prop(data, "conversation_id")))
    case Threw => Response(500, ErrorBody(Unexpected))
  }

  /** The whole route, with the service call as a parameter. */
  function Handle(body: Option<JsVal>, apiKey: Option<string>, call: UpstreamBody -> Upstream): (r: Response)
    ensures Prepare(body, apiKey).Rejected? ==> r == Prepare(body, apiKey).response
    ensures Prepare(body, apiKey).Forward? ==> r == Finish(call(Prepare(body, apiKey).request))
  {
    match Prepare(body, apiKey)
    case Rejected(response) => response
    case Forward(request) => Finish(call(request))
  }

  /** The dog information as the with-dog page posts it. */
  function EncodeDogInfo(info: DogInfo): JsVal {
    Obj(map["breed" := Str(info.breed), "ageMonths" := Str(info.ageMonths),
            "companionHours" := Str(info.companionHours), "daysHome" := Num(info.daysHome)])
  }

  /** The request body the with-dog page posts. */
  function EncodeRequest(query: string, conversationId: Option<string>, info: DogInfo, generate: bool): JsVal {
    Obj(map["query" := Str(query),
            "conversation_id" := if conversationId.Some? then Str(conversationId.value) else Null,
            "dogInfo" := EncodeDogInfo(info), "generateDailyCard" := Bool(generate)])
  }

  /** The fields of the posted dog information read back as posted. */
  lemma EncodedDogInfoFields(info: DogInfo)
    ensures Prop(EncodeDogInfo(info), "breed") == Str(info.breed)
    ensures Prop(EncodeDogInfo(info), "ageMonths") == Str(info.ageMonths)
    ensures Prop(EncodeDogInfo(info), "companionHours") == Str(info.companionHours)
    ensures Prop(EncodeDogInfo(info), "daysHome") == Num(info.daysHome)
  {
  }

  /** The fields of the posted request body read back as posted. */
  lemma EncodedRequestFields(query: string, cid: Option<string>, info: DogInfo, generate: bool)
    ensures var b := EncodeRequest(query, cid, info, generate);
      && Prop(b, "query") == Str(query)
      && Prop(b, "dogInfo") == EncodeDogInfo(info)
      && Prop(b, "generateDailyCard") == Bool(generate)
      && Prop(b, "conversation_id") == (if cid.Some? then Str(cid.value) else Null)
  {
  }

  /**
   * Whatever the forms accept, the route forwards: a non-empty query with acceptable dog
   * information is never rejected when the key is configured, and the day count travels
   * as its decimal numeral.
   */
  lemma AcceptedInfoForwarded(query: string, cid: Option<string>, info: DogInfo, generate: bool, key: string)
    requires query != "" && Acceptable(info) && key != ""
    ensures var r := Prepare(Some(EncodeRequest(query, cid, info, generate)), Some(key));
      && r.Forward?
      && r.request.query == query
      && r.request.inputs == Inputs(Str(info.breed), Str(info.ageMonths), Str(info.companionHours),
                                    IntToString(info.daysHome), if generate then "true" else "false")
      && (r.request.conversationId.Some? <==> cid.Some? && cid.value != "")
  {
    EncodedRequestFields(query, cid, info, generate);
    EncodedDogInfoFields(info);
    TrimEmptyIff(info.breed);
  }

  /**
   * The converse fails: the route only asks for truthy fields, so a day count the forms
   * reject, such as 45, is forwarded all the same.
   */
  lemma RouteLaxerThanForms()
    ensures var info := DogInfo("柯基", "1-3", "≤1h", 45);
      && !Acceptable(info)
      && Prepare(Some(EncodeRequest("你好", None, info, false)), Some("k")).Forward?
  {
    TruthyFieldsForwarded("你好", None, DogInfo("柯基", "1-3", "≤1h", 45), false, "k");
  }

  /** The route forwards any posted dog information whose fields are all truthy. */
  lemma TruthyFieldsForwarded(query: string, cid: Option<string>, info: DogInfo, generate: bool, key: string)
    requires query != "" && key != ""
    requires info.breed != "" && info.ageMonths != "" && info.companionHours != "" && info.daysHome != 0
    ensures Prepare(Some(EncodeRequest(query, cid, info, generate)), Some(key)).Forward?
  {
    EncodedRequestFields(query, cid, info, generate);
    EncodedDogInfoFields(info);
  }
  /**
   * End to end: when the page posts a non-empty query with acceptable dog information, the
   * key is configured, and the service answers the forwarded request with a non-empty
   * answer, the page receives status 200 with that answer and the service's conversation id.
   */
  lemma AnsweredQueryReachesPage(query: string, cid: Option<string>, info: DogInfo, generate: bool, key: string,
                                 call: UpstreamBody -> Upstream, data: JsVal, a: string)
    requires query != "" && Acceptable(info) && key != ""
    requires Prop(data, "answer") == Str(a) && a != ""
    requires call(UpstreamBody(Inputs(Str(info.breed), Str(info.ageMonths), Str(info.companionHours),
                                      IntToString(info.daysHome), if generate then "true" else "false"),
                               query, "blocking", "anonymous",
                               if cid.Some? && cid.value != "" then Some(Str(cid.value)) else None)) == Ok(data)
    ensures Handle(Some(EncodeRequest(query, cid, info, generate)), Some(key), call)
         == Response(200, ReplyBody(Str(a), Prop(data, "conversation_id")))
  {
    AcceptedInfoForwarded(query, cid, info, generate, key);
    EncodedRequestFields(query, cid, info, generate);
  }
}
