/**
  The outbound side of the four operation handlers: which gateway request
  each one plans from the posted form, and how the one HTTP exchange it
  performs ends, stage by stage.
*/
module Gateway {
  import opened Wrappers
  import ChatId
  import Form

  /** The fixed base address of the messaging gateway. */
  const ApiUrl := "https://7103.api.greenapi.com"

  /** The host that the getStateInstance handler spells out instead of using ApiUrl. */
  const StateInstanceHost := "https://7103.api.greenapi.com"

  /** Every planned request carries this Content-Type header, GET requests included. */
  const JsonContentType := "application/json"

  /** The file name sendFileByUrl always sends. */
  const PictureFileName := "picture"

  /** The four gateway operations the front-end offers. */
  datatype Endpoint = GetSettings | GetStateInstance | SendMessage | SendFileByUrl
  {
    /** The path segment naming the operation on the gateway. */
    function Name(): string {
      match this
      case GetSettings => "getSettings"
      case GetStateInstance => "getStateInstance"
      case SendMessage => "sendMessage"
      case SendFileByUrl => "sendFileByUrl"
    }

    /** The read operations are plain GETs without a body. */
    predicate IsRead() {
      GetSettings? || GetStateInstance?
    }

    /** The form fields the operation's handler reads from the POST body. */
    function Fields(): set<string> {
      match this
      case GetSettings => {"idInstance", "apiTokenInstance"}
      case GetStateInstance => {"idInstance", "apiTokenInstance"}
      case SendMessage => {"idInstance", "apiTokenInstance", "chatId", "message"}
      case SendFileByUrl => {"idInstance", "apiTokenInstance", "chatId2", "urlFile"}
    }
  }

  /** The credentials of one gateway instance, passed through untouched. */
  datatype Instance = Instance(id: string, token: string)

  datatype Method = Get | Post

  /** The JSON object sent with a POST, as a map from keys to string values. */
  type Payload = map<string, string>

  /** One planned outbound HTTP request. */
  datatype Call = Call(verb: Method, url: string, contentType: string, payload: Option<Payload>)

  /** What a handler decides before any I/O: bounce to the form, or call the gateway. */
  datatype Plan = RedirectHome | Forward(inst: Instance, call: Call)

  /**
    The operation URL.  Every operation uses the same shape, with the
    instance id and token inserted verbatim; getStateInstance writes its
    host as a literal, which is the same text as ApiUrl.
  */
  function Url(e: Endpoint, inst: Instance): (url: string)
    ensures url == ApiUrl + "/waInstance" + inst.id + "/" + e.Name() + "/" + inst.token
  {
    match e
    case GetSettings => ApiUrl + "/waInstance" + inst.id + "/getSettings/" + inst.token
    case GetStateInstance => StateInstanceHost + "/waInstance" + inst.id + "/getStateInstance/" + inst.token
    case SendMessage => ApiUrl + "/waInstance" + inst.id + "/sendMessage/" + inst.token
    case SendFileByUrl => ApiUrl + "/waInstance" + inst.id + "/sendFileByUrl/" + inst.token
  }

  /** The literal host of getStateInstance is the configured base address. */
  lemma StateInstanceHostIsApiUrl()
    ensures StateInstanceHost == ApiUrl
  {
  }

  /** For fixed credentials, the URL tells which operation was requested. */
  lemma UrlDeterminesEndpoint(e1: Endpoint, e2: Endpoint, inst: Instance)
    requires Url(e1, inst) == Url(e2, inst)
    ensures e1 == e2
  {
    var head := ApiUrl + "/waInstance" + inst.id + "/";
    var tail := "/" + inst.token;
    var n1, n2 := e1.Name(), e2.Name();
    assert Url(e1, inst) == head + n1 + tail;
    assert Url(e2, inst) == head + n2 + tail;
    assert |n1| == |n2|;
    Middle(head, n1, tail);
    Middle(head, n2, tail);
    NameInjective(e1, e2);
  }

  lemma Middle(head: string, mid: string, tail: string)
    ensures (head + mid + tail)[|head|..|head| + |mid|] == mid
  {
  }

  lemma NameInjective(e1: Endpoint, e2: Endpoint)
    requires e1.Name() == e2.Name()
    ensures e1 == e2
  {
    assert e1.Name()[4] == e2.Name()[4];
  }

  /**
    The request a handler plans from the POST body.  Missing credentials
    send the browser back to the form; otherwise the request goes to the
    operation URL, with a JSON object for the two sending operations.
  */
  function PlanCall(e: Endpoint, body: Form.Values): (p: Plan)
    ensures p.RedirectHome? <==> Form.Get(body, "idInstance") == "" || Form.Get(body, "apiTokenInstance") == ""
    ensures p.Forward? ==> p.inst == Instance(Form.Get(body, "idInstance"), Form.Get(body, "apiTokenInstance"))
    ensures p.Forward? ==> p.call.url == Url(e, p.inst) && p.call.contentType == JsonContentType
    ensures p.Forward? ==> (p.call.verb == Get <==> e.IsRead())
    ensures p.Forward? ==> (p.call.payload.None? <==> e.IsRead())
    ensures p.Forward? && e == SendMessage ==>
      var m := p.call.payload.value;
      && m.Keys == {"chatId", "message"}
      && m["chatId"] == ChatId.Normalize(Form.Get(body, "chatId"))
      && m["message"] == Form.Get(body, "message")
    ensures p.Forward? && e == SendFileByUrl ==>
      var m := p.call.payload.value;
      && m.Keys == {"chatId", "urlFile", "fileName"}
      && m["chatId"] == ChatId.Normalize(Form.Get(body, "chatId2"))
      && m["urlFile"] == Form.Get(body, "urlFile")
      && m["fileName"] == PictureFileName
  {
    var id := Form.Get(body, "idInstance");
    var token := Form.Get(body, "apiTokenInstance");
    if id == "" || token == "" then
      RedirectHome
    else
      var inst := Instance(id, token);
      var url := Url(e, inst);
      match e
      case GetSettings => Forward(inst, Call(Get, url, JsonContentType, None))
      case GetStateInstance => Forward(inst, Call(Get, url, JsonContentType, None))
      case SendMessage =>
        var chatId := ChatId.Normalize(Form.Get(body, "chatId"));
        var payload := map["chatId" := chatId, "message" := Form.Get(body, "message")];
        Forward(inst, Call(Post, url, JsonContentType, Some(payload)))
      case SendFileByUrl =>
        var chatId := ChatId.Normalize(Form.Get(body, "chatId2"));
        var payload := map["chatId" := chatId, "urlFile" := Form.Get(body, "urlFile"), "fileName" := PictureFileName];
        Forward(inst, Call(Post, url, JsonContentType, Some(payload)))
  }

  /** A handler looks at its own form fields and at nothing else in the body. */
  lemma PlanReadsOnlyItsFields(e: Endpoint, a: Form.Values, b: Form.Values)
    requires Form.AgreeOn(a, b, e.Fields())
    ensures PlanCall(e, a) == PlanCall(e, b)
  {
    assert Form.Get(a, "idInstance") == Form.Get(b, "idInstance");
    assert Form.Get(a, "apiTokenInstance") == Form.Get(b, "apiTokenInstance");
    match e
    case GetSettings =>
    case GetStateInstance =>
    case SendMessage =>
      assert Form.Get(a, "chatId") == Form.Get(b, "chatId");
      assert Form.Get(a, "message") == Form.Get(b, "message");
    case SendFileByUrl =>
      assert Form.Get(a, "chatId2") == Form.Get(b, "chatId2");
      assert Form.Get(a, "urlFile") == Form.Get(b, "urlFile");
  }

  /** The stages of one exchange with the gateway, in the order they run. */
  datatype Stage = EncodePayload | CreateRequest | SendRequest | ReadResponse
  {
    function Rank(): nat {
      match this
      case EncodePayload => 0
      case CreateRequest => 1
      case SendRequest => 2
      case ReadResponse => 3
    }
  }

  /**
    How the I/O of one exchange turns out: the error each stage would
    report, if any, and the response body when reading succeeds.  It stands
    for json.Marshal, http.NewRequest, http.Client.Do and reading the body.
  */
  datatype Transport = Transport(
    encode: Option<string>,
    create: Option<string>,
    send: Option<string>,
    read: Result<string, string>)

  /** The end of an exchange: the whole response body, or the first stage that failed. */
  datatype Exchange = Delivered(body: string) | Failed(stage: Stage, err: string)

  /** The error stage `s` reports for this call; encoding only runs when there is a payload. */
  function StageError(call: Call, t: Transport, s: Stage): Option<string> {
    match s
    case EncodePayload => if call.payload.Some? then t.encode else None
    case CreateRequest => t.create
    case SendRequest => t.send
    case ReadResponse => if t.read.Failure? then Some(t.read.error) else None
  }

  /** Stage `s` fails with `e` and every stage before it succeeded. */
  predicate FirstFailure(call: Call, t: Transport, s: Stage, e: string) {
    && StageError(call, t, s) == Some(e)
    && forall s': Stage :: s'.Rank() < s.Rank() ==> StageError(call, t, s').None?
  }

  /** Runs the stages in order and stops at the first one that fails. */
  function Perform(call: Call, t: Transport): (x: Exchange)
    ensures x.Delivered? <==> forall s: Stage :: StageError(call, t, s).None?
    ensures x.Delivered? ==> t.read == Success(x.body)
    ensures x.Failed? ==> FirstFailure(call, t, x.stage, x.err)
  {
    if call.payload.Some? && t.encode.Some? then
      assert StageError(call, t, EncodePayload).Some?;
      Failed(EncodePayload, t.encode.value)
    else if t.create.Some? then
      assert StageError(call, t, CreateRequest).Some?;
      Failed(CreateRequest, t.create.value)
    else if t.send.Some? then
      assert StageError(call, t, SendRequest).Some?;
      Failed(SendRequest, t.send.value)
    else
      match t.read
      case Failure(err) =>
        assert StageError(call, t, ReadResponse).Some?;
        Failed(ReadResponse, err)
      case Success(body) => Delivered(body)
  }

  /** A GET has no payload to encode, so it never fails at the encoding stage. */
  lemma ReadCallIgnoresEncoding(call: Call, t: Transport, u: Transport)
    requires call.payload.None?
    requires t.create == u.create && t.send == u.send && t.read == u.read
    ensures Perform(call, t) == Perform(call, u)
    ensures Perform(call, t).Failed? ==> Perform(call, t).stage != EncodePayload
  {
  }
}
