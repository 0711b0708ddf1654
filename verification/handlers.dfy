/**
  The `home` handler and the page each operation handler writes: the route
  taken for a request, the credential gate, and how the gateway exchange
  ends up on the page.  `Serve` is the whole request, with the gateway's I/O
  supplied as a `Transport`.
*/
module Handlers {
  import opened Wrappers
  import Form
  import opened Gateway

  /**
    An incoming request: its URL path, the values of its query string, and
    the url-encoded values of its POST body (empty for other requests).
  */
  datatype Request = Request(path: string, query: Form.Values, body: Form.Values)

  /**
    `Request.FormValue`: Go lists body values ahead of query values, so a
    key present in the body wins over the same key in the query string.
  */
  function FormValue(r: Request, key: string): string {
    if key in r.body then r.body[key] else Form.Get(r.query, key)
  }

  /** `Request.PostFormValue`: the body only. */
  function PostFormValue(r: Request, key: string): string {
    Form.Get(r.body, key)
  }

  /** `http.StatusSeeOther`. */
  const StatusSeeOther := 303

  /** The render context of the page template. */
  datatype Data = Data(idInstance: string, apiTokenInstance: string, result: string)

  /** What the browser receives. */
  datatype Response =
    | NotFound
    | BlankForm                             // the template executed with no data
    | Redirect(location: string, status: int)
    | Page(data: Data)                      // the template executed with data
    | ErrorText(text: string)               // plain text written instead of the page

  /** The value of the `action` field that selects an operation. */
  function ActionName(e: Endpoint): string {
    "/" + e.Name()
  }

  /** Which operation, if any, an `action` value selects. */
  function ParseAction(v: string): (r: Option<Endpoint>)
    ensures r.Some? ==> ActionName(r.value) == v
    ensures r.None? <==> forall e: Endpoint :: ActionName(e) != v
  {
    if v == "/getSettings" then Some(GetSettings)
    else if v == "/getStateInstance" then Some(GetStateInstance)
    else if v == "/sendMessage" then Some(SendMessage)
    else if v == "/sendFileByUrl" then Some(SendFileByUrl)
    else
      assert ActionName(GetSettings) == "/getSettings";
      assert ActionName(GetStateInstance) == "/getStateInstance";
      assert ActionName(SendMessage) == "/sendMessage";
      assert ActionName(SendFileByUrl) == "/sendFileByUrl";
      None
  }

  /** Each operation's action value selects exactly that operation. */
  lemma ParseActionRoundTrip(e: Endpoint)
    ensures ParseAction(ActionName(e)) == Some(e)
  {
    var r := ParseAction(ActionName(e));
    assert r.Some?;
    assert ActionName(r.value) == ActionName(e);
    assert ActionName(e)[1..] == e.Name() && ActionName(r.value)[1..] == r.value.Name();
  }

  /** Where `home` sends a request. */
  datatype Route = Unmatched | ShowForm | Dispatch(endpoint: Endpoint)

  /** `home`: only the root path is served; the `action` field picks the operation. */
  function RouteOf(r: Request): (route: Route)
    ensures route.Unmatched? <==> r.path != "/"
    ensures route.ShowForm? <==> r.path == "/" && forall e: Endpoint :: ActionName(e) != FormValue(r, "action")
    ensures route.Dispatch? ==> r.path == "/" && ActionName(route.endpoint) == FormValue(r, "action")
  {
    if r.path != "/" then Unmatched
    else
      match ParseAction(FormValue(r, "action"))
      case None => ShowForm
      case Some(e) => Dispatch(e)
  }

  /** The prefix each handler writes in front of an error from stage `s`. */
  function ErrorPrefix(s: Stage): string {
    match s
    case EncodePayload => "Error encoding JSON payload: "
    case CreateRequest => "Error creating request: "
    case SendRequest => "Error sending request: "
    case ReadResponse => "Error reading response: "
  }

  /**
    The handler's output once the exchange is over: the page with the
    credentials echoed and the body as the result, or the error text alone
    without the page.
  */
  function Conclude(inst: Instance, x: Exchange): (r: Response)
    ensures r.Page? <==> x.Delivered?
    ensures r.Page? ==> r.data.idInstance == inst.id && r.data.apiTokenInstance == inst.token
    ensures r.Page? ==> r.data.result == x.body
    ensures r.ErrorText? <==> x.Failed?
    ensures r.ErrorText? ==> FailureOf(r.text) == Some((x.stage, x.err))
  {
    match x
    case Delivered(body) => Page(Data(inst.id, inst.token, body))
    case Failed(stage, err) =>
      FailureOfErrorText(stage, err);
      ErrorText(ErrorPrefix(stage) + err)
  }

  /** Reads an error text back into the failing stage and its error. */
  function FailureOf(text: string): Option<(Stage, string)> {
    if IsPrefixOf(ErrorPrefix(EncodePayload), text) then Some((EncodePayload, text[|ErrorPrefix(EncodePayload)|..]))
    else if IsPrefixOf(ErrorPrefix(CreateRequest), text) then Some((CreateRequest, text[|ErrorPrefix(CreateRequest)|..]))
    else if IsPrefixOf(ErrorPrefix(SendRequest), text) then Some((SendRequest, text[|ErrorPrefix(SendRequest)|..]))
    else if IsPrefixOf(ErrorPrefix(ReadResponse), text) then Some((ReadResponse, text[|ErrorPrefix(ReadResponse)|..]))
    else None
  }

  predicate IsPrefixOf(p: string, s: string) {
    |p| <= |s| && s[..|p|] == p
  }

  /** The four prefixes already differ in their seventh character. */
  lemma PrefixesDiffer(s1: Stage, s2: Stage)
    requires s1 != s2
    ensures |ErrorPrefix(s1)| > 6 && |ErrorPrefix(s2)| > 6
    ensures ErrorPrefix(s1)[6] != ErrorPrefix(s2)[6]
  {
  }

  /** An error text names its stage and error unambiguously. */
  lemma FailureOfErrorText(s: Stage, err: string)
    ensures FailureOf(ErrorPrefix(s) + err) == Some((s, err))
  {
    var text := ErrorPrefix(s) + err;
    assert text[..|ErrorPrefix(s)|] == ErrorPrefix(s);
    assert text[|ErrorPrefix(s)|..] == err;
    forall s' | s' != s
      ensures !IsPrefixOf(ErrorPrefix(s'), text)
    {
      PrefixesDiffer(s, s');
      assert text[6] == ErrorPrefix(s)[6];
    }
  }

  /**
    One request from start to finish: route, credential gate, planned call,
    the exchange with the gateway and the resulting output.
  */
  function Serve(r: Request, t: Transport): (resp: Response)
    ensures resp.NotFound? <==> r.path != "/"
    ensures resp.BlankForm? <==> RouteOf(r).ShowForm?
    ensures resp.Redirect? <==>
      RouteOf(r).Dispatch? && (PostFormValue(r, "idInstance") == "" || PostFormValue(r, "apiTokenInstance") == "")
    ensures resp.Redirect? ==> resp.location == "/" && resp.status == StatusSeeOther
    ensures Forwarded(r) <==> resp.Page? || resp.ErrorText?
    ensures Forwarded(r) ==> (resp.Page? <==> forall s: Stage :: StageError(PlannedCall(r), t, s).None?)
    ensures resp.Page? ==>
      && resp.data.idInstance == PostFormValue(r, "idInstance")
      && resp.data.apiTokenInstance == PostFormValue(r, "apiTokenInstance")
      && t.read == Success(resp.data.result)
    ensures resp.ErrorText? ==>
      var f := FailureOf(resp.text);
      f.Some? && FirstFailure(PlannedCall(r), t, f.value.0, f.value.1)
  {
    match RouteOf(r)
    case Unmatched => NotFound
    case ShowForm => BlankForm
    case Dispatch(e) =>
      match PlanCall(e, r.body)
      case RedirectHome => Redirect("/", StatusSeeOther)
      case Forward(inst, call) =>
        assert Forwarded(r) && PlannedCall(r) == call;
        Conclude(inst, Perform(call, t))
  }

  /** A request that passes the route and the credential gate, and so reaches the gateway. */
  predicate Forwarded(r: Request) {
    && RouteOf(r).Dispatch?
    && PostFormValue(r, "idInstance") != ""
    && PostFormValue(r, "apiTokenInstance") != ""
  }

  /** The gateway call a forwarded request makes. */
  function PlannedCall(r: Request): Call
    requires Forwarded(r)
  {
    PlanCall(RouteOf(r).endpoint, r.body).call
  }

  /**
    Only a dispatched request with both credentials reaches the gateway:
    in every other case the outcome is the same whatever the transport does.
  */
  lemma NoExchangeWithoutCredentials(r: Request, t: Transport, u: Transport)
    requires !RouteOf(r).Dispatch? || PostFormValue(r, "idInstance") == "" || PostFormValue(r, "apiTokenInstance") == ""
    ensures Serve(r, t) == Serve(r, u)
  {
  }

  /** For a read operation the encoding stage is never consulted. */
  lemma ReadOperationsNeverEncode(r: Request, t: Transport, u: Transport)
    requires RouteOf(r).Dispatch? && RouteOf(r).endpoint.IsRead()
    requires t.create == u.create && t.send == u.send && t.read == u.read
    ensures Serve(r, t) == Serve(r, u)
  {
    var p := PlanCall(RouteOf(r).endpoint, r.body);
    if p.Forward? {
      ReadCallIgnoresEncoding(p.call, t, u);
    }
  }

  /** With no `action` in the body, the one in the query string selects the operation. */
  lemma ActionFromQuery(r: Request, e: Endpoint)
    requires r.path == "/" && "action" !in r.body
    requires "action" in r.query && r.query["action"] == ActionName(e)
    ensures RouteOf(r) == Dispatch(e)
  {
    ParseActionRoundTrip(e);
  }

  /** Credentials in the query string do not count: without them in the body the request is redirected. */
  lemma CredentialsOnlyFromBody(r: Request, t: Transport)
    requires RouteOf(r).Dispatch?
    requires "idInstance" !in r.body
    ensures Serve(r, t) == Redirect("/", StatusSeeOther)
  {
  }

  /** An empty `action` shows the blank form. */
  lemma EmptyActionShowsForm(r: Request, t: Transport)
    requires r.path == "/" && FormValue(r, "action") == ""
    ensures Serve(r, t) == BlankForm
  {
    forall e: Endpoint
      ensures ActionName(e) != ""
    {
      assert ActionName(e)[0] == '/';
    }
  }
}
