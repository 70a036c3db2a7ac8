/**
 * The client for the WARP registration API: how a request is built from a method, an
 * endpoint, an optional body and optional headers; how a reply is turned into parsed JSON
 * or a prefixed error; and which response shapes registration and activation accept.
 * The network is a `Network` object that records every request it is sent and answers
 * each from a fixed function of the request and its position in the log.
 */
module WarpClient {
  import opened Common
  import opened Text
  import opened Http

  const BaseUrl := "https://api.cloudflareclient.com/v0i1909051800"

  const DefaultHeaders: Headers := [("User-Agent", "okhttp/3.12.1"), ("Content-Type", "application/json")]

  /** A request body before serialisation; `JSON.stringify` itself is not modelled. */
  datatype Payload =
    | DeviceRegistration(installId: string, tos: string, key: string, fcmToken: string, deviceType: string, locale: string)
    | WarpSwitch(warpEnabled: bool)

  /** What `fetch` is handed: the URL and the options object. */
  datatype Request = Request(url: string, httpMethod: string, headers: Headers, body: Option<Payload>)

  /** The parts of a response document the client reads; an absent field is `None`. */
  datatype Addresses = Addresses(v4: Option<string>, v6: Option<string>)
  datatype InterfaceInfo = InterfaceInfo(addresses: Option<Addresses>)
  datatype PeerInfo = PeerInfo(publicKey: Option<string>)
  datatype ConfigInfo = ConfigInfo(peers: Option<seq<PeerInfo>>, iface: Option<InterfaceInfo>)
  datatype ResultInfo = ResultInfo(id: Option<string>, token: Option<string>, config: Option<ConfigInfo>)
  datatype Document = NullDocument | Object(result: Option<ResultInfo>)

  /** What `fetch` yields: a transport failure, or a status line and the outcome of `response.json()`. */
  datatype Reply =
    | NetworkFailure(message: string)
    | Received(status: nat, statusText: string, json: Result<Document>)

  /** `response.ok`. */
  predicate IsOkStatus(status: nat)
  {
    200 <= status <= 299
  }

  const RequestFailedPrefix := "Cloudflare API request failed: "

  /** JavaScript truthiness of an optional string field. */
  predicate Present(field: Option<string>)
  {
    field.Some? && field.value != ""
  }

  /** The message V8 gives when a property is read from `null`. */
  function NullReadMessage(property: string): string
  {
    "Cannot read properties of null (reading '" + property + "')"
  }

  /**
   * The URL and options `makeRequest` passes to `fetch`: the endpoint under the base URL;
   * the custom headers when given, replacing the defaults wholesale; and the body only when
   * one is given and the method is POST or PATCH.
   */
  function RequestFor(httpMethod: string, endpoint: string, body: Option<Payload>, customHeaders: Option<Headers>): (r: Request)
    ensures r.url == BaseUrl + "/" + endpoint && r.httpMethod == httpMethod
    ensures customHeaders.Some? ==> r.headers == customHeaders.value
    ensures customHeaders.None? ==> r.headers == DefaultHeaders
    ensures r.body.Some? <==> body.Some? && (httpMethod == "POST" || httpMethod == "PATCH")
    ensures r.body.Some? ==> r.body == body
  {
    Request(
      BaseUrl + "/" + endpoint,
      httpMethod,
      if customHeaders.Some? then customHeaders.value else DefaultHeaders,
      if body.Some? && (httpMethod == "POST" || httpMethod == "PATCH") then body else None)
  }

  /**
   * What `makeRequest` makes of a reply: the parsed document when the status is 2xx and the
   * body parses; otherwise one error whose message carries the API-failure prefix, and for a
   * non-2xx status names that status and its text.
   */
  function ReplyOutcome(reply: Reply): (r: Result<Document>)
    ensures r.Ok? <==> reply.Received? && IsOkStatus(reply.status) && reply.json.Ok?
    ensures r.Ok? ==> r.value == reply.json.value
    ensures r.Err? ==> RequestFailedPrefix <= r.message
    ensures reply.Received? && !IsOkStatus(reply.status) ==>
      r == Err(RequestFailedPrefix + "HTTP " + Decimal(reply.status) + ": " + reply.statusText)
  {
    match reply
    case NetworkFailure(message) => Err(RequestFailedPrefix + message)
    case Received(status, statusText, json) =>
      if !IsOkStatus(status) then Err(RequestFailedPrefix + "HTTP " + Decimal(status) + ": " + statusText)
      else match json
        case Ok(document) => Ok(document)
        case Err(message) => Err(RequestFailedPrefix + message)
  }

  /** The identity the activation call needs. */
  datatype Registration = Registration(id: string, token: string)

  const InvalidRegistration := "Invalid registration response structure"

  /**
   * The registration response is accepted exactly when `result.id` and `result.token` are
   * both present and non-empty, and then yields exactly those two values.
   */
  function CheckRegistration(document: Document): (r: Result<Registration>)
    ensures r.Ok? <==>
      document.Object? && document.result.Some? && Present(document.result.value.id) && Present(document.result.value.token)
    ensures r.Ok? ==> r.value.id == document.result.value.id.value && r.value.token == document.result.value.token.value
    ensures r.Ok? ==> r.value.id != "" && r.value.token != ""
    ensures document.Object? && r.Err? ==> r.message == InvalidRegistration
  {
    match document
    case NullDocument => Err(NullReadMessage("result"))
    case Object(result) =>
      if result.None? || !Present(result.value.id) || !Present(result.value.token) then Err(InvalidRegistration)
      else Ok(Registration(result.value.id.value, result.value.token.value))
  }

  /** The two parts of an accepted activation response that the generator reads. */
  datatype WarpConfig = WarpConfig(peer: PeerInfo, iface: InterfaceInfo)

  const InvalidWarpConfig := "Invalid WARP configuration response structure"

  /**
   * The activation response is accepted exactly when `result.config` has a first peer and
   * an interface; the accepted value is that first peer and that interface.
   */
  function CheckWarpConfig(document: Document): (r: Result<WarpConfig>)
    ensures r.Ok? <==>
      && document.Object? && document.result.Some? && document.result.value.config.Some?
      && var config := document.result.value.config.value;
         config.peers.Some? && |config.peers.value| > 0 && config.iface.Some?
    ensures r.Ok? ==>
      var config := document.result.value.config.value;
      r.value == WarpConfig(config.peers.value[0], config.iface.value)
    ensures document.Object? && r.Err? ==> r.message == InvalidWarpConfig
  {
    match document
    case NullDocument => Err(NullReadMessage("result"))
    case Object(result) =>
      if result.None? || result.value.config.None? then Err(InvalidWarpConfig)
      else
        var config := result.value.config.value;
        if config.peers.None? || |config.peers.value| == 0 || config.iface.None? then Err(InvalidWarpConfig)
        else Ok(WarpConfig(config.peers.value[0], config.iface.value))
  }

  /** The registration call: a POST to `reg` carrying the device identity with the default headers. */
  function RegistrationRequest(publicKey: string, now: string): (r: Request)
    ensures r.url == BaseUrl + "/reg" && r.httpMethod == "POST" && r.headers == DefaultHeaders
    ensures r.body == Some(DeviceRegistration("", now, publicKey, "", "ios", "en_US"))
  {
    RequestFor("POST", "reg", Some(DeviceRegistration("", now, publicKey, "", "ios", "en_US")), None)
  }

  function AuthorizedHeaders(token: string): Headers
  {
    DefaultHeaders + [("Authorization", "Bearer " + token)]
  }

  /**
   * The activation call: a PATCH to `reg/<id>` switching WARP on, sent with the default
   * headers plus `Authorization: Bearer <token>`.
   */
  function ActivationRequest(registration: Registration): (r: Request)
    ensures r.url == BaseUrl + "/reg/" + registration.id && r.httpMethod == "PATCH"
    ensures r.headers == DefaultHeaders + [("Authorization", "Bearer " + registration.token)]
    ensures r.body == Some(WarpSwitch(true))
  {
    RequestFor("PATCH", "reg/" + registration.id, Some(WarpSwitch(true)), Some(AuthorizedHeaders(registration.token)))
  }

  /** What `registerClient` returns for the reply to its request. */
  function RegistrationOutcome(reply: Reply): Result<Registration>
  {
    match ReplyOutcome(reply)
    case Err(message) => Err(message)
    case Ok(document) => CheckRegistration(document)
  }

  /** What `enableWarp` returns for the reply to its request. */
  function ActivationOutcome(reply: Reply): Result<WarpConfig>
  {
    match ReplyOutcome(reply)
    case Err(message) => Err(message)
    case Ok(document) => CheckWarpConfig(document)
  }

  /** The network as the client sees it: every request is logged and answered by `server`. */
  class Network {
    var sent: seq<Request>
    const server: (Request, nat) -> Reply

    constructor (server: (Request, nat) -> Reply)
      ensures sent == [] && this.server == server
    {
      this.server := server;
      sent := [];
    }

    /** One `fetch`: the request joins the log and is answered as the `|sent|`-th request. */
    method Fetch(request: Request) returns (reply: Reply)
      modifies this
      ensures sent == old(sent) + [request]
      ensures reply == server(request, |old(sent)|)
    {
      reply := server(request, |sent|);
      sent := sent + [request];
    }
  }

  /**
   * `makeRequest`: sends exactly one request to `BaseUrl/endpoint`, whose headers are the
   * custom ones when given (replacing the defaults wholesale), and whose body is attached
   * only when one is given and the method is POST or PATCH.
   */
  method MakeRequest(net: Network, httpMethod: string, endpoint: string, body: Option<Payload>, customHeaders: Option<Headers>)
    returns (r: Result<Document>)
    modifies net
    ensures net.sent == old(net.sent) + [RequestFor(httpMethod, endpoint, body, customHeaders)]
    ensures var request := net.sent[|old(net.sent)|];
      && request.url == BaseUrl + "/" + endpoint
      && request.httpMethod == httpMethod
      && request.headers == (if customHeaders.Some? then customHeaders.value else DefaultHeaders)
      && (request.body.Some? <==> body.Some? && (httpMethod == "POST" || httpMethod == "PATCH"))
      && (request.body.Some? ==> request.body == body)
    ensures r == ReplyOutcome(net.server(net.sent[|old(net.sent)|], |old(net.sent)|))
  {
    var url := BaseUrl + "/" + endpoint;
    var headers := if customHeaders.Some? then customHeaders.value else DefaultHeaders;
    var options := Request(url, httpMethod, headers, None);
    if body.Some? && (httpMethod == "POST" || httpMethod == "PATCH") {
      options := options.(body := body);
    }
    var reply := net.Fetch(options);
    r := ReplyOutcome(reply);
  }

  /** `registerClient`: one registration request, then the shape check of its response. */
  method RegisterClient(net: Network, publicKey: string, now: string) returns (r: Result<Registration>)
    modifies net
    ensures net.sent == old(net.sent) + [RegistrationRequest(publicKey, now)]
    ensures r == RegistrationOutcome(net.server(RegistrationRequest(publicKey, now), |old(net.sent)|))
  {
    var response := MakeRequest(net, "POST", "reg", Some(DeviceRegistration("", now, publicKey, "", "ios", "en_US")), None);
    match response
    case Err(message) =>
      r := Err(message);
    case Ok(document) =>
      r := CheckRegistration(document);
  }

  /** `enableWarp`: one authorised activation request, then the shape check of its response. */
  method EnableWarp(net: Network, registration: Registration) returns (r: Result<WarpConfig>)
    modifies net
    ensures net.sent == old(net.sent) + [ActivationRequest(registration)]
    ensures r == ActivationOutcome(net.server(ActivationRequest(registration), |old(net.sent)|))
  {
    var headers := AuthorizedHeaders(registration.token);
    var response := MakeRequest(net, "PATCH", "reg/" + registration.id, Some(WarpSwitch(true)), Some(headers));
    match response
    case Err(message) =>
      r := Err(message);
    case Ok(document) =>
      r := CheckWarpConfig(document);
  }
}
