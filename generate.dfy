/**
 * The `/generate` endpoint: the generation flow (register, then enable WARP, then render)
 * and the HTTP handler around it. The key pair and the registration timestamp are inputs;
 * the network is a `Network` object. `Flow` and `Respond` state, as functions, what the
 * methods `GenerateConfig` and `Handler` do, including the requests they send.
 */
module Generate {
  import opened Common
  import opened Http
  import opened Text
  import opened Awg15
  import opened WarpClient

  /** A freshly generated key pair, both halves as base64 text. */
  datatype KeyPair = KeyPair(privateKey: string, publicKey: string)

  /** The rendered configuration and its download name. */
  datatype Generated = Generated(config: string, configName: string)

  /** A template string's rendering of an optional field: an absent one reads `undefined`. */
  function TemplateText(field: Option<string>): string
  {
    match field
    case Some(s) => s
    case None => "undefined"
  }

  /** The message V8 gives when a property is read from `undefined`. */
  function UndefinedReadMessage(property: string): string
  {
    "Cannot read properties of undefined (reading '" + property + "')"
  }

  /** The renderer's input for an accepted activation response and the generated key pair. */
  function RenderParams(keys: KeyPair, peer: PeerInfo, addresses: Addresses): Params
  {
    Params(keys.privateKey, TemplateText(peer.publicKey), TemplateText(addresses.v4), TemplateText(addresses.v6), DefaultEndpoint)
  }

  /**
   * The last step of `generateConfig`: render the configuration for the first peer and the
   * interface addresses and name it after the IPv4 address. Reading `addresses.v4` from an
   * absent `addresses`, or splitting an absent `v4`, throws.
   */
  function Assemble(keys: KeyPair, warp: WarpConfig): (r: Result<Generated>)
    ensures r.Ok? <==> warp.iface.addresses.Some? && warp.iface.addresses.value.v4.Some?
    ensures r.Ok? ==>
      var addresses := warp.iface.addresses.value;
      r.value == Generated(Build(RenderParams(keys, warp.peer, addresses)), ConfigName(addresses.v4.value))
  {
    match warp.iface.addresses
    case None => Err(UndefinedReadMessage("v4"))
    case Some(addresses) =>
      var config := Build(RenderParams(keys, warp.peer, addresses));
      match addresses.v4
      case None => Err(UndefinedReadMessage("split"))
      case Some(v4) => Ok(Generated(config, ConfigName(v4)))
  }

  /**
   * `generateConfig` as a function of the network's answers: its outcome and the requests it
   * sends, the `n`-th request of the log being the first. Registration is always sent; the
   * activation request is sent exactly when registration succeeded.
   */
  function Flow(keys: KeyPair, now: string, server: (Request, nat) -> Reply, n: nat): (out: (Result<Generated>, seq<Request>))
    ensures 1 <= |out.1| <= 2 && out.1[0] == RegistrationRequest(keys.publicKey, now)
    ensures |out.1| == 2 <==> RegistrationOutcome(server(out.1[0], n)).Ok?
    ensures out.0.Ok? ==> |out.1| == 2
  {
    var register := RegistrationRequest(keys.publicKey, now);
    match RegistrationOutcome(server(register, n))
    case Err(message) => (Err(message), [register])
    case Ok(registration) =>
      var activate := ActivationRequest(registration);
      match ActivationOutcome(server(activate, n + 1))
      case Err(message) => (Err(message), [register, activate])
      case Ok(warp) => (Assemble(keys, warp), [register, activate])
  }

  /** `generateConfig`: register, then enable WARP with what registration returned, then render. */
  method GenerateConfig(net: Network, keys: KeyPair, now: string) returns (r: Result<Generated>)
    modifies net
    ensures var (outcome, requests) := Flow(keys, now, net.server, |old(net.sent)|);
      r == outcome && net.sent == old(net.sent) + requests
  {
    var registration := RegisterClient(net, keys.publicKey, now);
    if registration.Err? {
      return Err(registration.message);
    }
    var warp := EnableWarp(net, registration.value);
    if warp.Err? {
      return Err(warp.message);
    }
    r := Assemble(keys, warp.value);
  }

  const PreflightHeaders: Headers := [
    ("Access-Control-Allow-Origin", "*"),
    ("Access-Control-Allow-Methods", "POST, OPTIONS"),
    ("Access-Control-Allow-Headers", "Content-Type")]

  /** The handler's answer to a request with the given method, and the requests it sends. */
  function Respond(requestMethod: string, keys: KeyPair, now: string, server: (Request, nat) -> Reply, n: nat): (out: (Response, seq<Request>))
    ensures out.0.status in {200, 405, 500}
    ensures requestMethod != "POST" ==> out.1 == []
    ensures requestMethod == "OPTIONS" ==> out.0 == Response(200, PreflightHeaders, NoBody)
    ensures requestMethod != "OPTIONS" && requestMethod != "POST" ==> out.0.status == 405
  {
    if requestMethod == "OPTIONS" then
      (Response(200, PreflightHeaders, NoBody), [])
    else if requestMethod != "POST" then
      (Response(405, [], Failed("Method not allowed")), [])
    else
      var (outcome, requests) := Flow(keys, now, server, n);
      match outcome
      case Ok(generated) => (Response(200, [], ConfigFile(generated.config, generated.configName)), requests)
      case Err(message) => (Response(500, [], Failed("Ошибка: " + message)), requests)
  }

  /** The `/generate` handler: CORS preflight, method check, then the generation flow. */
  method Handler(net: Network, requestMethod: string, keys: KeyPair, now: string) returns (response: Response)
    modifies net
    ensures var (expected, requests) := Respond(requestMethod, keys, now, net.server, |old(net.sent)|);
      response == expected && net.sent == old(net.sent) + requests
  {
    if requestMethod == "OPTIONS" {
      return Response(200, PreflightHeaders, NoBody);
    }
    if requestMethod != "POST" {
      return Response(405, [], Failed("Method not allowed"));
    }
    var result := GenerateConfig(net, keys, now);
    match result
    case Ok(generated) =>
      response := Response(200, [], ConfigFile(generated.config, generated.configName));
    case Err(message) =>
      response := Response(500, [], Failed("Ошибка: " + message));
  }

  /**
   * A failed registration ends the flow: only the registration request is sent, the
   * activation request never is, and no configuration is produced, whatever the network
   * would have answered to anything else.
   */
  lemma FailedRegistrationStops(keys: KeyPair, now: string, server: (Request, nat) -> Reply, n: nat)
    requires RegistrationOutcome(server(RegistrationRequest(keys.publicKey, now), n)).Err?
    ensures var (outcome, requests) := Flow(keys, now, server, n);
      && requests == [RegistrationRequest(keys.publicKey, now)]
      && outcome == Err(RegistrationOutcome(server(RegistrationRequest(keys.publicKey, now), n)).message)
      && forall r :: r in requests ==> r.httpMethod == "POST"
  {
  }

  /**
   * A successful generation went through both calls in order, the second authorised by the
   * token the first returned, and delivers the rendering of the first peer and the interface
   * addresses with the default endpoint, named after the IPv4 address.
   */
  lemma SuccessfulFlow(keys: KeyPair, now: string, server: (Request, nat) -> Reply, n: nat)
    requires Flow(keys, now, server, n).0.Ok?
    ensures var (outcome, requests) := Flow(keys, now, server, n);
      var registration := RegistrationOutcome(server(requests[0], n)).value;
      var warp := ActivationOutcome(server(requests[1], n + 1));
      && requests == [RegistrationRequest(keys.publicKey, now), ActivationRequest(registration)]
      && warp.Ok? && warp.value.iface.addresses.Some?
      && var addresses := warp.value.iface.addresses.value;
         && addresses.v4.Some?
         && outcome.value.configName == ConfigName(addresses.v4.value)
         && outcome.value.config == Build(RenderParams(keys, warp.value.peer, addresses))
         && RenderParams(keys, warp.value.peer, addresses).endpoint == DefaultEndpoint
  {
  }

  /**
   * When every rendered value fits on one line, the delivered file reads back the generated
   * private key, the peer key and the assigned addresses, and always the default endpoint.
   */
  lemma DeliveredConfigContents(keys: KeyPair, now: string, server: (Request, nat) -> Reply, n: nat)
    requires Flow(keys, now, server, n).0.Ok?
    requires var p := Flow(keys, now, server, n);
      var warp := ActivationOutcome(server(p.1[1], n + 1)).value;
      OneLineFields(RenderParams(keys, warp.peer, warp.iface.addresses.value))
    ensures var p := Flow(keys, now, server, n);
      var warp := ActivationOutcome(server(p.1[1], n + 1)).value;
      var lines := Lines(p.0.value.config);
      && Lookup(lines, "PrivateKey") == Some(keys.privateKey)
      && Lookup(lines, "PublicKey") == Some(TemplateText(warp.peer.publicKey))
      && Lookup(lines, "Endpoint") == Some(DefaultEndpoint)
      && Lookup(lines, "Address") ==
           Some(warp.iface.addresses.value.v4.value + ", " + TemplateText(warp.iface.addresses.value.v6))
  {
    SuccessfulFlow(keys, now, server, n);
    var p := Flow(keys, now, server, n);
    var warp := ActivationOutcome(server(p.1[1], n + 1)).value;
    ReadBack(RenderParams(keys, warp.peer, warp.iface.addresses.value));
  }

  /**
   * The handler's status: 200 with the file for a successful generation, 500 with the
   * prefixed error message for a failed one, and no request at all unless the method is POST.
   */
  lemma HandlerStatus(requestMethod: string, keys: KeyPair, now: string, server: (Request, nat) -> Reply, n: nat)
    requires requestMethod == "POST"
    ensures var (response, requests) := Respond(requestMethod, keys, now, server, n);
      var (outcome, sent) := Flow(keys, now, server, n);
      && requests == sent
      && (response.status == 200 <==> outcome.Ok?)
      && (outcome.Ok? ==> response.body == ConfigFile(outcome.value.config, outcome.value.configName))
      && (outcome.Err? ==> response == Response(500, [], Failed("Ошибка: " + outcome.message)))
  {
  }
}
