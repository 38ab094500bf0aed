/**
 * The smart-home directive path below discovery: `SmartHomeHandler`, a decision table over
 * namespace, endpoint id, directive name and mode, and `generateSmartHomeResponse`.
 */
module SmartHome {
  import opened Wrappers
  import opened Protocol
  import opened Backend

  const ModeControllerNamespace := "Alexa.ModeController"
  const SetModeName := "SetMode"
  /** The only endpoint id the handler acts on. */
  const AcceptedEndpointId := "velux-shutter"
  /** The endpoint id every smart-home response names, whatever the directive addressed. */
  const ResponseEndpointId := "velux-endpoint-01"
  const ResponseMessageId := "message-1234"
  const SuccessStatus := "SUCCESS"
  const ErrorStatus := "ERROR"

  /** `directive.header`; an absent field is `None` and equals no literal. */
  datatype Header = Header(namespace: Option<string>, name: Option<string>)

  /** `directive.endpoint`. */
  datatype EndpointRef = EndpointRef(endpointId: Option<string>)

  /** `directive.payload`. */
  datatype Payload = Payload(mode: Option<string>)

  /** An inbound directive; reading a field of an absent object throws a TypeError. */
  datatype Directive = Directive(header: Option<Header>, endpoint: Option<EndpointRef>, payload: Option<Payload>)

  /** `{event: {header, endpoint: {endpointId}, payload: {}}}`; the payload is always empty. */
  datatype SmartHomeResponse = SmartHomeResponse(header: EventHeader, endpointId: string, payload: map<string, string>)

  /** What the directive path can throw. */
  datatype Exception = TypeError(readingFrom: string) | BackendFailure(call: Call)

  /** The backend calls made, in order, and the response or the exception that ended the handler. */
  datatype Handled = Handled(calls: seq<Call>, result: Result<SmartHomeResponse, Exception>)

  /** The fixed shape of every smart-home response. */
  predicate WellFormed(r: SmartHomeResponse) {
    && r.header.namespace == "Alexa"
    && r.header.payloadVersion == PayloadVersion
    && r.endpointId == ResponseEndpointId
    && r.payload == map[]
    && (r.header.name == "Response" || r.header.name == "ErrorResponse")
  }

  /** The response for a status; only the exact status "SUCCESS" gives a plain Response. */
  function GenerateSmartHomeResponse(status: string): (r: SmartHomeResponse)
    ensures WellFormed(r)
    ensures r.header.name == "Response" <==> status == SuccessStatus
  {
    SmartHomeResponse(
      EventHeader("Alexa", if status == SuccessStatus then "Response" else "ErrorResponse",
                  PayloadVersion, ResponseMessageId),
      ResponseEndpointId,
      map[])
  }

  /** The directive-facing mode vocabulary: "open" wakes up, "close" goes to bed. */
  function ScenarioForMode(mode: Option<string>): Option<Scenario> {
    if mode == Some("open") then Some(WakeUp)
    else if mode == Some("close") then Some(Bedtime)
    else None
  }

  /** A SetMode in the ModeController namespace addressed to `endpointId`, with a payload. */
  predicate IsSetModeTo(d: Directive, endpointId: string) {
    && d.header.Some? && d.header.value.namespace == Some(ModeControllerNamespace)
    && d.header.value.name == Some(SetModeName)
    && d.endpoint.Some? && d.endpoint.value.endpointId == Some(endpointId)
    && d.payload.Some?
  }

  /** Whether reading the fields the handler needs throws before any decision is made. */
  predicate Malformed(d: Directive) {
    || d.header.None?
    || (d.header.value.namespace == Some(ModeControllerNamespace) && d.endpoint.None?)
    || (d.header.value.namespace == Some(ModeControllerNamespace)
        && d.endpoint.value.endpointId == Some(AcceptedEndpointId)
        && d.header.value.name == Some(SetModeName) && d.payload.None?)
  }

  function ErrorReply(): Result<SmartHomeResponse, Exception> {
    Success(GenerateSmartHomeResponse(ErrorStatus))
  }

  /**
   * `SmartHomeHandler`: a SetMode on the accepted endpoint with mode open or close triggers one
   * scenario; everything else is an ErrorResponse, and the calls in `fails` raise.
   */
  function SmartHomeHandler(d: Directive, fails: set<Call>): (h: Handled)
    ensures |h.calls| <= 1
    ensures h.calls != [] <==>
      IsSetModeTo(d, AcceptedEndpointId) && ScenarioForMode(d.payload.value.mode).Some?
    ensures h.calls != [] ==> h.calls == [ScenarioCall(ScenarioForMode(d.payload.value.mode).value)]
    ensures h.result.Success? ==> WellFormed(h.result.value)
    ensures h.result.Success? && h.result.value.header.name == "Response" <==>
      h.calls != [] && h.calls[0] !in fails
    ensures h.result.Failure? <==> Malformed(d) || (h.calls != [] && h.calls[0] in fails)
  {
    if d.header.None? then Handled([], Failure(TypeError("directive.header")))
    else if d.header.value.namespace != Some(ModeControllerNamespace) then Handled([], ErrorReply())
    else if d.endpoint.None? then Handled([], Failure(TypeError("directive.endpoint")))
    else if d.endpoint.value.endpointId != Some(AcceptedEndpointId) then Handled([], ErrorReply())
    else if d.header.value.name != Some(SetModeName) then Handled([], ErrorReply())
    else if d.payload.None? then Handled([], Failure(TypeError("directive.payload")))
    else
      match ScenarioForMode(d.payload.value.mode)
      case None => Handled([], ErrorReply())
      case Some(s) =>
        var call := ScenarioCall(s);
        if call in fails then Handled([call], Failure(BackendFailure(call)))
        else Handled([call], Success(GenerateSmartHomeResponse(SuccessStatus)))
  }

  /** A well-formed SetMode directive to `endpointId` with `mode`. */
  function SetMode(endpointId: string, mode: string): Directive {
    Directive(Some(Header(Some(ModeControllerNamespace), Some(SetModeName))),
              Some(EndpointRef(Some(endpointId))), Some(Payload(Some(mode))))
  }

  /** SetMode "open" on velux-shutter issues exactly wake_up and, when it succeeds, answers Response. */
  lemma SetModeOpenWakesUp(fails: set<Call>)
    requires ScenarioCall(WakeUp) !in fails
    ensures SmartHomeHandler(SetMode(AcceptedEndpointId, "open"), fails)
      == Handled([ScenarioCall(WakeUp)], Success(GenerateSmartHomeResponse(SuccessStatus)))
    ensures SmartHomeHandler(SetMode(AcceptedEndpointId, "open"), fails).result.value.header.name == "Response"
  {
  }

  /** SetMode "close" on velux-shutter issues exactly bedtime and, when it succeeds, answers Response. */
  lemma SetModeCloseGoesToBed(fails: set<Call>)
    requires ScenarioCall(Bedtime) !in fails
    ensures SmartHomeHandler(SetMode(AcceptedEndpointId, "close"), fails)
      == Handled([ScenarioCall(Bedtime)], Success(GenerateSmartHomeResponse(SuccessStatus)))
    ensures SmartHomeHandler(SetMode(AcceptedEndpointId, "close"), fails).result.value.header.name == "Response"
  {
  }

  /**
   * Every well-formed directive that is not a SetMode open/close on velux-shutter issues no scenario
   * and answers ErrorResponse: another namespace, another endpoint id, another name or another mode.
   */
  lemma OtherwiseErrorResponse(d: Directive, fails: set<Call>)
    requires !Malformed(d)
    requires !(IsSetModeTo(d, AcceptedEndpointId) && d.payload.value.mode in {Some("open"), Some("close")})
    ensures SmartHomeHandler(d, fails) == Handled([], Success(GenerateSmartHomeResponse(ErrorStatus)))
    ensures SmartHomeHandler(d, fails).result.value.header.name == "ErrorResponse"
  {
  }

  /** A scenario call that raises escapes the handler as an exception, after being issued. */
  lemma ScenarioFailureEscapes(mode: string, fails: set<Call>)
    requires ScenarioForMode(Some(mode)).Some? && ScenarioCall(ScenarioForMode(Some(mode)).value) in fails
    ensures SmartHomeHandler(SetMode(AcceptedEndpointId, mode), fails).result
      == Failure(BackendFailure(ScenarioCall(ScenarioForMode(Some(mode)).value)))
  {
  }
}
