/**
 * The entry point `handler`: an event with a directive takes the smart-home path (the static
 * discovery catalog for Alexa.Discovery, `SmartHomeHandler` otherwise), any other event the custom
 * skill; an exception on the smart-home path becomes a 500 reply. Also the agreement, and the
 * disagreement, between the advertised catalog and the router.
 */
module Handler {
  import opened Wrappers
  import opened Protocol
  import opened Backend
  import opened Catalog
  import opened Discover
  import opened SmartHome
  import opened Skill

  const InternalErrorBody := "{\"message\":\"Internal Server Error\"}"

  /** An inbound event: a smart-home directive if present, else a custom-skill request from a session user. */
  datatype Event = Event(directive: Option<Directive>, request: SkillRequest, userId: string)

  /** What the handler returns to the host. */
  datatype Reply =
    | SmartHomeReply(response: SmartHomeResponse)
    | DiscoveryReply(discovery: DiscoveryResponse)
    | ServerError(statusCode: int, body: string)
    | SkillReply(speech: Speech)

  /** The reply, the backend calls made in order, and the store afterwards. */
  datatype Invocation = Invocation(reply: Reply, calls: seq<Call>, store: Store)

  predicate IsDiscovery(d: Directive) {
    d.header.Some? && d.header.value.namespace == Some(DiscoveryNamespace)
  }

  /** `handler(event)` against `store`, with the calls in `fails` raising. */
  function Handle(event: Event, store: Store, fails: set<Call>, entropy: seq<nat>): (inv: Invocation)
    ensures inv.reply.SkillReply? <==> event.directive.None?
    ensures event.directive.Some? ==> inv.store == store && |inv.calls| <= 1
    ensures event.directive.Some? && IsDiscovery(event.directive.value) ==>
      inv.reply == DiscoveryReply(DeviceDiscoveryHandler()) && inv.calls == []
    ensures inv.reply.SmartHomeReply? ==> WellFormed(inv.reply.response)
    ensures inv.reply.ServerError? ==> inv.reply == ServerError(500, InternalErrorBody)
    ensures inv.reply.ServerError? <==>
      event.directive.Some? && !IsDiscovery(event.directive.value) &&
      (Malformed(event.directive.value) || (inv.calls != [] && inv.calls[0] in fails))
  {
    match event.directive
    case None =>
      var o := HandleSkillRequest(event.request, event.userId, store, fails, entropy);
      Invocation(SkillReply(o.speech), o.calls, o.store)
    case Some(d) =>
      if IsDiscovery(d) then Invocation(DiscoveryReply(DeviceDiscoveryHandler()), [], store)
      else
        var h := SmartHomeHandler(d, fails);
        match h.result
        case Success(r) => Invocation(SmartHomeReply(r), h.calls, store)
        case Failure(_) => Invocation(ServerError(500, InternalErrorBody), h.calls, store)
  }

  /** An event carrying directive `d`. */
  function DirectiveEvent(d: Directive): Event {
    Event(Some(d), LaunchRequest, "")
  }

  /** Alexa.Discovery answers with the catalog whatever the header name, and calls nothing. */
  lemma DiscoveryIgnoresName(name: Option<string>, endpoint: Option<EndpointRef>, payload: Option<Payload>,
                             store: Store, fails: set<Call>, entropy: seq<nat>)
    ensures var d := Directive(Some(Header(Some(DiscoveryNamespace), name)), endpoint, payload);
            Handle(DirectiveEvent(d), store, fails, entropy) == Invocation(DiscoveryReply(DeviceDiscoveryHandler()), [], store)
  {
  }

  /** Any other directive gets exactly what `SmartHomeHandler` decides, and no discovery response. */
  lemma OtherDirectivesReachRouter(d: Directive, store: Store, fails: set<Call>, entropy: seq<nat>)
    requires !IsDiscovery(d)
    ensures var inv := Handle(DirectiveEvent(d), store, fails, entropy);
            var h := SmartHomeHandler(d, fails);
            !inv.reply.DiscoveryReply? && inv.calls == h.calls &&
            (h.result.Success? ==> inv.reply == SmartHomeReply(h.result.value))
  {
  }

  /** An event without a directive is answered by the custom skill; it never sees the catalog or the router. */
  lemma NoDirectiveIsSkill(req: SkillRequest, user: string, store: Store, fails: set<Call>, entropy: seq<nat>)
    ensures var inv := Handle(Event(None, req, user), store, fails, entropy);
            inv.reply == SkillReply(HandleSkillRequest(req, user, store, fails, entropy).speech)
  {
  }

  /** A SetMode whose scenario call raises gets the 500 object, not an ErrorResponse envelope. */
  lemma ScenarioFailureIsServerError(mode: string, store: Store, fails: set<Call>, entropy: seq<nat>)
    requires mode == "open" || mode == "close"
    requires ScenarioCall(ScenarioForMode(Some(mode)).value) in fails
    ensures Handle(DirectiveEvent(SetMode(AcceptedEndpointId, mode)), store, fails, entropy).reply
      == ServerError(500, InternalErrorBody)
  {
  }

  /** The modes the static catalog advertises are exactly the modes SetMode acts on. */
  lemma CatalogModesAreRouted(m: string)
    ensures m in CatalogModes() <==>
      SmartHomeHandler(SetMode(AcceptedEndpointId, m), {}).result.value.header.name == "Response"
  {
    CatalogContents();
  }

  /** The modes a dynamically discovered shutter advertises are exactly the modes SetMode acts on. */
  lemma DiscoveredModesAreRouted(md: Module, m: string)
    ensures m in AdvertisedModes(BuildEndpoint(md).capabilities) <==>
      SmartHomeHandler(SetMode(AcceptedEndpointId, m), {}).result.value.header.name == "Response"
  {
  }

  /**
   * The shutter the catalog advertises cannot be controlled: a SetMode addressed to it, in any mode,
   * issues no scenario and answers ErrorResponse.
   */
  lemma AdvertisedShutterRejected(mode: string, fails: set<Call>)
    ensures SmartHomeHandler(SetMode(AdvertisedShutterId, mode), fails)
      == Handled([], Success(GenerateSmartHomeResponse(ErrorStatus)))
  {
  }

  /** No endpoint of the static catalog can be controlled by any directive. */
  lemma NoCatalogEndpointIsControllable(d: Directive, fails: set<Call>)
    requires d.endpoint.Some? && d.endpoint.value.endpointId.Some?
    requires d.endpoint.value.endpointId.value in AdvertisedIds()
    ensures SmartHomeHandler(d, fails).calls == []
    ensures SmartHomeHandler(d, fails).result.Success? ==>
      SmartHomeHandler(d, fails).result.value.header.name == "ErrorResponse"
  {
  }

  /** A discovered shutter is controllable only if its backend module id is literally "velux-shutter". */
  lemma DiscoveredShutterControllable(md: Module, mode: string, fails: set<Call>)
    ensures SmartHomeHandler(SetMode(BuildEndpoint(md).endpointId, mode), fails).calls != [] <==>
      md.id == AcceptedEndpointId && (mode == "open" || mode == "close")
  {
  }

  /** The open and close intents trigger the same scenarios as SetMode open and close. */
  lemma IntentsAgreeWithModes()
    ensures IntentScenario(OpenIntent) == ScenarioForMode(Some("open")) == Some(WakeUp)
    ensures IntentScenario(CloseIntent) == ScenarioForMode(Some("close")) == Some(Bedtime)
  {
  }

  /** Every smart-home reply names the advertised shutter, whichever endpoint the directive addressed. */
  lemma RepliesNameAdvertisedShutter(event: Event, store: Store, fails: set<Call>, entropy: seq<nat>)
    requires Handle(event, store, fails, entropy).reply.SmartHomeReply?
    ensures Handle(event, store, fails, entropy).reply.response.endpointId == AdvertisedShutterId
  {
  }
}
