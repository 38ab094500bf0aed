/** The Alexa smart-home envelope pieces shared by the static and the dynamic discovery catalogs. */
module Protocol {
  import opened Wrappers

  /** Every header and capability in this skill declares payload/interface version "3". */
  const PayloadVersion := "3"
  const Manufacturer := "Velux"
  const DiscoveryNamespace := "Alexa.Discovery"
  const DiscoverResponseName := "Discover.Response"
  const ShutterInstance := "Shutter.Position"
  const ExteriorBlind := "EXTERIOR_BLIND"
  const SceneTrigger := "SCENE_TRIGGER"

  /** A friendly name of a capability resource: localised text or a catalogued asset. */
  datatype Label = Text(text: string, locale: string) | Asset(assetId: string)

  /** One entry of a ModeController's `configuration.supportedModes`. */
  datatype ModeSpec = ModeSpec(value: string, friendlyNames: seq<Label>)

  /** The two modes a shutter advertises, "open" before "close", with their English and German names. */
  const ShutterModes: seq<ModeSpec> := [
    ModeSpec("open", [Text("open", "en-US"), Text("öffnen", "de-DE")]),
    ModeSpec("close", [Text("close", "en-US"), Text("schließen", "de-DE")])
  ]

  /** The `properties` block of a capability. */
  datatype Properties = Properties(supported: seq<string>, proactivelyReported: bool, retrievable: bool)

  /** `properties` of a retrievable, not proactively reported capability supporting one property. */
  function Retrievable(property: string): Properties {
    Properties([property], false, true)
  }

  /** The capability kinds this skill advertises; each is an `AlexaInterface` of version "3". */
  datatype Capability =
    | AlexaBase
    | ModeController(instance: string, friendlyNames: seq<Label>, ordered: bool,
                     supportedModes: seq<ModeSpec>, properties: Properties)
    | EndpointHealth(properties: Properties)
    | SceneController(supportsDeactivation: bool, friendlyNames: seq<Label>)
  {
    function Interface(): string {
      match this
      case AlexaBase => "Alexa"
      case ModeController(_, _, _, _, _) => "Alexa.ModeController"
      case EndpointHealth(_) => "Alexa.EndpointHealth"
      case SceneController(_, _) => "Alexa.SceneController"
    }
  }

  /** `additionalAttributes` of a dynamically discovered endpoint. */
  datatype Attributes = Attributes(manufacturer: string, model: Option<string>, customIdentifier: string)

  /** An endpoint descriptor of a Discover.Response payload (the `cookie` is always empty and omitted). */
  datatype Endpoint = Endpoint(
    endpointId: string,
    manufacturerName: string,
    friendlyName: string,
    description: string,
    displayCategories: seq<string>,
    additionalAttributes: Option<Attributes>,
    capabilities: seq<Capability>)

  /** The `event.header` of every outbound envelope. */
  datatype EventHeader = EventHeader(namespace: string, name: string, payloadVersion: string, messageId: string)

  /** `{event: {header, payload: {endpoints}}}`. */
  datatype DiscoveryResponse = DiscoveryResponse(header: EventHeader, endpoints: seq<Endpoint>)

  /** The header every Discover.Response carries, given its message id. */
  function DiscoveryHeader(messageId: string): EventHeader {
    EventHeader(DiscoveryNamespace, DiscoverResponseName, PayloadVersion, messageId)
  }

  /** The mode values a list of mode specifications declares, in order. */
  function ModeValues(modes: seq<ModeSpec>): (vs: seq<string>)
    ensures |vs| == |modes|
    ensures forall i :: 0 <= i < |modes| ==> vs[i] == modes[i].value
  {
    if |modes| == 0 then [] else [modes[0].value] + ModeValues(modes[1..])
  }

  /** Whether capability `c` is a ModeController that offers mode `m`. */
  predicate OffersMode(c: Capability, m: string) {
    c.ModeController? && m in ModeValues(c.supportedModes)
  }

  /** The mode values any ModeController capability in `caps` advertises. */
  function AdvertisedModes(caps: seq<Capability>): (ms: set<string>)
    ensures forall m :: m in ms <==> exists i :: 0 <= i < |caps| && OffersMode(caps[i], m)
  {
    if |caps| == 0 then {}
    else
      var here := if caps[0].ModeController? then set v | v in ModeValues(caps[0].supportedModes) else {};
      var rest := AdvertisedModes(caps[1..]);
      assert forall m :: m in rest ==> exists i :: 0 <= i < |caps| && OffersMode(caps[i], m) by {
        forall m | m in rest ensures exists i :: 0 <= i < |caps| && OffersMode(caps[i], m) {
          var i :| 0 <= i < |caps[1..]| && OffersMode(caps[1..][i], m);
          assert caps[i + 1] == caps[1..][i];
        }
      }
      here + rest
  }
}
