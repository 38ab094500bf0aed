/**
 * The static discovery catalog `DeviceDiscoveryHandler` answers every Alexa.Discovery directive with:
 * one roller shutter and two scene triggers.
 */
module Catalog {
  import opened Wrappers
  import opened Protocol

  const AdvertisedShutterId := "velux-endpoint-01"
  const CloseAllSceneId := "scene-close-all-shutters"
  const OpenAllSceneId := "scene-open-all-shutters"
  const CatalogMessageId := "0a58ace0-e6ab-47de-b6af-b600b5ab8a7a"

  const StaticShutter := Endpoint(
    AdvertisedShutterId,
    Manufacturer,
    "Velux Roller Shutter",
    "A Velux roller shutter that supports open and close modes",
    [ExteriorBlind],
    None,
    [
      AlexaBase,
      ModeController(ShutterInstance, [Text("Shutter", "en-US"), Text("Rolladen", "de-DE")],
                     true, ShutterModes, Retrievable("mode")),
      EndpointHealth(Retrievable("connectivity"))
    ])

  /** A scene-trigger pseudo-device that cannot be deactivated. */
  function Scene(id: string, name: string, description: string, germanName: string): Endpoint {
    Endpoint(id, Manufacturer, name, description, [SceneTrigger], None,
             [SceneController(false, [Text(name, "en-US"), Text(germanName, "de-DE")])])
  }

  const CloseAllScene := Scene(CloseAllSceneId, "Close All Shutters",
                               "A scene to close all Velux roller shutters", "Alle Rollläden schließen")
  const OpenAllScene := Scene(OpenAllSceneId, "Open All Shutters",
                              "A scene to open all Velux roller shutters", "Alle Rollläden öffnen")

  /** The fixed Discover.Response: shutter first, then the close-all and open-all scenes. */
  function DeviceDiscoveryHandler(): (r: DiscoveryResponse)
    ensures r.header == DiscoveryHeader(CatalogMessageId)
    ensures |r.endpoints| == 3
    ensures r.endpoints[0].endpointId == AdvertisedShutterId
    ensures r.endpoints[1].endpointId == CloseAllSceneId
    ensures r.endpoints[2].endpointId == OpenAllSceneId
  {
    DiscoveryResponse(DiscoveryHeader(CatalogMessageId), [StaticShutter, CloseAllScene, OpenAllScene])
  }

  /** The endpoint ids the catalog advertises. */
  function AdvertisedIds(): set<string> {
    set e | e in DeviceDiscoveryHandler().endpoints :: e.endpointId
  }

  /** The modes the catalog advertises on any endpoint. */
  function CatalogModes(): set<string> {
    set e, m | e in DeviceDiscoveryHandler().endpoints && m in AdvertisedModes(e.capabilities) :: m
  }

  /** The catalog advertises exactly three endpoints and, across all of them, exactly the modes open and close. */
  lemma CatalogContents()
    ensures AdvertisedIds() == {AdvertisedShutterId, CloseAllSceneId, OpenAllSceneId}
    ensures CatalogModes() == {"open", "close"}
  {
    var eps := DeviceDiscoveryHandler().endpoints;
    assert eps == [StaticShutter, CloseAllScene, OpenAllScene];
    assert ModeValues(ShutterModes) == ["open", "close"];
    assert AdvertisedModes(StaticShutter.capabilities) == {"open", "close"} by {
      assert OffersMode(StaticShutter.capabilities[1], "open");
      assert OffersMode(StaticShutter.capabilities[1], "close");
    }
    assert AdvertisedModes(CloseAllScene.capabilities) == {};
    assert AdvertisedModes(OpenAllScene.capabilities) == {};
  }
}
