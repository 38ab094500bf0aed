/**
 * Dynamic discovery (utils/discover.ts, `getHomeInfo`): the first home's shutter modules become
 * endpoint descriptors with a fixed capability set, wrapped in a Discover.Response.
 */
module Discover {
  import opened Wrappers
  import opened Protocol

  const ShutterType := "shutter"

  /** A backend module record: `id`, `name`, `type` and the optional `velux_type` tag. */
  datatype Module = Module(id: string, name: string, moduleType: Option<string>, veluxType: Option<string>)

  datatype Home = Home(modules: seq<Module>)

  /** Why no Discover.Response was produced: `homes[0]` does not exist. */
  datatype DiscoverError = NoHome

  /** A module yields an endpoint only when its `velux_type` is present, non-empty and "shutter". */
  predicate IsShutter(m: Module) {
    !(m.veluxType.None? || m.veluxType.value == "" || m.veluxType.value != ShutterType)
  }

  /** The reference filter: the shutter modules of `ms`, in module order. */
  function Shutters(ms: seq<Module>): seq<Module> {
    if |ms| == 0 then []
    else Shutters(ms[..|ms| - 1]) + (if IsShutter(ms[|ms| - 1]) then [ms[|ms| - 1]] else [])
  }

  const ShutterCapabilities: seq<Capability> := [
    AlexaBase,
    ModeController(ShutterInstance,
                   [Text("Shutter", "en-US"), Text("Rolladen", "de-DE"), Asset("Alexa.DeviceName.Shade")],
                   false, ShutterModes, Retrievable("mode")),
    EndpointHealth(Retrievable("connectivity"))
  ]

  /** The endpoint descriptor of one shutter module. */
  function BuildEndpoint(m: Module): (e: Endpoint)
    ensures e.endpointId == m.id
    ensures e.additionalAttributes == Some(Attributes(Manufacturer, m.moduleType, m.id))
    ensures e.friendlyName == "Roller Shutter " + m.name
    ensures |e.capabilities| == 3
    ensures e.capabilities[0].Interface() == "Alexa"
    ensures e.capabilities[1].Interface() == "Alexa.ModeController"
    ensures e.capabilities[1].instance == ShutterInstance
    ensures ModeValues(e.capabilities[1].supportedModes) == ["open", "close"]
    ensures e.capabilities[2].Interface() == "Alexa.EndpointHealth"
  {
    assert ModeValues(ShutterModes) == ["open", "close"];
    Endpoint(m.id, Manufacturer, "Roller Shutter " + m.name, "A Velux roller shutter",
             [ExteriorBlind], Some(Attributes(Manufacturer, m.moduleType, m.id)), ShutterCapabilities)
  }

  /** The reference result: one descriptor per shutter module, in module order. */
  function ShutterEndpoints(ms: seq<Module>): (eps: seq<Endpoint>)
    ensures |eps| == |Shutters(ms)|
    ensures forall i :: 0 <= i < |eps| ==> eps[i] == BuildEndpoint(Shutters(ms)[i])
  {
    seq(|Shutters(ms)|, i requires 0 <= i < |Shutters(ms)| => BuildEndpoint(Shutters(ms)[i]))
  }

  /** The `forEach` over the modules that pushes one descriptor per shutter module. */
  method CollectEndpoints(ms: seq<Module>) returns (endpoints: seq<Endpoint>)
    ensures endpoints == ShutterEndpoints(ms)
  {
    endpoints := [];
    var k := 0;
    while k < |ms|
      invariant 0 <= k <= |ms|
      invariant endpoints == ShutterEndpoints(ms[..k])
    {
      var m := ms[k];
      assert ms[..k + 1][..k] == ms[..k];
      assert ms[..k + 1][k] == m;
      if IsShutter(m) {
        endpoints := endpoints + [BuildEndpoint(m)];
      }
      k := k + 1;
    }
    assert ms[..k] == ms;
  }

  /** The Discover.Response built from `homes[0]`; no response when there is no home. */
  method GetHomeInfo(homes: seq<Home>, messageId: string) returns (r: Result<DiscoveryResponse, DiscoverError>)
    ensures r.Failure? <==> |homes| == 0
    ensures r.Success? ==> r.value.header == EventHeader("Alexa.Discovery", "Discover.Response", "3", messageId)
    ensures r.Success? ==> r.value.endpoints == ShutterEndpoints(homes[0].modules)
  {
    if |homes| == 0 {
      return Failure(NoHome);
    }
    var endpoints := CollectEndpoints(homes[0].modules);
    r := Success(DiscoveryResponse(DiscoveryHeader(messageId), endpoints));
  }

  /** Only a module tagged exactly "shutter" passes the filter; a missing or other tag is skipped. */
  lemma ShutterTagExact(m: Module)
    ensures IsShutter(m) <==> m.veluxType == Some("shutter")
  {
  }

  /** The filter distributes over concatenation, so it keeps module order. */
  lemma {:induction false} ShuttersConcat(a: seq<Module>, b: seq<Module>)
    ensures Shutters(a + b) == Shutters(a) + Shutters(b)
  {
    if |b| == 0 {
      assert a + b == a;
    } else {
      var b' := b[..|b| - 1];
      assert (a + b)[..|a + b| - 1] == a + b';
      assert (a + b)[|a + b| - 1] == b[|b| - 1];
      ShuttersConcat(a, b');
    }
  }

  /** A module is kept exactly when it is in the input and is a shutter. */
  lemma {:induction false} ShuttersMembership(ms: seq<Module>, m: Module)
    ensures m in Shutters(ms) <==> m in ms && IsShutter(m)
  {
    if |ms| > 0 {
      var init := ms[..|ms| - 1];
      assert ms == init + [ms[|ms| - 1]];
      ShuttersMembership(init, m);
    }
  }

  /** Endpoints are in one-to-one, order-preserving correspondence with the shutter modules. */
  lemma EndpointsFollowModules(ms: seq<Module>)
    ensures |ShutterEndpoints(ms)| == |Shutters(ms)| <= |ms|
    ensures forall i :: 0 <= i < |Shutters(ms)| ==>
      ShutterEndpoints(ms)[i].endpointId == Shutters(ms)[i].id &&
      ShutterEndpoints(ms)[i].additionalAttributes.value.customIdentifier == Shutters(ms)[i].id
  {
  }

  /** An endpoint is discovered iff some shutter module of the first home describes it. */
  lemma EndpointIffShutterModule(ms: seq<Module>, e: Endpoint)
    ensures e in ShutterEndpoints(ms) <==> exists m :: m in ms && IsShutter(m) && e == BuildEndpoint(m)
  {
    var eps := ShutterEndpoints(ms);
    if e in eps {
      var i :| 0 <= i < |eps| && eps[i] == e;
      var m := Shutters(ms)[i];
      ShuttersMembership(ms, m);
    }
    if exists m :: m in ms && IsShutter(m) && e == BuildEndpoint(m) {
      var m :| m in ms && IsShutter(m) && e == BuildEndpoint(m);
      ShuttersMembership(ms, m);
      var i :| 0 <= i < |Shutters(ms)| && Shutters(ms)[i] == m;
      assert eps[i] == e;
    }
  }
}
