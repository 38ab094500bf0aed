# Velux roller-shutter Alexa skill: dispatch and response model

This Dafny project models the decision core of an Alexa skill for Velux roller shutters. The skill
sits between the Alexa runtime and a home-automation backend, and its core has four parts:

- **Top-level `handler`.** It sends an event with a `directive` down the smart-home path and any
  other event to the custom skill. On the smart-home path, namespace `Alexa.Discovery` is answered
  with a static catalog and everything else goes to `SmartHomeHandler`. An exception there becomes
  `{statusCode: 500, body}`.
- **`SmartHomeHandler` and `generateSmartHomeResponse`.** The handler is a decision table over
  namespace, endpoint id, directive name and mode. It picks at most one backend scenario, `wake_up`
  or `bedtime`. The response builder makes the fixed `Response`/`ErrorResponse` envelope.
- **The setup-token step of `SetupEnvironmentIntentHandler`.** It reuses the code stored for the
  user or mints a 6-character uppercase code. It then spells the code out one character at a time
  and persists it. The open and close intents map to the same two scenarios.
- **Dynamic discovery in `utils/discover.ts`.** The first home's modules tagged `shutter` become
  endpoint descriptors with a fixed capability set, wrapped in a `Discover.Response`.

The backend library is not part of this model. It appears only as effects:

- The smart-home, skill and setup operations record the backend calls they make, in order
  (`Backend.Call`). Dynamic discovery (`Discover.GetHomeInfo`) records none: its warm-up and home
  fetch are not modelled.
- A parameter `fails: set<Call>` says which calls raise.
- The code→user pairing table is a `Backend.Store`.
- The random code generator takes its randomness as an `entropy` parameter. Only the generator's
  declared promise is relied on: the length and the casing.

Reading a field of an absent object in JavaScript throws a TypeError. The model therefore treats an
absent `header`, `endpoint` or `payload` object as an exception. An absent leaf field is `None`,
which equals no string literal.

Modules, one per file: `Wrappers`, `Protocol` (envelope data shared by both catalogs), `Backend`,
`Catalog` (the static `DeviceDiscoveryHandler` data), `Discover`, `SmartHome`, `Token`, `Skill`,
`Handler`.

What the proofs show about the source:

- **The advertised shutter cannot be controlled.** The catalog advertises endpoint
  `velux-endpoint-01`, but the router acts only on `velux-shutter`. So every SetMode sent to an
  advertised endpoint gets `ErrorResponse`, and no scenario runs
  (`Handler.NoCatalogEndpointIsControllable`).
- **Modes agree, ids do not.** The advertised modes match the routed modes exactly
  (`Handler.CatalogModesAreRouted`). A dynamically discovered shutter can be controlled only if its
  backend module id happens to be `velux-shutter`.
- **An empty stored code is never reused.** `if (!code)` (src/index.ts:23) treats an empty stored
  code as missing, so the step mints a fresh code. Unless that code collides with an earlier
  pairing, it is stored after the empty one, the lookup still finds the empty one first, and the
  next run mints again (`Token.EmptyStoredCodeNotReused`). Idempotence of the setup step therefore
  holds only when the user's first stored code is not the empty string (`Token.SetupIdempotent`).

Further facts about the code that the model keeps:

- A failing scenario call on the directive path produces the 500 object, not an `ErrorResponse`
  (src/index.ts:179-185).
- The router has no ReportState, RangeController or SceneController branches. Such directives get
  `ErrorResponse` (src/index.ts:424-444).
- Dynamic discovery appends no scene endpoints (utils/discover.ts:19-144).
- The spoken code is built before persisting, and is only returned if persisting succeeds
  (src/index.ts:27-47).

## Model

| member | source | states |
|---|---|---|
| `Handler.Handle` | src/index.ts:154-220 | A custom-skill reply comes back iff the event has no directive. Alexa.Discovery always gets the static catalog with no backend call. A 500 `{"message":"Internal Server Error"}` comes back iff the directive is not discovery and either a needed object is missing or the scenario call raised. Every smart-home reply is a well-formed envelope. The directive path never changes the store. |
| `Handler.DiscoveryIgnoresName` | src/index.ts:162-170 | A directive in namespace Alexa.Discovery gets the catalog response whatever its header name, endpoint or payload, and calls nothing. |
| `Handler.OtherDirectivesReachRouter` | src/index.ts:171-178 | Any other directive makes exactly `SmartHomeHandler`'s calls and returns its response, never a discovery response. |
| `Handler.NoDirectiveIsSkill` | src/index.ts:186-211 | An event without a directive is answered by the custom-skill path. |
| `Handler.ScenarioFailureIsServerError` | src/index.ts:179-185 | When the scenario call of a SetMode open/close raises, the reply is the 500 object, not an ErrorResponse envelope. |
| `Handler.CatalogModesAreRouted` | src/index.ts:271-317 | A mode is advertised by the static catalog iff SetMode with that mode on the accepted endpoint answers Response. |
| `Handler.DiscoveredModesAreRouted` | utils/discover.ts:69-115 | A mode is advertised by a discovered shutter iff SetMode with that mode on the accepted endpoint answers Response. |
| `Handler.AdvertisedShutterRejected` | src/index.ts:429-444 | SetMode on the advertised id `velux-endpoint-01` issues no scenario and answers ErrorResponse, in every mode. |
| `Handler.NoCatalogEndpointIsControllable` | src/index.ts:232-416 | No directive addressed to any endpoint of the static catalog issues a scenario or answers Response. |
| `Handler.DiscoveredShutterControllable` | utils/discover.ts:23 | SetMode on a discovered shutter issues a scenario iff the module id is `velux-shutter` and the mode is open or close. |
| `Handler.IntentsAgreeWithModes` | src/index.ts:76-124 | OpenShuttersIntent and SetMode open both mean `wake_up`. CloseShuttersIntent and SetMode close both mean `bedtime`. |
| `Handler.RepliesNameAdvertisedShutter` | src/index.ts:456-458 | Every smart-home reply names `velux-endpoint-01`, whichever endpoint the directive addressed. |
| `SmartHome.GenerateSmartHomeResponse` | src/index.ts:447-461 | The response has namespace Alexa, payloadVersion 3, endpoint `velux-endpoint-01` and an empty payload. Its name is Response iff the status is exactly "SUCCESS", else ErrorResponse. |
| `SmartHome.SmartHomeHandler` | src/index.ts:424-445 | At most one backend call is made. A scenario is issued iff the directive is a SetMode in Alexa.ModeController on `velux-shutter` with mode open or close, and it is the scenario of that mode. The answer is Response iff that call was made and did not raise. An exception escapes iff a needed object is missing or the call raised. |
| `SmartHome.SetModeOpenWakesUp` | src/index.ts:425-435 | SetMode open on `velux-shutter` issues exactly `wake_up` and answers Response. |
| `SmartHome.SetModeCloseGoesToBed` | src/index.ts:436-438 | SetMode close on `velux-shutter` issues exactly `bedtime` and answers Response. |
| `SmartHome.OtherwiseErrorResponse` | src/index.ts:425-444 | Every directive that can be read and is not a SetMode open/close on `velux-shutter` issues nothing and answers ErrorResponse. That covers another namespace, endpoint id, name or mode. |
| `SmartHome.ScenarioFailureEscapes` | src/index.ts:433-438 | A raising scenario call leaves the handler as an exception. |
| `Catalog.DeviceDiscoveryHandler` | src/index.ts:222-422 | The static response has header Alexa.Discovery / Discover.Response / 3 and lists `velux-endpoint-01`, then the close-all scene, then the open-all scene. |
| `Catalog.CatalogContents` | src/index.ts:232-416 | The catalog advertises exactly those three ids and, across all endpoints, exactly the modes open and close. |
| `Discover.BuildEndpoint` | utils/discover.ts:22-141 | The endpoint id and the customIdentifier are the module id. The friendlyName is "Roller Shutter " + name and the model is the module type. There are exactly three capabilities: Alexa, then Alexa.ModeController with instance Shutter.Position and modes ["open", "close"], then Alexa.EndpointHealth. |
| `Discover.CollectEndpoints` | utils/discover.ts:19-144 | The forEach/push loop yields one descriptor per shutter module, in module order. |
| `Discover.GetHomeInfo` | utils/discover.ts:16-158 | There is no response iff there is no home. Otherwise the header is Alexa.Discovery / Discover.Response / 3 with the given message id, and the endpoints are built from `homes[0]` alone. |
| `Discover.ShutterTagExact` | utils/discover.ts:20 | A module passes the filter iff its `velux_type` is exactly "shutter". A missing, empty or other tag is skipped. |
| `Discover.ShuttersConcat` | utils/discover.ts:19-20 | Filtering distributes over concatenation, so module order is kept. |
| `Discover.ShuttersMembership` | utils/discover.ts:19-20 | A module is kept iff it is in the list and is a shutter. |
| `Discover.EndpointsFollowModules` | utils/discover.ts:19-31 | There are as many endpoints as shutter modules, and no more than there are modules. The i-th endpoint's id and customIdentifier are the i-th shutter module's id. |
| `Discover.EndpointIffShutterModule` | utils/discover.ts:19-143 | An endpoint is discovered iff some shutter module of the first home describes it. |
| `Backend.FindKeyByValue` | src/index.ts:20 | The lookup finds nothing iff no pairing holds the user. Otherwise it returns the code of the first pairing that holds the user. |
| `Backend.PersistIsMapUpdate` | src/index.ts:45 | Read as a map, persisting pairs the code with the user and moves no other code. |
| `Backend.FindAfterPersist` | src/index.ts:20-45 | Persisting the code the lookup returned, or any code when it returned nothing, makes the lookup return that code. |
| `Backend.PersistIdempotent` | src/index.ts:45 | Persisting the same pairing twice equals persisting it once. |
| `Token.RandomAlphanumeric` | src/types/random-string-alphanumeric-generator.d.ts:3-9 | The generated string has the requested length. With "uppercase" every character is A-Z or 0-9; with "lowercase", a-z or 0-9. |
| `Token.SpellOutRoundTrip` | src/index.ts:27-29 | Parsing the spoken form gives back exactly the code that was spelled. |
| `Token.SpellOutSegments` | src/index.ts:27-29 | The spoken form is one spell-out-and-break segment per character: the i-th block spells the i-th character. |
| `Token.SetupEnvironment` | src/index.ts:18-57 | The lookup always runs first. A usable stored code is reused unchanged; otherwise the code is 6 uppercase alphanumerics. The spoken form is that code spelled out, one segment per character, and parses back to it. The new store is exactly the old one with that code persisted for the user, so it pairs the code with the user and moves no other code. The step stops at the first raising call and then leaves the store unchanged. |
| `Token.SetupIdempotent` | src/index.ts:20-45 | A second run against the store the first run left speaks the same code and leaves the store unchanged, unless the user's first stored code is empty. |
| `Token.EmptyStoredCodeNotReused` | src/index.ts:20-45 | For every store whose first pairing for the user holds the empty code, the step mints a fresh code. If that code was not already paired, the empty code is still found first afterwards, so the next run mints a fresh code again. |
| `Token.ParseSpokenUnique` | src/index.ts:27-29 | Any text that parses to a code is exactly that code spelled out, so the spoken form and the code determine each other. |
| `Backend.FindKeepsFirst` | src/index.ts:20 | Appending a pairing after the user's first pairing leaves the lookup's answer unchanged. |
| `Skill.HandleSkillRequest` | src/index.ts:10-152 | Only the setup intent changes the store. A scenario is called iff the warm-up did not raise and the intent maps to that scenario. A spoken token parses to a code the store pairs with the user. When a usable stored code exists, the spoken token is that code. |
| `Skill.OpenIntentWakesUp` | src/index.ts:76-99 | OpenShuttersIntent issues `wake_up` and, if the call succeeds, says the shutters are opening. |
| `Skill.CloseIntentGoesToBed` | src/index.ts:102-125 | CloseShuttersIntent issues `bedtime`. A raising call is spoken as a failure, not thrown. |

## Left out

- Alexa SDK machinery (`SkillBuilders`, `responseBuilder`, the callback-to-Promise wrapper) is host framework. Handler selection is modelled as "first `canHandle` that accepts, else the catch-all error handler". Because that error handler accepts every error, the custom-skill path never reaches its own 500 fallback in the model.
- The backend calls `warmUp`, `sendScenarioRequestWithRetry`, `getHomeInfoWithRetry`, `findKeyByValue` and `persistUserId` are not part of this model. They appear as recorded calls that may raise. Their retry policy belongs to the backend.
- `persistUserId(code)` is assumed to pair the code with the current user. It re-pairs every entry under that code, or appends a new pairing at the end of the store. Its implementation is not part of this model.
- `findKeyByValue(user)` is assumed to return the first pairing for the user in storage order. `Token.SetupIdempotent` and `Token.EmptyStoredCodeNotReused` depend on this order and on the append above.
- A `persistUserId` call that raises is assumed to write nothing, so a failed setup step leaves the store unchanged.
- `Discover.GetHomeInfo` does not record its backend calls: neither `warmUp` (utils/discover.ts:12, outside the try) nor `getHomeInfoWithRetry`.
- The module-level `code` variable and the process-wide `shared.state.storedUserId` are replaced by explicit parameters. When a session carries no user id, the source reads whatever id a previous invocation left. The model uses the event's id instead.
- Logging, the AWS region setting, the hard-coded user id in `utils/discover.ts` and the uuid `messageId` are left out. The message id is a parameter.
- The German and SSML prompt texts are left out beyond the per-character spelling of the code. Speech is an enumeration.
- The internals of the random generator are left out. Its randomness is the `entropy` parameter.
- `utils/discover.js` is a superseded static catalog with no behaviour. Its endpoint id `velux-shutter` is the id the router still accepts.
- The ReportState, RangeController and SceneController Activate directives are not handled by the code. Neither are scene endpoints in dynamic discovery. The model does not invent them: these directives fall through to ErrorResponse.
- Discover.GetHomeInfo: does not model a failing `getHomeInfoWithRetry` or a home without a `modules` list. In the source both are caught and logged, with no response, like the missing-home case. Module records are assumed to carry an id and a name.
- The source's `getHomeInfo` only logs the response it builds. The model returns it.
