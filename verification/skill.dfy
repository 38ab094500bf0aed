/**
 * The custom-skill path: the user-id interceptor, then the first request handler that accepts the
 * request (launch, setup, open shutters, close shutters), and the catch-all error handler.
 */
module Skill {
  import opened Wrappers
  import opened Backend
  import opened Token

  const SetupIntent := "SetupEnvironmentIntent"
  const OpenIntent := "OpenShuttersIntent"
  const CloseIntent := "CloseShuttersIntent"

  /** The `request` of a custom-skill event. */
  datatype SkillRequest = LaunchRequest | IntentRequest(intentName: string) | OtherRequest(requestType: string)

  /** What the user hears; the German wording is left out, the spoken setup code is kept. */
  datatype Speech =
    | Welcome
    | TokenPrompt(spokenCode: string)
    | ShuttersOpening
    | ShuttersClosing
    | OpenFailed
    | CloseFailed
    | ConfigLoadFailed
    | NotUnderstood

  /** The backend calls made, the speech, and the store afterwards. */
  datatype SkillOutcome = SkillOutcome(calls: seq<Call>, speech: Speech, store: Store)

  /** The intent-facing vocabulary: opening wakes up, closing goes to bed. */
  function IntentScenario(intentName: string): Option<Scenario> {
    if intentName == OpenIntent then Some(WakeUp)
    else if intentName == CloseIntent then Some(Bedtime)
    else None
  }

  /** Runs a shutter intent's scenario; a raising call is caught and spoken as a failure. */
  function ShutterIntent(s: Scenario, store: Store, fails: set<Call>): (o: SkillOutcome)
    ensures o.calls == [ScenarioCall(s)] && o.store == store
  {
    var call := ScenarioCall(s);
    var speech := match s
      case WakeUp => if call in fails then OpenFailed else ShuttersOpening
      case Bedtime => if call in fails then CloseFailed else ShuttersClosing;
    SkillOutcome([call], speech, store)
  }

  /** The request after the interceptor, dispatched to the first handler whose `canHandle` accepts it. */
  function Dispatch(req: SkillRequest, user: string, store: Store, fails: set<Call>, entropy: seq<nat>): SkillOutcome {
    match req
    case LaunchRequest => SkillOutcome([], Welcome, store)
    case IntentRequest(name) =>
      if name == SetupIntent then
        var o := SetupEnvironment(store, user, fails, entropy);
        SkillOutcome(o.calls, if o.issued.Some? then TokenPrompt(o.issued.value.spoken) else ConfigLoadFailed, o.store)
      else if IntentScenario(name).Some? then
        ShutterIntent(IntentScenario(name).value, store, fails)
      else SkillOutcome([], NotUnderstood, store)
    case OtherRequest(_) => SkillOutcome([], NotUnderstood, store)
  }

  /**
   * A custom-skill request from session user `user`. A non-empty user id triggers the warm-up; if the
   * warm-up raises, the error handler answers and no request handler runs.
   */
  function HandleSkillRequest(req: SkillRequest, user: string, store: Store, fails: set<Call>, entropy: seq<nat>)
    : (o: SkillOutcome)
    ensures o.store != store ==> req == IntentRequest(SetupIntent)
    ensures forall s :: ScenarioCall(s) in o.calls <==>
      (user == "" || WarmUpCall !in fails) && req.IntentRequest? && IntentScenario(req.intentName) == Some(s)
    ensures o.speech.TokenPrompt? ==>
      exists code :: ParseSpoken(o.speech.spokenCode) == Some(code) && Lookup(o.store, code) == Some(user)
    ensures o.speech.TokenPrompt? && ReusableCode(store, user).Some? ==>
      ParseSpoken(o.speech.spokenCode) == ReusableCode(store, user)
  {
    if user != "" then
      if WarmUpCall in fails then SkillOutcome([WarmUpCall], NotUnderstood, store)
      else
        var o := Dispatch(req, user, store, fails, entropy);
        SkillOutcome([WarmUpCall] + o.calls, o.speech, o.store)
    else Dispatch(req, user, store, fails, entropy)
  }

  /** OpenShuttersIntent issues wake_up and, when it succeeds, says the shutters are opening. */
  lemma OpenIntentWakesUp(user: string, store: Store, fails: set<Call>, entropy: seq<nat>)
    requires WarmUpCall !in fails && ScenarioCall(WakeUp) !in fails
    ensures var o := HandleSkillRequest(IntentRequest(OpenIntent), user, store, fails, entropy);
            o.speech == ShuttersOpening && ScenarioCall(WakeUp) in o.calls && o.store == store
  {
  }

  /** CloseShuttersIntent issues bedtime; when it raises, the failure is spoken, not thrown. */
  lemma CloseIntentGoesToBed(user: string, store: Store, fails: set<Call>, entropy: seq<nat>)
    requires WarmUpCall !in fails
    ensures var o := HandleSkillRequest(IntentRequest(CloseIntent), user, store, fails, entropy);
            ScenarioCall(Bedtime) in o.calls && o.store == store &&
            o.speech == (if ScenarioCall(Bedtime) in fails then CloseFailed else ShuttersClosing)
  {
  }
}
