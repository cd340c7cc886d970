/**
 * The SDK entry point shared by ProbaSdk and AppboosterSdk: builder
 * validation and device-id selection, seeding the stored defaults on
 * construction, the shake debounce that opens the debug screen, and
 * the delegation of fetches to the client. The clock, the main-thread
 * check, the UUID generator and the JWT signer are inputs.
 */
module Sdk {
  import opened Wrappers
  import opened Models
  import opened Lists
  import opened Storage
  import opened Resolver
  import opened Dispatch
  import opened Fetching

  const DEFAULT_CONNECTION_TIMEOUT := 3000
  const SHAKE_INTERVAL_MILLIS := 5000

  /** The builder's fields. `defaults` is the host map in its iteration order. */
  datatype BuilderConfig = BuilderConfig(
    sdkToken: Option<string>,
    appId: Option<string>,
    deviceId: Option<string>,
    usingShake: bool,
    connectionTimeout: int,
    showLogs: bool,
    defaults: seq<(string, string)>)

  /** A fresh builder: nothing set, shake on, 3000 ms timeout, logs off, no defaults. */
  const DEFAULT_CONFIG := BuilderConfig(None, None, None, true, DEFAULT_CONNECTION_TIMEOUT, false, [])

  /** `isNullOrEmpty`. */
  predicate IsNullOrEmpty(s: Option<string>) {
    s.None? || s.value == ""
  }

  /** The three checks `build` makes before anything else. */
  predicate AcceptsConfig(c: BuilderConfig) {
    !IsNullOrEmpty(c.sdkToken) && !IsNullOrEmpty(c.appId) && c.connectionTimeout > 0
  }

  /** A fresh builder is rejected until a token and an app id are set. */
  lemma DefaultConfigRejected(token: string, appId: string)
    ensures !AcceptsConfig(DEFAULT_CONFIG)
    ensures !AcceptsConfig(DEFAULT_CONFIG.(sdkToken := Some(token)))
    ensures AcceptsConfig(DEFAULT_CONFIG.(sdkToken := Some(token), appId := Some(appId))) <==> token != "" && appId != ""
  {
  }

  /** The device id `build` settles on: the builder's own unless null or empty, else the stored one, else a fresh one. */
  function ChosenDeviceId(c: BuilderConfig, stored: Option<string>, freshId: string): (r: string)
    ensures r == freshId || (c.deviceId.Some? && r == c.deviceId.value) || (stored.Some? && r == stored.value)
    ensures !IsNullOrEmpty(c.deviceId) ==> r == c.deviceId.value
    ensures IsNullOrEmpty(c.deviceId) && stored.Some? ==> r == stored.value
    ensures r != freshId ==> !IsNullOrEmpty(c.deviceId) || stored.Some?
  {
    if !IsNullOrEmpty(c.deviceId) then c.deviceId.value
    else if stored.Some? then stored.value
    else freshId
  }

  /**
   * The device id is stable across builds: once written, a later build without an explicit id reuses it,
   * whatever fresh id it is offered; an explicit id always wins.
   */
  lemma DeviceIdStable(first: BuilderConfig, later: BuilderConfig, stored: Option<string>, fresh1: string, fresh2: string)
    ensures IsNullOrEmpty(later.deviceId) ==>
              ChosenDeviceId(later, Some(ChosenDeviceId(first, stored, fresh1)), fresh2) == ChosenDeviceId(first, stored, fresh1)
    ensures !IsNullOrEmpty(later.deviceId) ==>
              ChosenDeviceId(later, Some(ChosenDeviceId(first, stored, fresh1)), fresh2) == later.deviceId.value
    ensures IsNullOrEmpty(first.deviceId) && stored.None? ==> ChosenDeviceId(first, stored, fresh1) == fresh1
  {
  }

  /**
   * `init`: the stored defaults after construction. Seeding never overwrites: non-empty stored defaults are
   * kept as they are, and empty ones become one `Experiment(k, v, 0)` per host default, in order;
   * SeededKeysResolve says what `get` then answers.
   */
  function SeededDefaults(stored: seq<Experiment>, defaults: seq<(string, string)>): (r: seq<Experiment>)
    ensures stored != [] ==> r == stored
    ensures stored == [] ==> |r| == |defaults|
    ensures stored == [] ==> forall i :: 0 <= i < |defaults| ==> r[i] == Experiment(defaults[i].0, defaults[i].1, 0)
  {
    if stored == [] then seq(|defaults|, i requires 0 <= i < |defaults| => KeyValueExperiment(defaults[i].0, defaults[i].1))
    else stored
  }

  /** After seeding an empty store, and outside debug mode, `get` answers each host default with its value. */
  lemma SeededKeysResolve(s: StoreState, defaults: seq<(string, string)>, i: nat)
    requires s.experimentsDefaults == [] && !s.isInDebugMode && DistinctFirsts(defaults) && i < |defaults|
    ensures Value(s.(experimentsDefaults := SeededDefaults([], defaults)), defaults[i].0) == Some(defaults[i].1)
  {
    var seeded := SeededDefaults([], defaults);
    assert seeded[i].key == defaults[i].0;
    FirstValueOfUnique(seeded, i);
  }

  /** A stale non-empty store shadows the host defaults: `get` answers from the store, not from the builder's map. */
  lemma StaleStoreShadowsDefaults()
    ensures var s := UNSET.(experimentsDefaults := [Experiment("k", "old", 3)]);
            Value(s.(experimentsDefaults := SeededDefaults(s.experimentsDefaults, [("k", "new"), ("j", "x")])), "k") == Some("old") &&
            Value(s.(experimentsDefaults := SeededDefaults(s.experimentsDefaults, [("k", "new"), ("j", "x")])), "j") == None
  {
  }

  /** `hearShake`'s two guards: debug mode, and no earlier accepted shake or one at least 5000 ms ago. */
  predicate ShakeAccepted(armed: bool, last: int, now: int) {
    armed && (last == -1 || now - last >= SHAKE_INTERVAL_MILLIS)
  }

  /** The shakes that open the debug screen, from a sequence of shake times. */
  function AcceptedShakes(armed: bool, last: int, times: seq<int>): (r: seq<int>)
    ensures |r| <= |times|
    ensures forall x :: x in r ==> x in times
    ensures !armed ==> r == []
    ensures times != [] && ShakeAccepted(armed, last, times[0]) ==> |r| > 0 && r[0] == times[0]
    decreases |times|
  {
    if times == [] then []
    else if ShakeAccepted(armed, last, times[0]) then [times[0]] + AcceptedShakes(armed, times[0], times[1..])
    else AcceptedShakes(armed, last, times[1..])
  }

  /**
   * With a non-negative clock, accepted shakes are at least 5000 ms apart, and the first is 5000 ms after
   * the last one accepted before.
   */
  lemma {:induction false} AcceptedShakesAreSpaced(armed: bool, last: int, times: seq<int>)
    requires forall i :: 0 <= i < |times| ==> times[i] >= 0
    ensures var acc := AcceptedShakes(armed, last, times);
            (forall i :: 0 <= i < |acc| - 1 ==> acc[i + 1] - acc[i] >= SHAKE_INTERVAL_MILLIS) &&
            (last != -1 && |acc| > 0 ==> acc[0] - last >= SHAKE_INTERVAL_MILLIS)
    decreases |times|
  {
    if times != [] {
      if ShakeAccepted(armed, last, times[0]) {
        AcceptedShakesAreSpaced(armed, times[0], times[1..]);
      } else {
        AcceptedShakesAreSpaced(armed, last, times[1..]);
      }
    }
  }

  class Sdk {
    const variant: Variant
    const store: Store
    const defaults: seq<(string, string)>
    const usingShake: bool
    const client: Client
    const handler: Handler
    /** `mLastShakeTime`: when the debug screen was last opened by a shake; -1 before that. */
    var lastShakeTime: int

    ghost predicate Valid() {
      client.store == store && handler.variant == variant
    }

    /** The private constructor: wires the client and handler, then seeds the stored defaults if they are empty. */
    constructor (variant: Variant, store: Store, config: BuilderConfig, requestBuilder: RequestBuilder)
      modifies store.prefs
      ensures Valid() && fresh(client) && fresh(handler)
      ensures this.variant == variant && this.store == store && defaults == config.defaults
      ensures usingShake == config.usingShake && lastShakeTime == -1
      ensures client.requestBuilder == requestBuilder && client.lastOperationDurationMillis == -1 && handler.queue == []
      ensures store.State() == old(store.State()).(experimentsDefaults := SeededDefaults(old(store.State()).experimentsDefaults, config.defaults))
    {
      this.variant := variant;
      this.store := store;
      defaults := config.defaults;
      usingShake := config.usingShake;
      lastShakeTime := -1;
      client := new Client(store, requestBuilder);
      handler := new Handler(variant);
      new;
      if store.State().experimentsDefaults == [] {
        store.SetExperimentsDefaults(SeededDefaults([], config.defaults));
      }
    }

    /** The shake listener at time `now`: opens the debug screen when accepted, and only then moves the clock. */
    method HearShake(now: int) returns (launched: bool)
      modifies this
      ensures launched == ShakeAccepted(usingShake && store.State().isInDebugMode, old(lastShakeTime), now)
      ensures lastShakeTime == if launched then now else old(lastShakeTime)
    {
      if !usingShake || !store.State().isInDebugMode {
        return false;
      }
      if lastShakeTime != -1 && now - lastShakeTime < SHAKE_INTERVAL_MILLIS {
        return false;
      }
      lastShakeTime := now;
      launched := true;
    }

    /**
     * The shake detector calling `hearShake` once per shake, in order: the screen opens on exactly the
     * accepted shakes, and the last of them becomes the last shake time.
     */
    method HearShakes(times: seq<int>) returns (launches: seq<int>)
      modifies this
      ensures launches == AcceptedShakes(usingShake && store.State().isInDebugMode, old(lastShakeTime), times)
      ensures lastShakeTime == if launches == [] then old(lastShakeTime) else launches[|launches| - 1]
      decreases |times|
    {
      if times == [] {
        return [];
      }
      var launched := HearShake(times[0]);
      var later := HearShakes(times[1..]);
      launches := if launched then [times[0]] + later else later;
    }

    /** `launchDebugMode`: opens the screen and answers true exactly in debug mode. */
    method LaunchDebugMode() returns (launched: bool)
      ensures launched <==> store.State().isInDebugMode
    {
      launched := store.State().isInDebugMode;
    }

    /** `fetch`: the client's fetch over the host defaults' keys, through this SDK's handler. */
    method Fetch(onSuccess: SuccessListener, onError: ErrorListener, startMillis: int,
                 r1: HttpOutcome<ExperimentResponse>, endMillis: int, r2: HttpOutcome<CompositeExperimentResponse>)
      returns (requests: seq<Request>)
      requires Valid()
      modifies client, store.prefs, handler
      ensures Valid()
      ensures client.lastOperationDurationMillis == endMillis - startMillis
      ensures var f := FetchSpec(old(store.State()), r1, r2);
              store.State() == f.state &&
              handler.queue == old(handler.queue) + MessagesFor(variant, f.outcomes, onSuccess, onError) &&
              requests == IssuedRequests(client.requestBuilder, KeysOf(defaults), f.requests)
    {
      requests := client.FetchExperiments(KeysOf(defaults), handler, onSuccess, onError, startMillis, r1, endMillis, r2);
    }
  }

  /** `defaults.keys`, in the host map's order. */
  function KeysOf(defaults: seq<(string, string)>): (keys: seq<string>)
    ensures |keys| == |defaults| && forall i :: 0 <= i < |keys| ==> keys[i] == defaults[i].0
  {
    seq(|defaults|, i requires 0 <= i < |defaults| => defaults[i].0)
  }

  /**
   * `Builder.build`, with the main-thread check, the UUID generator and the token signer as inputs. A rejected
   * configuration or a call off the main thread fails with a setup error before writing anything; otherwise the
   * chosen device id is persisted, and only then can signing the access token still fail.
   */
  method Build(variant: Variant, c: BuilderConfig, store: Store, freshId: string, onMainThread: bool,
               tokenSignable: bool, apiHost: string, appVersion: string, accessToken: string)
    returns (r: Result<Sdk, SdkError>)
    modifies store.prefs
    ensures !AcceptsConfig(c) || !onMainThread ==> r == Failure(Setup) && store.State() == old(store.State())
    ensures AcceptsConfig(c) && onMainThread && !tokenSignable ==>
              r == Failure(Setup) &&
              store.State() == old(store.State()).(deviceId := Some(ChosenDeviceId(c, old(store.State()).deviceId, freshId)))
    ensures AcceptsConfig(c) && onMainThread && tokenSignable ==>
              r.Success? && fresh(r.value) && r.value.Valid() &&
              r.value.store == store && r.value.variant == variant && r.value.lastShakeTime == -1 &&
              r.value.defaults == c.defaults && r.value.usingShake == c.usingShake &&
              r.value.client.lastOperationDurationMillis == -1 && r.value.handler.queue == [] &&
              r.value.client.requestBuilder == RequestBuilder(apiHost, c.appId.value, accessToken, appVersion) &&
              store.State() == old(store.State()).(
                deviceId := Some(ChosenDeviceId(c, old(store.State()).deviceId, freshId)),
                experimentsDefaults := SeededDefaults(old(store.State()).experimentsDefaults, c.defaults))
  {
    if IsNullOrEmpty(c.sdkToken) || IsNullOrEmpty(c.appId) || c.connectionTimeout <= 0 {
      return Failure(Setup);
    }
    var deviceId := c.deviceId;
    if IsNullOrEmpty(deviceId) {
      deviceId := Some(store.State().deviceId.GetOr(freshId));
    }
    if !onMainThread {
      return Failure(Setup);
    }
    store.SetDeviceId(deviceId);
    if !tokenSignable {
      return Failure(Setup);
    }
    var sdk := new Sdk(variant, store, c, RequestBuilder(apiHost, c.appId.value, accessToken, appVersion));
    r := Success(sdk);
  }
}
