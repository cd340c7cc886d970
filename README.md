# Experiment resolution and caching for the Proba / Appbooster Android SDKs

This project models the core of a feature-flag SDK that ships twice from one code base, as
`ProbaSdk` and as `AppboosterSdk`. The host app builds an SDK with a token, an app id and a
map of default experiment values. The SDK keeps a persistent store holding:

- the device id;
- the flat experiment defaults;
- the developer's debug overrides;
- the composite experiments the debug screen shows;
- the server's debug-mode flag.

`get(key)` resolves a key against that store. In debug mode the first override wins, otherwise
the first default does; an unknown key gives null. The bulk views (`getExperiments`, Proba's
`getExperimentsWithDetails`) resolve every default at once. `fetch` runs a two-phase exchange
with the server:

1. Phase 1 replaces the defaults and the debug flag.
2. When the server reports debug mode, phase 2 stores the composite experiments. Each FINISHED
   experiment is pinned to the option matching its stored default.

Outcomes reach the host's listeners through a message queue on the main thread. The debug
screen lets the developer pick overrides, save them or reset them.

Modules, one per concern:

- `Wrappers`: `Option`, `Result`.
- `Models`: the data classes and their defaults.
- `StatusCodec`: the status enum's JSON mapping.
- `Lists`: Kotlin's `first`/`firstOrNull`, `toMap`, `joinToString` and `Long.toString`, with
  their laws.
- `Storage`: the preferences-backed store, a class whose setters write one entry each.
- `Resolver`: `get` and the bulk views, pure over a store snapshot. Appbooster's
  `getExperiments` is a loop that fills a map.
- `Dispatch`: the two handlers and their message queue.
- `Fetching`: request construction and the fetch state machine. `FetchSpec` is the
  specification and `Client` is proved against it.
- `DebugScreen`: the override editor's selection logic, as a class with the working map.
- `Sdk`: builder validation, seeding, the shake debounce and fetch delegation.

Where the two SDKs behave differently, the model takes a `Variant` (`Proba` or `Appbooster`)
and states both behaviours.

The builder's KDoc presents the host defaults as the fallback when a fetch fails
(ProbaSdk/src/main/java/ai/proba/probasdk/ProbaSdk.kt:250), and says a fetch that times out leaves the
previously fetched values or the defaults in effect (ProbaSdk.kt:233-234). The model follows the code, in
which `get(k)` can still return null for a key of the host's defaults:

- A 2xx phase-1 response replaces the stored defaults wholesale. A body holding an empty list, or the literal
  `null`, leaves no default at all (`Fetching.SuccessfulFetchCanDropKey`).
- Seeding from the host's map happens only when the store is empty (`Sdk.StaleStoreShadowsDefaults`).

A host may also expect every fetch to end in a call to one of its two listeners. Two paths call neither:

- Appbooster tags errors `ON_SUCCESS`, so its error listener is never called
  (`Dispatch.AppboosterErrorIsDropped`).
- The callback can throw before posting anything: when a `first` call finds no match while pinning
  (`Fetching.Phase2SuccessStoresReconciled`), or when a body is not JSON of the expected shape
  (`Fetching.MalformedBodyCrashes`). That callback writes nothing and no listener is called. When it is
  phase 2's callback that throws, phase 1's writes of the defaults and the debug flag stay
  (`Fetching.SuccessReplacesDefaults`).

## Model

| member | source | states |
|---|---|---|
| Models.KeyValueExperiment | AppboosterSdk/src/main/java/com/appbooster/appboostersdk/models.kt:30-34 | `Experiment(k, v)` keeps the key and the value and takes the default option id 0 |
| Models.DefaultsAreEmpty | AppboosterSdk/src/main/java/com/appbooster/appboostersdk/models.kt:30-77 | every data-class field defaults to "", an empty list, 0, false or UNKNOWN; a response defaults to no experiments with debug off |
| Models.StatusHasFourMembers | AppboosterSdk/src/main/java/com/appbooster/appboostersdk/models.kt:66-68 | the status enum has exactly the four distinct members PAUSED, RUNNING, FINISHED, UNKNOWN |
| StatusCodec.Name | AppboosterSdk/src/main/java/com/appbooster/appboostersdk/models.kt:66-68 | each constant's declared name is an upper-case word of at least six letters |
| StatusCodec.LowerAscii | AppboosterSdk/src/main/java/com/appbooster/appboostersdk/jsonAdapters.kt:50 | lower-casing keeps the length, maps each capital to its small letter and leaves every other character alone |
| StatusCodec.ToJson | AppboosterSdk/src/main/java/com/appbooster/appboostersdk/jsonAdapters.kt:48-51 | each status is written as its own lower-case name: PAUSED exactly as "paused", RUNNING as "running", FINISHED as "finished", UNKNOWN as "unknown" |
| StatusCodec.FromJson | AppboosterSdk/src/main/java/com/appbooster/appboostersdk/jsonAdapters.kt:53-61 | "paused", "running" and "finished", and only they, read as PAUSED, RUNNING and FINISHED; every other string reads as UNKNOWN |
| StatusCodec.FromJsonToJson | AppboosterSdk/src/main/java/com/appbooster/appboostersdk/jsonAdapters.kt:47-61 | writing a status and reading it back returns the same status |
| StatusCodec.ToJsonFromJson | AppboosterSdk/src/main/java/com/appbooster/appboostersdk/jsonAdapters.kt:47-61 | a string survives reading and writing back exactly when it is one of the four lower-case names |
| StatusCodec.WrongCaseIsUnknown | AppboosterSdk/src/main/java/com/appbooster/appboostersdk/jsonAdapters.kt:55-60 | matching is case-sensitive: "Paused", "RUNNING" and "" read as UNKNOWN |
| Lists.IndexOfFirst | AppboosterSdk/src/main/java/com/appbooster/appboostersdk/client.kt:148-150 | the result is absent exactly when no element matches, else it is the index of a matching element with none matching before it |
| Lists.FirstWithKey | ProbaSdk/src/main/java/ai/proba/probasdk/ProbaSdk.kt:121 | `firstOrNull` by key: null exactly when no entry has the key, else the earliest entry with it |
| Lists.FirstValue | ProbaSdk/src/main/java/ai/proba/probasdk/ProbaSdk.kt:162-165 | the value of the earliest entry with the key, null exactly when there is none |
| Lists.FirstValueOfUnique | ProbaSdk/src/main/java/ai/proba/probasdk/ProbaSdk.kt:162-165 | with unique keys, looking up any entry's key returns that entry's value |
| Lists.ToMapKeys | ProbaSdk/src/main/java/ai/proba/probasdk/ProbaSdk.kt:95-97 | the keys of `toMap()` are exactly the pairs' first components |
| Lists.ToMapLastWins | AppboosterSdk/src/main/java/com/appbooster/appboostersdk/AppboosterSdk.kt:102-106 | filling a map pair by pair, the value under a key is that of the last pair with the key |
| Lists.ToMapOfDistinct | ProbaSdk/src/main/java/ai/proba/probasdk/ProbaSdk.kt:95-97 | with distinct keys the map holds every pair |
| Lists.SplitJoin | AppboosterSdk/src/main/java/com/appbooster/appboostersdk/client.kt:169-170 | joining items with a one-character separator none contains and splitting again recovers the items |
| Lists.Digits | ProbaSdk/src/main/java/ai/proba/probasdk/ProbaSdk.kt:111 | the rendering of a natural number is a non-empty string of decimal digits with no leading zero |
| Lists.ParseDigitsOfDigits | ProbaSdk/src/main/java/ai/proba/probasdk/ProbaSdk.kt:111 | reading the digits of a natural number back gives the number |
| Lists.DecimalRoundTrip | ProbaSdk/src/main/java/ai/proba/probasdk/ProbaSdk.kt:111 | `Long.toString` is faithful for every integer, negative ones included: it reads back to the same number |
| Storage.ReadState | ProbaSdk/src/main/java/ai/proba/probasdk/Store.kt:34-78 | each property whose entry is missing reads as null, an empty list or false |
| Storage.UnsetReadsEmpty | ProbaSdk/src/main/java/ai/proba/probasdk/Store.kt:34-78 | a store that was never written reads as no device id, three empty lists and debug mode off |
| Storage.StorageKeysDistinct | ProbaSdk/src/main/java/ai/proba/probasdk/Store.kt:82-88 | the five property keys are pairwise distinct |
| Storage.Context.GetSharedPreferences | ProbaSdk/src/main/java/ai/proba/probasdk/Store.kt:91 | the same name always yields the same preferences object; a new name yields a fresh, empty one |
| Storage.Store.constructor | ProbaSdk/src/main/java/ai/proba/probasdk/Store.kt:30 | a store is a view of the preferences object it is given |
| Storage.Store.GetInstance | ProbaSdk/src/main/java/ai/proba/probasdk/Store.kt:90-93 | every instance is backed by the one preferences file named "com.proba.storage", which reads as unset when first created |
| Storage.Store.SetDeviceId | ProbaSdk/src/main/java/ai/proba/probasdk/Store.kt:38-40 | writes only the device id entry (null removes it); only `deviceId` changes |
| Storage.Store.SetExperiments | ProbaSdk/src/main/java/ai/proba/probasdk/Store.kt:47-50 | writes only the experiments entry; reading it back gives the list written and every other property is unchanged |
| Storage.Store.SetExperimentsDefaults | ProbaSdk/src/main/java/ai/proba/probasdk/Store.kt:57-60 | writes only the defaults entry; reading it back gives the list written and every other property is unchanged |
| Storage.Store.SetExperimentsDebug | ProbaSdk/src/main/java/ai/proba/probasdk/Store.kt:67-70 | writes only the overrides entry; reading it back gives the list written and every other property is unchanged |
| Storage.Store.SetIsInDebugMode | ProbaSdk/src/main/java/ai/proba/probasdk/Store.kt:76-77 | writes only the debug-mode entry; reading it back gives the flag written and every other property is unchanged |
| Storage.InstancesShareState | ProbaSdk/src/main/java/ai/proba/probasdk/Store.kt:90-93 | two instances from the same context share one preferences object, so a write through one is read through the other |
| Resolver.Value | ProbaSdk/src/main/java/ai/proba/probasdk/ProbaSdk.kt:161-166 | `get` is null exactly when no default (and, in debug mode, no override) has the key; otherwise it is the value of some override or default with that key |
| Resolver.ValueOutsideDebugMode | ProbaSdk/src/main/java/ai/proba/probasdk/ProbaSdk.kt:164-166 | outside debug mode `get` is null exactly when no default has the key, else the value of the first default with it |
| Resolver.DebugOverrideWins | ProbaSdk/src/main/java/ai/proba/probasdk/ProbaSdk.kt:161-163 | in debug mode the first override for a key is returned, whatever the defaults hold |
| Resolver.DebugFallsBackToDefaults | ProbaSdk/src/main/java/ai/proba/probasdk/ProbaSdk.kt:161-163 | in debug mode a key without an override resolves as it would outside debug mode |
| Resolver.OverridesIgnoredOutsideDebugMode | ProbaSdk/src/main/java/ai/proba/probasdk/ProbaSdk.kt:164-166 | outside debug mode the overrides never change the answer |
| Resolver.DefaultKeyAlwaysResolves | AppboosterSdk/src/main/java/com/appbooster/appboostersdk/AppboosterSdk.kt:139-144 | a key that has a stored default never resolves to null, in either mode |
| Resolver.MapExperimentsOnDefaults | ProbaSdk/src/main/java/ai/proba/probasdk/ProbaSdk.kt:116-131 | the bulk view keeps the defaults' length, order, keys and option ids; outside debug mode it is the defaults; in debug mode each value is the first override for its key, else the default's own |
| Resolver.BulkEntryAgreesWithValue | ProbaSdk/src/main/java/ai/proba/probasdk/ProbaSdk.kt:116-127 | with unique default keys, each bulk entry's value is what `get` returns for its key |
| Resolver.GetExperiments | ProbaSdk/src/main/java/ai/proba/probasdk/ProbaSdk.kt:92-98 | the map's keys are exactly the default keys; with unique keys each maps to what `get` returns |
| Resolver.KeyedPairs | AppboosterSdk/src/main/java/com/appbooster/appboostersdk/AppboosterSdk.kt:102-106 | one (prefix + key, value) pair per experiment, in order |
| Resolver.AppboosterGetExperiments | AppboosterSdk/src/main/java/com/appbooster/appboostersdk/AppboosterSdk.kt:90-109 | the map filled by `put` over the bulk view equals the pairs' map, keyed "[Appbooster] k" by default and "k" without prefix |
| Resolver.KeyedPairsKeys | AppboosterSdk/src/main/java/com/appbooster/appboostersdk/AppboosterSdk.kt:102-106 | the map's keys are exactly the prefixed experiment keys |
| Resolver.PrefixPreservesValues | AppboosterSdk/src/main/java/com/appbooster/appboostersdk/AppboosterSdk.kt:103-106 | prefixing renames keys only: "p" + k is present exactly when k is in the bare map, and holds the same value |
| Resolver.AppboosterPrefixOnlyRenamesKeys | AppboosterSdk/src/main/java/com/appbooster/appboostersdk/AppboosterSdk.kt:90-109 | Appbooster's prefixed and bare maps hold the same values under "[Appbooster] " + k and k |
| Resolver.GetExperimentsAgreesWithValue | ProbaSdk/src/main/java/ai/proba/probasdk/ProbaSdk.kt:93-98 | the bulk map's keys are the default keys; with unique keys each maps to exactly what `get` returns |
| Resolver.DuplicateKeysDiverge | AppboosterSdk/src/main/java/com/appbooster/appboostersdk/AppboosterSdk.kt:102-106 | with two defaults for one key the map keeps the last value while `get` returns the first |
| Resolver.DetailPairs | ProbaSdk/src/main/java/ai/proba/probasdk/ProbaSdk.kt:105-113 | per experiment, "[Proba] k" to its value followed by "[Proba] [internal] k" to its option id in decimal |
| Resolver.GetExperimentsWithDetails | ProbaSdk/src/main/java/ai/proba/probasdk/ProbaSdk.kt:104-113 | every default key k contributes "[Proba] k" and "[Proba] [internal] k", and the map has no other keys |
| Resolver.ValueKeyIsNotInternalKey | ProbaSdk/src/main/java/ai/proba/probasdk/ProbaSdk.kt:108-110 | a value key never equals an option-id key unless the experiment key itself starts with "[internal] " |
| Resolver.DetailKeysDiffer | ProbaSdk/src/main/java/ai/proba/probasdk/ProbaSdk.kt:105-113 | with unique keys, none of which starts with "[internal] ", all detail keys are distinct |
| Resolver.DetailsContent | ProbaSdk/src/main/java/ai/proba/probasdk/ProbaSdk.kt:105-113 | under those conditions the details map sends "[Proba] k" to `get(k)` and "[Proba] [internal] k" to the option id's decimal string |
| Resolver.DetailsKeyCollision | ProbaSdk/src/main/java/ai/proba/probasdk/ProbaSdk.kt:108-113 | an experiment keyed "[internal] x" overwrites the option-id entry of experiment "x" |
| Dispatch.SuccessMessage | ProbaSdk/src/main/java/ai/proba/probasdk/ProbaHandler.kt:22-24 | `sendSuccess` posts ON_SUCCESS carrying only the success listener |
| Dispatch.ErrorMessage | AppboosterSdk/src/main/java/com/appbooster/appboostersdk/AppboosterHandler.kt:26-28 | `sendError` posts the error listener and the throwable, tagged ON_ERROR exactly in Proba and ON_SUCCESS in Appbooster |
| Dispatch.HandleMessage | ProbaSdk/src/main/java/ai/proba/probasdk/ProbaHandler.kt:10-20 | a success listener is called only for an ON_SUCCESS message carrying it; an error listener only for an ON_ERROR message carrying it, with the throwable it carries; a null throwable is dereferenced exactly for an ON_ERROR message with an error listener and no throwable |
| Dispatch.TagsDistinct | ProbaSdk/src/main/java/ai/proba/probasdk/ProbaHandler.kt:36-39 | the tags are 0 and 1 |
| Dispatch.SuccessIsDelivered | ProbaSdk/src/main/java/ai/proba/probasdk/ProbaHandler.kt:10-24 | a success message calls its success listener, in both SDKs |
| Dispatch.ProbaErrorIsDelivered | ProbaSdk/src/main/java/ai/proba/probasdk/ProbaHandler.kt:10-28 | in Proba an error message calls its error listener with the throwable it was sent with |
| Dispatch.AppboosterErrorIsDropped | AppboosterSdk/src/main/java/com/appbooster/appboostersdk/AppboosterHandler.kt:10-28 | in Appbooster an error message lands in the success branch, finds no success listener and calls nothing |
| Dispatch.OtherMessagesIgnored | ProbaSdk/src/main/java/ai/proba/probasdk/ProbaHandler.kt:10-20 | a message with another tag or no payload calls nothing |
| Dispatch.SentMessagesAreSafe | ProbaSdk/src/main/java/ai/proba/probasdk/ProbaHandler.kt:10-28 | handling a sent message never dereferences a null throwable and never calls a listener of the wrong kind |
| Dispatch.MessagesFor | AppboosterSdk/src/main/java/com/appbooster/appboostersdk/client.kt:78-108 | one message per fetch outcome, in order |
| Dispatch.HandleAll | ProbaSdk/src/main/java/ai/proba/probasdk/ProbaHandler.kt:10-20 | handling a queue handles each message in order |
| Dispatch.DeliveredOutcomes | AppboosterSdk/src/main/java/com/appbooster/appboostersdk/AppboosterHandler.kt:10-28 | Proba delivers every outcome to the matching listener; Appbooster delivers successes and drops errors |
| Dispatch.Handler.constructor | ProbaSdk/src/main/java/ai/proba/probasdk/ProbaHandler.kt:8 | a new handler has an empty queue |
| Dispatch.Handler.SendSuccess | ProbaSdk/src/main/java/ai/proba/probasdk/ProbaHandler.kt:22-24 | appends the success message to the queue |
| Dispatch.Handler.SendError | AppboosterSdk/src/main/java/com/appbooster/appboostersdk/AppboosterHandler.kt:26-28 | appends this SDK's error message to the queue |
| Dispatch.Handler.Handle | ProbaSdk/src/main/java/ai/proba/probasdk/ProbaHandler.kt:10-20 | removes the oldest message and handles it; an empty queue does nothing |
| Dispatch.Handler.Drain | ProbaSdk/src/main/java/ai/proba/probasdk/ProbaHandler.kt:8-20 | handles every queued message in posting order and leaves the queue empty |
| Fetching.MakeQueryString | AppboosterSdk/src/main/java/com/appbooster/appboostersdk/client.kt:169-170 | the query string is empty exactly when there are no keys |
| Fetching.QueryStringRoundTrip | AppboosterSdk/src/main/java/com/appbooster/appboostersdk/client.kt:169-170 | the "knownKeys[]=k" parameters joined by "&" read back, name checked, as exactly the key list, in order, when no key contains "&" |
| Fetching.ForeignParameterRejected | AppboosterSdk/src/main/java/com/appbooster/appboostersdk/client.kt:169-170 | a parameter not named "knownKeys[]" makes the whole query string unreadable as a key list |
| Fetching.RequestUrl | AppboosterSdk/src/main/java/com/appbooster/appboostersdk/client.kt:194 | every URL starts with host + "/api/mobile/" and ends with "?" + query |
| Fetching.ExperimentsUrl | AppboosterSdk/src/main/java/com/appbooster/appboostersdk/client.kt:75 | phase 1 asks host + "/api/mobile/experiments?" + query |
| Fetching.OptionsUrl | AppboosterSdk/src/main/java/com/appbooster/appboostersdk/client.kt:120-124 | phase 2 asks host + "/api/mobile/experiments/options?" + query |
| Fetching.RequestBuilder.Build | AppboosterSdk/src/main/java/com/appbooster/appboostersdk/client.kt:189-200 | a request has the URL above and exactly the headers Content-Type "application/json", SDK-App-ID the app id, Authorization "Bearer " + token and AppVersion the SDK's own version name, in that order |
| Fetching.NullBodyReadsAsDefaults | AppboosterSdk/src/main/java/com/appbooster/appboostersdk/client.kt:87-98 | a body decoding to `null` reads as no experiments, debug off, and an empty error message |
| Fetching.FiltersSelectByStatus | AppboosterSdk/src/main/java/com/appbooster/appboostersdk/client.kt:144-162 | the first filter keeps exactly the FINISHED experiments of the response, the second exactly the others |
| Fetching.FinishedKeepsOrder | AppboosterSdk/src/main/java/com/appbooster/appboostersdk/client.kt:144-145 | filtering FINISHED experiments keeps response order: a concatenation filters part by part |
| Fetching.OthersKeepOrder | AppboosterSdk/src/main/java/com/appbooster/appboostersdk/client.kt:160-162 | filtering the other experiments keeps response order: a concatenation filters part by part |
| Fetching.FiltersOfOne | AppboosterSdk/src/main/java/com/appbooster/appboostersdk/client.kt:144-162 | a single experiment is kept by exactly one filter, chosen by its status |
| Fetching.FiltersPartition | AppboosterSdk/src/main/java/com/appbooster/appboostersdk/client.kt:144-163 | the two filters together hold every experiment of the response exactly once |
| Fetching.PinOne | AppboosterSdk/src/main/java/com/appbooster/appboostersdk/client.kt:146-157 | pinning succeeds exactly when the key has a stored default and an option has its value; the result keeps name and key, is FINISHED and holds only the first option with that value |
| Fetching.PinAll | AppboosterSdk/src/main/java/com/appbooster/appboostersdk/client.kt:144-159 | succeeds exactly when every finished experiment can be pinned, and then pins each one in order |
| Fetching.Reconcile | AppboosterSdk/src/main/java/com/appbooster/appboostersdk/client.kt:144-163 | succeeds exactly when every FINISHED experiment of the response can be pinned; then the pinned experiments come first, in order, and the others follow unchanged, for the response's size |
| Fetching.ReconcileShape | AppboosterSdk/src/main/java/com/appbooster/appboostersdk/client.kt:144-163 | a successful reconciliation collapses each finished experiment to one of its own options, the one carrying its stored default's value, and passes the others through |
| Fetching.PinningExample | AppboosterSdk/src/main/java/com/appbooster/appboostersdk/client.kt:144-163 | a finished experiment with options A and B and a stored default B keeps exactly option B |
| Fetching.DebugFetchSpec | AppboosterSdk/src/main/java/com/appbooster/appboostersdk/client.kt:113-167 | phase 2 issues the second request, writes nothing but `experiments`, and does so only when it reports success, which it does exactly for a 2xx response whose callback finishes; it posts at most one outcome, none exactly when the callback throws |
| Fetching.FetchSpec | AppboosterSdk/src/main/java/com/appbooster/appboostersdk/client.kt:69-111 | a fetch issues one or two requests, never writes the device id or the overrides, writes only after a 2xx phase 1, reports success only after one, and posts at most one outcome, none exactly when a callback throws |
| Fetching.TransportFailureKeepsStore | AppboosterSdk/src/main/java/com/appbooster/appboostersdk/client.kt:78-82 | a phase-1 transport failure writes nothing, issues one request and reports one transport error |
| Fetching.HttpErrorKeepsStore | AppboosterSdk/src/main/java/com/appbooster/appboostersdk/client.kt:84-93 | a non-2xx phase-1 response writes nothing and reports its code and the envelope's message, or "" for a `null` envelope; an envelope that does not parse stops the callback and nothing is reported |
| Fetching.MalformedBodyCrashes | AppboosterSdk/src/main/java/com/appbooster/appboostersdk/client.kt:94-98 | a 2xx body that is not JSON of the expected shape stops either callback: nothing is written and nothing is reported |
| Fetching.SuccessReplacesDefaults | AppboosterSdk/src/main/java/com/appbooster/appboostersdk/client.kt:94-108 | a 2xx phase 1 whose body decodes replaces the defaults wholesale and sets the debug flag from meta.debug; with debug off it reports one success and issues no second request, with debug on it issues the second request |
| Fetching.SuccessfulFetchCanDropKey | AppboosterSdk/src/main/java/com/appbooster/appboostersdk/client.kt:94-98 | a 2xx response whose body is an empty experiment list, or `null`, turns a key that resolved into one that resolves to null |
| Fetching.Phase2FailureKeepsPhase1 | AppboosterSdk/src/main/java/com/appbooster/appboostersdk/client.kt:126-140 | a failed phase 2 keeps phase 1's writes and leaves the experiments untouched; it reports one error unless the error envelope does not parse |
| Fetching.Phase2SuccessStoresReconciled | AppboosterSdk/src/main/java/com/appbooster/appboostersdk/client.kt:141-164 | a 2xx phase 2 whose body decodes stores the reconciled list, of the response's size, and reports success; if a `first` throws, nothing is written or reported |
| Fetching.SecondRequestOnlyInDebugMode | AppboosterSdk/src/main/java/com/appbooster/appboostersdk/client.kt:94-108 | a second request goes out exactly when phase 1 is a 2xx response whose body decodes with debug on |
| Fetching.Client.constructor | AppboosterSdk/src/main/java/com/appbooster/appboostersdk/client.kt:64-67 | the last operation duration starts at -1 |
| Fetching.Client.FetchExperiments | AppboosterSdk/src/main/java/com/appbooster/appboostersdk/client.kt:69-111 | the store, the posted messages and the requests issued are those of the fetch specification; the duration is end minus start, whichever way phase 1 ends |
| Fetching.Client.FetchDebugExperiments | AppboosterSdk/src/main/java/com/appbooster/appboostersdk/client.kt:113-167 | the store and the posted messages are those of the phase-2 specification; the request goes to experiments/options with the same keys; the duration is not touched |
| DebugScreen.ReceivedOption | ProbaSdk/src/main/java/ai/proba/probasdk/ProbaDebugActivity.kt:67 | the received option is the value of the first stored default with the key, or "" when there is none |
| DebugScreen.PreselectedOption | ProbaSdk/src/main/java/ai/proba/probasdk/ProbaDebugActivity.kt:68 | the pre-selected option is the value of the first override with the key, or the received option when there is none |
| DebugScreen.PreselectionPrecedence | ProbaSdk/src/main/java/ai/proba/probasdk/ProbaDebugActivity.kt:67-68 | the pre-selected value is the first override for the key, else the first default's value, else "" |
| DebugScreen.PreselectionMatchesValue | AppboosterSdk/src/main/java/com/appbooster/appboostersdk/AppboosterDebugActivity.kt:68-69 | in debug mode the pre-selected value is what `get` returns, or "" when that is null |
| DebugScreen.RenderExperiment | ProbaSdk/src/main/java/ai/proba/probasdk/ProbaDebugActivity.kt:58-96 | rendering succeeds exactly when some option has the pre-selected value; each option gets a row tagged default exactly when its value is pre-selected and styled received exactly when it is the received default; the first default-tagged row is checked |
| DebugScreen.RenderAll | ProbaSdk/src/main/java/ai/proba/probasdk/ProbaDebugActivity.kt:49-55 | the screen renders exactly when every section does, one section per stored experiment in order |
| DebugScreen.SavedSelectionsResolve | ProbaSdk/src/main/java/ai/proba/probasdk/ProbaDebugActivity.kt:29-34 | after a save, in debug mode, each selected key resolves to and pre-selects its selection, and every other key resolves through the defaults |
| DebugScreen.ResetThenSave | AppboosterSdk/src/main/java/com/appbooster/appboostersdk/AppboosterDebugActivity.kt:30-47 | reset then save stores nothing in Proba, but in Appbooster stores again every selection made before the reset |
| DebugScreen.EntriesOf | ProbaSdk/src/main/java/ai/proba/probasdk/ProbaDebugActivity.kt:30-33 | the working map becomes one `Experiment(k, v, 0)` per entry, each key exactly once |
| DebugScreen.DebugScreen.constructor | ProbaSdk/src/main/java/ai/proba/probasdk/ProbaDebugActivity.kt:144 | the working selection map starts empty |
| DebugScreen.DebugScreen.Select | ProbaSdk/src/main/java/ai/proba/probasdk/ProbaDebugActivity.kt:90-93 | a selection sets only working[key] |
| DebugScreen.DebugScreen.Save | ProbaSdk/src/main/java/ai/proba/probasdk/ProbaDebugActivity.kt:29-35 | the overrides become the working entries, nothing else in the store changes, and the screen finishes |
| DebugScreen.DebugScreen.Reset | AppboosterSdk/src/main/java/com/appbooster/appboostersdk/AppboosterDebugActivity.kt:37-47 | the overrides are emptied and the screen re-rendered; the working map is cleared in Proba and kept in Appbooster |
| DebugScreen.ResetShowsReceived | ProbaSdk/src/main/java/ai/proba/probasdk/ProbaDebugActivity.kt:36-47 | after a reset every section pre-selects the received default |
| Sdk.DefaultConfigRejected | ProbaSdk/src/main/java/ai/proba/probasdk/ProbaSdk.kt:292-300 | a fresh builder is rejected; with a token and an app id it is accepted exactly when both are non-empty |
| Sdk.ChosenDeviceId | ProbaSdk/src/main/java/ai/proba/probasdk/ProbaSdk.kt:301-311 | the device id is one of the builder's, the stored or the fresh one: the builder's whenever it is non-empty, else the stored one when there is one |
| Sdk.DeviceIdStable | ProbaSdk/src/main/java/ai/proba/probasdk/ProbaSdk.kt:301-311 | an explicit device id wins; otherwise the stored one is reused, so an id once written is never regenerated |
| Sdk.SeededDefaults | ProbaSdk/src/main/java/ai/proba/probasdk/ProbaSdk.kt:63-67 | non-empty stored defaults are kept; empty ones become one `Experiment(k, v, 0)` per host default, in order |
| Sdk.SeededKeysResolve | ProbaSdk/src/main/java/ai/proba/probasdk/ProbaSdk.kt:63-67 | after seeding an empty store, outside debug mode, `get` answers each host default with its value |
| Sdk.StaleStoreShadowsDefaults | AppboosterSdk/src/main/java/com/appbooster/appboostersdk/AppboosterSdk.kt:59-63 | a non-empty stored list shadows the host's map: its values win and host-only keys resolve to null |
| Sdk.AcceptedShakes | ProbaSdk/src/main/java/ai/proba/probasdk/ProbaSdk.kt:73-82 | the accepted shakes are shakes that were heard, no more of them than were heard, and none outside debug mode; a shake that passes both guards (debug mode, and no shake accepted yet or the last one at least 5000 ms before) is accepted |
| Sdk.Sdk.HearShakes | ProbaSdk/src/main/java/ai/proba/probasdk/ProbaSdk.kt:73-82 | calling `hearShake` on each shake in turn opens the screen on exactly the shakes `AcceptedShakes` lists, and leaves the last of them as the last shake time |
| Sdk.AcceptedShakesAreSpaced | ProbaSdk/src/main/java/ai/proba/probasdk/ProbaSdk.kt:73-82 | accepted shakes are at least 5000 ms apart, the first at least 5000 ms after the one accepted before |
| Sdk.Sdk.constructor | ProbaSdk/src/main/java/ai/proba/probasdk/ProbaSdk.kt:39-67 | a new SDK has no shake recorded, a client with duration -1 and an empty handler, and seeds the stored defaults only if they are empty |
| Sdk.Sdk.HearShake | ProbaSdk/src/main/java/ai/proba/probasdk/ProbaSdk.kt:69-83 | a shake opens the debug screen exactly when shake detection is on, the store is in debug mode and no shake was accepted within 5000 ms; only then does the last shake time move |
| Sdk.Sdk.LaunchDebugMode | ProbaSdk/src/main/java/ai/proba/probasdk/ProbaSdk.kt:176-183 | answers true exactly in debug mode |
| Sdk.Sdk.Fetch | ProbaSdk/src/main/java/ai/proba/probasdk/ProbaSdk.kt:144-149 | a fetch over the host defaults' keys, through this SDK's handler, with the client's specified effect |
| Sdk.Build | ProbaSdk/src/main/java/ai/proba/probasdk/ProbaSdk.kt:291-328 | an empty token or app id, a non-positive timeout or a call off the main thread fails with a setup error before any write; otherwise the chosen device id is stored, a token that cannot be signed then fails, and success returns a fresh SDK over the seeded store, with the builder's defaults and shake setting, no duration measured and an empty handler |

## Left out

- HTTP transport (OkHttp), connection timeouts and the HTTP logging interceptor. Each response is an input: a transport failure, or a status code with a body.
- JSON parsing (Moshi). A response body is given already decoded: the literal `null` (`JsonNull`), a value, or `Malformed` for text that is not JSON of the expected shape, an empty body included, on which `fromJson` throws. The store holds lists as values and assumes the list codec round-trips. The store's getters (ProbaSdk/src/main/java/ai/proba/probasdk/Store.kt:45, :55, :65) map a stored literal `null` to an empty list, but throw on a corrupted preference; a getter that throws is not modelled.
- Kotlin `Long` width for option ids: `Models.Experiment.optionId` is an unbounded `int`. Option ids are only decoded, stored and printed in decimal, so no arithmetic on them can overflow, but the model does not restrict them to the `Long` range.
- JWT signing. The access token is an opaque string and whether the SDK token can sign it is a boolean input. The HMAC key-size rule is not modelled.
- Android threading. The main-thread check is a boolean input. The `Handler` hop is a FIFO queue drained by `Handle`.
- `Fetching.Client.FetchExperiments`, `Fetching.Client.FetchDebugExperiments`, `Fetching.FetchSpec` and `Fetching.DebugFetchSpec`: both fetch callbacks (AppboosterSdk/src/main/java/com/appbooster/appboostersdk/client.kt:77-108, :126-165) run on the transport's worker threads and write the preferences there, and phase 2 re-reads the stored defaults when its callback runs (client.kt:148). The model runs phase 1 and phase 2 as one atomic transition over a fixed store state. So it does not capture an overlapping fetch, or a read or a debug-screen save on the main thread, interleaving with phase 1 or phase 2.
- Shake detection (`SensorManager`, `ShakeDetector`) and `SystemClock`. Shake and clock times are integer parameters.
- Views, layouts, radio widgets and activity intents. A debug-screen section is reduced to its tagged rows, and "launches the screen" is the returned boolean.
- Logging (`Logger`, `Log.w`, `showLogs`) and the example apps.
- Proba's own `Client`, models and JSON adapters, and Appbooster's `Store`, are not part of this model. Both SDKs use the Appbooster client and models and the Proba store here. The builder fields `appsFlyerId` and `amplitudeId` only feed the access token's claims (AppboosterSdk/src/main/java/com/appbooster/appboostersdk/client.kt:203-212) and are left out with the signing. `myTrackerId` and `deviceProperties` are passed only to Proba's own client (ProbaSdk/src/main/java/ai/proba/probasdk/ProbaSdk.kt:57), which is not part of this model, so where those two values go is not modelled.
- `Resolver.AppboosterGetExperiments`: Appbooster's debug-mode mapping builds `Experiment(key, value)` and so drops the option id. The model reuses the id-keeping bulk view. The map reads only keys and values, so the difference is not observable.
- `Sdk.Sdk.HearShake`: Kotlin `Long` arithmetic is modelled as unbounded integers, so overflow of `now - last` is not modelled. `Sdk.AcceptedShakesAreSpaced` assumes a non-negative clock, as `elapsedRealtime` is.
- `Fetching.Client.FetchExperiments`: when a callback throws (a `first` with no match, or a malformed body), the exception escapes to the transport's thread. The model records only that no further write and no callback happen, not what the transport does with the exception.
