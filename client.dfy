/**
 * The remote client: request construction, and the two-phase fetch that
 * reconciles server responses into the store. Phase 1 (`experiments`)
 * replaces the flat defaults and the debug flag; when the server turns
 * debug mode on, phase 2 (`experiments/options`) stores the composite
 * experiments, each FINISHED one pinned to the option matching its
 * stored default. Each response is an input; the transport is not modelled.
 */
module Fetching {
  import opened Wrappers
  import opened Models
  import opened Lists
  import opened Storage
  import opened Dispatch
  import opened Resolver

  const MOBILE_API_PATH := "api/mobile"
  const EXPERIMENTS_PATH := "experiments"
  const OPTIONS_PATH := "options"
  const KNOWN_KEYS_PARAM := "knownKeys[]="

  /** A GET request: its URL and headers. */
  datatype Request = Request(url: string, headers: seq<(string, string)>)

  /** `knownKeys[]=k` for one key. */
  function QueryParam(key: string): string {
    KNOWN_KEYS_PARAM + key
  }

  /** `makeQueryString`: one `knownKeys[]=k` parameter per key, joined by `&`. */
  function MakeQueryString(keys: seq<string>): (q: string)
    ensures keys == [] <==> q == ""
  {
    var params := seq(|keys|, i requires 0 <= i < |keys| => QueryParam(keys[i]));
    assert keys != [] ==> |JoinToString(params, "&")| >= |params[0]| by {
      if |params| > 1 { assert JoinToString(params, "&") == params[0] + "&" + JoinToString(params[1..], "&"); }
    }
    JoinToString(params, "&")
  }

  /** A parameter that `makeQueryString` could have written: it starts with `knownKeys[]=`. */
  predicate IsKnownKeysParam(part: string) {
    KNOWN_KEYS_PARAM <= part
  }

  /** Reads the key list back out of a query string; None when some parameter has another name. */
  function ParseQueryString(q: string): Option<seq<string>> {
    if q == "" then Some([])
    else
      var parts := Split(q, '&');
      if forall i :: 0 <= i < |parts| ==> IsKnownKeysParam(parts[i]) then
        Some(seq(|parts|, i requires 0 <= i < |parts| && IsKnownKeysParam(parts[i]) => parts[i][|KNOWN_KEYS_PARAM|..]))
      else None
  }

  /** The query string carries the key list exactly, in order, provided no key contains `&`. */
  lemma QueryStringRoundTrip(keys: seq<string>)
    requires forall i, j :: 0 <= i < |keys| && 0 <= j < |keys[i]| ==> keys[i][j] != '&'
    ensures ParseQueryString(MakeQueryString(keys)) == Some(keys)
  {
    if keys != [] {
      var params := seq(|keys|, i requires 0 <= i < |keys| => QueryParam(keys[i]));
      forall i, j | 0 <= i < |params| && 0 <= j < |params[i]| ensures params[i][j] != '&' {
        if j >= |KNOWN_KEYS_PARAM| { assert params[i][j] == keys[i][j - |KNOWN_KEYS_PARAM|]; }
      }
      SplitJoin(params, '&');
      assert "&" == ['&'];
      var parts := Split(MakeQueryString(keys), '&');
      assert parts == params;
      forall i | 0 <= i < |keys| ensures IsKnownKeysParam(parts[i]) && parts[i][|KNOWN_KEYS_PARAM|..] == keys[i] {
        assert parts[i] == KNOWN_KEYS_PARAM + keys[i];
      }
      assert MakeQueryString(keys) != "";
      var got := seq(|parts|, i requires 0 <= i < |parts| && IsKnownKeysParam(parts[i]) => parts[i][|KNOWN_KEYS_PARAM|..]);
      assert got == keys;
    }
  }

  /** The parameter name is checked: a parameter with any other name rejects the whole string. */
  lemma ForeignParameterRejected(other: string, q: string)
    requires forall i :: 0 <= i < |other| ==> other[i] != '&'
    requires !IsKnownKeysParam(other)
    ensures ParseQueryString(other + "&" + q) == None
  {
    assert other + "&" + q == other + ['&'] + q;
    SplitAfterItem(other, '&', q);
    assert Split(other + "&" + q, '&')[0] == other;
  }

  /** The URL of `request(query, *paths)`. */
  function RequestUrl(apiHost: string, query: string, paths: seq<string>): (r: string)
    ensures |r| >= |apiHost| + 13 + |query|
    ensures r[..|apiHost| + 12] == apiHost + "/api/mobile/"
    ensures r[|r| - |query| - 1..] == "?" + query
  {
    apiHost + "/" + MOBILE_API_PATH + "/" + JoinToString(paths, "/") + "?" + query
  }

  /** The URL for a given path string, with the constant parts gathered into one literal. */
  lemma UrlWithPath(apiHost: string, query: string, paths: seq<string>, path: string)
    requires JoinToString(paths, "/") == path
    ensures RequestUrl(apiHost, query, paths) == apiHost + ("/api/mobile/" + path + "?") + query
  {
    assert "/" + MOBILE_API_PATH + "/" == "/api/mobile/";
  }

  /** Phase 1 asks `experiments`. */
  lemma ExperimentsUrl(apiHost: string, query: string)
    ensures RequestUrl(apiHost, query, [EXPERIMENTS_PATH]) == apiHost + "/api/mobile/experiments?" + query
  {
    UrlWithPath(apiHost, query, [EXPERIMENTS_PATH], "experiments");
    assert "/api/mobile/" + "experiments" + "?" == "/api/mobile/experiments?";
  }

  /** Phase 2 asks `experiments/options`. */
  lemma OptionsUrl(apiHost: string, query: string)
    ensures RequestUrl(apiHost, query, [EXPERIMENTS_PATH, OPTIONS_PATH]) == apiHost + "/api/mobile/experiments/options?" + query
  {
    assert JoinToString([EXPERIMENTS_PATH, OPTIONS_PATH], "/") == EXPERIMENTS_PATH + "/" + OPTIONS_PATH by {
      assert [EXPERIMENTS_PATH, OPTIONS_PATH][1..] == [OPTIONS_PATH];
    }
    assert EXPERIMENTS_PATH + "/" + OPTIONS_PATH == "experiments/options";
    UrlWithPath(apiHost, query, [EXPERIMENTS_PATH, OPTIONS_PATH], "experiments/options");
    assert "/api/mobile/" + "experiments/options" + "?" == "/api/mobile/experiments/options?";
  }

  /**
   * `RequestBuilder`: the per-client header values; the signed access token is taken as given, and
   * `appVersion` is the SDK module's own version name, not the host app's.
   */
  datatype RequestBuilder = RequestBuilder(apiHost: string, appId: string, accessToken: string, appVersion: string)
  {
    function Headers(): (h: seq<(string, string)>) {
      [("Content-Type", "application/json"), ("SDK-App-ID", appId),
       ("Authorization", "Bearer " + accessToken), ("AppVersion", appVersion)]
    }

    function Build(query: string, paths: seq<string>): (r: Request)
      ensures r.url == RequestUrl(apiHost, query, paths)
      ensures r.headers == [("Content-Type", "application/json"), ("SDK-App-ID", appId),
                            ("Authorization", "Bearer " + accessToken), ("AppVersion", appVersion)]
    {
      Request(RequestUrl(apiHost, query, paths), Headers())
    }
  }

  /**
   * What Moshi's `fromJson` makes of a response body: the literal `null`, a value, or text that is not
   * JSON of that shape (an empty body included), on which it throws inside the callback.
   */
  datatype Body<T> = JsonNull | Parsed(value: T) | Malformed

  /** How a call ends: the transport fails, or a response arrives with a status code and a body read as either shape. */
  datatype HttpOutcome<T> =
    | TransportFailure
    | Completed(code: int, errorBody: Body<ApiError>, body: Body<T>)

  /** `response.isSuccessful`. */
  predicate IsSuccessful(code: int) {
    200 <= code < 300
  }

  /** `error?.error ?: ""`, for a body that decoded. */
  function ErrorText(e: Body<ApiError>): string
    requires !e.Malformed?
  {
    if e.Parsed? then e.value.error else DEFAULT_API_ERROR.error
  }

  /** `experiments?.experiments ?: emptyList()`, for a body that decoded. */
  function ParsedDefaults(body: Body<ExperimentResponse>): seq<Experiment>
    requires !body.Malformed?
  {
    if body.Parsed? then body.value.experiments else DEFAULT_EXPERIMENT_RESPONSE.experiments
  }

  /** `experiments?.meta?.debug ?: false`, for a body that decoded. */
  function ParsedDebug(body: Body<ExperimentResponse>): bool
    requires !body.Malformed?
  {
    if body.Parsed? then body.value.meta.debug else DEFAULT_EXPERIMENT_RESPONSE.meta.debug
  }

  /** `experimentsResponse?.experiments ?: emptyList()`, for a body that decoded. */
  function ParsedComposite(body: Body<CompositeExperimentResponse>): seq<CompositeExperiment>
    requires !body.Malformed?
  {
    if body.Parsed? then body.value.experiments else DEFAULT_COMPOSITE_RESPONSE.experiments
  }

  /** A body that decodes to `null` reads as the data classes' defaults: no experiments, debug off, no message. */
  lemma NullBodyReadsAsDefaults()
    ensures ParsedDefaults(JsonNull) == [] && !ParsedDebug(JsonNull) && ParsedComposite(JsonNull) == []
    ensures ErrorText(JsonNull) == ""
  {
  }

  /** `filter { it.status == FINISHED }`. */
  function FinishedOf(exps: seq<CompositeExperiment>): (r: seq<CompositeExperiment>)
    ensures |r| <= |exps|
  {
    if exps == [] then []
    else (if exps[0].status == FINISHED then [exps[0]] else []) + FinishedOf(exps[1..])
  }

  /** `filter { it.status != FINISHED }`. */
  function OthersOf(exps: seq<CompositeExperiment>): (r: seq<CompositeExperiment>)
    ensures |r| <= |exps|
  {
    if exps == [] then []
    else (if exps[0].status != FINISHED then [exps[0]] else []) + OthersOf(exps[1..])
  }

  /** The two filters split the response: together they hold every experiment exactly once. */
  lemma {:induction false} FiltersPartition(exps: seq<CompositeExperiment>)
    ensures multiset(FinishedOf(exps)) + multiset(OthersOf(exps)) == multiset(exps)
    ensures |FinishedOf(exps)| + |OthersOf(exps)| == |exps|
  {
    if exps != [] {
      FiltersPartition(exps[1..]);
      assert exps == [exps[0]] + exps[1..];
    }
  }

  /** Both filters keep response order: filtering a concatenation filters each part in turn. */
  lemma {:induction false} FinishedKeepsOrder(a: seq<CompositeExperiment>, b: seq<CompositeExperiment>)
    ensures FinishedOf(a + b) == FinishedOf(a) + FinishedOf(b)
  {
    if a == [] {
      assert a + b == b;
    } else {
      var ab := a + b;
      assert ab != [] && ab[0] == a[0] && ab[1..] == a[1..] + b;
      var head := if a[0].status == FINISHED then [a[0]] else [];
      calc {
        FinishedOf(ab);
        head + FinishedOf(a[1..] + b);
        { FinishedKeepsOrder(a[1..], b); }
        head + (FinishedOf(a[1..]) + FinishedOf(b));
        (head + FinishedOf(a[1..])) + FinishedOf(b);
        FinishedOf(a) + FinishedOf(b);
      }
    }
  }

  lemma {:induction false} OthersKeepOrder(a: seq<CompositeExperiment>, b: seq<CompositeExperiment>)
    ensures OthersOf(a + b) == OthersOf(a) + OthersOf(b)
  {
    if a == [] {
      assert a + b == b;
    } else {
      var ab := a + b;
      assert ab != [] && ab[0] == a[0] && ab[1..] == a[1..] + b;
      var head := if a[0].status != FINISHED then [a[0]] else [];
      calc {
        OthersOf(ab);
        head + OthersOf(a[1..] + b);
        { OthersKeepOrder(a[1..], b); }
        head + (OthersOf(a[1..]) + OthersOf(b));
        (head + OthersOf(a[1..])) + OthersOf(b);
        OthersOf(a) + OthersOf(b);
      }
    }
  }

  /** The filters select by status alone: every finished experiment is kept by the first, every other one by the second. */
  lemma {:induction false} FiltersSelectByStatus(exps: seq<CompositeExperiment>)
    ensures forall x :: x in FinishedOf(exps) <==> x in exps && x.status == FINISHED
    ensures forall x :: x in OthersOf(exps) <==> x in exps && x.status != FINISHED
  {
    if exps != [] {
      FiltersSelectByStatus(exps[1..]);
      assert exps == [exps[0]] + exps[1..];
    }
  }

  /** One experiment on its own is kept by exactly one of the two filters, according to its status. */
  lemma FiltersOfOne(e: CompositeExperiment)
    ensures FinishedOf([e]) == (if e.status == FINISHED then [e] else [])
    ensures OthersOf([e]) == (if e.status != FINISHED then [e] else [])
  {
    assert [e][1..] == [];
  }

  /** `e` has a stored default, and some option of `e` carries that default's value. */
  ghost predicate HasOptionForDefault(e: CompositeExperiment, defaults: seq<Experiment>) {
    FirstValue(defaults, e.key).Some? &&
    exists j :: 0 <= j < |e.options| && e.options[j].value == FirstValue(defaults, e.key).value
  }

  /** The pinning of one finished experiment; None where a `first` call throws (no default for the key, or no option with its value). */
  function PinOne(e: CompositeExperiment, defaults: seq<Experiment>): (r: Option<CompositeExperiment>)
    ensures r.Some? <==> HasOptionForDefault(e, defaults)
    ensures r.Some? ==> r.value.name == e.name && r.value.key == e.key && r.value.status == FINISHED
    ensures r.Some? ==>
              exists i ::
                0 <= i < |e.options| && r.value.options == [e.options[i]] &&
                e.options[i].value == FirstValue(defaults, e.key).value &&
                forall j :: 0 <= j < i ==> e.options[j].value != FirstValue(defaults, e.key).value
  {
    match FirstWithKey(defaults, e.key)
    case None => None
    case Some(default) =>
      match IndexOfFirst(e.options, (o: ExperimentOption) => o.value == default.value)
      case None => None
      case Some(j) => Some(CompositeExperiment(e.name, e.key, FINISHED, [e.options[j]]))
  }

  /** `map { ... }` over the finished experiments; fails as soon as one of them cannot be pinned. */
  function PinAll(finished: seq<CompositeExperiment>, defaults: seq<Experiment>): (r: Option<seq<CompositeExperiment>>)
    ensures r.Some? <==> forall i :: 0 <= i < |finished| ==> PinOne(finished[i], defaults).Some?
    ensures r.Some? ==> |r.value| == |finished| &&
                        forall i :: 0 <= i < |finished| ==> r.value[i] == PinOne(finished[i], defaults).value
  {
    if finished == [] then Some([])
    else
      match PinOne(finished[0], defaults)
      case None => None
      case Some(p) =>
        match PinAll(finished[1..], defaults)
        case None => None
        case Some(ps) => Some([p] + ps)
  }

  /**
   * The new `experiments` list: every finished experiment pinned, in response order, then the others,
   * in response order; None when some finished experiment cannot be pinned.
   */
  function Reconcile(exps: seq<CompositeExperiment>, defaults: seq<Experiment>): (r: Option<seq<CompositeExperiment>>)
    ensures r.Some? <==> forall x :: x in exps && x.status == FINISHED ==> HasOptionForDefault(x, defaults)
    ensures r.Some? ==>
              var f := FinishedOf(exps);
              |r.value| == |exps| && r.value[|f|..] == OthersOf(exps) &&
              forall i :: 0 <= i < |f| ==> PinOne(f[i], defaults).Some? && r.value[i] == PinOne(f[i], defaults).value
  {
    FiltersPartition(exps);
    FiltersSelectByStatus(exps);
    var f := FinishedOf(exps);
    assert forall x :: x in f ==> (PinOne(x, defaults).Some? <==> HasOptionForDefault(x, defaults));
    assert forall x :: x in f <==> exists i :: 0 <= i < |f| && f[i] == x;
    match PinAll(FinishedOf(exps), defaults)
    case None => None
    case Some(pinned) => Some(pinned + OthersOf(exps))
  }

  /**
   * A successful reconciliation keeps the response's size, puts each finished experiment first, collapsed
   * to the single option carrying its stored default's value, and passes every other experiment through unchanged.
   */
  lemma ReconcileShape(exps: seq<CompositeExperiment>, defaults: seq<Experiment>)
    ensures var f := FinishedOf(exps);
            Reconcile(exps, defaults).Some? ==>
              var r := Reconcile(exps, defaults).value;
              |r| == |exps| && r[|f|..] == OthersOf(exps) &&
              forall i :: 0 <= i < |f| ==>
                r[i].name == f[i].name && r[i].key == f[i].key && r[i].status == FINISHED &&
                |r[i].options| == 1 && r[i].options[0] in f[i].options &&
                r[i].options[0].value == FirstValue(defaults, f[i].key).value
  {
    var f := FinishedOf(exps);
    forall i | 0 <= i < |f| ensures PinOne(f[i], defaults).Some? ==> OneOwnOption(f[i], PinOne(f[i], defaults).value, defaults) {
      PinnedOptionIsOwn(f[i], defaults);
    }
  }

  /** `p` keeps exactly one of `e`'s options, the one carrying the stored default's value. */
  ghost predicate OneOwnOption(e: CompositeExperiment, p: CompositeExperiment, defaults: seq<Experiment>) {
    |p.options| == 1 && p.options[0] in e.options && FirstValue(defaults, e.key).Some? &&
    p.options[0].value == FirstValue(defaults, e.key).value
  }

  lemma PinnedOptionIsOwn(e: CompositeExperiment, defaults: seq<Experiment>)
    ensures PinOne(e, defaults).Some? ==> OneOwnOption(e, PinOne(e, defaults).value, defaults)
  {
    if PinOne(e, defaults).Some? {
      var i :| 0 <= i < |e.options| && PinOne(e, defaults).value.options == [e.options[i]] &&
               e.options[i].value == FirstValue(defaults, e.key).value;
    }
  }

  /** A finished experiment with options A and B and a stored default B keeps exactly option B. */
  lemma PinningExample()
    ensures var e := CompositeExperiment("n", "k", FINISHED, [ExperimentOption("A", "d1"), ExperimentOption("B", "d2")]);
            Reconcile([e], [Experiment("k", "B", 0)]) ==
              Some([CompositeExperiment("n", "k", FINISHED, [ExperimentOption("B", "d2")])])
  {
    var e := CompositeExperiment("n", "k", FINISHED, [ExperimentOption("A", "d1"), ExperimentOption("B", "d2")]);
    assert FinishedOf([e]) == [e];
    assert OthersOf([e]) == [];
    var d := [Experiment("k", "B", 0)];
    assert FirstWithKey(d, "k") == Some(Experiment("k", "B", 0));
    assert e.options[1].value == "B";
    var p := PinOne(e, d).value;
    assert p.options[0] == ExperimentOption("B", "d2");
    assert p.options == [ExperimentOption("B", "d2")];
    assert [e][0] == e;
    assert PinAll([e], d).Some?;
    assert PinAll([e], d).value == [p];
  }

  /**
   * What one fetch does: the store afterwards, the outcomes posted, how many requests went out, and whether
   * the callback threw (a `first` with no match, or a body Moshi cannot read) before posting anything.
   */
  datatype FetchResult = FetchResult(state: StoreState, outcomes: seq<Outcome>, requests: nat, crashed: bool)

  /** Phase 2 (`fetchDebugExperiments`) from the store as phase 1 left it. */
  function DebugFetchSpec(s: StoreState, r2: HttpOutcome<CompositeExperimentResponse>): (r: FetchResult)
    ensures r.requests == 2
    ensures |r.outcomes| <= 1 && (r.crashed <==> r.outcomes == [])
    ensures r.state.(experiments := s.experiments) == s
    ensures r.state != s ==> r.outcomes == [Succeeded]
    ensures r.outcomes == [Succeeded] <==> r2.Completed? && IsSuccessful(r2.code) && !r.crashed
  {
    match r2
    case TransportFailure => FetchResult(s, [Failed(FetchTransport)], 2, false)
    case Completed(code, errorBody, body) =>
      if !IsSuccessful(code) then
        if errorBody.Malformed? then FetchResult(s, [], 2, true)
        else FetchResult(s, [Failed(FetchHttp(code, ErrorText(errorBody)))], 2, false)
      else if body.Malformed? then FetchResult(s, [], 2, true)
      else
        match Reconcile(ParsedComposite(body), s.experimentsDefaults)
        case None => FetchResult(s, [], 2, true)
        case Some(exps) => FetchResult(s.(experiments := exps), [Succeeded], 2, false)
  }

  /** `fetchExperiments`: phase 1, then phase 2 only when the server reports debug mode. */
  function FetchSpec(s: StoreState, r1: HttpOutcome<ExperimentResponse>, r2: HttpOutcome<CompositeExperimentResponse>)
    : (r: FetchResult)
    ensures r.requests == 1 || r.requests == 2
    ensures |r.outcomes| <= 1 && (r.crashed <==> r.outcomes == [])
    ensures r.state.deviceId == s.deviceId && r.state.experimentsDebug == s.experimentsDebug
    ensures r.state != s ==> r1.Completed? && IsSuccessful(r1.code)
    ensures r.outcomes == [Succeeded] ==> r1.Completed? && IsSuccessful(r1.code)
  {
    match r1
    case TransportFailure => FetchResult(s, [Failed(FetchTransport)], 1, false)
    case Completed(code, errorBody, body) =>
      if !IsSuccessful(code) then
        if errorBody.Malformed? then FetchResult(s, [], 1, true)
        else FetchResult(s, [Failed(FetchHttp(code, ErrorText(errorBody)))], 1, false)
      else if body.Malformed? then FetchResult(s, [], 1, true)
      else
        var s1 := s.(experimentsDefaults := ParsedDefaults(body), isInDebugMode := ParsedDebug(body));
        if ParsedDebug(body) then DebugFetchSpec(s1, r2)
        else FetchResult(s1, [Succeeded], 1, false)
  }

  /** A phase-1 transport failure writes nothing and reports one transport error. */
  lemma TransportFailureKeepsStore(s: StoreState, r2: HttpOutcome<CompositeExperimentResponse>)
    ensures FetchSpec(s, TransportFailure, r2) == FetchResult(s, [Failed(FetchTransport)], 1, false)
  {
  }

  /**
   * A non-2xx phase-1 response writes nothing; it reports its status code and the envelope's message, or ""
   * when the envelope is `null`, and reports nothing when the envelope does not parse.
   */
  lemma HttpErrorKeepsStore(s: StoreState, code: int, e: Body<ApiError>, body: Body<ExperimentResponse>,
                            r2: HttpOutcome<CompositeExperimentResponse>)
    requires !IsSuccessful(code)
    ensures var f := FetchSpec(s, Completed(code, e, body), r2);
            f.state == s && f.requests == 1 &&
            f.outcomes == if e.Malformed? then [] else [Failed(FetchHttp(code, if e.Parsed? then e.value.error else ""))]
  {
  }

  /** A 2xx phase-1 body that Moshi cannot read stops the callback: nothing is written and nothing is reported. */
  lemma MalformedBodyCrashes(s: StoreState, code: int, e: Body<ApiError>, r2: HttpOutcome<CompositeExperimentResponse>)
    requires IsSuccessful(code)
    ensures FetchSpec(s, Completed(code, e, Malformed), r2) == FetchResult(s, [], 1, true)
    ensures DebugFetchSpec(s, Completed(code, e, Malformed)) == FetchResult(s, [], 2, true)
  {
  }

  /**
   * A 2xx phase-1 response that decodes replaces the defaults wholesale (empty for `null`) and sets the debug
   * flag from `meta.debug` (false for `null`); with debug off that is all, and success is reported once.
   */
  lemma SuccessReplacesDefaults(s: StoreState, code: int, e: Body<ApiError>, body: Body<ExperimentResponse>,
                                r2: HttpOutcome<CompositeExperimentResponse>)
    requires IsSuccessful(code)
    ensures body.Malformed? ==> FetchSpec(s, Completed(code, e, body), r2) == FetchResult(s, [], 1, true)
    ensures var f := FetchSpec(s, Completed(code, e, body), r2);
            !body.Malformed? ==>
              f.state.experimentsDefaults == (if body.Parsed? then body.value.experiments else []) &&
              f.state.isInDebugMode == (body.Parsed? && body.value.meta.debug) &&
              f.state.deviceId == s.deviceId && f.state.experimentsDebug == s.experimentsDebug
    ensures !body.Malformed? && !(body.Parsed? && body.value.meta.debug) ==>
              FetchSpec(s, Completed(code, e, body), r2) ==
              FetchResult(s.(experimentsDefaults := ParsedDefaults(body), isInDebugMode := false), [Succeeded], 1, false)
    ensures body.Parsed? && body.value.meta.debug ==> FetchSpec(s, Completed(code, e, body), r2).requests == 2
  {
  }

  /** A failed phase 2 keeps phase 1's writes and leaves `experiments` alone; it reports one error unless the envelope does not parse. */
  lemma Phase2FailureKeepsPhase1(s: StoreState, r2: HttpOutcome<CompositeExperimentResponse>)
    requires r2.TransportFailure? || !IsSuccessful(r2.code)
    ensures var f := DebugFetchSpec(s, r2);
            f.state == s &&
            if r2.Completed? && r2.errorBody.Malformed? then f.outcomes == [] && f.crashed
            else
              |f.outcomes| == 1 && f.outcomes[0].Failed? &&
              f.outcomes[0].th == if r2.TransportFailure? then FetchTransport else FetchHttp(r2.code, ErrorText(r2.errorBody))
  {
  }

  /** A 2xx phase 2 that decodes stores the reconciled list (pinned against the defaults phase 1 just wrote) and reports success. */
  lemma Phase2SuccessStoresReconciled(s: StoreState, code: int, e: Body<ApiError>, body: Body<CompositeExperimentResponse>)
    requires IsSuccessful(code) && !body.Malformed?
    ensures var f := DebugFetchSpec(s, Completed(code, e, body));
            match Reconcile(ParsedComposite(body), s.experimentsDefaults)
            case Some(exps) => f.state == s.(experiments := exps) && f.outcomes == [Succeeded] &&
                               |exps| == |ParsedComposite(body)|
            case None => f.state == s && f.outcomes == [] && f.crashed
  {
  }

  /** A second request goes out exactly when phase 1 succeeded, decoded, and turned debug mode on. */
  lemma SecondRequestOnlyInDebugMode(s: StoreState, r1: HttpOutcome<ExperimentResponse>, r2: HttpOutcome<CompositeExperimentResponse>)
    ensures FetchSpec(s, r1, r2).requests == 2 <==>
              r1.Completed? && IsSuccessful(r1.code) && !r1.body.Malformed? && ParsedDebug(r1.body)
  {
  }

  /**
   * A 2xx response replaces the defaults wholesale, so a key that resolved before can resolve to null
   * afterwards: here the body decodes to an empty experiment list, or to `null`.
   */
  lemma SuccessfulFetchCanDropKey(r2: HttpOutcome<CompositeExperimentResponse>)
    ensures var s := UNSET.(experimentsDefaults := [Experiment("k", "v", 0)]);
            Value(s, "k") == Some("v") &&
            Value(FetchSpec(s, Completed(200, JsonNull, Parsed(ExperimentResponse([], Meta(false)))), r2).state, "k") == None &&
            Value(FetchSpec(s, Completed(200, JsonNull, JsonNull), r2).state, "k") == None
  {
  }

  /** The requests a fetch issues, both built from the same key list. */
  function IssuedRequests(builder: RequestBuilder, keys: seq<string>, count: nat): seq<Request>
  {
    var q := MakeQueryString(keys);
    [builder.Build(q, [EXPERIMENTS_PATH])] + if count == 2 then [builder.Build(q, [EXPERIMENTS_PATH, OPTIONS_PATH])] else []
  }

  class Client {
    const store: Store
    const requestBuilder: RequestBuilder
    /** Wall-clock time of the last phase 1, in milliseconds; -1 until one completes. */
    var lastOperationDurationMillis: int

    constructor (store: Store, requestBuilder: RequestBuilder)
      ensures this.store == store && this.requestBuilder == requestBuilder
      ensures lastOperationDurationMillis == -1
    {
      this.store := store;
      this.requestBuilder := requestBuilder;
      lastOperationDurationMillis := -1;
    }

    /**
     * `fetchExperiments`, with the clock readings and the two responses as inputs. The phase-1 callback runs at
     * `endMillis`; phase 2 runs only if phase 1 asks for it.
     */
    method FetchExperiments(defaultKeys: seq<string>, handler: Handler, onSuccess: SuccessListener, onError: ErrorListener,
                            startMillis: int, r1: HttpOutcome<ExperimentResponse>, endMillis: int,
                            r2: HttpOutcome<CompositeExperimentResponse>) returns (requests: seq<Request>)
      modifies this, store.prefs, handler
      ensures lastOperationDurationMillis == endMillis - startMillis
      ensures var f := FetchSpec(old(store.State()), r1, r2);
              store.State() == f.state &&
              handler.queue == old(handler.queue) + MessagesFor(handler.variant, f.outcomes, onSuccess, onError) &&
              requests == IssuedRequests(requestBuilder, defaultKeys, f.requests)
    {
      var request := requestBuilder.Build(MakeQueryString(defaultKeys), [EXPERIMENTS_PATH]);
      requests := [request];
      match r1 {
        case TransportFailure =>
          lastOperationDurationMillis := endMillis - startMillis;
          handler.SendError(onError, FetchTransport);
        case Completed(code, errorBody, body) =>
          lastOperationDurationMillis := endMillis - startMillis;
          if !IsSuccessful(code) {
            if errorBody.Malformed? { return; }
            handler.SendError(onError, FetchHttp(code, ErrorText(errorBody)));
            return;
          }
          if body.Malformed? { return; }
          store.SetExperimentsDefaults(ParsedDefaults(body));
          store.SetIsInDebugMode(ParsedDebug(body));
          if ParsedDebug(body) {
            var second := FetchDebugExperiments(defaultKeys, handler, onSuccess, onError, r2);
            requests := requests + [second];
          } else {
            handler.SendSuccess(onSuccess);
          }
      }
    }

    /** `fetchDebugExperiments`: the `experiments/options` request and its callback. */
    method FetchDebugExperiments(defaultKeys: seq<string>, handler: Handler, onSuccess: SuccessListener,
                                 onError: ErrorListener, r2: HttpOutcome<CompositeExperimentResponse>)
      returns (request: Request)
      modifies store.prefs, handler
      ensures var f := DebugFetchSpec(old(store.State()), r2);
              store.State() == f.state &&
              handler.queue == old(handler.queue) + MessagesFor(handler.variant, f.outcomes, onSuccess, onError)
      ensures request == requestBuilder.Build(MakeQueryString(defaultKeys), [EXPERIMENTS_PATH, OPTIONS_PATH])
    {
      request := requestBuilder.Build(MakeQueryString(defaultKeys), [EXPERIMENTS_PATH, OPTIONS_PATH]);
      match r2 {
        case TransportFailure =>
          handler.SendError(onError, FetchTransport);
        case Completed(code, errorBody, body) =>
          if !IsSuccessful(code) {
            if errorBody.Malformed? { return; }
            handler.SendError(onError, FetchHttp(code, ErrorText(errorBody)));
            return;
          }
          if body.Malformed? { return; }
          var reconciled := Reconcile(ParsedComposite(body), store.State().experimentsDefaults);
          if reconciled.Some? {
            store.SetExperiments(reconciled.value);
            handler.SendSuccess(onSuccess);
          }
      }
    }
  }
}
