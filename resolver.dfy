/**
 * Resolution of experiment values from a store snapshot: the single-key
 * lookup `get` (the same in both SDKs) and the bulk views — Proba's
 * `getExperiments` and `getExperimentsWithDetails`, Appbooster's
 * `getExperiments(withPrefix)`. In debug mode a developer override
 * replaces a value key by key; outside it the overrides are ignored.
 */
module Resolver {
  import opened Wrappers
  import opened Models
  import opened Lists
  import opened Storage

  const APPBOOSTER_PREFIX := "[Appbooster] "
  const PROBA_PREFIX := "[Proba] "
  const PROBA_INTERNAL_PREFIX := "[Proba] [internal] "

  /** `get(key)`: in debug mode the first override for the key, else the first default, else null. */
  function Value(s: StoreState, key: string): (r: Option<string>)
    ensures r.None? <==> (forall i :: 0 <= i < |s.experimentsDefaults| ==> s.experimentsDefaults[i].key != key) &&
                         (s.isInDebugMode ==> forall i :: 0 <= i < |s.experimentsDebug| ==> s.experimentsDebug[i].key != key)
    ensures r.Some? ==> (exists i :: 0 <= i < |s.experimentsDefaults| &&
                                    s.experimentsDefaults[i].key == key && s.experimentsDefaults[i].value == r.value) ||
                        (s.isInDebugMode &&
                         exists i :: 0 <= i < |s.experimentsDebug| &&
                                     s.experimentsDebug[i].key == key && s.experimentsDebug[i].value == r.value)
  {
    if s.isInDebugMode then
      match FirstValue(s.experimentsDebug, key)
      case Some(v) => Some(v)
      case None => FirstValue(s.experimentsDefaults, key)
    else FirstValue(s.experimentsDefaults, key)
  }

  /** Outside debug mode `get` returns the value of the first default with the key, and null when none has it. */
  lemma ValueOutsideDebugMode(s: StoreState, key: string)
    requires !s.isInDebugMode
    ensures (forall i :: 0 <= i < |s.experimentsDefaults| ==> s.experimentsDefaults[i].key != key) <==> Value(s, key).None?
    ensures forall i :: 0 <= i < |s.experimentsDefaults| && s.experimentsDefaults[i].key == key &&
                        (forall j :: 0 <= j < i ==> s.experimentsDefaults[j].key != key)
                        ==> Value(s, key) == Some(s.experimentsDefaults[i].value)
  {
  }

  /** In debug mode the first override for the key wins over every default. */
  lemma DebugOverrideWins(s: StoreState, key: string, j: nat)
    requires s.isInDebugMode
    requires j < |s.experimentsDebug| && s.experimentsDebug[j].key == key
    requires forall i :: 0 <= i < j ==> s.experimentsDebug[i].key != key
    ensures Value(s, key) == Some(s.experimentsDebug[j].value)
  {
  }

  /** In debug mode a key with no override resolves exactly as it would outside debug mode. */
  lemma DebugFallsBackToDefaults(s: StoreState, key: string)
    requires s.isInDebugMode
    requires forall i :: 0 <= i < |s.experimentsDebug| ==> s.experimentsDebug[i].key != key
    ensures Value(s, key) == Value(s.(isInDebugMode := false), key)
  {
  }

  /** Outside debug mode the overrides are never consulted. */
  lemma OverridesIgnoredOutsideDebugMode(s: StoreState, key: string, overrides: seq<Experiment>)
    requires !s.isInDebugMode
    ensures Value(s, key) == Value(s.(experimentsDebug := overrides), key)
  {
  }

  /** A key that has a default never resolves to null, in either mode. */
  lemma DefaultKeyAlwaysResolves(s: StoreState, key: string)
    requires exists i :: 0 <= i < |s.experimentsDefaults| && s.experimentsDefaults[i].key == key
    ensures Value(s, key).Some?
  {
  }

  /** `mapExperimentsOnDefaults`: the defaults, with each value replaced by its first override in debug mode. */
  function MapExperimentsOnDefaults(s: StoreState): (r: seq<Experiment>)
    ensures |r| == |s.experimentsDefaults|
    ensures forall i :: 0 <= i < |r| ==> r[i].key == s.experimentsDefaults[i].key &&
                                         r[i].optionId == s.experimentsDefaults[i].optionId
    ensures !s.isInDebugMode ==> r == s.experimentsDefaults
    ensures s.isInDebugMode ==> forall i :: 0 <= i < |r| ==>
              r[i].value == FirstValue(s.experimentsDebug, r[i].key).GetOr(s.experimentsDefaults[i].value)
  {
    var d := s.experimentsDefaults;
    if s.isInDebugMode then
      seq(|d|, i requires 0 <= i < |d| =>
        Experiment(d[i].key, FirstValue(s.experimentsDebug, d[i].key).GetOr(d[i].value), d[i].optionId))
    else d
  }

  /** With unique default keys every entry of the bulk view carries exactly what `get` returns for its key. */
  lemma BulkEntryAgreesWithValue(s: StoreState, i: nat)
    requires UniqueKeys(s.experimentsDefaults) && i < |s.experimentsDefaults|
    ensures Value(s, s.experimentsDefaults[i].key) == Some(MapExperimentsOnDefaults(s)[i].value)
  {
    FirstValueOfUnique(s.experimentsDefaults, i);
  }

  /** The (key, value) pairs of a list, every key prefixed with `prefix`; KeyedPairsKeys and GetExperimentsAgreesWithValue say what their map holds. */
  function KeyedPairs(list: seq<Experiment>, prefix: string): (r: seq<(string, string)>)
    ensures |r| == |list|
    ensures forall i :: 0 <= i < |list| ==> r[i] == (prefix + list[i].key, list[i].value)
  {
    seq(|list|, i requires 0 <= i < |list| => (prefix + list[i].key, list[i].value))
  }

  /** Proba's `getExperiments()`: the bulk view as a key-to-value map. */
  function GetExperiments(s: StoreState): (r: map<string, string>)
    ensures forall k :: k in r <==> exists i :: 0 <= i < |s.experimentsDefaults| && s.experimentsDefaults[i].key == k
    ensures UniqueKeys(s.experimentsDefaults) ==>
              forall i :: 0 <= i < |s.experimentsDefaults| ==> Some(r[s.experimentsDefaults[i].key]) == Value(s, s.experimentsDefaults[i].key)
  {
    UnprefixedKeys(s);
    ToMap(KeyedPairs(MapExperimentsOnDefaults(s), ""))
  }

  /** Without a prefix the bulk map's keys are the default keys themselves, and with unique keys its values are `get`'s. */
  lemma UnprefixedKeys(s: StoreState)
    ensures forall k :: k in ToMap(KeyedPairs(MapExperimentsOnDefaults(s), "")) <==>
                        exists i :: 0 <= i < |s.experimentsDefaults| && s.experimentsDefaults[i].key == k
    ensures UniqueKeys(s.experimentsDefaults) ==>
              forall i :: 0 <= i < |s.experimentsDefaults| ==>
                Some(ToMap(KeyedPairs(MapExperimentsOnDefaults(s), ""))[s.experimentsDefaults[i].key]) ==
                Value(s, s.experimentsDefaults[i].key)
  {
    forall i | 0 <= i < |s.experimentsDefaults| ensures "" + s.experimentsDefaults[i].key == s.experimentsDefaults[i].key {
    }
    GetExperimentsAgreesWithValue(s, "");
    forall k ensures k in ToMap(KeyedPairs(MapExperimentsOnDefaults(s), "")) <==>
                     exists i :: 0 <= i < |s.experimentsDefaults| && s.experimentsDefaults[i].key == k
    {
      assert "" + k == k;
    }
  }

  /** Appbooster's `getExperiments(withPrefix)`: fills a map by `put`, one entry per default, in list order. */
  method AppboosterGetExperiments(s: StoreState, withPrefix: bool := true) returns (m: map<string, string>)
    ensures m == ToMap(KeyedPairs(MapExperimentsOnDefaults(s), if withPrefix then APPBOOSTER_PREFIX else ""))
  {
    var list := MapExperimentsOnDefaults(s);
    ghost var pairs := KeyedPairs(list, if withPrefix then APPBOOSTER_PREFIX else "");
    m := map[];
    var i := 0;
    while i < |list|
      invariant 0 <= i <= |list|
      invariant m == ToMap(pairs[..i])
    {
      var e := list[i];
      var key := if withPrefix then APPBOOSTER_PREFIX + e.key else e.key;
      assert "" + e.key == e.key;
      assert pairs[i] == (key, e.value);
      assert pairs[..i + 1][..i] == pairs[..i];
      m := m[key := e.value];
      i := i + 1;
    }
    assert pairs[..|list|] == pairs;
  }

  /** The keys of a map built from prefixed pairs are the prefixed keys. */
  lemma KeyedPairsKeys(list: seq<Experiment>, prefix: string)
    ensures forall k :: k in ToMap(KeyedPairs(list, prefix)) <==>
                        exists i :: 0 <= i < |list| && k == prefix + list[i].key
  {
    ToMapKeys(KeyedPairs(list, prefix));
  }

  lemma PrefixInjective(p: string, a: string, b: string)
    requires p + a == p + b
    ensures a == b
  {
    assert a == (p + a)[|p|..];
    assert b == (p + b)[|p|..];
  }

  /** Prefixing every key changes the keys only: the value under `prefix + k` is the value under `k` without prefix. */
  lemma {:induction false} PrefixPreservesValues(list: seq<Experiment>, prefix: string)
    ensures forall k :: (prefix + k in ToMap(KeyedPairs(list, prefix))) == (k in ToMap(KeyedPairs(list, "")))
    ensures forall k :: k in ToMap(KeyedPairs(list, "")) ==>
              ToMap(KeyedPairs(list, prefix))[prefix + k] == ToMap(KeyedPairs(list, ""))[k]
  {
    if list != [] {
      var init := list[..|list| - 1];
      var last := list[|list| - 1];
      PrefixPreservesValues(init, prefix);
      assert KeyedPairs(list, prefix)[..|list| - 1] == KeyedPairs(init, prefix);
      assert KeyedPairs(list, "")[..|list| - 1] == KeyedPairs(init, "");
      forall k
        ensures (prefix + k in ToMap(KeyedPairs(list, prefix))) == (k in ToMap(KeyedPairs(list, "")))
        ensures k in ToMap(KeyedPairs(list, "")) ==>
                ToMap(KeyedPairs(list, prefix))[prefix + k] == ToMap(KeyedPairs(list, ""))[k]
      {
        assert "" + last.key == last.key;
        if prefix + k == prefix + last.key {
          PrefixInjective(prefix, k, last.key);
        }
      }
    }
  }

  /** Appbooster's prefixed and bare views hold the same values, under `"[Appbooster] " + key` and `key`. */
  lemma AppboosterPrefixOnlyRenamesKeys(s: StoreState)
    ensures forall k :: (APPBOOSTER_PREFIX + k in ToMap(KeyedPairs(MapExperimentsOnDefaults(s), APPBOOSTER_PREFIX))) ==
                        (k in ToMap(KeyedPairs(MapExperimentsOnDefaults(s), "")))
    ensures forall k :: k in ToMap(KeyedPairs(MapExperimentsOnDefaults(s), "")) ==>
              ToMap(KeyedPairs(MapExperimentsOnDefaults(s), APPBOOSTER_PREFIX))[APPBOOSTER_PREFIX + k] ==
              ToMap(KeyedPairs(MapExperimentsOnDefaults(s), ""))[k]
    ensures forall k :: k in ToMap(KeyedPairs(MapExperimentsOnDefaults(s), APPBOOSTER_PREFIX)) ==>
              exists i :: 0 <= i < |s.experimentsDefaults| && k == APPBOOSTER_PREFIX + s.experimentsDefaults[i].key
  {
    PrefixPreservesValues(MapExperimentsOnDefaults(s), APPBOOSTER_PREFIX);
    KeyedPairsKeys(MapExperimentsOnDefaults(s), APPBOOSTER_PREFIX);
  }

  /** The bulk map's keys are the default keys, and with unique keys each maps to what `get` returns. */
  lemma GetExperimentsAgreesWithValue(s: StoreState, prefix: string)
    ensures forall k :: prefix + k in ToMap(KeyedPairs(MapExperimentsOnDefaults(s), prefix)) <==>
                        exists i :: 0 <= i < |s.experimentsDefaults| && s.experimentsDefaults[i].key == k
    ensures UniqueKeys(s.experimentsDefaults) ==>
              forall i :: 0 <= i < |s.experimentsDefaults| ==>
                Some(ToMap(KeyedPairs(MapExperimentsOnDefaults(s), prefix))[prefix + s.experimentsDefaults[i].key]) ==
                Value(s, s.experimentsDefaults[i].key)
  {
    var list := MapExperimentsOnDefaults(s);
    var pairs := KeyedPairs(list, prefix);
    KeyedPairsKeys(list, prefix);
    forall k ensures prefix + k in ToMap(pairs) <==>
                     exists i :: 0 <= i < |s.experimentsDefaults| && s.experimentsDefaults[i].key == k
    {
      if prefix + k in ToMap(pairs) {
        var i :| 0 <= i < |list| && prefix + k == prefix + list[i].key;
        PrefixInjective(prefix, k, list[i].key);
      }
      if exists i :: 0 <= i < |s.experimentsDefaults| && s.experimentsDefaults[i].key == k {
        var i :| 0 <= i < |s.experimentsDefaults| && s.experimentsDefaults[i].key == k;
        assert prefix + k == prefix + list[i].key;
      }
    }
    if UniqueKeys(s.experimentsDefaults) {
      forall i | 0 <= i < |s.experimentsDefaults|
        ensures Some(ToMap(pairs)[prefix + s.experimentsDefaults[i].key]) == Value(s, s.experimentsDefaults[i].key)
      {
        forall j | i < j < |pairs| ensures pairs[j].0 != pairs[i].0 {
          if pairs[j].0 == pairs[i].0 { PrefixInjective(prefix, list[j].key, list[i].key); }
        }
        ToMapLastWins(pairs, i);
        BulkEntryAgreesWithValue(s, i);
      }
    }
  }

  /** Duplicate default keys: the map keeps the last value while `get` returns the first. */
  lemma DuplicateKeysDiverge()
    ensures var s := StoreState(None, [], [Experiment("a", "1", 0), Experiment("a", "2", 0)], [], false);
            var m := ToMap(KeyedPairs(MapExperimentsOnDefaults(s), ""));
            "a" in m && m["a"] == "2" && Value(s, "a") == Some("1")
  {
    var s := StoreState(None, [], [Experiment("a", "1", 0), Experiment("a", "2", 0)], [], false);
    var pairs := KeyedPairs(MapExperimentsOnDefaults(s), "");
    assert "" + "a" == "a";
    assert pairs[1] == ("a", "2");
    ToMapLastWins(pairs, 1);
    assert FirstValue(s.experimentsDefaults, "a") == Some("1");
  }

  /** Proba's details view: for every experiment a value entry and an option-id entry, in that order; DetailsContent says what their map holds. */
  function DetailPairs(list: seq<Experiment>): (r: seq<(string, string)>)
    ensures |r| == 2 * |list|
    ensures forall i :: 0 <= i < |list| ==>
              r[2 * i] == (PROBA_PREFIX + list[i].key, list[i].value) &&
              r[2 * i + 1] == (PROBA_INTERNAL_PREFIX + list[i].key, DecimalString(list[i].optionId))
  {
    var r := seq(2 * |list|, j requires 0 <= j < 2 * |list| =>
      if j % 2 == 0 then (PROBA_PREFIX + list[j / 2].key, list[j / 2].value)
      else (PROBA_INTERNAL_PREFIX + list[j / 2].key, DecimalString(list[j / 2].optionId)));
    assert forall i :: 0 <= i < |list| ==>
             r[2 * i] == (PROBA_PREFIX + list[i].key, list[i].value) &&
             r[2 * i + 1] == (PROBA_INTERNAL_PREFIX + list[i].key, DecimalString(list[i].optionId)) by {
      forall i | 0 <= i < |list|
        ensures r[2 * i] == (PROBA_PREFIX + list[i].key, list[i].value)
        ensures r[2 * i + 1] == (PROBA_INTERNAL_PREFIX + list[i].key, DecimalString(list[i].optionId))
      {
        assert (2 * i) / 2 == i && (2 * i) % 2 == 0;
        assert (2 * i + 1) / 2 == i && (2 * i + 1) % 2 == 1;
      }
    }
    r
  }

  /** Proba's `getExperimentsWithDetails()`. */
  function GetExperimentsWithDetails(s: StoreState): (r: map<string, string>)
    ensures forall i :: 0 <= i < |s.experimentsDefaults| ==>
              PROBA_PREFIX + s.experimentsDefaults[i].key in r && PROBA_INTERNAL_PREFIX + s.experimentsDefaults[i].key in r
    ensures forall k :: k in r ==>
              exists i :: 0 <= i < |s.experimentsDefaults| &&
                          (k == PROBA_PREFIX + s.experimentsDefaults[i].key || k == PROBA_INTERNAL_PREFIX + s.experimentsDefaults[i].key)
  {
    DetailsKeys(MapExperimentsOnDefaults(s));
    ToMap(DetailPairs(MapExperimentsOnDefaults(s)))
  }

  /** The details map has a value key and an option-id key for each experiment, and no other keys. */
  lemma DetailsKeys(list: seq<Experiment>)
    ensures forall i :: 0 <= i < |list| ==>
              PROBA_PREFIX + list[i].key in ToMap(DetailPairs(list)) && PROBA_INTERNAL_PREFIX + list[i].key in ToMap(DetailPairs(list))
    ensures forall k :: k in ToMap(DetailPairs(list)) ==>
              exists i :: 0 <= i < |list| &&
                          (k == PROBA_PREFIX + list[i].key || k == PROBA_INTERNAL_PREFIX + list[i].key)
  {
    var pairs := DetailPairs(list);
    ToMapKeys(pairs);
    forall i | 0 <= i < |list|
      ensures PROBA_PREFIX + list[i].key in ToMap(pairs) && PROBA_INTERNAL_PREFIX + list[i].key in ToMap(pairs)
    {
      assert pairs[2 * i].0 == PROBA_PREFIX + list[i].key;
      assert pairs[2 * i + 1].0 == PROBA_INTERNAL_PREFIX + list[i].key;
    }
    forall k | k in ToMap(pairs)
      ensures exists i :: 0 <= i < |list| && (k == PROBA_PREFIX + list[i].key || k == PROBA_INTERNAL_PREFIX + list[i].key)
    {
      var j :| 0 <= j < |pairs| && pairs[j].0 == k;
      var i := j / 2;
      if j % 2 == 0 {
        assert j == 2 * i;
      } else {
        assert j == 2 * i + 1;
      }
    }
  }

  const INTERNAL_MARK := "[internal] "

  predicate HasPrefix(p: string, s: string) {
    |p| <= |s| && s[..|p|] == p
  }

  /** No key looks like an internal entry's key, so value keys and option-id keys cannot collide. */
  ghost predicate NoInternalLookalike(list: seq<Experiment>) {
    forall i :: 0 <= i < |list| ==> !HasPrefix(INTERNAL_MARK, list[i].key)
  }

  lemma ValueKeyIsNotInternalKey(a: string, b: string)
    requires !HasPrefix(INTERNAL_MARK, a)
    ensures PROBA_PREFIX + a != PROBA_INTERNAL_PREFIX + b
  {
    var x, y := PROBA_PREFIX + a, PROBA_INTERNAL_PREFIX + b;
    assert y == PROBA_PREFIX + (INTERNAL_MARK + b);
    assert x[|PROBA_PREFIX|..] == a;
    assert y[|PROBA_PREFIX|..] == INTERNAL_MARK + b;
    assert (INTERNAL_MARK + b)[..|INTERNAL_MARK|] == INTERNAL_MARK;
  }

  lemma PrefixDistinct(p: string, a: string, b: string)
    requires a != b
    ensures p + a != p + b
  {
    assert (p + a)[|p|..] == a;
    assert (p + b)[|p|..] == b;
  }

  /** Under those conditions no two detail entries share a key. */
  lemma DetailKeysDiffer(list: seq<Experiment>, j1: nat, j2: nat)
    requires UniqueKeys(list) && NoInternalLookalike(list)
    requires j1 < j2 < 2 * |list|
    ensures DetailPairs(list)[j1].0 != DetailPairs(list)[j2].0
  {
    var m1, m2 := j1 / 2, j2 / 2;
    assert m1 <= m2 < |list|;
    if j1 % 2 == 0 && j2 % 2 == 0 {
      assert m1 < m2;
      PrefixDistinct(PROBA_PREFIX, list[m1].key, list[m2].key);
    } else if j1 % 2 == 0 {
      ValueKeyIsNotInternalKey(list[m1].key, list[m2].key);
    } else if j2 % 2 == 0 {
      ValueKeyIsNotInternalKey(list[m2].key, list[m1].key);
    } else {
      assert m1 < m2;
      PrefixDistinct(PROBA_INTERNAL_PREFIX, list[m1].key, list[m2].key);
    }
  }

  /**
   * With unique keys none of which starts with "[internal] ", the details map holds, for every experiment,
   * exactly its value under "[Proba] key" and its option id as a decimal string under "[Proba] [internal] key".
   */
  lemma DetailsContent(s: StoreState, i: nat)
    requires UniqueKeys(s.experimentsDefaults) && NoInternalLookalike(s.experimentsDefaults)
    requires i < |s.experimentsDefaults|
    ensures var k := s.experimentsDefaults[i].key;
            var r := GetExperimentsWithDetails(s);
            PROBA_PREFIX + k in r && Some(r[PROBA_PREFIX + k]) == Value(s, k) &&
            PROBA_INTERNAL_PREFIX + k in r && r[PROBA_INTERNAL_PREFIX + k] == DecimalString(s.experimentsDefaults[i].optionId)
  {
    var list := MapExperimentsOnDefaults(s);
    var pairs := DetailPairs(list);
    assert UniqueKeys(list) && NoInternalLookalike(list);
    forall j1, j2 | 0 <= j1 < j2 < |pairs| ensures pairs[j1].0 != pairs[j2].0 {
      DetailKeysDiffer(list, j1, j2);
    }
    ToMapOfDistinct(pairs, 2 * i);
    ToMapOfDistinct(pairs, 2 * i + 1);
    BulkEntryAgreesWithValue(s, i);
  }

  /** A key that starts with "[internal] " hides another experiment's option id in the details map. */
  lemma DetailsKeyCollision()
    ensures var s := StoreState(None, [], [Experiment("x", "v", 7), Experiment("[internal] x", "w", 0)], [], false);
            var r := GetExperimentsWithDetails(s);
            "[Proba] [internal] x" in r && r["[Proba] [internal] x"] == "w"
  {
    var s := StoreState(None, [], [Experiment("x", "v", 7), Experiment("[internal] x", "w", 0)], [], false);
    var pairs := DetailPairs(s.experimentsDefaults);
    assert PROBA_PREFIX + "[internal] x" == "[Proba] [internal] x";
    assert pairs[2] == ("[Proba] [internal] x", "w");
    assert pairs[3].0 != "[Proba] [internal] x" by {
      assert pairs[3].0 == "[Proba] [internal] [internal] x";
    }
    ToMapLastWins(pairs, 2);
  }
}
