/**
 * The debug override editor: which option each experiment shows as
 * received and as pre-selected, the working selection map the radio
 * listeners fill, and the save and reset buttons. Both SDKs share the
 * logic except for reset, where only Proba clears the working map.
 * Views are reduced to the rows they tag.
 */
module DebugScreen {
  import opened Wrappers
  import opened Models
  import opened Lists
  import opened Storage
  import opened Resolver

  /** `ExperimentOptionTag`: the experiment key, the option value, and whether the row starts checked. */
  datatype OptionTag = OptionTag(key: string, option: string, isDefault: bool)

  /** One radio row: its tag and whether it is styled as the option the server sent. */
  datatype OptionRow = OptionRow(tag: OptionTag, received: bool)

  /** One experiment's section: title, key, a row per option, and the row checked on display. */
  datatype ExperimentView = ExperimentView(name: string, key: string, rows: seq<OptionRow>, checked: nat)

  /** `receivedOption`: the first stored default for the key, else "". */
  function ReceivedOption(s: StoreState, key: string): (r: string)
    ensures FirstValue(s.experimentsDefaults, key).Some? ==> r == FirstValue(s.experimentsDefaults, key).value
    ensures FirstValue(s.experimentsDefaults, key).None? ==> r == ""
  {
    FirstValue(s.experimentsDefaults, key).GetOr("")
  }

  /** `defaultOption`: the first saved override for the key, else the received option. */
  function PreselectedOption(s: StoreState, key: string): (r: string)
    ensures FirstValue(s.experimentsDebug, key).Some? ==> r == FirstValue(s.experimentsDebug, key).value
    ensures FirstValue(s.experimentsDebug, key).None? ==> r == ReceivedOption(s, key)
  {
    FirstValue(s.experimentsDebug, key).GetOr(ReceivedOption(s, key))
  }

  /** Pre-selection prefers an override, then the received default, then "". */
  lemma PreselectionPrecedence(s: StoreState, key: string)
    ensures (exists i :: 0 <= i < |s.experimentsDebug| && s.experimentsDebug[i].key == key) ==>
              Some(PreselectedOption(s, key)) == FirstValue(s.experimentsDebug, key)
    ensures (forall i :: 0 <= i < |s.experimentsDebug| ==> s.experimentsDebug[i].key != key) ==>
              PreselectedOption(s, key) == ReceivedOption(s, key)
    ensures (forall i :: 0 <= i < |s.experimentsDefaults| ==> s.experimentsDefaults[i].key != key) ==>
              ReceivedOption(s, key) == ""
  {
  }

  /** In debug mode the pre-selected option is what `get` returns, whenever `get` returns anything. */
  lemma PreselectionMatchesValue(s: StoreState, key: string)
    requires s.isInDebugMode
    ensures Value(s, key).Some? ==> PreselectedOption(s, key) == Value(s, key).value
    ensures Value(s, key).None? ==> PreselectedOption(s, key) == ""
  {
  }

  /** `mapExperimentOptionOnRadios` and `mapExperimentOptionOnViews` for one option. */
  function OptionRowOf(key: string, o: ExperimentOption, received: string, preselected: string): OptionRow {
    OptionRow(OptionTag(key, o.value, o.value == preselected), o.value == received)
  }

  /**
   * `mapExperimentOnViews`: one row per option, in order; None where `first { it.default }` throws
   * because no option carries the pre-selected value.
   */
  function RenderExperiment(s: StoreState, e: CompositeExperiment): (r: Option<ExperimentView>)
    ensures r.Some? <==> exists j :: 0 <= j < |e.options| && e.options[j].value == PreselectedOption(s, e.key)
    ensures r.Some? ==>
              var v := r.value;
              v.name == e.name && v.key == e.key && |v.rows| == |e.options| &&
              (forall i :: 0 <= i < |v.rows| ==>
                 v.rows[i].tag.key == e.key && v.rows[i].tag.option == e.options[i].value &&
                 (v.rows[i].tag.isDefault <==> e.options[i].value == PreselectedOption(s, e.key)) &&
                 (v.rows[i].received <==> e.options[i].value == ReceivedOption(s, e.key))) &&
              v.checked < |v.rows| && v.rows[v.checked].tag.isDefault &&
              forall i :: 0 <= i < v.checked ==> !v.rows[i].tag.isDefault
  {
    var received := ReceivedOption(s, e.key);
    var preselected := PreselectedOption(s, e.key);
    var rows := seq(|e.options|, i requires 0 <= i < |e.options| => OptionRowOf(e.key, e.options[i], received, preselected));
    match IndexOfFirst(e.options, (o: ExperimentOption) => o.value == preselected)
    case None => None
    case Some(j) => Some(ExperimentView(e.name, e.key, rows, j))
  }

  /** The whole screen, one section per stored composite experiment; None if any section throws. */
  function RenderAll(s: StoreState, exps: seq<CompositeExperiment>): (r: Option<seq<ExperimentView>>)
    ensures r.Some? <==> forall i :: 0 <= i < |exps| ==> RenderExperiment(s, exps[i]).Some?
    ensures r.Some? ==> |r.value| == |exps| &&
                        forall i :: 0 <= i < |exps| ==> r.value[i] == RenderExperiment(s, exps[i]).value
  {
    if exps == [] then Some([])
    else
      var tail := exps[1..];
      assert forall i :: 0 < i < |exps| ==> exps[i] == tail[i - 1];
      match RenderExperiment(s, exps[0])
      case None => None
      case Some(v) =>
        match RenderAll(s, tail)
        case None => None
        case Some(vs) => Some([v] + vs)
  }

  function Render(s: StoreState): Option<seq<ExperimentView>> {
    RenderAll(s, s.experiments)
  }

  /** What a saved override list holds: one `Experiment(k, v, 0)` per working entry, each key once. */
  ghost predicate EntriesOfWorking(list: seq<Experiment>, working: map<string, string>) {
    |list| == |working| && UniqueKeys(list) &&
    (forall i :: 0 <= i < |list| ==>
       list[i].key in working && list[i].value == working[list[i].key] && list[i].optionId == 0) &&
    (forall k :: k in working ==> exists i :: 0 <= i < |list| && list[i].key == k)
  }

  /**
   * Once saved, and in debug mode, every selection the developer made is what `get` returns and what the
   * screen pre-selects; any other key still resolves through the defaults.
   */
  lemma SavedSelectionsResolve(s: StoreState, working: map<string, string>)
    requires s.isInDebugMode && EntriesOfWorking(s.experimentsDebug, working)
    ensures forall k :: k in working ==> Value(s, k) == Some(working[k]) && PreselectedOption(s, k) == working[k]
    ensures forall k :: k !in working ==> Value(s, k) == FirstValue(s.experimentsDefaults, k)
  {
    forall k | k in working ensures Value(s, k) == Some(working[k]) && PreselectedOption(s, k) == working[k] {
      var i :| 0 <= i < |s.experimentsDebug| && s.experimentsDebug[i].key == k;
      FirstValueOfUnique(s.experimentsDebug, i);
    }
  }

  /** The working map after reset: Proba clears it, Appbooster keeps it. */
  function WorkingAfterReset(variant: Variant, working: map<string, string>): map<string, string> {
    if variant == Proba then map[] else working
  }

  /**
   * Reset followed by save: Proba saves nothing, while Appbooster saves the selections made before the
   * reset again, so the reset does not survive a save.
   */
  lemma ResetThenSave(variant: Variant, working: map<string, string>, saved: seq<Experiment>)
    requires EntriesOfWorking(saved, WorkingAfterReset(variant, working))
    ensures variant == Proba ==> saved == []
    ensures variant == Appbooster ==> |saved| == |working|
    ensures variant == Appbooster ==> forall k :: k in working ==> FirstValue(saved, k) == Some(working[k])
  {
    if variant == Appbooster {
      forall k | k in working ensures FirstValue(saved, k) == Some(working[k]) {
        var i :| 0 <= i < |saved| && saved[i].key == k;
        FirstValueOfUnique(saved, i);
      }
    }
  }

  /** `mExperimentsDebugDefaults.map { (k, v) -> Experiment(k, v) }`, in the map's unspecified iteration order. */
  method EntriesOf(working: map<string, string>) returns (list: seq<Experiment>)
    ensures EntriesOfWorking(list, working)
  {
    list := [];
    var rest := working.Keys;
    while rest != {}
      invariant rest <= working.Keys
      invariant |list| + |rest| == |working|
      invariant UniqueKeys(list)
      invariant forall i :: 0 <= i < |list| ==>
                  list[i].key in working && list[i].key !in rest &&
                  list[i].value == working[list[i].key] && list[i].optionId == 0
      invariant forall k :: k in working && k !in rest ==> exists i :: 0 <= i < |list| && list[i].key == k
      decreases |rest|
    {
      var k :| k in rest;
      var before := list;
      list := list + [KeyValueExperiment(k, working[k])];
      assert list[|before|].key == k;
      assert forall i :: 0 <= i < |before| ==> list[i] == before[i];
      rest := rest - {k};
    }
  }

  class DebugScreen {
    const variant: Variant
    const store: Store
    /** `mExperimentsDebugDefaults`: the selections made since the screen opened. */
    var working: map<string, string>
    /** Whether `finish()` was called. */
    var finished: bool

    constructor (variant: Variant, store: Store)
      ensures this.variant == variant && this.store == store
      ensures working == map[] && !finished
    {
      this.variant := variant;
      this.store := store;
      working := map[];
      finished := false;
    }

    /** The radio group's checked-change listener: records one selection and nothing else. */
    method Select(tag: OptionTag)
      modifies this
      ensures working == old(working)[tag.key := tag.option]
      ensures finished == old(finished)
    {
      working := working[tag.key := tag.option];
    }

    /** The save button: the working selections replace the stored overrides, and the screen closes. */
    method Save()
      modifies this, store.prefs
      ensures EntriesOfWorking(store.State().experimentsDebug, working)
      ensures store.State() == old(store.State()).(experimentsDebug := store.State().experimentsDebug)
      ensures working == old(working) && finished
    {
      var list := EntriesOf(working);
      store.SetExperimentsDebug(list);
      finished := true;
    }

    /** The reset button: the stored overrides are emptied and the screen is rebuilt from the store. */
    method Reset() returns (screen: Option<seq<ExperimentView>>)
      modifies this, store.prefs
      ensures working == WorkingAfterReset(variant, old(working))
      ensures store.State() == old(store.State()).(experimentsDebug := [])
      ensures finished == old(finished)
      ensures screen == Render(store.State())
    {
      if variant == Proba {
        working := map[];
      }
      store.SetExperimentsDebug([]);
      screen := Render(store.State());
    }
  }

  /** After a reset every section pre-selects the received default, whatever was saved before. */
  lemma ResetShowsReceived(s: StoreState, key: string)
    ensures PreselectedOption(s.(experimentsDebug := []), key) == ReceivedOption(s, key)
  {
  }
}
