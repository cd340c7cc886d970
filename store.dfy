/**
 * The persistent store: five independent properties kept in one named
 * preferences file. Each property has its own storage key, reads as
 * null / an empty list / false while unset, and is written on its own.
 * The lists are kept as values (their JSON encoding is taken to round-trip).
 */
module Storage {
  import opened Wrappers
  import opened Models

  const PREFERENCES_NAME := "com.proba.storage"
  const DEVICE_ID_KEY := "com.proba.storage.deviceId"
  const EXPERIMENTS_KEY := "com.proba.storage.experiments"
  const EXPERIMENTS_DEFAULTS_KEY := "com.proba.storage.experiments.defaults"
  const EXPERIMENTS_DEBUG_KEY := "com.proba.storage.experiments.debug.defaults"
  const DEBUG_MODE_KEY := "com.proba.storage.experiments.debug.mode"

  /** What a preferences entry holds. */
  datatype PrefValue =
    | StringPref(s: string)
    | BoolPref(b: bool)
    | FlatListPref(flat: seq<Experiment>)
    | CompositeListPref(composite: seq<CompositeExperiment>)

  /** The values of the five store properties at one moment. */
  datatype StoreState = StoreState(
    deviceId: Option<string>,
    experiments: seq<CompositeExperiment>,
    experimentsDefaults: seq<Experiment>,
    experimentsDebug: seq<Experiment>,
    isInDebugMode: bool)

  /** What a store reads while nothing has been written. */
  const UNSET := StoreState(None, [], [], [], false)

  /** The five property getters, reading one preferences snapshot. */
  function ReadState(entries: map<string, PrefValue>): (s: StoreState)
    ensures DEVICE_ID_KEY !in entries ==> s.deviceId == None
    ensures EXPERIMENTS_KEY !in entries ==> s.experiments == []
    ensures EXPERIMENTS_DEFAULTS_KEY !in entries ==> s.experimentsDefaults == []
    ensures EXPERIMENTS_DEBUG_KEY !in entries ==> s.experimentsDebug == []
    ensures DEBUG_MODE_KEY !in entries ==> !s.isInDebugMode
  {
    StoreState(
      if DEVICE_ID_KEY in entries && entries[DEVICE_ID_KEY].StringPref? then Some(entries[DEVICE_ID_KEY].s) else None,
      if EXPERIMENTS_KEY in entries && entries[EXPERIMENTS_KEY].CompositeListPref? then entries[EXPERIMENTS_KEY].composite else [],
      if EXPERIMENTS_DEFAULTS_KEY in entries && entries[EXPERIMENTS_DEFAULTS_KEY].FlatListPref? then entries[EXPERIMENTS_DEFAULTS_KEY].flat else [],
      if EXPERIMENTS_DEBUG_KEY in entries && entries[EXPERIMENTS_DEBUG_KEY].FlatListPref? then entries[EXPERIMENTS_DEBUG_KEY].flat else [],
      if DEBUG_MODE_KEY in entries && entries[DEBUG_MODE_KEY].BoolPref? then entries[DEBUG_MODE_KEY].b else false)
  }

  /** An empty preferences file reads as null, empty lists and false. */
  lemma UnsetReadsEmpty()
    ensures ReadState(map[]) == UNSET
  {
  }

  /** The five storage keys are pairwise distinct, so no write can clobber another property. */
  lemma StorageKeysDistinct()
    ensures |{DEVICE_ID_KEY, EXPERIMENTS_KEY, EXPERIMENTS_DEFAULTS_KEY, EXPERIMENTS_DEBUG_KEY, DEBUG_MODE_KEY}| == 5
  {
  }

  /** A named preferences file (`SharedPreferences`): one mutable map shared by everyone holding it. */
  class Preferences {
    var entries: map<string, PrefValue>

    constructor ()
      ensures entries == map[]
    {
      entries := map[];
    }
  }

  /** The application context's registry of preferences files, by name. */
  class Context {
    var files: map<string, Preferences>

    constructor ()
      ensures files == map[]
    {
      files := map[];
    }

    /** `getSharedPreferences(name)`: the same object for the same name, for the life of the process. */
    method GetSharedPreferences(name: string) returns (p: Preferences)
      modifies this
      ensures name in files && p == files[name]
      ensures name in old(files) ==> files == old(files)
      ensures name !in old(files) ==> fresh(p) && p.entries == map[] && files == old(files)[name := p]
    {
      if name in files {
        p := files[name];
      } else {
        p := new Preferences();
        files := files[name := p];
      }
    }
  }

  class Store {
    const prefs: Preferences

    constructor (prefs: Preferences)
      ensures this.prefs == prefs
    {
      this.prefs := prefs;
    }

    /** `Store.getInstance(context)`: every instance is a view of the one preferences file named PREFERENCES_NAME. */
    static method GetInstance(context: Context) returns (store: Store)
      modifies context
      ensures PREFERENCES_NAME in context.files && store.prefs == context.files[PREFERENCES_NAME]
      ensures PREFERENCES_NAME in old(context.files) ==> store.prefs == old(context.files[PREFERENCES_NAME])
      ensures PREFERENCES_NAME !in old(context.files) ==> fresh(store.prefs) && store.State() == UNSET
    {
      var p := context.GetSharedPreferences(PREFERENCES_NAME);
      store := new Store(p);
    }

    /** The current value of every property. */
    function State(): StoreState
      reads prefs
    {
      ReadState(prefs.entries)
    }

    /** Setter of `deviceId`; writing null removes the entry. */
    method SetDeviceId(v: Option<string>)
      modifies prefs
      ensures prefs.entries == if v.Some? then old(prefs.entries)[DEVICE_ID_KEY := StringPref(v.value)]
                               else old(prefs.entries) - {DEVICE_ID_KEY}
      ensures State() == old(State()).(deviceId := v)
    {
      if v.Some? {
        prefs.entries := prefs.entries[DEVICE_ID_KEY := StringPref(v.value)];
      } else {
        prefs.entries := prefs.entries - {DEVICE_ID_KEY};
      }
    }

    method SetExperiments(v: seq<CompositeExperiment>)
      modifies prefs
      ensures prefs.entries == old(prefs.entries)[EXPERIMENTS_KEY := CompositeListPref(v)]
      ensures State() == old(State()).(experiments := v)
    {
      prefs.entries := prefs.entries[EXPERIMENTS_KEY := CompositeListPref(v)];
    }

    method SetExperimentsDefaults(v: seq<Experiment>)
      modifies prefs
      ensures prefs.entries == old(prefs.entries)[EXPERIMENTS_DEFAULTS_KEY := FlatListPref(v)]
      ensures State() == old(State()).(experimentsDefaults := v)
    {
      prefs.entries := prefs.entries[EXPERIMENTS_DEFAULTS_KEY := FlatListPref(v)];
    }

    method SetExperimentsDebug(v: seq<Experiment>)
      modifies prefs
      ensures prefs.entries == old(prefs.entries)[EXPERIMENTS_DEBUG_KEY := FlatListPref(v)]
      ensures State() == old(State()).(experimentsDebug := v)
    {
      prefs.entries := prefs.entries[EXPERIMENTS_DEBUG_KEY := FlatListPref(v)];
    }

    method SetIsInDebugMode(v: bool)
      modifies prefs
      ensures prefs.entries == old(prefs.entries)[DEBUG_MODE_KEY := BoolPref(v)]
      ensures State() == old(State()).(isInDebugMode := v)
    {
      prefs.entries := prefs.entries[DEBUG_MODE_KEY := BoolPref(v)];
    }
  }

  /** Two stores obtained from the same context see each other's writes. */
  method InstancesShareState(context: Context, v: seq<Experiment>) returns (a: Store, b: Store)
    modifies context, context.files.Values
    ensures a.prefs == b.prefs
    ensures a.State().experimentsDefaults == v && b.State() == a.State()
  {
    a := Store.GetInstance(context);
    b := Store.GetInstance(context);
    a.SetExperimentsDefaults(v);
  }
}
