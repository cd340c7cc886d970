/**
 * The SDK's data classes and enum, with the default values Kotlin gives
 * each field when the JSON it is decoded from leaves the field out, and
 * the two exception classes folded into one error datatype.
 */
module Models {

  /** A flat assignment of a value to an experiment key. */
  datatype Experiment = Experiment(key: string, value: string, optionId: int)

  /** One candidate value of a composite experiment, with its label. */
  datatype ExperimentOption = ExperimentOption(value: string, description: string)

  datatype ExperimentStatus = PAUSED | RUNNING | FINISHED | UNKNOWN

  /** An experiment with all its candidate options, as the debug endpoint sends it. */
  datatype CompositeExperiment = CompositeExperiment(
    name: string,
    key: string,
    status: ExperimentStatus,
    options: seq<ExperimentOption>)

  datatype Meta = Meta(debug: bool)

  /** Body of a successful response of the `experiments` endpoint. */
  datatype ExperimentResponse = ExperimentResponse(experiments: seq<Experiment>, meta: Meta)

  /** Body of a successful response of the `experiments/options` endpoint. */
  datatype CompositeExperimentResponse = CompositeExperimentResponse(experiments: seq<CompositeExperiment>)

  /** The server's error envelope `{"error": ...}`. */
  datatype ApiError = ApiError(error: string)

  /** The setup and fetch exceptions of both SDKs. */
  datatype SdkError =
    | Setup                             // SetupException: bad configuration, wrong thread, unusable token
    | FetchHttp(code: int, message: string) // FetchException(code, message): a non-2xx response
    | FetchTransport                    // FetchException(cause): the call failed before any response

  /** The two SDKs built from this code base, where they behave differently. */
  datatype Variant = Proba | Appbooster

  // Default field values of the data classes.
  const DEFAULT_EXPERIMENT := Experiment("", "", 0)
  const DEFAULT_META := Meta(false)
  const DEFAULT_EXPERIMENT_RESPONSE := ExperimentResponse([], DEFAULT_META)
  const DEFAULT_COMPOSITE_RESPONSE := CompositeExperimentResponse([])
  const DEFAULT_COMPOSITE_EXPERIMENT := CompositeExperiment("", "", UNKNOWN, [])
  const DEFAULT_OPTION := ExperimentOption("", "")
  const DEFAULT_API_ERROR := ApiError("")

  /** An experiment built from a key and a value only (`Experiment(k, v)`) gets option id 0. */
  function KeyValueExperiment(key: string, value: string): (e: Experiment)
    ensures e.key == key && e.value == value
    ensures e.optionId == DEFAULT_EXPERIMENT.optionId
  {
    Experiment(key, value, 0)
  }

  /** Every field of every data class defaults to an empty string, an empty list, 0, false or UNKNOWN. */
  lemma DefaultsAreEmpty()
    ensures DEFAULT_EXPERIMENT.key == "" && DEFAULT_EXPERIMENT.value == "" && DEFAULT_EXPERIMENT.optionId == 0
    ensures DEFAULT_EXPERIMENT_RESPONSE.experiments == [] && !DEFAULT_EXPERIMENT_RESPONSE.meta.debug
    ensures DEFAULT_COMPOSITE_RESPONSE.experiments == []
    ensures DEFAULT_COMPOSITE_EXPERIMENT.status == UNKNOWN && DEFAULT_COMPOSITE_EXPERIMENT.options == []
    ensures DEFAULT_COMPOSITE_EXPERIMENT.name == "" && DEFAULT_COMPOSITE_EXPERIMENT.key == ""
    ensures DEFAULT_OPTION.value == "" && DEFAULT_OPTION.description == "" && DEFAULT_API_ERROR.error == ""
  {
  }

  /** The status enum has exactly four members. */
  lemma StatusHasFourMembers(s: ExperimentStatus)
    ensures s == PAUSED || s == RUNNING || s == FINISHED || s == UNKNOWN
    ensures PAUSED != RUNNING && PAUSED != FINISHED && PAUSED != UNKNOWN
    ensures RUNNING != FINISHED && RUNNING != UNKNOWN && FINISHED != UNKNOWN
  {
  }
}
