/**
 * The JSON adapter for experiment statuses: a status is written as its
 * enum name in lower case, and any string other than the three known
 * lower-case names reads back as UNKNOWN.
 */
module StatusCodec {
  import opened Models

  /** The enum constant's declared name, in upper-case letters. */
  function Name(s: ExperimentStatus): (r: string)
    ensures |r| >= 6 && forall i :: 0 <= i < |r| ==> 'A' <= r[i] <= 'Z'
  {
    match s
    case PAUSED => "PAUSED"
    case RUNNING => "RUNNING"
    case FINISHED => "FINISHED"
    case UNKNOWN => "UNKNOWN"
  }

  /** Lower-casing under the root locale, restricted to the ASCII letters the enum names use. */
  function LowerAscii(s: string): (r: string)
    ensures |r| == |s|
    ensures forall i :: 0 <= i < |s| && 'A' <= s[i] <= 'Z' ==> r[i] as int == s[i] as int + 32
    ensures forall i :: 0 <= i < |s| && !('A' <= s[i] <= 'Z') ==> r[i] == s[i]
  {
    if s == [] then []
    else
      var c := s[0];
      [if 'A' <= c <= 'Z' then (c as int + 32) as char else c] + LowerAscii(s[1..])
  }

  /** `toJson`: the enum name in lower case. */
  function ToJson(s: ExperimentStatus): (r: string)
    ensures s == PAUSED <==> r == "paused"
    ensures s == RUNNING <==> r == "running"
    ensures s == FINISHED <==> r == "finished"
    ensures s == UNKNOWN <==> r == "unknown"
  {
    LowerAscii(Name(s))
  }

  /** `fromJson`: the three known lower-case names, anything else UNKNOWN. */
  function FromJson(x: string): (s: ExperimentStatus)
    ensures s == PAUSED <==> x == "paused"
    ensures s == RUNNING <==> x == "running"
    ensures s == FINISHED <==> x == "finished"
    ensures s == UNKNOWN <==> x != "paused" && x != "running" && x != "finished"
  {
    if x == "paused" then PAUSED
    else if x == "running" then RUNNING
    else if x == "finished" then FINISHED
    else UNKNOWN
  }

  /** Writing a status and reading it back gives the same status. */
  lemma FromJsonToJson(s: ExperimentStatus)
    ensures FromJson(ToJson(s)) == s
  {
  }

  /** A string survives reading and writing back exactly when it is one of the four lower-case names. */
  lemma ToJsonFromJson(x: string)
    ensures ToJson(FromJson(x)) == x <==> x in {"paused", "running", "finished", "unknown"}
  {
    if x !in {"paused", "running", "finished"} {
      assert FromJson(x) == UNKNOWN;
      assert ToJson(UNKNOWN) == "unknown";
    }
  }

  /** Matching is case-sensitive: a capitalised name is not recognised. */
  lemma WrongCaseIsUnknown()
    ensures FromJson("Paused") == UNKNOWN && FromJson("RUNNING") == UNKNOWN && FromJson("") == UNKNOWN
  {
  }
}
