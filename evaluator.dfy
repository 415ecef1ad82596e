/**
 * The threshold evaluator: builds the ordered list of per-factor checks for a
 * weather reading, appends the forecast assessment when there is one, and
 * reduces the list to the most severe level.
 */
module Evaluator {
  import opened Wrappers
  import opened Levels
  import opened Rules
  import opened TafClassifier

  /** The current weather reading: m/s, mm/h and metres. */
  datatype Snapshot = Snapshot(
    windSpeed: real,
    windGusts: real,
    precipitation: real,
    snowfall: real,
    visibility: real,
    cloudBase: real)

  /** One displayed check; its constructor is the source's `condition` record builder. */
  datatype Condition = Condition(factor: string, value: string, level: Level)

  /** The verdict and the checks that led to it, in display order. */
  datatype Recommendation = Recommendation(overall: Level, checks: seq<Condition>)

  /** The labels of the six weather checks, in the order they are listed. */
  const FACTOR_LABELS: seq<string> :=
    ["Wind speed", "Wind gusts", "Precipitation", "Snowfall", "Visibility", "Cloud base"]

  const TAF_LABEL := "TAF hazards"

  /** `Math.round`: the nearest integer, halves rounded up. */
  function Round(x: real): (n: int)
    ensures n as real - 0.5 <= x < n as real + 0.5
  {
    (x + 0.5).Floor
  }

  /** `checks.some((entry) => entry.level === level)`, scanning from the left. */
  predicate HasLevel(checks: seq<Condition>, level: Level)
    ensures HasLevel(checks, level) <==> exists i :: 0 <= i < |checks| && checks[i].level == level
  {
    checks != [] && (checks[0].level == level || HasLevel(checks[1..], level))
  }

  /**
   * Evaluates a reading and the optional forecast text. `show` is the
   * number-to-text conversion used for the displayed values.
   */
  method EvaluateConditions(current: Snapshot, taf: Option<string>, show: real -> string)
    returns (rec: Recommendation)
    ensures |rec.checks| == if EvaluateTafRisk(taf).Some? then 7 else 6
    ensures forall i :: 0 <= i < 6 ==> rec.checks[i].factor == FACTOR_LABELS[i]
    ensures rec.checks[0].value == show(current.windSpeed) + " m/s"
    ensures rec.checks[0].level == WindSpeedLevel(current.windSpeed)
    ensures rec.checks[1].value == show(current.windGusts) + " m/s"
    ensures rec.checks[1].level == WindGustLevel(current.windGusts)
    ensures rec.checks[2].value == show(current.precipitation) + " mm/h"
    ensures rec.checks[2].level == PrecipitationLevel(current.precipitation)
    ensures rec.checks[3].value == show(current.snowfall) + " mm/h"
    ensures rec.checks[3].level == SnowfallLevel(current.snowfall)
    ensures rec.checks[4].value == show(Round(current.visibility) as real) + " m"
    ensures rec.checks[4].level == VisibilityLevel(current.visibility)
    ensures rec.checks[5].value == show(Round(current.cloudBase) as real) + " m"
    ensures rec.checks[5].level == CloudBaseLevel(current.cloudBase)
    ensures EvaluateTafRisk(taf).Some? ==>
              var risk := EvaluateTafRisk(taf).value;
              rec.checks[6] == Condition(TAF_LABEL, risk.reason, risk.level)
    // the overall level is the most severe level among the checks
    ensures forall i :: 0 <= i < |rec.checks| ==> rec.checks[i].level.Severity() <= rec.overall.Severity()
    ensures exists i :: 0 <= i < |rec.checks| && rec.checks[i].level == rec.overall
    // stated tier by tier
    ensures rec.overall == NoGo <==> exists i :: 0 <= i < |rec.checks| && rec.checks[i].level == NoGo
    ensures rec.overall == Caution <==>
              (forall i :: 0 <= i < |rec.checks| ==> rec.checks[i].level != NoGo) &&
              (exists i :: 0 <= i < |rec.checks| && rec.checks[i].level == Caution)
    ensures rec.overall == Go <==> forall i :: 0 <= i < |rec.checks| ==> rec.checks[i].level == Go
  {
    var checks: seq<Condition> := [];

    checks := checks + [Condition("Wind speed", show(current.windSpeed) + " m/s", WindSpeedLevel(current.windSpeed))];
    checks := checks + [Condition("Wind gusts", show(current.windGusts) + " m/s", WindGustLevel(current.windGusts))];
    checks := checks + [Condition("Precipitation", show(current.precipitation) + " mm/h", PrecipitationLevel(current.precipitation))];
    checks := checks + [Condition("Snowfall", show(current.snowfall) + " mm/h", SnowfallLevel(current.snowfall))];
    checks := checks + [Condition("Visibility", show(Round(current.visibility) as real) + " m", VisibilityLevel(current.visibility))];
    checks := checks + [Condition("Cloud base", show(Round(current.cloudBase) as real) + " m", CloudBaseLevel(current.cloudBase))];

    var tafRisk := EvaluateTafRisk(taf);
    if tafRisk.Some? {
      checks := checks + [Condition(TAF_LABEL, tafRisk.value.reason, tafRisk.value.level)];
    }

    var hasNoGo := HasLevel(checks, NoGo);
    var hasCaution := HasLevel(checks, Caution);
    var overall := if hasNoGo then NoGo else if hasCaution then Caution else Go;

    rec := Recommendation(overall, checks);
  }

  /**
   * Five sample readings: calm weather is go; the same weather with wind
   * 12 m/s is caution; with gusts 20 m/s, rain 3 mm/h or visibility 2000 m
   * it is no-go.
   */
  method SampleReadings(show: real -> string) {
    var calm := Snapshot(5.0, 10.0, 0.0, 0.0, 5000.0, 500.0);
    var r := EvaluateConditions(calm, None, show);
    assert r.overall == Go;
    r := EvaluateConditions(calm.(windSpeed := 12.0), None, show);
    assert r.checks[0].level == Caution && r.overall == Caution;
    r := EvaluateConditions(calm.(windGusts := 20.0), None, show);
    assert r.checks[1].level == NoGo && r.overall == NoGo;
    r := EvaluateConditions(calm.(precipitation := 3.0), None, show);
    assert r.checks[2].level == NoGo && r.overall == NoGo;
    r := EvaluateConditions(calm.(visibility := 2000.0), None, show);
    assert r.checks[4].level == NoGo && r.overall == NoGo;
  }
}
