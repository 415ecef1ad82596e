/** The fixed thresholds and the per-factor tiers they induce. */
module Rules {
  import opened Levels

  /** The named limits; readings are in m/s, mm/h and metres. */
  datatype Thresholds = Thresholds(
    windCaution: real,
    windNoGo: real,
    gustNoGo: real,
    rainCaution: real,
    rainNoGo: real,
    snowNoGo: real,
    minVisibility: real,
    minCloudBase: real)

  const RULES := Thresholds(
    windCaution := 10.0,
    windNoGo := 14.0,
    gustNoGo := 18.0,
    rainCaution := 0.5,
    rainNoGo := 2.0,
    snowNoGo := 0.5,
    minVisibility := 3000.0,
    minCloudBase := 120.0)

  /** Wind speed: no-go above the no-go limit, at least caution above the caution limit. */
  function WindSpeedLevel(speed: real): (l: Level)
    ensures l == NoGo <==> speed > RULES.windNoGo
    ensures l != Go <==> speed > RULES.windCaution
  {
    if speed > RULES.windNoGo then NoGo
    else if speed > RULES.windCaution then Caution
    else Go
  }

  /** Wind gusts have no caution tier. */
  function WindGustLevel(gusts: real): (l: Level)
    ensures l != Caution
    ensures l == NoGo <==> gusts > RULES.gustNoGo
  {
    if gusts > RULES.gustNoGo then NoGo else Go
  }

  /** Precipitation: no-go above the no-go rate, at least caution above the caution rate. */
  function PrecipitationLevel(rate: real): (l: Level)
    ensures l == NoGo <==> rate > RULES.rainNoGo
    ensures l != Go <==> rate > RULES.rainCaution
  {
    if rate > RULES.rainNoGo then NoGo
    else if rate > RULES.rainCaution then Caution
    else Go
  }

  /** Snowfall has no caution tier. */
  function SnowfallLevel(rate: real): (l: Level)
    ensures l != Caution
    ensures l == NoGo <==> rate > RULES.snowNoGo
  {
    if rate > RULES.snowNoGo then NoGo else Go
  }

  /** Visibility is a minimum: only a distance below it is no-go. */
  function VisibilityLevel(distance: real): (l: Level)
    ensures l != Caution
    ensures l == NoGo <==> distance < RULES.minVisibility
  {
    if distance < RULES.minVisibility then NoGo else Go
  }

  /** Cloud base is a minimum: only a height below it is no-go. */
  function CloudBaseLevel(height: real): (l: Level)
    ensures l != Caution
    ensures l == NoGo <==> height < RULES.minCloudBase
  {
    if height < RULES.minCloudBase then NoGo else Go
  }

  /** Every comparison is strict: a reading exactly at a limit does not reach the next tier. */
  lemma StrictThresholds()
    ensures WindSpeedLevel(10.0) == Go && WindSpeedLevel(14.0) == Caution
    ensures WindGustLevel(18.0) == Go
    ensures PrecipitationLevel(0.5) == Go && PrecipitationLevel(2.0) == Caution
    ensures SnowfallLevel(0.5) == Go
    ensures VisibilityLevel(3000.0) == Go && CloudBaseLevel(120.0) == Go
  {
  }

  /** Raising wind, gusts, precipitation or snowfall never makes that factor less severe. */
  lemma RaisingNeverImproves(lower: real, higher: real)
    requires lower <= higher
    ensures WindSpeedLevel(lower).Severity() <= WindSpeedLevel(higher).Severity()
    ensures WindGustLevel(lower).Severity() <= WindGustLevel(higher).Severity()
    ensures PrecipitationLevel(lower).Severity() <= PrecipitationLevel(higher).Severity()
    ensures SnowfallLevel(lower).Severity() <= SnowfallLevel(higher).Severity()
  {
  }

  /** Lowering visibility or cloud base never makes that factor less severe. */
  lemma LoweringNeverImproves(lower: real, higher: real)
    requires lower <= higher
    ensures VisibilityLevel(higher).Severity() <= VisibilityLevel(lower).Severity()
    ensures CloudBaseLevel(higher).Severity() <= CloudBaseLevel(lower).Severity()
  {
  }
}
