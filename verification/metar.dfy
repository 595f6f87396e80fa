/**
 * Weather observations as the METAR provider delivers them, the unit
 * conversions the exporter applies to them, and the mapping of a METAR
 * sky-cover code to a cloud-cover fraction.
 */
module Metar {
  import opened Wrappers

  /**
   * One decoded station observation. Temperatures are in degrees Celsius,
   * wind speed in knots, visibility in statute miles, the altimeter setting
   * in inches of mercury, and the observation time in Unix seconds (UTC).
   */
  datatype Observation = Observation(
    temperature: real,
    dewpoint: real,
    windDirDegrees: int,
    windSpeedKts: int,
    visibilityStatuteMi: real,
    altimeterInHg: real,
    skyCover: string,
    observationTime: int)

  /**
   * The provider library's unit conversions. Their numeric bodies belong to
   * that library, so the model takes them as given functions.
   */
  datatype Units = Units(
    ktsToMs: real -> real,
    statMileToKm: real -> real,
    inHgToHPa: real -> real,
    ktsToBft: real -> int)

  /** The sky-cover codes that all mean "no cloud". */
  const ClearCodes: seq<string> := ["SKC", "CLR", "NSC", "CAVOK"]

  /** Every sky-cover code the exporter recognises. */
  const CoverCodes: set<string> := {"SKC", "CLR", "NSC", "CAVOK", "FEW", "SCT", "BKN", "OVC"}

  /**
   * The fraction of the sky covered (0 = clear, 1 = overcast) that the
   * exporter publishes for a sky-cover code, or `None` when the code matches
   * none of the cases and nothing is published.
   */
  function SkyCoverFraction(code: string): (r: Option<real>)
    ensures r.Some? <==> code in CoverCodes
    ensures r.Some? ==> 0.0 <= r.value <= 1.0
  {
    if code in ClearCodes then Some(0.0)
    else if code == "FEW" then Some(2.0 / 8.0)
    else if code == "SCT" then Some(4.0 / 8.0)
    else if code == "BKN" then Some(7.0 / 8.0)
    else if code == "OVC" then Some(1.0)
    else None
  }

  /** The METAR cloud-amount categories, from least to most cloud. */
  datatype Cover = Clear | Few | Scattered | Broken | Overcast

  /** The category a sky-cover code names, if it names one. */
  function CategoryOf(code: string): Option<Cover>
  {
    match code
    case "SKC" => Some(Clear)
    case "CLR" => Some(Clear)
    case "NSC" => Some(Clear)
    case "CAVOK" => Some(Clear)
    case "FEW" => Some(Few)
    case "SCT" => Some(Scattered)
    case "BKN" => Some(Broken)
    case "OVC" => Some(Overcast)
    case _ => None
  }

  /** Position of a category in the order clear < few < scattered < broken < overcast. */
  function Rank(c: Cover): nat
  {
    match c
    case Clear => 0
    case Few => 1
    case Scattered => 2
    case Broken => 3
    case Overcast => 4
  }

  /** The largest cloud amount, in eighths of the sky (oktas), a category stands for. */
  function MaxOktas(c: Cover): (n: nat)
    ensures n <= 8
  {
    match c
    case Clear => 0
    case Few => 2
    case Scattered => 4
    case Broken => 7
    case Overcast => 8
  }

  /**
   * The published fraction is the category's upper bound in oktas divided
   * by eight, and a code with no category publishes nothing.
   */
  lemma SkyCoverIsOktaBound(code: string)
    ensures CategoryOf(code).None? ==> SkyCoverFraction(code).None?
    ensures CategoryOf(code).Some? ==>
      SkyCoverFraction(code) == Some(MaxOktas(CategoryOf(code).value) as real / 8.0)
  {
  }

  /** The fraction rises strictly along clear < few < scattered < broken < overcast. */
  lemma SkyCoverRisesWithCover(a: string, b: string)
    requires CategoryOf(a).Some? && CategoryOf(b).Some?
    requires Rank(CategoryOf(a).value) < Rank(CategoryOf(b).value)
    ensures SkyCoverFraction(a).Some? && SkyCoverFraction(b).Some?
    ensures SkyCoverFraction(a).value < SkyCoverFraction(b).value
  {
    SkyCoverIsOktaBound(a);
    SkyCoverIsOktaBound(b);
  }
}
