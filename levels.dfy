/** The three verdicts and the label each is displayed with. */
module Levels {
  import opened Ascii

  /** A verdict, listed from least to most severe. */
  datatype Level = Go | Caution | NoGo {

    /** The string the source uses for the level. */
    function Name(): string {
      match this
      case Go => "go"
      case Caution => "caution"
      case NoGo => "no-go"
    }

    /** The rank in the severity order go < caution < no-go. */
    function Severity(): nat {
      match this
      case Go => 0
      case Caution => 1
      case NoGo => 2
    }
  }

  /** The display label of a level string; anything that is neither "go" nor "caution" reads as NO-GO. */
  function RecommendationLabel(level: string): (display: string)
    ensures display == "GO" <==> level == "go"
    ensures display == "CAUTION" <==> level == "caution"
    ensures display == "NO-GO" <==> level != "go" && level != "caution"
  {
    if level == "go" then "GO"
    else if level == "caution" then "CAUTION"
    else "NO-GO"
  }

  /** For every level the label is its name in capitals, so distinct levels get distinct labels. */
  lemma LabelIsUpperCasedName(l: Level, m: Level)
    ensures RecommendationLabel(l.Name()) == Upper(l.Name())
    ensures RecommendationLabel(l.Name()) == RecommendationLabel(m.Name()) ==> l == m
  {
  }
}
