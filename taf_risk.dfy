/**
 * The hazard-token classifier for aviation forecast (TAF) text: the text is
 * upper-cased and searched for fixed substrings, severe ones first.
 */
module TafClassifier {
  import opened Wrappers
  import opened Ascii
  import opened Levels

  /** Tokens whose presence makes the forecast no-go. */
  const SEVERE_TOKENS: seq<string> := [" TS", " +TS", " FZRA", " +RA", " SN", " FG", " SQ"]

  /** Tokens whose presence, without a severe one, makes the forecast caution; note the bare "G". */
  const CAUTION_TOKENS: seq<string> := [" RA", " BR", " HZ", "G", " BKN", " OVC"]

  const SEVERE_REASON := "TAF includes significant hazard tokens (e.g. TS/SN/FG/FZRA)."
  const CAUTION_REASON := "TAF includes potential reduced-operations indicators."
  const GO_REASON := "TAF does not include configured hazard tokens."

  /** A classified forecast: its level and the explanation shown next to it. */
  datatype TafRisk = TafRisk(level: Level, reason: string)

  /** `token` occurs in `text` starting at position `i`. */
  ghost predicate OccursAt(text: string, token: string, i: nat) {
    i + |token| <= |text| && text[i..i + |token|] == token
  }

  /** Some token of `tokens` occurs somewhere in `text`. */
  ghost predicate ContainsAny(text: string, tokens: seq<string>) {
    exists k: nat, i: nat :: k < |tokens| && OccursAt(text, tokens[k], i)
  }

  /** `String.prototype.includes`: a left-to-right scan for `token`. */
  predicate Includes(text: string, token: string)
    decreases |text|
  {
    |token| <= |text| && (text[..|token|] == token || Includes(text[1..], token))
  }

  /** `tokens.some((token) => text.includes(token))`. */
  predicate SomeIncluded(text: string, tokens: seq<string>) {
    exists k :: 0 <= k < |tokens| && Includes(text, tokens[k])
  }

  /** The scan finds `token` exactly when it occurs at some position. */
  lemma {:induction false} IncludesIffOccurs(text: string, token: string)
    ensures Includes(text, token) <==> exists i: nat :: OccursAt(text, token, i)
    decreases |text|
  {
    if |token| <= |text| {
      if text[..|token|] == token {
        assert OccursAt(text, token, 0);
      } else {
        IncludesIffOccurs(text[1..], token);
        if Includes(text[1..], token) {
          var i: nat :| OccursAt(text[1..], token, i);
          assert text[1..][i..i + |token|] == text[i + 1..i + 1 + |token|];
          assert OccursAt(text, token, i + 1);
        }
        forall i: nat | OccursAt(text, token, i) ensures Includes(text[1..], token) {
          if i > 0 {
            assert text[1..][i - 1..i - 1 + |token|] == text[i..i + |token|];
            assert OccursAt(text[1..], token, i - 1);
          }
        }
      }
    }
  }

  /** Searching for a list of tokens agrees with "some token occurs somewhere". */
  lemma SomeIncludedIffContainsAny(text: string, tokens: seq<string>)
    ensures SomeIncluded(text, tokens) <==> ContainsAny(text, tokens)
  {
    if SomeIncluded(text, tokens) {
      var k :| 0 <= k < |tokens| && Includes(text, tokens[k]);
      IncludesIffOccurs(text, tokens[k]);
      var i: nat :| OccursAt(text, tokens[k], i);
    }
    if ContainsAny(text, tokens) {
      var k: nat, i: nat :| k < |tokens| && OccursAt(text, tokens[k], i);
      IncludesIffOccurs(text, tokens[k]);
    }
  }

  /** A stretch of `text` that upper-cases to `token` is an occurrence of `token` in `Upper(text)`. */
  lemma UpperOccurrence(text: string, token: string, i: nat)
    requires i + |token| <= |text|
    requires forall j :: 0 <= j < |token| ==> UpperChar(text[i + j]) == token[j]
    ensures OccursAt(Upper(text), token, i)
  {
  }

  /**
   * Classifies forecast text. Absent or empty text gives no assessment;
   * otherwise severe tokens are tried before caution tokens.
   */
  function EvaluateTafRisk(tafText: Option<string>): (r: Option<TafRisk>)
    ensures r.None? <==> tafText.None? || tafText.value == ""
    ensures r.Some? ==> r.value in {TafRisk(NoGo, SEVERE_REASON), TafRisk(Caution, CAUTION_REASON), TafRisk(Go, GO_REASON)}
  {
    if tafText.None? || tafText.value == "" then None
    else
      var upper := Upper(tafText.value);
      if SomeIncluded(upper, SEVERE_TOKENS) then Some(TafRisk(NoGo, SEVERE_REASON))
      else if SomeIncluded(upper, CAUTION_TOKENS) then Some(TafRisk(Caution, CAUTION_REASON))
      else Some(TafRisk(Go, GO_REASON))
  }

  /**
   * Tier precedence: no-go exactly when a severe token occurs in the upper-cased
   * text, caution exactly when none does but a caution token does, go exactly
   * when no token of either list occurs.
   */
  lemma TafRiskTiers(text: string)
    requires text != ""
    ensures var severe := ContainsAny(Upper(text), SEVERE_TOKENS);
            var caution := ContainsAny(Upper(text), CAUTION_TOKENS);
            && (EvaluateTafRisk(Some(text)) == Some(TafRisk(NoGo, SEVERE_REASON)) <==> severe)
            && (EvaluateTafRisk(Some(text)) == Some(TafRisk(Caution, CAUTION_REASON)) <==> !severe && caution)
            && (EvaluateTafRisk(Some(text)) == Some(TafRisk(Go, GO_REASON)) <==> !severe && !caution)
  {
    SomeIncludedIffContainsAny(Upper(text), SEVERE_TOKENS);
    SomeIncludedIffContainsAny(Upper(text), CAUTION_TOKENS);
  }

  /** Two texts that differ only in the case of ASCII letters are classified alike. */
  lemma CaseInsensitive(s: string, t: string)
    requires |s| == |t|
    requires forall i :: 0 <= i < |s| ==> UpperChar(s[i]) == UpperChar(t[i])
    ensures EvaluateTafRisk(Some(s)) == EvaluateTafRisk(Some(t))
  {
    assert Upper(s) == Upper(t);
  }

  /** A 'g' or 'G' anywhere in the text upper-cases to the bare caution token "G". */
  lemma LetterGIsCautionToken(text: string, i: nat)
    requires i < |text| && (text[i] == 'g' || text[i] == 'G')
    ensures ContainsAny(Upper(text), CAUTION_TOKENS)
  {
    assert UpperChar(text[i]) == 'G';
    UpperOccurrence(text, "G", i);
    assert CAUTION_TOKENS[3] == "G";
  }

  /**
   * Because of the bare "G" caution token, any text holding a 'g' or 'G' and
   * no severe token is classified caution.
   */
  lemma LetterGMeansCaution(text: string, i: nat)
    requires i < |text| && (text[i] == 'g' || text[i] == 'G')
    requires !ContainsAny(Upper(text), SEVERE_TOKENS)
    ensures EvaluateTafRisk(Some(text)) == Some(TafRisk(Caution, CAUTION_REASON))
  {
    LetterGIsCautionToken(text, i);
    TafRiskTiers(text);
  }

  /**
   * Every severe token and every caution token except "G" begins with a space.
   * So in a text without a space no severe token can match, and the text is
   * caution exactly when it holds a 'g' or 'G'.
   */
  lemma NoSpaceOnlyLetterGCounts(text: string)
    requires text != ""
    requires forall i :: 0 <= i < |text| ==> text[i] != ' '
    ensures EvaluateTafRisk(Some(text)).value.level != NoGo
    ensures EvaluateTafRisk(Some(text)).value.level == Caution <==>
              exists i :: 0 <= i < |text| && (text[i] == 'g' || text[i] == 'G')
  {
    var upper := Upper(text);
    forall k: nat, i: nat | k < |SEVERE_TOKENS| && i + |SEVERE_TOKENS[k]| <= |upper|
      ensures !OccursAt(upper, SEVERE_TOKENS[k], i)
    {
      var token := SEVERE_TOKENS[k];
      assert token[0] == ' ';
      assert upper[i..i + |token|][0] == upper[i] != ' ';
    }
    forall k: nat, i: nat | k < |CAUTION_TOKENS| && k != 3 && i + |CAUTION_TOKENS[k]| <= |upper|
      ensures !OccursAt(upper, CAUTION_TOKENS[k], i)
    {
      var token := CAUTION_TOKENS[k];
      assert token[0] == ' ';
      assert upper[i..i + |token|][0] == upper[i] != ' ';
    }
    forall i: nat | OccursAt(upper, CAUTION_TOKENS[3], i)
      ensures text[i] == 'g' || text[i] == 'G'
    {
      assert upper[i..i + 1][0] == upper[i] == 'G';
    }
    if exists i :: 0 <= i < |text| && (text[i] == 'g' || text[i] == 'G') {
      var i :| 0 <= i < |text| && (text[i] == 'g' || text[i] == 'G');
      LetterGIsCautionToken(text, i);
    }
    TafRiskTiers(text);
  }

  /** A thunderstorm code at the very start of the text is not seen: "TSRA" alone is go. */
  lemma LeadingThunderstormIsGo()
    ensures EvaluateTafRisk(Some("TSRA")) == Some(TafRisk(Go, GO_REASON))
  {
    NoSpaceOnlyLetterGCounts("TSRA");
  }

  /** A thunderstorm code beside a broken-cloud code is no-go: severity wins. */
  lemma ThunderstormWithBrokenCloudIsNoGo()
    ensures EvaluateTafRisk(Some("TEMPO 1500 TSRA BKN008")) == Some(TafRisk(NoGo, SEVERE_REASON))
  {
    var text := "TEMPO 1500 TSRA BKN008";
    UpperOccurrence(text, " TS", 10);
    assert SEVERE_TOKENS[0] == " TS";
    TafRiskTiers(text);
  }
}
