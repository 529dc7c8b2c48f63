/**
 * The rule-based part of the enhanced sentiment analyser: banding the VADER
 * compound score into a label and a confidence level, spotting emotional
 * indicators in the text, and assembling the summary and the report. The
 * VADER scorer itself is not modelled: its scores (or its failure) are an
 * input, and so is the three-decimal rendering of the compound score.
 */
module Sentiment {
  import opened Wrappers
  import opened Text

  // ---------------------------------------------------------------------------
  // Labels and confidence
  // ---------------------------------------------------------------------------

  datatype Label = VeryNegative | Negative | Neutral | Positive | VeryPositive

  function LabelName(l: Label): string {
    match l
    case VeryNegative => "very_negative"
    case Negative => "negative"
    case Neutral => "neutral"
    case Positive => "positive"
    case VeryPositive => "very_positive"
  }

  /** Position on the scale very_negative (0) < negative < neutral < positive < very_positive (4). */
  function Rank(l: Label): nat {
    match l
    case VeryNegative => 0
    case Negative => 1
    case Neutral => 2
    case Positive => 3
    case VeryPositive => 4
  }

  /**
   * `_interpret_compound_score`: the five bands. Both thresholds on the
   * negative side belong to the more negative band (-0.1 is negative, -0.5
   * is very negative), while on the positive side they belong to the more
   * positive band.
   */
  function InterpretCompoundScore(compound: real): (l: Label)
    ensures l == VeryPositive <==> compound >= 0.5
    ensures l == Positive <==> 0.1 <= compound < 0.5
    ensures l == Neutral <==> -0.1 < compound < 0.1
    ensures l == Negative <==> -0.5 < compound <= -0.1
    ensures l == VeryNegative <==> compound <= -0.5
  {
    if compound >= 0.5 then VeryPositive
    else if compound >= 0.1 then Positive
    else if compound > -0.1 then Neutral
    else if compound > -0.5 then Negative
    else VeryNegative
  }

  /** A higher compound score never yields a lower label. */
  lemma LabelMonotone(c1: real, c2: real)
    requires c1 <= c2
    ensures Rank(InterpretCompoundScore(c1)) <= Rank(InterpretCompoundScore(c2))
  {
  }

  datatype Confidence = Low | Medium | High

  /**
   * The string the report carries in its `confidence` field. The three
   * levels get three different strings, so the level is recovered from it.
   */
  function ConfidenceName(c: Confidence): (n: string)
    ensures n in {"high", "medium", "low"}
  {
    match c
    case Low => "low"
    case Medium => "medium"
    case High => "high"
  }

  function Abs(x: real): real {
    if x < 0.0 then -x else x
  }

  /** `_calculate_confidence`: banding of the absolute compound score. */
  function CalculateConfidence(compound: real): (c: Confidence)
    ensures c == High <==> compound >= 0.5 || compound <= -0.5
    ensures c == Medium <==> (0.1 <= compound < 0.5) || (-0.5 < compound <= -0.1)
    ensures c == Low <==> -0.1 < compound < 0.1
  {
    var a := Abs(compound);
    if a >= 0.5 then High
    else if a >= 0.1 then Medium
    else Low
  }

  /** The three levels have three different names, so the report's string determines the level. */
  lemma ConfidenceNameInjective(c: Confidence, d: Confidence)
    requires ConfidenceName(c) == ConfidenceName(d)
    ensures c == d
  {
  }

  /**
   * `_calculate_confidence` as the program writes it, returning the string:
   * "high" from an absolute score of 0.5 up, "medium" from 0.1 up, "low" below.
   */
  lemma ConfidenceString(compound: real)
    ensures ConfidenceName(CalculateConfidence(compound)) == "high" <==> Abs(compound) >= 0.5
    ensures ConfidenceName(CalculateConfidence(compound)) == "medium" <==> 0.1 <= Abs(compound) < 0.5
    ensures ConfidenceName(CalculateConfidence(compound)) == "low" <==> Abs(compound) < 0.1
  {
  }

  /** Confidence ignores the sign of the score. */
  lemma ConfidenceSymmetric(compound: real)
    ensures CalculateConfidence(compound) == CalculateConfidence(-compound)
  {
  }

  /** The confidence level each label goes with. */
  function ConfidenceOfLabel(l: Label): Confidence {
    match l
    case VeryNegative => High
    case VeryPositive => High
    case Negative => Medium
    case Positive => Medium
    case Neutral => Low
  }

  /** The confidence level is determined by the label: very_* is high, positive/negative medium, neutral low. */
  lemma ConfidenceAgreesWithLabel(compound: real)
    ensures CalculateConfidence(compound) == ConfidenceOfLabel(InterpretCompoundScore(compound))
  {
  }

  // ---------------------------------------------------------------------------
  // Emotional indicators
  // ---------------------------------------------------------------------------

  datatype Indicator = PositiveLanguage | NegativeLanguage | Uncertainty

  function IndicatorName(i: Indicator): string {
    match i
    case PositiveLanguage => "positive_language"
    case NegativeLanguage => "negative_language"
    case Uncertainty => "uncertainty"
  }

  /** The order in which the extractor tries the three categories. */
  const AllIndicators: seq<Indicator> := [PositiveLanguage, NegativeLanguage, Uncertainty]

  /**
   * One regular expression of the extractor: either `\b(w1|w2|...)\b`, a
   * word-bounded alternation of lower-case words, or `\?`, a single literal
   * character.
   */
  datatype Pattern = Words(alternatives: seq<string>) | Literal(c: char)

  const PositivePatterns: seq<Pattern> := [
    Words(["great", "excellent", "wonderful", "amazing", "fantastic", "perfect", "love", "happy", "excited", "pleased"]),
    Words(["thank you", "thanks", "appreciate", "grateful"]),
    Words(["yes", "absolutely", "definitely", "certainly", "sure"])
  ]

  const NegativePatterns: seq<Pattern> := [
    Words(["terrible", "awful", "horrible", "frustrated", "angry", "upset", "disappointed", "worried", "concerned"]),
    Words(["problem", "issue", "trouble", "difficult", "hard", "challenging"]),
    Words(["no", "never", "nothing", "nobody", "nowhere"])
  ]

  const QuestionPatterns: seq<Pattern> := [
    Words(["confused", "uncertain", "unsure", "maybe", "perhaps", "possibly"]),
    Literal('?')
  ]

  function PatternsFor(tag: Indicator): seq<Pattern> {
    match tag
    case PositiveLanguage => PositivePatterns
    case NegativeLanguage => NegativePatterns
    case Uncertainty => QuestionPatterns
  }

  /** A character of the regular-expression class `\w`, restricted to ASCII. */
  predicate IsWordChar(c: char) {
    ('a' <= c <= 'z') || ('A' <= c <= 'Z') || ('0' <= c <= '9') || c == '_'
  }

  /**
   * `w` occurs in `t` at position `i` with a word boundary on each side. Every
   * word of the patterns starts and ends with a word character, so `\b`
   * before it means "start of text or a non-word character", and likewise after it.
   */
  predicate WordAt(t: string, w: string, i: nat) {
    i + |w| <= |t| && t[i..i + |w|] == w
    && (i == 0 || !IsWordChar(t[i - 1]))
    && (i + |w| == |t| || !IsWordChar(t[i + |w|]))
  }

  /** `re.search(p, t)` finds a match. */
  predicate Matches(p: Pattern, t: string) {
    match p
    case Words(ws) => exists k, i :: 0 <= k < |ws| && 0 <= i <= |t| && WordAt(t, ws[k], i)
    case Literal(c) => c in t
  }

  /** A listed word standing between non-word characters (or the ends of the text) is found. */
  lemma StandaloneWordMatches(words: seq<string>, k: nat, before: string, after: string)
    requires k < |words|
    requires before == [] || !IsWordChar(before[|before| - 1])
    requires after == [] || !IsWordChar(after[0])
    ensures Matches(Words(words), before + words[k] + after)
  {
    var t := before + words[k] + after;
    assert t[|before|..|before| + |words[k]|] == words[k];
    assert |before| > 0 ==> t[|before| - 1] == before[|before| - 1];
    assert |after| > 0 ==> t[|before| + |words[k]|] == after[0];
    assert WordAt(t, words[k], |before|);
  }

  /** A word is not found inside a longer word: "no" is not found in "know". */
  lemma WordInsideWordNotMatched()
    ensures !Matches(Words(["no"]), "know")
  {
    forall i | 0 <= i <= 4 ensures !WordAt("know", "no", i) {
      if i == 1 {
        assert IsWordChar("know"[0]);
      } else if i == 0 {
        assert "know"[0..2][0] == 'k';
      } else if i == 2 {
        assert "know"[2..4][0] == 'o';
      }
    }
  }

  predicate AnyMatch(patterns: seq<Pattern>, t: string) {
    exists j :: 0 <= j < |patterns| && Matches(patterns[j], t)
  }

  /** Some pattern of the category matches the lower-cased text. */
  predicate Detected(tag: Indicator, lowered: string) {
    AnyMatch(PatternsFor(tag), lowered)
  }

  /**
   * What the extractor reports for an already lower-cased text: the
   * categories, in their fixed order, that are detected.
   */
  function IndicatorsOf(lowered: string): seq<Indicator> {
    Filter(AllIndicators, tag => Detected(tag, lowered))
  }

  /** One `for pattern in ...: if re.search(...): ...; break` loop: does any pattern match? */
  method AnyPatternMatches(patterns: seq<Pattern>, lowered: string) returns (found: bool)
    ensures found <==> AnyMatch(patterns, lowered)
  {
    found := false;
    for j := 0 to |patterns|
      invariant forall m :: 0 <= m < j ==> !Matches(patterns[m], lowered)
    {
      if Matches(patterns[j], lowered) {
        found := true;
        break;
      }
    }
  }

  /** The pattern loop for one category. */
  method DetectCategory(tag: Indicator, lowered: string) returns (found: bool)
    ensures found <==> Detected(tag, lowered)
  {
    found := AnyPatternMatches(PatternsFor(tag), lowered);
  }

  /** `_extract_emotional_indicators`: lower-case the text, then try the three categories in order. */
  method ExtractEmotionalIndicators(text: string) returns (indicators: seq<Indicator>)
    ensures indicators == IndicatorsOf(Lower(text))
  {
    var lowered := Lower(text);
    indicators := [];
    var positive := DetectCategory(PositiveLanguage, lowered);
    if positive {
      indicators := indicators + [PositiveLanguage];
    }
    var negative := DetectCategory(NegativeLanguage, lowered);
    if negative {
      indicators := indicators + [NegativeLanguage];
    }
    var question := DetectCategory(Uncertainty, lowered);
    if question {
      indicators := indicators + [Uncertainty];
    }
    assert indicators == InOrder(positive, negative, question);
    IndicatorsInOrder(lowered);
  }

  /** The extractor's output, category by category. */
  lemma IndicatorsInOrder(lowered: string)
    ensures IndicatorsOf(lowered)
      == InOrder(Detected(PositiveLanguage, lowered), Detected(NegativeLanguage, lowered), Detected(Uncertainty, lowered))
  {
    FilterCategories(tag => Detected(tag, lowered));
  }

  /** The categories whose flags are set, in the extractor's order. */
  function InOrder(positive: bool, negative: bool, uncertain: bool): seq<Indicator> {
    (if positive then [PositiveLanguage] else [])
      + (if negative then [NegativeLanguage] else [])
      + (if uncertain then [Uncertainty] else [])
  }

  /** Filtering the three categories keeps those the predicate accepts, in order. */
  lemma FilterCategories(p: Indicator -> bool)
    ensures Filter(AllIndicators, p) == InOrder(p(PositiveLanguage), p(NegativeLanguage), p(Uncertainty))
  {
    assert AllIndicators[1..] == [NegativeLanguage, Uncertainty];
    assert AllIndicators[1..][1..] == [Uncertainty];
    assert AllIndicators[1..][1..][1..] == [];
  }

  /** A selection of categories in order never names a category twice. */
  lemma InOrderDistinct(positive: bool, negative: bool, uncertain: bool)
    ensures forall i, j :: 0 <= i < j < |InOrder(positive, negative, uncertain)| ==>
      InOrder(positive, negative, uncertain)[i] != InOrder(positive, negative, uncertain)[j]
  {
    var r := InOrder(positive, negative, uncertain);
    if positive && negative && uncertain {
      assert r == [PositiveLanguage, NegativeLanguage, Uncertainty];
    } else if positive && negative {
      assert r == [PositiveLanguage, NegativeLanguage];
    } else if positive && uncertain {
      assert r == [PositiveLanguage, Uncertainty];
    } else if negative && uncertain {
      assert r == [NegativeLanguage, Uncertainty];
    } else {
      assert |r| <= 1;
    }
  }

  /** Selecting categories by any predicate gives a duplicate-free list holding exactly the accepted ones. */
  lemma SelectionWellFormed(p: Indicator -> bool)
    ensures forall i, j :: 0 <= i < j < |Filter(AllIndicators, p)| ==> Filter(AllIndicators, p)[i] != Filter(AllIndicators, p)[j]
    ensures forall tag :: tag in Filter(AllIndicators, p) <==> p(tag)
  {
    FilterCategories(p);
    InOrderDistinct(p(PositiveLanguage), p(NegativeLanguage), p(Uncertainty));
    forall tag ensures tag in AllIndicators {
      match tag
      case PositiveLanguage => assert AllIndicators[0] == tag;
      case NegativeLanguage => assert AllIndicators[1] == tag;
      case Uncertainty => assert AllIndicators[2] == tag;
    }
  }

  /**
   * The indicator list is an ordered, duplicate-free selection from
   * positive_language, negative_language, uncertainty, and a category is in
   * it exactly when one of its patterns matches.
   */
  lemma IndicatorsWellFormed(lowered: string)
    ensures IsSubsequence(IndicatorsOf(lowered), AllIndicators)
    ensures |IndicatorsOf(lowered)| <= 3
    ensures forall i, j :: 0 <= i < j < |IndicatorsOf(lowered)| ==> IndicatorsOf(lowered)[i] != IndicatorsOf(lowered)[j]
    ensures forall tag :: tag in IndicatorsOf(lowered) <==> Detected(tag, lowered)
  {
    SelectionWellFormed(tag => Detected(tag, lowered));
  }

  /** A question mark anywhere in the text always signals uncertainty. */
  lemma QuestionMarkMeansUncertainty(text: string)
    requires '?' in text
    ensures Uncertainty in IndicatorsOf(Lower(text))
  {
    var i :| 0 <= i < |text| && text[i] == '?';
    assert Lower(text)[i] == '?';
    assert Matches(QuestionPatterns[1], Lower(text));
    IndicatorsWellFormed(Lower(text));
  }

  /** Matching ignores case: lower-casing the text beforehand changes nothing. */
  lemma IndicatorsIgnoreCase(text: string)
    ensures IndicatorsOf(Lower(Lower(text))) == IndicatorsOf(Lower(text))
  {
    assert Lower(Lower(text)) == Lower(text);
  }

  // ---------------------------------------------------------------------------
  // Summary and report
  // ---------------------------------------------------------------------------

  /**
   * The description looked up for a label: the default "Mixed sentiment
   * detected" exactly for strings that are not one of the five label names.
   */
  function Description(labelName: string): (d: string)
    ensures d == "Mixed sentiment detected" <==>
      labelName !in {"very_positive", "positive", "neutral", "negative", "very_negative"}
    ensures d != ""
  {
    if labelName == "very_positive" then "Very positive sentiment detected"
    else if labelName == "positive" then "Positive sentiment detected"
    else if labelName == "neutral" then "Neutral sentiment detected"
    else if labelName == "negative" then "Negative sentiment detected"
    else if labelName == "very_negative" then "Very negative sentiment detected"
    else "Mixed sentiment detected"
  }

  /** What introduces the indicator list in the summary. */
  const IndicatorsTag: string := ". Emotional indicators: "

  /** The part of the summary that does not depend on the indicators. */
  function SummaryHead(compoundText: string, labelName: string): string {
    Description(labelName) + " (compound score: " + compoundText + ")"
  }

  /** The indicator part of the summary: nothing, or the tag followed by the names joined with ", ". */
  function IndicatorSuffix(indicators: seq<Indicator>): (suffix: string)
    ensures suffix == "" <==> indicators == []
  {
    if indicators == [] then "" else IndicatorsTag + Join(Map(indicators, IndicatorName), ", ")
  }

  /**
   * `_generate_sentiment_summary`. `compoundText` is the compound score
   * already rendered with three decimals. The summary starts with the
   * description and the score, and has an indicator suffix exactly when
   * there are indicators.
   */
  function GenerateSentimentSummary(compoundText: string, labelName: string, indicators: seq<Indicator>): (s: string)
    ensures |SummaryHead(compoundText, labelName)| <= |s|
    ensures s[..|SummaryHead(compoundText, labelName)|] == SummaryHead(compoundText, labelName)
    ensures s[|SummaryHead(compoundText, labelName)|..] == IndicatorSuffix(indicators)
    ensures s == SummaryHead(compoundText, labelName) <==> indicators == []
  {
    var summary := SummaryHead(compoundText, labelName);
    var suffix := IndicatorSuffix(indicators);
    assert (summary + suffix)[..|summary|] == summary;
    assert (summary + suffix)[|summary|..] == suffix;
    summary + suffix
  }

  /** Every label the analyser produces has its own description, never the default. */
  lemma LabelsHaveDescriptions(l: Label)
    ensures Description(LabelName(l)) != "Mixed sentiment detected"
  {
  }

  /** Different indicators have different names, none empty and none containing a comma. */
  lemma IndicatorNamesDistinct(a: Indicator, b: Indicator)
    ensures IndicatorName(a) != [] && ',' !in IndicatorName(a)
    ensures IndicatorName(a) == IndicatorName(b) ==> a == b
  {
    assert IndicatorName(a)[0] == IndicatorName(b)[0] ==> a == b;
  }

  /** The names of a list of indicators are all non-empty and comma-free. */
  lemma NamesJoinable(xs: seq<Indicator>)
    ensures forall n :: n in Map(xs, IndicatorName) ==> n != [] && ',' !in n
  {
    forall n | n in Map(xs, IndicatorName) ensures n != [] && ',' !in n {
      var i :| 0 <= i < |xs| && Map(xs, IndicatorName)[i] == n;
      IndicatorNamesDistinct(xs[i], xs[i]);
    }
  }

  /** A list of indicators is determined by its list of names. */
  lemma NamesDetermineIndicators(xs: seq<Indicator>, ys: seq<Indicator>)
    requires Map(xs, IndicatorName) == Map(ys, IndicatorName)
    ensures xs == ys
  {
    forall i | 0 <= i < |xs| ensures xs[i] == ys[i] {
      IndicatorNamesDistinct(xs[i], ys[i]);
    }
  }

  /** The indicator suffix can be decoded: different lists never give the same suffix. */
  lemma IndicatorSuffixInjective(xs: seq<Indicator>, ys: seq<Indicator>)
    requires IndicatorSuffix(xs) == IndicatorSuffix(ys)
    ensures xs == ys
  {
    if xs != [] {
      var xn, yn := Map(xs, IndicatorName), Map(ys, IndicatorName);
      var xj, yj := Join(xn, ", "), Join(yn, ", ");
      assert (IndicatorsTag + xj)[|IndicatorsTag|..] == xj;
      assert (IndicatorsTag + yj)[|IndicatorsTag|..] == yj;
      NamesJoinable(xs);
      NamesJoinable(ys);
      assert forall n :: n in xn + yn ==> n in xn || n in yn;
      JoinInjective(xn, yn, ", ");
      NamesDetermineIndicators(xs, ys);
    }
  }

  /** The summary determines the indicator list: different lists never give the same summary. */
  lemma SummaryDeterminesIndicators(compoundText: string, labelName: string, xs: seq<Indicator>, ys: seq<Indicator>)
    requires GenerateSentimentSummary(compoundText, labelName, xs) == GenerateSentimentSummary(compoundText, labelName, ys)
    ensures xs == ys
  {
    IndicatorSuffixInjective(xs, ys);
  }

  /** The VADER polarity scores. */
  datatype VaderScores = VaderScores(pos: real, neg: real, neu: real, compound: real)

  /** The report of `analyze_sentiment`: a full analysis, or the fallback when scoring raised. */
  datatype SentimentReport =
    | Analysis(scores: VaderScores, sentimentLabel: Label, confidence: Confidence,
               indicators: seq<Indicator>, summary: string)
    | Failed(error: string, scores: VaderScores, sentimentLabel: Label, confidence: Confidence)

  /**
   * `analyze_sentiment`. `vader` is what the VADER scorer returned for the
   * text, or the message of the exception it raised; `compoundText` is the
   * compound score rendered with three decimals.
   */
  method AnalyzeSentiment(text: string, vader: Result<VaderScores, string>, compoundText: string)
    returns (r: SentimentReport)
    ensures r.Failed? <==> vader.Err?
    ensures vader.Err? ==>
      r == Failed("Sentiment analysis failed: " + vader.error, VaderScores(0.0, 0.0, 1.0, 0.0), Neutral, Low)
    ensures vader.Ok? ==>
      && r.scores == vader.value
      && r.sentimentLabel == InterpretCompoundScore(vader.value.compound)
      && r.indicators == IndicatorsOf(Lower(text))
      && r.summary == GenerateSentimentSummary(compoundText, LabelName(r.sentimentLabel), r.indicators)
    ensures r.confidence == ConfidenceOfLabel(r.sentimentLabel)
    ensures r.Failed? ==>
      r.sentimentLabel == InterpretCompoundScore(r.scores.compound) && r.confidence == CalculateConfidence(r.scores.compound)
  {
    match vader {
      case Err(e) =>
        r := Failed("Sentiment analysis failed: " + e, VaderScores(0.0, 0.0, 1.0, 0.0), Neutral, Low);
      case Ok(scores) =>
        var l := InterpretCompoundScore(scores.compound);
        var indicators := ExtractEmotionalIndicators(text);
        var confidence := CalculateConfidence(scores.compound);
        ConfidenceAgreesWithLabel(scores.compound);
        r := Analysis(scores, l, confidence, indicators,
                      GenerateSentimentSummary(compoundText, LabelName(l), indicators));
    }
  }
}
