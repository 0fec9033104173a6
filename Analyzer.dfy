/**
 * `InsightAnalyzer.analyze_review`: classify the sentiment of one review,
 * ask the language model for its theme, ask it again for a structured
 * insight, parse that insight as JSON (falling back to a fixed error record),
 * and assemble the four-field analysis record.
 *
 * The collaborators the method calls through `self` are parameters of the
 * model: see `Collaborators`.
 */
module Analyzer {
  import opened Wrappers
  import opened Json
  import opened Whitespace

  /** The closed sentiment vocabulary of the analysis record. */
  datatype Sentiment = Negative | Neutral | Positive

  /** One entry of the classifier's ranked output: a raw label and its score. */
  datatype Prediction = Prediction(rawLabel: string, score: real)

  /** Which language-model call failed. */
  datatype Stage = ThemeStage | InsightStage

  /** Why the analysis of a review produced no record at all. */
  datatype Failure =
    | NoPrediction                                    // `[0]` on an empty classifier output
    | UnknownSentimentLabel(rawLabel: string)            // the label lookup has no default
    | UpstreamServiceFailure(stage: Stage, reason: string)

  /**
   * What `analyze_review` reaches through `self` and the standard library:
   * the sentiment classifier, the theme chain (prompt rendered from the review
   * text), the insight chain (prompt rendered from text, sentiment and theme),
   * `json.loads` with JSONDecodeError as `None`, and the whitespace class used
   * by `str.strip`.
   */
  datatype Collaborators = Collaborators(
    classify: string -> seq<Prediction>,
    themeChain: string -> Result<string, string>,
    insightChain: (string, string, string) -> Result<string, string>,
    parse: string -> Option<Json>,
    isSpace: char -> bool)

  /** The analysis record of one review. */
  datatype AnalysisResult = AnalysisResult(text: string, sentiment: Sentiment, theme: string, insights: Json)

  /** The source's lookup table from raw classifier labels to sentiment names. */
  const SentimentMap: map<string, string> :=
    map["NEGATIVE" := "negative", "NEUTRAL" := "neutral", "POSITIVE" := "positive"]

  /** The diagnostic stored when the insight completion is not valid JSON. */
  const ParseErrorMessage: string := "Не удалось спарсить инсайты"

  /** The record that replaces the insights when parsing fails. */
  const ErrorMarker: Json := JObject(map["error" := JString(ParseErrorMessage)])

  /** The name a sentiment has in the analysis record and in the insight prompt. */
  function Name(s: Sentiment): (r: string)
    ensures r in SentimentMap.Values
  {
    match s
    case Negative => assert SentimentMap["NEGATIVE"] == "negative"; "negative"
    case Neutral => assert SentimentMap["NEUTRAL"] == "neutral"; "neutral"
    case Positive => assert SentimentMap["POSITIVE"] == "positive"; "positive"
  }

  /** Label normalisation as an exhaustive match; agrees with the source's table. */
  function NormalizeLabel(raw: string): (r: Option<Sentiment>)
    ensures r.Some? <==> raw in SentimentMap
    ensures r.Some? ==> Name(r.value) == SentimentMap[raw]
  {
    if raw == "NEGATIVE" then Some(Negative)
    else if raw == "NEUTRAL" then Some(Neutral)
    else if raw == "POSITIVE" then Some(Positive)
    else None
  }

  /** `json.loads(output.strip())`, or the error record on JSONDecodeError. */
  function ParseInsights(c: Collaborators, output: string): (r: Json)
    ensures r == ErrorMarker || c.parse(Strip(output, c.isSpace)) == Some(r)
    ensures c.parse(Strip(output, c.isSpace)).Some? ==> r == c.parse(Strip(output, c.isSpace)).value
    ensures c.parse(Strip(output, c.isSpace)).None? ==> r == ErrorMarker
  {
    match c.parse(Strip(output, c.isSpace))
    case Some(j) => j
    case None => ErrorMarker
  }

  /** `analyze_review(text)`. */
  function AnalyzeReview(c: Collaborators, text: string): (r: Result<AnalysisResult, Failure>)
    // Only the top-ranked prediction is consulted; an empty output or an
    // unknown label is a failure, never a defaulted sentiment.
    ensures c.classify(text) == [] ==> r == Failure(NoPrediction)
    ensures c.classify(text) != [] && c.classify(text)[0].rawLabel !in SentimentMap ==>
              r == Failure(UnknownSentimentLabel(c.classify(text)[0].rawLabel))
    ensures r.Success? ==>
              && c.classify(text) != []
              && c.classify(text)[0].rawLabel in SentimentMap
              && Name(r.value.sentiment) == SentimentMap[c.classify(text)[0].rawLabel]
    // The review text passes through unchanged.
    ensures r.Success? ==> r.value.text == text
    // The theme is the stripped completion of the theme chain.
    ensures r.Success? ==>
              && c.themeChain(text).Success?
              && r.value.theme == Strip(c.themeChain(text).value, c.isSpace)
    // A failing theme call, reached only once the label is known, propagates.
    ensures c.classify(text) != [] && c.classify(text)[0].rawLabel in SentimentMap && c.themeChain(text).Failure? ==>
              r == Failure(UpstreamServiceFailure(ThemeStage, c.themeChain(text).error))
    // The insight chain is fed the text, the mapped sentiment and the stripped
    // theme; its stripped output, if it parses, is the insights as they are,
    // and otherwise the insights are the error record.
    ensures r.Success? ==>
              var out := c.insightChain(text, Name(r.value.sentiment), r.value.theme);
              && out.Success?
              && (c.parse(Strip(out.value, c.isSpace)).Some? ==> r.value.insights == c.parse(Strip(out.value, c.isSpace)).value)
              && (c.parse(Strip(out.value, c.isSpace)).None? ==> r.value.insights == ErrorMarker)
    // Once the label is known and the theme chain has answered, the insight
    // chain decides alone: if it answers, a record is returned (whether or not
    // its output parses); if it fails, that failure is the outcome.
    ensures c.classify(text) != [] && c.classify(text)[0].rawLabel in SentimentMap && c.themeChain(text).Success? ==>
              var out := c.insightChain(text, SentimentMap[c.classify(text)[0].rawLabel],
                                        Strip(c.themeChain(text).value, c.isSpace));
              && (out.Success? <==> r.Success?)
              && (out.Failure? ==> r == Failure(UpstreamServiceFailure(InsightStage, out.error)))
  {
    var predictions := c.classify(text);
    if predictions == [] then Failure(NoPrediction)
    else
      match NormalizeLabel(predictions[0].rawLabel)
      case None => Failure(UnknownSentimentLabel(predictions[0].rawLabel))
      case Some(sentiment) =>
        match c.themeChain(text)
        case Failure(e) => Failure(UpstreamServiceFailure(ThemeStage, e))
        case Success(rawTheme) =>
          var theme := Strip(rawTheme, c.isSpace);
          match c.insightChain(text, Name(sentiment), theme)
          case Failure(e) => Failure(UpstreamServiceFailure(InsightStage, e))
          case Success(output) =>
            Success(AnalysisResult(text, sentiment, theme, ParseInsights(c, output)))
  }

  /** The record as the Python dict the method returns. */
  function AsDict(a: AnalysisResult): (r: Json)
    ensures r.JObject? && r.fields.Keys == {"text", "sentiment", "theme", "insights"}
    ensures r.fields["text"] == JString(a.text)
    ensures r.fields["sentiment"] == JString(Name(a.sentiment)) && r.fields["sentiment"].s in SentimentMap.Values
    ensures r.fields["theme"] == JString(a.theme)
    ensures r.fields["insights"] == a.insights
  {
    JObject(map["text" := JString(a.text), "sentiment" := JString(Name(a.sentiment)),
                "theme" := JString(a.theme), "insights" := a.insights])
  }

  /**
   * The parser sees the completion stripped: whitespace around the insight
   * completion never changes the insights.
   */
  lemma ParseIgnoresSurroundingSpace(c: Collaborators, a: string, m: string, b: string)
    requires AllSpace(a, c.isSpace) && AllSpace(b, c.isSpace)
    ensures ParseInsights(c, a + m + b) == ParseInsights(c, m)
  {
    StripIgnoresPadding(a, m, b, c.isSpace);
  }

  /**
   * Beyond the top-ranked label, the classifier's output (its scores and the
   * lower-ranked predictions) has no effect on the analysis.
   */
  lemma OnlyTopLabelMatters(c: Collaborators, text: string, classify: string -> seq<Prediction>)
    requires c.classify(text) != [] && classify(text) != []
    requires classify(text)[0].rawLabel == c.classify(text)[0].rawLabel
    ensures AnalyzeReview(c.(classify := classify), text) == AnalyzeReview(c, text)
  {
  }

  /** On success the theme is bare, a stretch of the raw completion, and a fixed point of stripping. */
  lemma ThemeIsStrippedCompletion(c: Collaborators, text: string)
    requires AnalyzeReview(c, text).Success?
    ensures var theme := AnalyzeReview(c, text).value.theme;
            && Bare(theme, c.isSpace)
            && (exists i :: CoreAt(c.themeChain(text).value, i, theme, c.isSpace))
            && Strip(theme, c.isSpace) == theme
  {
    var raw := c.themeChain(text).value;
    StripIdempotent(raw, c.isSpace);
    assert CoreAt(raw, LeadingSpace(raw, c.isSpace), Strip(raw, c.isSpace), c.isSpace);
  }

  /**
   * With collaborators that answer identically at the calls the analysis
   * makes, the analysis yields the identical outcome.
   */
  lemma SameAnswersSameRecord(c: Collaborators, d: Collaborators, text: string)
    requires c.classify(text) == d.classify(text)
    requires c.themeChain(text) == d.themeChain(text)
    requires forall s, t :: c.insightChain(text, s, t) == d.insightChain(text, s, t)
    requires forall s :: c.parse(s) == d.parse(s)
    requires forall ch :: c.isSpace(ch) == d.isSpace(ch)
    ensures AnalyzeReview(c, text) == AnalyzeReview(d, text)
  {
    var r := AnalyzeReview(c, text);
    if c.classify(text) != [] && c.classify(text)[0].rawLabel in SentimentMap && c.themeChain(text).Success? {
      var sentiment := Name(NormalizeLabel(c.classify(text)[0].rawLabel).value);
      var raw := c.themeChain(text).value;
      StripRespectsSpaceClass(raw, c.isSpace, d.isSpace);
      var theme := Strip(raw, c.isSpace);
      var out := c.insightChain(text, sentiment, theme);
      assert out == d.insightChain(text, sentiment, theme);
      if out.Success? {
        StripRespectsSpaceClass(out.value, c.isSpace, d.isSpace);
        assert ParseInsights(c, out.value) == ParseInsights(d, out.value);
      }
    }
  }

  // Worked scenarios with stub collaborators.

  const DeliveryReview: string := "Доставка была ужасно медленной"

  const DeliveryInsight: Json := JObject(map[
    "key_problem_or_strength" := JString("Медленная доставка"),
    "root_cause" := JString("Логистика"),
    "actionable_recommendation" := JString("Оптимизировать маршруты"),
    "priority" := JString("high")])

  const DeliveryInsightText: string := "{" + DeliveryInsightFields + "}"

  const DeliveryInsightFields: string :=
    "\"key_problem_or_strength\": \"Медленная доставка\", \"root_cause\": \"Логистика\", "
    + "\"actionable_recommendation\": \"Оптимизировать маршруты\", \"priority\": \"high\""

  /** A stub whitespace class: blank, tab and newline. */
  predicate StubSpace(ch: char) {
    ch == ' ' || ch == '\t' || ch == '\n'
  }

  /**
   * Stubs for the delivery review: the classifier answers `top`, the theme
   * chain answers "Доставка" followed by a newline, the insight chain answers
   * `insightOutput` when prompted with the review, "negative" and "Доставка",
   * and the parser recognises exactly `DeliveryInsightText`.
   */
  function DeliveryStubs(top: string, insightOutput: string): Collaborators {
    Collaborators(
      _ => [Prediction(top, 0.9), Prediction("NEUTRAL", 0.1)],
      _ => Success("Доставка\n"),
      (t, s, th) => if t == DeliveryReview && s == "negative" && th == "Доставка"
                    then Success(insightOutput) else Failure("unexpected prompt"),
      s => if s == DeliveryInsightText then Some(DeliveryInsight) else None,
      StubSpace)
  }

  const PaddedOutput: string := " " + DeliveryInsightText + "\n"

  lemma PaddedOutputStrips()
    ensures Strip(PaddedOutput, StubSpace) == DeliveryInsightText
  {
    BareDeliveryInsightText();
    StripUnique(" ", DeliveryInsightText, "\n", StubSpace);
  }

  /** A negative delivery review with a well-formed insight keeps that insight exactly. */
  lemma DeliveryScenario()
    ensures AnalyzeReview(DeliveryStubs("NEGATIVE", PaddedOutput), DeliveryReview)
         == Success(AnalysisResult(DeliveryReview, Negative, "Доставка", DeliveryInsight))
  {
    var c := DeliveryStubs("NEGATIVE", PaddedOutput);
    assert c.classify(DeliveryReview)[0].rawLabel == "NEGATIVE";
    assert c.themeChain(DeliveryReview) == Success("Доставка\n");
    StripUnique([], "Доставка", "\n", c.isSpace);
    assert Strip("Доставка\n", c.isSpace) == "Доставка";
    assert c.insightChain(DeliveryReview, "negative", "Доставка") == Success(PaddedOutput);
    PaddedOutputStrips();
    assert c.parse(DeliveryInsightText) == Some(DeliveryInsight);
    assert ParseInsights(c, PaddedOutput) == DeliveryInsight;
  }

  lemma BareDeliveryInsightText()
    ensures Bare(DeliveryInsightText, StubSpace)
  {
    var t := DeliveryInsightText;
    assert t[0] == ("{" + DeliveryInsightFields)[0] == '{';
    assert t[|t| - 1] == '}';
  }

  const ProseOutput: string := "Sure, here is the JSON: " + DeliveryInsightText

  lemma ProseOutputIsBare()
    ensures Strip(ProseOutput, StubSpace) == ProseOutput
  {
    BareDeliveryInsightText();
    var t := DeliveryInsightText;
    assert ProseOutput[|ProseOutput| - 1] == t[|t| - 1];
    assert [] + ProseOutput + [] == ProseOutput;
    StripUnique([], ProseOutput, [], StubSpace);
  }

  /** An insight wrapped in prose does not parse and is replaced by the error record. */
  lemma ProseWrappedScenario()
    ensures AnalyzeReview(DeliveryStubs("NEGATIVE", ProseOutput), DeliveryReview)
         == Success(AnalysisResult(DeliveryReview, Negative, "Доставка", ErrorMarker))
  {
    var c := DeliveryStubs("NEGATIVE", ProseOutput);
    StripUnique([], "Доставка", "\n", c.isSpace);
    assert c.insightChain(DeliveryReview, "negative", "Доставка") == Success(ProseOutput);
    ProseOutputIsBare();
    assert |ProseOutput| != |DeliveryInsightText|;
    assert ParseInsights(c, ProseOutput) == ErrorMarker;
  }

  /** A label outside the table fails the whole analysis. */
  lemma UnknownLabelScenario()
    ensures AnalyzeReview(DeliveryStubs("MIXED", DeliveryInsightText), DeliveryReview)
         == Failure(UnknownSentimentLabel("MIXED"))
  {
  }
}
