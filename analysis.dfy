/**
 * One click on the analyse button (`analyzeRandomReview`): the guards, the
 * random choice of a review, the inference call and the interpretation of its
 * result, and the page state those steps read and write.
 */
module Analysis {
  import opened Wrappers
  import opened JsValues
  import opened Decision
  import opened Sentiment
  import Corpus

  const NoReviewsMessage := "No reviews available. Please try again later."
  const NotReadyMessage := "Sentiment model is not ready yet. Please wait a moment."
  const AnalysisFailedMessage := "Failed to analyze sentiment."
  const ModelLoadFailedMessage := "Failed to load sentiment model. Please check your network connection and try again."

  /** The fields of the telemetry payload that come from the analysis. */
  datatype TelemetryEvent = TelemetryEvent(review: string, sentimentLabel: string, confidence: real)

  /** How one analysis ends. */
  datatype Outcome =
    | NoReviews
    | ModelNotReady
    | AnalysisFailed(review: string, message: string)
    | Analysed(review: string, classification: Classification, action: BusinessAction, event: TelemetryEvent)
  {
    /** The error message this outcome shows, if any. */
    function ErrorShown(): Option<string> {
      match this
      case NoReviews => Some(NoReviewsMessage)
      case ModelNotReady => Some(NotReadyMessage)
      case AnalysisFailed(_, message) => Some(message)
      case Analysed(_, _, _, _) => None
    }
  }

  /** `Math.floor(random * count)` for `random` in [0, 1): always a valid index. */
  function PickIndex(random: real, count: nat): (i: nat)
    requires 0.0 <= random < 1.0
    requires count > 0
    ensures i < count
  {
    var x := random * count as real;
    assert 0.0 <= x < count as real by {
      assert random * count as real < 1.0 * count as real;
    }
    x.Floor
  }

  /** `displaySentiment` after parsing: decide on the action and report the event. */
  function Display(review: string, result: JsValue): (o: Outcome)
    ensures o.Analysed? && o.review == review
    ensures o.classification == Normalise(result)
    ensures o.action == DetermineBusinessAction(o.classification.score, o.classification.sentimentLabel)
    ensures o.event == TelemetryEvent(review, o.classification.sentimentLabel, o.classification.score)
  {
    var c := Normalise(result);
    Analysed(review, c, DetermineBusinessAction(c.score, c.sentimentLabel),
             TelemetryEvent(review, c.sentimentLabel, c.score))
  }

  /**
   * The whole click, with the random number and the inference call as inputs.
   * An empty corpus is reported before an unready model; otherwise the review
   * analysed is one of the corpus, and a failure always shows a non-empty message.
   */
  function AnalysisOutcome(reviews: seq<string>, modelReady: bool, random: real, inference: Inference): (o: Outcome)
    requires 0.0 <= random < 1.0
    ensures o == NoReviews <==> reviews == []
    ensures o == ModelNotReady <==> reviews != [] && !modelReady
    ensures o.AnalysisFailed? || o.Analysed? ==> o.review in reviews && modelReady
    ensures o.AnalysisFailed? ==> o.message != ""
    ensures o.Analysed? ==>
              && inference.Returned?
              && o.classification == Normalise(JArray([inference.output]))
              && o.action == DetermineBusinessAction(o.classification.score, o.classification.sentimentLabel)
              && o.event == TelemetryEvent(o.review, o.classification.sentimentLabel, o.classification.score)
    ensures o.AnalysisFailed? <==> reviews != [] && modelReady && AnalyzeSentiment(true, inference).Failure?
    ensures o.AnalysisFailed? ==>
              var r := AnalyzeSentiment(true, inference);
              r.Failure? && o.message == if r.error != "" then r.error else AnalysisFailedMessage
  {
    if reviews == [] then NoReviews
    else if !modelReady then ModelNotReady
    else
      var review := reviews[PickIndex(random, |reviews|)];
      match AnalyzeSentiment(modelReady, inference)
      case Failure(message) =>
        AnalysisFailed(review, if message != "" then message else AnalysisFailedMessage)
      case Success(result) => Display(review, result)
  }

  /**
   * End to end: a coupon is offered exactly when the model's first result is an
   * object whose label upper-cases to NEGATIVE and whose score is a number in [0.7, 1].
   */
  lemma CouponEndToEnd(reviews: seq<string>, random: real, output: JsValue)
    requires reviews != [] && 0.0 <= random < 1.0
    requires output.JArray? && |output.elems| > 0
    ensures var o := AnalysisOutcome(reviews, true, random, Returned(output));
            o.Analysed? &&
            (o.action.actionCode == OfferCoupon <==>
               var entry := output.elems[0];
               && IsTruthyObject(entry)
               && Prop(entry, "label").JString? && ToUpperCase(Prop(entry, "label").s) == "NEGATIVE"
               && Prop(entry, "score").JNumber? && 0.7 <= Prop(entry, "score").n <= 1.0)
  {
    WrappedOutputReadsFirstElement(output);
  }

  /** A lower-case "negative" at 0.9 from the model leads to a coupon. */
  lemma LowerCaseNegativeGetsCoupon(reviews: seq<string>, random: real)
    requires reviews != [] && 0.0 <= random < 1.0
    ensures var output := JArray([JObject(map["label" := JString("negative"), "score" := JNumber(0.9)])]);
            var o := AnalysisOutcome(reviews, true, random, Returned(output));
            o.Analysed? && o.action.actionCode == OfferCoupon && o.classification.bucket == Negative
  {
    var entry := JObject(map["label" := JString("negative"), "score" := JNumber(0.9)]);
    WrappedOutputReadsFirstElement(JArray([entry]));
    PolarLabelsUpperCase();
    assert Prop(entry, "label") == JString("negative") && Prop(entry, "score") == JNumber(0.9);
    assert ReadEntry(entry) == Classification("NEGATIVE", 0.9, Negative);
  }

  /** The action never contradicts the bucket shown next to it. */
  lemma ActionAgreesWithBucket(result: JsValue)
    ensures var c := Normalise(result);
            var code := DetermineBusinessAction(c.score, c.sentimentLabel).actionCode;
            && (code == OfferCoupon ==> c.bucket == Negative)
            && (code == AskReferral ==> c.bucket == Positive)
            && (code == RequestFeedback ==> c.bucket == Neutral)
            && (c.bucket == Positive ==> code == AskReferral || code == NoAction)
            && (c.bucket == Negative ==> code == OfferCoupon || code == NoAction)
  {
  }

  /**
   * The page state the app keeps in globals: the loaded corpus, whether the
   * classification pipeline is loaded, and the error message on display.
   */
  class Page {
    var reviews: seq<string>
    var modelReady: bool
    var error: Option<string>

    constructor ()
      ensures reviews == [] && !modelReady && error == None
    {
      reviews, modelReady, error := [], false, None;
    }

    /** `initSentimentModel`, with whether the pipeline loaded as input. */
    method InitSentimentModel(loaded: bool)
      modifies this
      ensures reviews == old(reviews)
      ensures modelReady == (loaded || old(modelReady))
      ensures error == if loaded then old(error) else Some(ModelLoadFailedMessage)
    {
      if loaded {
        modelReady := true;
      } else {
        error := Some(ModelLoadFailedMessage);
      }
    }

    /** `loadReviews`, with how the fetch and the parse ended as input. */
    method LoadReviews(load: Corpus.TsvLoad)
      modifies this
      ensures modelReady == old(modelReady)
      ensures load.Parsed? ==> reviews == Corpus.LoadedReviews(load.rows) && error == old(error)
      ensures !load.Parsed? ==> reviews == old(reviews) && error == Corpus.LoadError(load)
    {
      match load
      case Parsed(rows) =>
        reviews := Corpus.LoadedReviews(rows);
      case _ =>
        error := Corpus.LoadError(load);
    }

    /**
     * `analyzeRandomReview`, with the random number and the inference call as
     * inputs. Neither the corpus nor the model changes; the error line shows
     * exactly the outcome's message, and is hidden after a success.
     */
    method AnalyzeRandomReview(random: real, inference: Inference) returns (o: Outcome)
      requires 0.0 <= random < 1.0
      modifies this
      ensures reviews == old(reviews) && modelReady == old(modelReady)
      ensures o == AnalysisOutcome(reviews, modelReady, random, inference)
      ensures error == o.ErrorShown()
    {
      error := None;
      o := AnalysisOutcome(reviews, modelReady, random, inference);
      if o.ErrorShown().Some? {
        error := o.ErrorShown();
      }
    }
  }
}
