/**
 * The sentiment interpreter: the shape check and wrap of `analyzeSentiment`,
 * the parsing prefix of `displaySentiment` that turns untyped classifier
 * output into a label, a score and a display bucket, and `getSentimentIcon`.
 */
module Sentiment {
  import opened Wrappers
  import opened JsValues

  /** The CSS class `displaySentiment` gives the result: "positive", "negative" or "neutral". */
  datatype Bucket = Positive | Negative | Neutral {
    function Name(): string {
      match this
      case Positive => "positive"
      case Negative => "negative"
      case Neutral => "neutral"
    }
  }

  /** The label, score and bucket read from one classifier result. */
  datatype Classification = Classification(sentimentLabel: string, score: real, bucket: Bucket)

  /** What `displaySentiment` shows when it cannot read the result. */
  const Fallback := Classification("NEUTRAL", 0.5, Neutral)

  /** The bucket chain: polar only when the label is polar and the score is above one half. */
  function BucketOf(sentimentLabel: string, score: real): (b: Bucket)
    ensures b == Positive <==> sentimentLabel == "POSITIVE" && score > 0.5
    ensures b == Negative <==> sentimentLabel == "NEGATIVE" && score > 0.5
    ensures b == Neutral <==> score <= 0.5 || (sentimentLabel != "POSITIVE" && sentimentLabel != "NEGATIVE")
  {
    if sentimentLabel == "POSITIVE" && score > 0.5 then Positive
    else if sentimentLabel == "NEGATIVE" && score > 0.5 then Negative
    else Neutral
  }

  /** `getSentimentIcon`: a switch on the bucket name with a default case. */
  function SentimentIcon(sentiment: string): (icon: string)
    ensures icon == "fa-thumbs-up" <==> sentiment == "positive"
    ensures icon == "fa-thumbs-down" <==> sentiment == "negative"
    ensures icon == "fa-question-circle" <==> sentiment != "positive" && sentiment != "negative"
  {
    // the three icon names differ in their fourth character
    assert "fa-thumbs-up"[3] != "fa-question-circle"[3];
    assert "fa-thumbs-down"[3] != "fa-question-circle"[3];
    assert "fa-thumbs-up"[10] != "fa-thumbs-down"[10];
    match sentiment
    case "positive" => "fa-thumbs-up"
    case "negative" => "fa-thumbs-down"
    case _ => "fa-question-circle"
  }

  /** Each bucket is drawn with its own icon. */
  lemma BucketIcons(b: Bucket)
    ensures SentimentIcon(b.Name()) == match b
                                       case Positive => "fa-thumbs-up"
                                       case Negative => "fa-thumbs-down"
                                       case Neutral => "fa-question-circle"
  {
  }

  // ---------------------------------------------------------------------------
  // Reading the classifier result

  /** The outer two levels of the expected shape `[[entry, ...], ...]`. */
  predicate HasNestedShape(result: JsValue) {
    && result.JArray? && |result.elems| > 0
    && result.elems[0].JArray? && |result.elems[0].elems| > 0
  }

  /** `result[0][0]` when the outer shape holds and it is a non-null object. */
  function FirstEntry(result: JsValue): (e: Option<JsValue>)
    ensures e.Some? <==> HasNestedShape(result) && IsTruthyObject(result.elems[0].elems[0])
    ensures e.Some? ==> HasNestedShape(result) && e.value == result.elems[0].elems[0]
  {
    if HasNestedShape(result) && IsTruthyObject(result.elems[0].elems[0])
    then Some(result.elems[0].elems[0])
    else None
  }

  /** The label and score read from the entry, then the bucket chain. */
  function ReadEntry(entry: JsValue): Classification
    requires IsTruthyObject(entry)
  {
    var sentimentLabel := match Prop(entry, "label")
                          case JString(s) => ToUpperCase(s)
                          case _ => "NEUTRAL";
    var score := match Prop(entry, "score")
                 case JNumber(n) => n
                 case _ => 0.5;
    Classification(sentimentLabel, score, BucketOf(sentimentLabel, score))
  }

  /**
   * The normaliser: total over every value, it never fails. The label is always
   * upper case and the bucket always agrees with the label and score.
   */
  function Normalise(result: JsValue): (c: Classification)
    ensures IsUpperCase(c.sentimentLabel)
    ensures c.bucket == BucketOf(c.sentimentLabel, c.score)
    ensures FirstEntry(result).None? ==> c == Fallback
  {
    match FirstEntry(result)
    case Some(entry) => ReadEntry(entry)
    case None => Fallback
  }

  /** Property `key` of `result[0][0]`, or `undefined` when there is no such entry. */
  function EntryProp(result: JsValue, key: string): (p: JsValue)
    ensures FirstEntry(result).None? ==> p == JUndefined
  {
    match FirstEntry(result)
    case Some(entry) => Prop(entry, key)
    case None => JUndefined
  }

  /** The label is the upper-cased `label` property if it is a string, else "NEUTRAL". */
  lemma NormalisedLabel(result: JsValue)
    ensures Normalise(result).sentimentLabel ==
              match EntryProp(result, "label")
              case JString(s) => ToUpperCase(s)
              case _ => "NEUTRAL"
  {
  }

  /** The score is the `score` property if it is a number, else 0.5; it is never clamped. */
  lemma NormalisedScore(result: JsValue)
    ensures Normalise(result).score ==
              match EntryProp(result, "score")
              case JNumber(n) => n
              case _ => 0.5
  {
  }

  /**
   * Only the entry's `label` and `score` properties matter: two results that
   * agree on them (a missing entry reading as both `undefined`) normalise alike.
   */
  lemma NormaliseDependsOnlyOnLabelAndScore(r1: JsValue, r2: JsValue)
    requires EntryProp(r1, "label") == EntryProp(r2, "label")
    requires EntryProp(r1, "score") == EntryProp(r2, "score")
    ensures Normalise(r1) == Normalise(r2)
  {
  }

  /** A label other than the two polar ones is kept, upper-cased, rather than collapsed. */
  lemma UnknownLabelIsKept()
    ensures Normalise(JArray([JArray([JObject(map["label" := JString("joy"), "score" := JNumber(0.9)])])]))
            == Classification("JOY", 0.9, Neutral)
  {
  }

  // ---------------------------------------------------------------------------
  // analyzeSentiment

  /** What the inference call did: returned a value, or threw an error with a message. */
  datatype Inference = Returned(output: JsValue) | Threw(message: string)

  /**
   * `analyzeSentiment`: fails when no model is loaded or the call threw, rejects
   * output that is not a non-empty array, and otherwise wraps it as `[output]`.
   */
  function AnalyzeSentiment(modelReady: bool, inference: Inference): (r: Result<JsValue, string>)
    ensures !modelReady ==> r == Failure("Sentiment model is not initialized.")
    ensures modelReady && inference.Threw? ==> r == Failure(inference.message)
    ensures modelReady && inference.Returned? ==>
              (r.Success? <==> inference.output.JArray? && |inference.output.elems| > 0)
    ensures modelReady && inference.Returned? && r.Failure? ==>
              r.error == "Invalid sentiment output from local model."
    ensures r.Success? ==> HasNestedShape(r.value) && r.value.elems == [inference.output]
  {
    if !modelReady then Failure("Sentiment model is not initialized.")
    else match inference
      case Threw(message) => Failure(message)
      case Returned(output) =>
        if !output.JArray? || |output.elems| == 0 then Failure("Invalid sentiment output from local model.")
        else Success(JArray([output]))
  }

  /** A wrapped output is normalised from the first element of the model's own array. */
  lemma WrappedOutputReadsFirstElement(output: JsValue)
    requires output.JArray? && |output.elems| > 0
    ensures AnalyzeSentiment(true, Returned(output)).Success?
    ensures Normalise(AnalyzeSentiment(true, Returned(output)).value) ==
              if IsTruthyObject(output.elems[0]) then ReadEntry(output.elems[0]) else Fallback
  {
  }
}
