# Sentiment review app: decision core

A browser app picks a random customer review from a TSV corpus and classifies
its sentiment with a locally loaded text-classification pipeline. It then turns
the classifier's label and score into a business action: offer a coupon, ask for
a referral, request feedback, or do nothing. This project models the app's
deterministic core in Dafny:

- **Decision engine** (`Decision`). `determineBusinessAction(score, label)` is
  an ordered rule chain. Each of the four actions is characterised exactly and
  independently of the rule order. Each action code comes with its fixed message,
  colour and emoji.
- **Sentiment interpreter** (`Sentiment`). `analyzeSentiment` checks the shape of
  the output and wraps it. The parsing prefix of `displaySentiment` is total: it
  reads a label, a score and a display bucket from arbitrary output.
  `getSentimentIcon` picks the icon for the bucket.
- **Corpus** (`Corpus`). The row filter of `loadReviews` keeps, in order, the
  `text` fields that are strings with a non-blank trim.
- **Analysis** (`Analysis`). `analyzeRandomReview` checks its guards in order:
  an empty corpus is reported before an unready model. It chooses a random index,
  calls inference and interprets the result. A small `Page` class holds the
  app's global state (corpus, model readiness, shown error) that
  `initSentimentModel`, `loadReviews` and `analyzeRandomReview` update.
- **JavaScript values** (`JsValues`). Untyped values are a JSON-like datatype.
  Numbers are `real`, because the core only compares scores with the constants
  0.4, 0.5, 0.7 and 1.0. The module also defines `toUpperCase` and `trim`.

Inputs the app gets from its environment are parameters here:
- the result of the inference call (`Inference`: a returned value or a thrown message);
- `Math.random()` (a real in [0, 1));
- whether the pipeline loaded;
- how the TSV fetch and parse ended (`Corpus.TsvLoad`).

Three behaviours of the code are kept exactly as written:
- The normalised label is any upper-cased string. It is not restricted to
  POSITIVE/NEGATIVE/NEUTRAL: `Sentiment.UnknownLabelIsKept` shows "joy" becoming
  "JOY". An unknown label can only lead to NO_ACTION or REQUEST_FEEDBACK.
- The score is not clamped to [0, 1]. A score above 1.0 gives NO_ACTION, and a
  negative score gives REQUEST_FEEDBACK.
- Concurrent clicks are guarded only by disabling the button. That UI flag is
  not modelled (see below).

## Model

| member | source | states |
|---|---|---|
| `Decision.DetermineBusinessAction` | app.js:297-338 | OFFER_COUPON iff 0.7 ≤ score ≤ 1.0 and label is NEGATIVE. ASK_REFERRAL iff the same band and label is POSITIVE. REQUEST_FEEDBACK iff score < 0.4, whatever the label. NO_ACTION iff 0.4 ≤ score < 0.7, or score ≥ 0.7 with a non-polar label, or score > 1.0. The record is always the fixed one for its code. |
| `Decision.ActionFor` | app.js:303-330 | Each code's record carries that code, with the message, colour and emoji the source assigns to it. |
| `Decision.NamesDistinct` | app.js:303-330 | The four `actionCode` strings are pairwise different, so the code shown always identifies the action. |
| `Decision.DecisionExamples` | app.js:303-330 | Worked cases. 0.7 NEGATIVE is a coupon (inclusive bound). 1.0 POSITIVE is a referral. 0.4 is not REQUEST_FEEDBACK (strict bound). 1.5 and a lower-case "negative" get NO_ACTION. |
| `Sentiment.BucketOf` | app.js:226-232 | The bucket is positive iff the label is POSITIVE and score > 0.5. It is negative iff the label is NEGATIVE and score > 0.5. Otherwise it is neutral. |
| `Sentiment.SentimentIcon` | app.js:285-293 | thumbs-up iff "positive", thumbs-down iff "negative", question-circle for every other name. |
| `Sentiment.BucketIcons` | app.js:285-293 | Each of the three buckets gets its own icon. |
| `Sentiment.FirstEntry` | app.js:207-215 | An entry is read iff the value is a non-empty array whose first element is a non-empty array whose first element is a non-null object (an array counts as one). The entry read is exactly `result[0][0]`. |
| `Sentiment.Normalise` | app.js:200-234 | Total over all values. The label is always upper case. The bucket always agrees with the label and score. Any value without a readable entry gives ("NEUTRAL", 0.5, neutral). |
| `Sentiment.NormalisedLabel` | app.js:216-219 | The label is the upper-cased `label` property when that is a string, and "NEUTRAL" otherwise. |
| `Sentiment.NormalisedScore` | app.js:220-223 | The score is the `score` property when that is a number, unclamped, and 0.5 otherwise. |
| `Sentiment.NormaliseDependsOnlyOnLabelAndScore` | app.js:213-223 | Two results whose entries agree on `label` and `score` normalise identically. No other field and no other array element has any influence. |
| `Sentiment.UnknownLabelIsKept` | app.js:216-232 | A label outside POSITIVE/NEGATIVE is kept upper-cased with its score, in the neutral bucket. |
| `Sentiment.AnalyzeSentiment` | app.js:182-197 | Without a model it fails with "Sentiment model is not initialized.". A thrown inference error propagates. Output is accepted iff it is a non-empty array, and is then wrapped as `[output]`, which always passes the outer two levels of the normaliser's shape test. Otherwise it fails with "Invalid sentiment output from local model.". |
| `Sentiment.WrappedOutputReadsFirstElement` | app.js:191-196 | After wrapping, the normaliser reads the first element of the model's own array, or falls back when that element is not an object. |
| `JsValues.ToUpperCase` | app.js:216-219 | Keeps the length. Every lower-case ASCII letter becomes its upper-case counterpart (code point minus 32). Every other character is kept. The result has no lower-case ASCII letter, and an upper-case string is unchanged. |
| `JsValues.PolarLabelsUpperCase` | app.js:216-219 | "negative" and "Negative" upper-case to "NEGATIVE"; "positive" upper-cases to "POSITIVE". |
| `JsValues.ToUpperCaseIdempotent` | app.js:216-219 | Upper-casing twice is upper-casing once. |
| `JsValues.TrimStart` | app.js:117 | Removes exactly the longest whitespace prefix. What remains is a suffix that does not start with whitespace. |
| `JsValues.TrimEnd` | app.js:117 | Removes exactly the longest whitespace suffix. What remains is a prefix that does not end with whitespace. |
| `JsValues.TrimEmptyIffBlank` | app.js:117 | `trim()` gives "" iff every character is ECMAScript whitespace. |
| `Corpus.KeepReviewTexts` | app.js:117 | Never longer than its input, and no kept string is blank. |
| `Corpus.LoadedReviews` | app.js:115-117 | The stored corpus is never longer than the rows and holds no blank string. With `LoadedReviewsMembership` and `LoadedReviewsSnoc`, it is exactly the non-blank string `text` fields of the rows, in row order. |
| `Corpus.KeepReviewTextsAppend` | app.js:115-117 | Filtering distributes over concatenation, so the order of the rows is kept. |
| `Corpus.KeepReviewTextsMembership` | app.js:117 | A string is kept iff it occurs as a string text and is not blank. |
| `Corpus.LoadedReviewsMembership` | app.js:115-117 | The stored corpus holds exactly the non-blank strings that are some row's `text`. |
| `Corpus.LoadedReviewsSnoc` | app.js:115-117 | Appending a row appends its text iff that text is a non-blank string. |
| `Corpus.LoadError` | app.js:102-130 | An error message is shown iff the load did not end with parsed rows: a non-OK response or a thrown fetch gives "Failed to load TSV file: …", a parse error gives "Failed to parse TSV file: …". |
| `Analysis.PickIndex` | app.js:156-157 | `floor(random * n)` with random in [0, 1) and n > 0 is a valid index in [0, n). |
| `Analysis.Display` | app.js:246-281 | The displayed classification is the normaliser's reading of the result. The action is decided from exactly the label and score displayed. The telemetry event reports the shown review with that same label and score. |
| `Analysis.AnalysisOutcome` | app.js:143-179 | "No reviews" iff the corpus is empty, so this check comes before model readiness. "Not ready" iff the corpus is non-empty and the model is unloaded. Otherwise the analysed review is an element of the corpus. Analysis fails iff `analyzeSentiment` fails. A failure shows the thrown or invalid-output message, or "Failed to analyze sentiment." when that message is empty. A success displays the normalisation of `[output]`, the action decided from its label and score, and a telemetry event with the same values. |
| `Analysis.CouponEndToEnd` | app.js:303-308 | For a non-empty model output, the click ends in OFFER_COUPON iff the first result is an object whose `label` upper-cases to NEGATIVE and whose numeric `score` is in [0.7, 1]. |
| `Analysis.LowerCaseNegativeGetsCoupon` | app.js:216-228 | Model output `[{label: "negative", score: 0.9}]` is displayed in the negative bucket and leads to OFFER_COUPON. |
| `Analysis.ActionAgreesWithBucket` | app.js:226-246 | A coupon is only offered with the negative bucket. A referral is only asked with the positive bucket. Feedback is only requested with the neutral bucket. A polar bucket never gets the opposite action. |
| `Analysis.Page.constructor` | app.js:6-8 | The app starts with no reviews, no model and no error shown. |
| `Analysis.Page.InitSentimentModel` | app.js:74-99 | A successful load makes the model ready. A failed load shows the load-failure message and leaves the model as it was. The corpus is unchanged. |
| `Analysis.Page.LoadReviews` | app.js:102-130 | Parsed rows replace the corpus by their filtered texts. A failed load keeps the corpus and shows its message. Model readiness is unchanged. |
| `Analysis.Page.AnalyzeRandomReview` | app.js:143-179 | Neither the corpus nor the model changes, including on both early returns. The outcome is `AnalysisOutcome` of the current state. The error line shows exactly the outcome's message and is hidden after a success. |

## Left out

- DOM updates and styling (innerHTML, class lists, display flags, borders) are presentation only.
- The `analyzeBtn.disabled` single-flight guard is a UI flag, so at-most-one concurrent analysis is not modelled.
- Promise ordering (`then`/`catch`/`finally`) is not modelled. An analysis is one step from click to displayed result.
- The telemetry `fetch` in `logAnalysisEvent` and its `navigator`/`Date` metadata fields are not modelled. Only the review, label and confidence fields of the payload are (`Analysis.TelemetryEvent`).
- `saveApiToken` and the `localStorage` token are not modelled: they are browser storage with no logic.
- The transformers.js `pipeline` load and inference are foreign code. Papa Parse is foreign code too. Their results are inputs.
- `Math.random()` is a parameter. The percentage text `(score * 100).toFixed(1)` is left out.
- Analysis.PickIndex: computes the floor of the exact real product. It does not model double-precision rounding of `Math.random() * reviews.length`.
- JsValues.JsValue: numbers are reals. NaN, infinities and signed zero are not represented, so `typeof score === "number"` for NaN is not covered.
- JsValues.ToUpperCase: upper-cases ASCII letters only. Full Unicode `toUpperCase` also maps, for example, "ı" to "I" and "ß" to "SS", so a non-ASCII label that becomes POSITIVE or NEGATIVE in a browser stays different here.
- JsValues.Prop: reads own properties of plain objects only. Inherited properties and getters are not modelled, and properties of arrays read as `undefined`.
