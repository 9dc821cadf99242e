/**
 * The review corpus: `loadReviews` fetches a TSV file, parses it with a header
 * row and keeps the `text` column of every row whose text is a string that is
 * not blank.
 */
module Corpus {
  import opened JsValues
  import Wrappers

  /** The filter predicate: `typeof text === "string" && text.trim() !== ""`. */
  predicate IsReviewText(text: JsValue) {
    text.JString? && Trim(text.s) != ""
  }

  /** `.filter(...)` on the texts, unwrapped to strings. */
  function KeepReviewTexts(texts: seq<JsValue>): (kept: seq<string>)
    ensures |kept| <= |texts|
    ensures forall s :: s in kept ==> !IsBlank(s)
  {
    if texts == [] then []
    else
      var rest := KeepReviewTexts(texts[1..]);
      if IsReviewText(texts[0]) then
        TrimEmptyIffBlank(texts[0].s);
        [texts[0].s] + rest
      else rest
  }

  /** `rows.map((row) => row.text).filter(...)`: the corpus `loadReviews` stores. */
  function LoadedReviews(rows: seq<JsValue>): (reviews: seq<string>)
    ensures |reviews| <= |rows|
    ensures forall s :: s in reviews ==> !IsBlank(s)
  {
    KeepReviewTexts(seq(|rows|, i requires 0 <= i < |rows| => Prop(rows[i], "text")))
  }

  /** Filtering a concatenation filters each part, keeping their order. */
  lemma {:induction false} KeepReviewTextsAppend(a: seq<JsValue>, b: seq<JsValue>)
    ensures KeepReviewTexts(a + b) == KeepReviewTexts(a) + KeepReviewTexts(b)
  {
    if a == [] {
      assert a + b == b;
    } else {
      var ab := a + b;
      assert ab != [] && ab[0] == a[0] && ab[1..] == a[1..] + b;
      KeepReviewTextsAppend(a[1..], b);
      calc {
        KeepReviewTexts(ab);
        (if IsReviewText(a[0]) then [a[0].s] else []) + KeepReviewTexts(a[1..] + b);
        (if IsReviewText(a[0]) then [a[0].s] else []) + (KeepReviewTexts(a[1..]) + KeepReviewTexts(b));
      }
    }
  }

  /** A string is kept exactly when it occurs as a text that is not blank. */
  lemma {:induction false} KeepReviewTextsMembership(texts: seq<JsValue>, s: string)
    ensures s in KeepReviewTexts(texts) <==> JString(s) in texts && !IsBlank(s)
  {
    if texts != [] {
      var head, tail := texts[0], texts[1..];
      KeepReviewTextsMembership(tail, s);
      assert JString(s) in texts <==> head == JString(s) || JString(s) in tail by {
        assert texts == [head] + tail;
      }
      if head == JString(s) {
        TrimEmptyIffBlank(s);
      }
    }
  }

  /** The stored corpus holds exactly the non-blank string `text` fields of the rows. */
  lemma LoadedReviewsMembership(rows: seq<JsValue>, s: string)
    ensures s in LoadedReviews(rows) <==>
              !IsBlank(s) && exists i :: 0 <= i < |rows| && Prop(rows[i], "text") == JString(s)
  {
    var texts := seq(|rows|, i requires 0 <= i < |rows| => Prop(rows[i], "text"));
    assert LoadedReviews(rows) == KeepReviewTexts(texts);
    KeepReviewTextsMembership(texts, s);
    if JString(s) in texts {
      var i :| 0 <= i < |texts| && texts[i] == JString(s);
      assert Prop(rows[i], "text") == JString(s);
    }
    if exists i :: 0 <= i < |rows| && Prop(rows[i], "text") == JString(s) {
      var i :| 0 <= i < |rows| && Prop(rows[i], "text") == JString(s);
      assert texts[i] == JString(s);
    }
  }

  /** Appending a row appends its text when it is a non-blank string, and nothing otherwise. */
  lemma LoadedReviewsSnoc(rows: seq<JsValue>, row: JsValue)
    ensures LoadedReviews(rows + [row]) ==
              LoadedReviews(rows) + (if IsReviewText(Prop(row, "text")) then [Prop(row, "text").s] else [])
  {
    var texts := seq(|rows|, i requires 0 <= i < |rows| => Prop(rows[i], "text"));
    var rows' := rows + [row];
    assert seq(|rows'|, i requires 0 <= i < |rows'| => Prop(rows'[i], "text")) == texts + [Prop(row, "text")];
    assert LoadedReviews(rows) == KeepReviewTexts(texts);
    KeepReviewTextsAppend(texts, [Prop(row, "text")]);
  }

  // ---------------------------------------------------------------------------
  // How the fetch and the parse can end

  /** The outcome of fetching and parsing the TSV file. */
  datatype TsvLoad =
    | NotOk                      // the response status was not OK
    | FetchFailed(message: string) // the request or reading the body threw
    | ParseFailed(message: string) // the parser reported an error
    | Parsed(rows: seq<JsValue>)   // the parser completed with these header-keyed rows

  /** The error shown for a failed load, or `None` when the rows were parsed. */
  function LoadError(load: TsvLoad): (message: Wrappers.Option<string>)
    ensures message.None? <==> load.Parsed?
  {
    match load
    // the non-OK branch throws an Error whose message is "Failed to load TSV file",
    // and the `.catch` handler puts its own prefix in front of that message
    case NotOk => Wrappers.Some("Failed to load TSV file: " + "Failed to load TSV file")
    case FetchFailed(m) => Wrappers.Some("Failed to load TSV file: " + m)
    case ParseFailed(m) => Wrappers.Some("Failed to parse TSV file: " + m)
    case Parsed(_) => Wrappers.None
  }
}
