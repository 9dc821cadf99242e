/**
 * The decision engine: `determineBusinessAction(score, label)` maps a
 * classifier score and an upper-cased label to one of four business actions,
 * by an ordered rule chain where the first matching rule wins.
 */
module Decision {

  datatype ActionCode = OfferCoupon | AskReferral | RequestFeedback | NoAction {
    /** The `actionCode` string shown on the action button. */
    function Name(): string {
      match this
      case OfferCoupon => "OFFER_COUPON"
      case AskReferral => "ASK_REFERRAL"
      case RequestFeedback => "REQUEST_FEEDBACK"
      case NoAction => "NO_ACTION"
    }
  }

  /** The record `{actionCode, uiMessage, color, emoji}` the engine returns. */
  datatype BusinessAction = BusinessAction(actionCode: ActionCode, uiMessage: string, color: string, emoji: string)

  /** The fixed message, colour and emoji that go with each action code. */
  function ActionFor(code: ActionCode): (a: BusinessAction)
    ensures a.actionCode == code
  {
    match code
    case OfferCoupon =>
      BusinessAction(OfferCoupon,
        "We're really sorry about your experience. Please accept a 50% discount for your next purchase as an apology.",
        "#e74c3c", "\U{1F6A8}")  // red, police-car light
    case AskReferral =>
      BusinessAction(AskReferral,
        "We're thrilled you enjoyed it! Refer a friend and earn rewards.",
        "#27ae60", "\U{2B50}")  // green, star
    case RequestFeedback =>
      BusinessAction(RequestFeedback,
        "We\U{2019}d love to understand your experience better. Please complete our short survey.",
        "#f39c12", "\U{1F4DD}")  // orange, memo; the apostrophe is U+2019
    case NoAction =>
      BusinessAction(NoAction,
        "Thank you for your feedback.",
        "#7f8c8d", "\U{2139}\U{FE0F}")  // gray, information sign with emoji presentation
  }

  /** A score in the band where the engine reacts to a polar label. */
  predicate IsConfident(score: real) {
    0.7 <= score <= 1.0
  }

  /**
   * The rule chain. Each action is characterised on its own, without reference
   * to the order of the rules: the four conditions below are pairwise disjoint
   * and cover every (score, label) pair.
   */
  function DetermineBusinessAction(score: real, sentimentLabel: string): (a: BusinessAction)
    ensures a == ActionFor(a.actionCode)
    ensures a.actionCode == OfferCoupon <==> IsConfident(score) && sentimentLabel == "NEGATIVE"
    ensures a.actionCode == AskReferral <==> IsConfident(score) && sentimentLabel == "POSITIVE"
    ensures a.actionCode == RequestFeedback <==> score < 0.4
    ensures a.actionCode == NoAction <==>
              (0.4 <= score < 0.7)
              || (0.7 <= score && sentimentLabel != "NEGATIVE" && sentimentLabel != "POSITIVE")
              || score > 1.0
  {
    if score >= 0.7 && score <= 1.0 && sentimentLabel == "NEGATIVE" then
      ActionFor(OfferCoupon)
    else if score >= 0.7 && score <= 1.0 && sentimentLabel == "POSITIVE" then
      ActionFor(AskReferral)
    else if score < 0.4 then
      ActionFor(RequestFeedback)
    else
      // fallback for every remaining case
      ActionFor(NoAction)
  }

  /** Distinct codes carry distinct button texts. */
  lemma NamesDistinct(c1: ActionCode, c2: ActionCode)
    requires c1 != c2
    ensures c1.Name() != c2.Name()
  {
  }

  /** The boundary cases and worked examples of the rule chain. */
  lemma DecisionExamples()
    ensures DetermineBusinessAction(0.92, "NEGATIVE").actionCode == OfferCoupon
    ensures DetermineBusinessAction(0.85, "POSITIVE").actionCode == AskReferral
    ensures DetermineBusinessAction(0.2, "POSITIVE").actionCode == RequestFeedback
    ensures DetermineBusinessAction(0.5, "NEUTRAL").actionCode == NoAction
    ensures DetermineBusinessAction(0.6, "POSITIVE").actionCode == NoAction
    ensures DetermineBusinessAction(0.7, "NEGATIVE").actionCode == OfferCoupon
    ensures DetermineBusinessAction(1.0, "POSITIVE").actionCode == AskReferral
    ensures DetermineBusinessAction(0.4, "NEGATIVE").actionCode == NoAction
    ensures DetermineBusinessAction(1.5, "NEGATIVE").actionCode == NoAction
    ensures DetermineBusinessAction(0.9, "negative").actionCode == NoAction
  {
    // a lower-case label is not one of the two polar labels
    assert "negative"[0] != "NEGATIVE"[0];
    assert "NEUTRAL"[2] != "NEGATIVE"[2] && "NEUTRAL"[0] != "POSITIVE"[0];
  }
}
