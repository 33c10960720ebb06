/**
 * The review card of one extracted field: whether it is flagged for review
 * or as erroneous, which panels it shows, and its small edit state machine
 * (`isEditing`, `editValue`).
 */
module FieldReviewCard {
  import opened Values

  /** `confidence && confidence < 0.7`: an absent or zero confidence is never flagged. */
  predicate NeedsReview(confidence: Option<real>)
  {
    confidence.Some? && confidence.value != 0.0 && confidence.value < 0.7
  }

  /** `!!validationError` */
  predicate HasError(validationError: Option<string>)
  {
    TruthyText(validationError)
  }

  datatype CardStyle = ReviewStyle | ErrorStyle | PlainStyle

  /** The card's border and background: review styling wins over error styling. */
  function Style(confidence: Option<real>, validationError: Option<string>): CardStyle
  {
    if NeedsReview(confidence) then ReviewStyle
    else if HasError(validationError) then ErrorStyle
    else PlainStyle
  }

  /**
   * `value || ''`: what the edit box starts from.  A truthy value is kept
   * as it is, a number included; every falsy one (a missing value, `0`,
   * `NaN`, `''`, `false`, `null`) becomes the empty text.
   */
  function InitialEditValue(value: Value): (r: Value)
    ensures Truthy(r) <==> Truthy(value)
    ensures Truthy(value) ==> r == value
    ensures !Truthy(value) ==> r == Str("")
  {
    if Truthy(value) then value else Str("")
  }

  /** A zero amount opens the edit box empty, while a non-zero one opens it on the number itself. */
  lemma ZeroAmountEditsAsEmpty(n: real)
    ensures InitialEditValue(Num(0.0)) == Str("") && InitialEditValue(NaN) == Str("")
    ensures n != 0.0 ==> InitialEditValue(Num(n)) == Num(n)
  {
  }

  /** The panels shown under the value. */
  predicate ShowsErrorPanel(validationError: Option<string>, isEditing: bool)
  {
    HasError(validationError) && !isEditing
  }

  predicate ShowsReasoning(reasoning: Option<string>, validationError: Option<string>, isEditing: bool)
  {
    TruthyText(reasoning) && !isEditing && !HasError(validationError)
  }

  predicate ShowsReviewBadge(confidence: Option<real>, validationError: Option<string>, isEditing: bool)
  {
    NeedsReview(confidence) && !isEditing && !HasError(validationError)
  }

  /** A card flags exactly the confidences that are non-zero and below 0.7. */
  lemma NeedsReviewBand(confidence: Option<real>)
    ensures NeedsReview(confidence) <==> exists c :: confidence == Some(c) && c != 0.0 && c < 0.7
    ensures confidence == None || confidence == Some(0.0) ==> !NeedsReview(confidence)
  {
    if NeedsReview(confidence) {
      var c := confidence.value;
      assert confidence == Some(c) && c != 0.0 && c < 0.7;
    }
  }

  /** A card is styled as erroneous only when it is not also flagged for review. */
  lemma ReviewStyleTakesPrecedence(confidence: Option<real>, validationError: Option<string>)
    ensures NeedsReview(confidence) ==> Style(confidence, validationError) == ReviewStyle
    ensures Style(confidence, validationError) == ErrorStyle <==> !NeedsReview(confidence) && HasError(validationError)
    ensures Style(confidence, validationError) == PlainStyle <==> !NeedsReview(confidence) && !HasError(validationError)
  {
  }

  /** While editing, or on an erroneous field, neither the reasoning nor the review badge is shown. */
  lemma PanelsHiddenWhileEditingOrInError(confidence: Option<real>, reasoning: Option<string>, validationError: Option<string>, isEditing: bool)
    requires isEditing || HasError(validationError)
    ensures !ShowsReasoning(reasoning, validationError, isEditing)
    ensures !ShowsReviewBadge(confidence, validationError, isEditing)
  {
  }

  /** The card's React state: the `value` prop it was last rendered with, and its two state hooks. */
  class FieldCard {
    var value: Value
    var isEditing: bool
    var editValue: Value

    constructor (value: Value)
      ensures this.value == value
      ensures !isEditing && editValue == InitialEditValue(value)
    {
      this.value := value;
      isEditing := false;
      editValue := InitialEditValue(value);
    }

    /** A re-render with a new `value` prop: state hooks keep their values. */
    method Rerender(newValue: Value)
      modifies this
      ensures value == newValue
      ensures isEditing == old(isEditing) && editValue == old(editValue)
    {
      value := newValue;
    }

    /** The edit/cancel button flips `isEditing` and leaves the edit text alone. */
    method Toggle()
      modifies this
      ensures isEditing == !old(isEditing)
      ensures editValue == old(editValue) && value == old(value)
    {
      isEditing := !isEditing;
    }

    /** Typing in the edit box: `e.target.value` is always a text. */
    method Type(text: string)
      modifies this
      ensures editValue == Str(text)
      ensures isEditing == old(isEditing) && value == old(value)
    {
      editValue := Str(text);
    }

    /** Save hands the current edit text to `onSave` and leaves edit mode. */
    method Save() returns (saved: Value)
      modifies this
      ensures saved == old(editValue)
      ensures !isEditing
      ensures editValue == old(editValue) && value == old(value)
    {
      saved := editValue;
      isEditing := false;
    }

    /** Cancel restores the edit text from the current value prop and leaves edit mode. */
    method Cancel()
      modifies this
      ensures editValue == InitialEditValue(value)
      ensures !isEditing
      ensures value == old(value)
    {
      editValue := InitialEditValue(value);
      isEditing := false;
    }
  }
}
