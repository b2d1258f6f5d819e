/**
 * The feedback section: the form with its star rating, the submit gate and the "thank you"
 * view that resets itself after a delay. The delay and the alert are not modelled; the reset
 * is a method the timer calls.
 */
module Feedback {
  import opened Wrappers
  import opened Text
  import opened Entities

  /** The number of stars the widget draws. */
  const StarCount := 5

  datatype FeedbackData = FeedbackData(name: string, email: string, rating: nat, category: string, message: string)

  /** The form as first rendered and as the timer resets it. */
  const InitialFeedback := FeedbackData("", "", 0, "", "")

  /** The text inputs and the category select; the rating is set by the stars. */
  datatype TextField = NameField | EmailField | CategoryField | MessageField

  function TextGet(f: FeedbackData, field: TextField): string
  {
    match field
    case NameField => f.name
    case EmailField => f.email
    case CategoryField => f.category
    case MessageField => f.message
  }

  /** `setFeedback(prev => ({ ...prev, [field]: value }))` for a text field. */
  function TextSet(f: FeedbackData, field: TextField, value: string): (r: FeedbackData)
    ensures r.rating == f.rating
    ensures forall g :: TextGet(r, g) == if g == field then value else TextGet(f, g)
  {
    match field
    case NameField => f.(name := value)
    case EmailField => f.(email := value)
    case CategoryField => f.(category := value)
    case MessageField => f.(message := value)
  }

  /** The submit gate: name, email, a rating and a message are required; the category is not. */
  predicate Submittable(f: FeedbackData)
    ensures Submittable(f) ==> f.rating != 0 && forall g :: g != CategoryField ==> TextGet(f, g) != ""
    ensures f.rating != 0 && (forall g :: g != CategoryField ==> TextGet(f, g) != "") ==> Submittable(f)
  {
    assert TextGet(f, NameField) == f.name && TextGet(f, EmailField) == f.email;
    assert TextGet(f, MessageField) == f.message;
    f.name != "" && f.email != "" && f.rating != 0 && f.message != ""
  }

  /** The category never decides whether the form can be sent. */
  lemma CategoryNeverGates(f: FeedbackData, category: string)
    ensures Submittable(TextSet(f, CategoryField, category)) <==> Submittable(f)
  {
  }

  /** The fresh form can never be submitted. */
  lemma InitialNotSubmittable()
    ensures !Submittable(InitialFeedback)
  {
  }

  // ---------------------------------------------------------------------------
  // Stars
  // ---------------------------------------------------------------------------

  /** `renderStars`: one flag per star, star `i` (value `i + 1`) lit when its value is at most
      the bound. */
  function Stars(bound: int): (lit: seq<bool>)
    ensures |lit| == StarCount
  {
    seq(StarCount, i requires 0 <= i < StarCount => i + 1 <= bound)
  }

  /** The bound the interactive widget uses: the hovered star while the pointer is over one,
      otherwise the chosen rating. */
  function InteractiveBound(hoveredRating: nat, rating: nat): (bound: nat)
    ensures hoveredRating > 0 ==> bound == hoveredRating
    ensures hoveredRating == 0 ==> bound == rating
  {
    if hoveredRating > 0 then hoveredRating else rating
  }

  /** The number of lit stars. */
  function LitCount(lit: seq<bool>): nat
  {
    if lit == [] then 0 else (if lit[0] then 1 else 0) + LitCount(lit[1..])
  }

  /** The lit stars are always a leading run: a lit star has only lit stars before it. */
  lemma StarsLeadingRun(bound: int, i: nat, j: nat)
    requires i < j < StarCount && Stars(bound)[j]
    ensures Stars(bound)[i]
  {
  }

  /** A run of `k` leading lit flags counts as `k`. */
  lemma {:induction false} LitCountOfRun(lit: seq<bool>, k: nat)
    requires k <= |lit|
    requires forall i :: 0 <= i < |lit| ==> (lit[i] <==> i < k)
    ensures LitCount(lit) == k
  {
    if lit != [] {
      var k' := if k > 0 then k - 1 else 0;
      forall i | 0 <= i < |lit[1..]|
        ensures lit[1..][i] <==> i < k'
      {
        assert lit[1..][i] == lit[i + 1];
      }
      LitCountOfRun(lit[1..], k');
    }
  }

  /** Exactly as many stars are lit as the bound says, capped at five and never negative: a
      rating of 3 lights three stars. */
  lemma LitStarsMatchBound(bound: int)
    ensures LitCount(Stars(bound)) == if bound <= 0 then 0 else if bound >= StarCount then StarCount else bound
  {
    var k := if bound <= 0 then 0 else if bound >= StarCount then StarCount else bound;
    LitCountOfRun(Stars(bound), k);
  }

  /** `{feedback.rating > 0 ? `${feedback.rating}/5` : 'Select rating'}` */
  function RatingCaption(rating: nat): (caption: string)
    ensures rating == 0 <==> caption == "Select rating"
    ensures rating > 0 ==> caption == NatToString(rating) + "/5"
  {
    if rating > 0 then
      var digits := NatToString(rating);
      assert (digits + "/5")[0] == digits[0] && IsDigit(digits[0]);
      digits + "/5"
    else "Select rating"
  }

  /** `{feedback.category || 'General'}` in the summary. */
  function CategoryCaption(category: string): (caption: string)
    ensures category == "" ==> caption == "General"
    ensures category != "" ==> caption == category
  {
    OrElse(Some(category), "General")
  }

  // ---------------------------------------------------------------------------
  // The component state
  // ---------------------------------------------------------------------------

  class FeedbackSection {
    var feedback: FeedbackData
    var isSubmitted: bool
    var hoveredRating: nat

    /** Ratings and hover values only ever come from the five stars. */
    predicate Valid()
      reads this
    {
      feedback.rating <= StarCount && hoveredRating <= StarCount
    }

    constructor ()
      ensures Valid()
      ensures feedback == InitialFeedback && !isSubmitted && hoveredRating == 0
    {
      feedback, isSubmitted, hoveredRating := InitialFeedback, false, 0;
    }

    /** The stars of the form as drawn now. */
    function FormStars(): seq<bool>
      reads this
    {
      Stars(InteractiveBound(hoveredRating, feedback.rating))
    }

    /** Typing into a text input or choosing a category. */
    method HandleInputChange(field: TextField, value: string)
      requires Valid() && !isSubmitted
      modifies this`feedback
      ensures Valid()
      ensures feedback == TextSet(old(feedback), field, value)
    {
      feedback := TextSet(feedback, field, value);
    }

    /** Clicking star `star`: the rating becomes its value. */
    method ClickStar(star: nat)
      requires Valid() && !isSubmitted && 1 <= star <= StarCount
      modifies this`feedback
      ensures Valid()
      ensures feedback == old(feedback).(rating := star)
    {
      feedback := feedback.(rating := star);
    }

    /** The pointer enters star `star`: the preview follows the pointer. */
    method EnterStar(star: nat)
      requires Valid() && !isSubmitted && 1 <= star <= StarCount
      modifies this`hoveredRating
      ensures Valid()
      ensures hoveredRating == star && FormStars() == Stars(star)
    {
      hoveredRating := star;
    }

    /** The pointer leaves a star: the widget shows the chosen rating again. */
    method LeaveStar()
      requires Valid() && !isSubmitted
      modifies this`hoveredRating
      ensures Valid()
      ensures hoveredRating == 0 && FormStars() == Stars(feedback.rating)
    {
      hoveredRating := 0;
    }

    /** `handleSubmit`: an incomplete form is refused and stays as it is; a complete one switches
        to the thank-you view and keeps its data for the summary. */
    method HandleSubmit() returns (accepted: bool)
      requires Valid() && !isSubmitted
      modifies this`isSubmitted
      ensures Valid()
      ensures accepted <==> Submittable(feedback)
      ensures isSubmitted == accepted
    {
      accepted := Submittable(feedback);
      if accepted {
        isSubmitted := true;
      }
    }

    /** The timer set by an accepted submission: back to an empty form. The hover value is
        not reset. */
    method ResetAfterDelay()
      requires Valid() && isSubmitted
      modifies this`isSubmitted, this`feedback
      ensures Valid()
      ensures !isSubmitted && feedback == InitialFeedback
    {
      isSubmitted := false;
      feedback := InitialFeedback;
    }
  }
}
