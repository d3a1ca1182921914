/** The review form on the contact page: submit-time validation and the
    colour of the character counter. */
module ReviewForm {
  import opened Wrappers
  import opened Text

  const MinDescription := 10
  const MaxDescription := 500
  const WarnAt := 400

  datatype Verdict = MissingRating | DescriptionTooShort | DescriptionTooLong | Accepted

  /** initializeFormValidation's submit handler. The rating is checked first;
      the description is measured after trimming. */
  function Validate(rating: Option<int>, description: string): (v: Verdict)
    ensures rating.None? ==> v == MissingRating
    ensures rating.Some? && |Trim(description)| < MinDescription ==> v == DescriptionTooShort
    ensures rating.Some? && |Trim(description)| > MaxDescription ==> v == DescriptionTooLong
    ensures v == Accepted <==> rating.Some? && MinDescription <= |Trim(description)| <= MaxDescription
  {
    if rating.None? then MissingRating
    else
      var trimmed := Trim(description);
      if |trimmed| < MinDescription then DescriptionTooShort
      else if |trimmed| > MaxDescription then DescriptionTooLong
      else Accepted
  }

  /** A description of white space alone is refused as too short, whatever its length. */
  lemma BlankDescriptionIsTooShort(rating: int, description: string)
    requires forall i :: 0 <= i < |description| ==> IsWhitespace(description[i])
    ensures Validate(Some(rating), description) == DescriptionTooShort
  {
  }

  datatype CounterColour = Grey | Orange | Red

  /** initializeCharacterCounter: the colour for the untrimmed length. */
  function Counter(length: nat): (c: CounterColour)
    ensures c == Red <==> length >= MaxDescription
    ensures c == Orange <==> WarnAt <= length < MaxDescription
    ensures c == Grey <==> length < WarnAt
  {
    if length >= MaxDescription then Red
    else if length >= WarnAt then Orange
    else Grey
  }

  /** The counter and the validation agree in one direction: while the counter
      is not red the description cannot be too long. Red does not mean refused:
      at exactly 500 characters, or with white space to trim, it may pass. */
  lemma CounterBelowRedIsNeverTooLong(rating: Option<int>, description: string)
    requires Counter(|description|) != Red
    ensures Validate(rating, description) != DescriptionTooLong
  {
  }

  lemma RedCounterCanStillBeAccepted(rating: int, description: string)
    requires |description| == MaxDescription
    requires !IsWhitespace(description[0]) && !IsWhitespace(description[|description| - 1])
    ensures Counter(|description|) == Red
    ensures Validate(Some(rating), description) == Accepted
  {
    TrimOfTrimmed(description);
  }
}
