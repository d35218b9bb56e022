/** How the client's form, the backend's guards and the card's display fit together. */
module Consistency {
  import opened Wrappers
  import opened Strings
  import opened Server
  import opened Form
  import opened ViewState
  import opened Card

  /** Whatever the form submits passes the backend's guards on both endpoints. */
  lemma SubmittedFormAccepted(s: FormState, draws: Draws, now: string)
    requires draws.Valid()
    ensures var sub := HandleSubmit(s).submitted;
      sub.Some? ==>
        BusinessDataEndpoint(Some(sub.value.name), Some(sub.value.location), draws, now).Ok? &&
        RegenerateHeadlineEndpoint(Some(sub.value.name), Some(sub.value.location), draws.template, now).Ok?
  {
    SubmittedFormIsTrimNonEmpty(s);
  }

  /**
   * The two checks differ on blank input: a non-empty field made only of
   * white space is refused by the form but accepted by the backend, while
   * an empty field is refused by both.
   */
  lemma WhiteSpaceGap(blank: string, other: string, draws: Draws, now: string)
    requires draws.Valid()
    requires blank != "" && AllWhiteSpace(blank)
    requires other != ""
    ensures !ValidateForm(FormData(blank, other)).valid
    ensures !ValidateForm(FormData(other, blank)).valid
    ensures BusinessDataEndpoint(Some(blank), Some(other), draws, now).Ok?
    ensures BusinessDataEndpoint(Some(other), Some(blank), draws, now).Ok?
    ensures RegenerateHeadlineEndpoint(Some(blank), Some(other), draws.template, now).Ok?
    ensures RegenerateHeadlineEndpoint(Some(other), Some(blank), draws.template, now).Ok?
    ensures !ValidateForm(FormData("", other)).valid
    ensures BusinessDataEndpoint(Some(""), Some(other), draws, now).BadRequest?
    ensures RegenerateHeadlineEndpoint(Some(""), Some(other), draws.template, now).BadRequest?
  {
  }

  /**
   * Data fetched from the backend shows as three to five stars and the
   * review label is always plural.
   */
  lemma ServedDataDisplay(name: string, location: string, draws: Draws, now: string, s: State, format: int -> string)
    requires draws.Valid()
    requires name != "" && location != ""
    ensures var r := BusinessDataEndpoint(Some(name), Some(location), draws, now);
      var shown := FetchEnd(s, Delivered(r.body)).data.value;
      && 3 <= CountFilled(Stars(shown.rating)) <= 5
      && ReviewsText(shown.reviews, format) == format(shown.reviews) + " reviews"
      && shown.headline in PossibleHeadlines(name, location)
  {
    var r := BusinessDataEndpoint(Some(name), Some(location), draws, now);
    BackendRatingStars(r.body.rating);
  }
}
