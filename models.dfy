/** The two value types that flow through the pipeline (src/models.py).
    Every field is optional and defaults to None, exactly as the dataclasses
    declare; nothing ties the fields to each other. */
module Models {
  import opened Wrappers

  /** Material extracted from one source. `sourceType` is the free-form tag
      the extractors write ("youtube" or "article"); `audioPath` belongs to a
      disabled audio feature and is never set by the modelled code. */
  datatype Content = Content(
    text: Option<string> := None,
    audioPath: Option<string> := None,
    sourceType: Option<string> := None,
    sourceUrl: Option<string> := None,
    imageUrl: Option<string> := None,
    errorMessage: Option<string> := None)

  /** Outcome of summarizing one Content. */
  datatype SummaryResult = SummaryResult(
    summary: Option<string> := None,
    errorMessage: Option<string> := None)

  /** `Content()` leaves all six fields unset, the error message included. */
  lemma DefaultContentIsEmpty()
    ensures Content() == Content(None, None, None, None, None, None)
    ensures Content().errorMessage == None
  {}

  /** Each field of a Content holds what was passed for it and nothing else. */
  lemma ContentHoldsArguments(text: string, audioPath: string, sourceType: string, sourceUrl: string, imageUrl: string)
    ensures var c := Content(text := Some(text), audioPath := Some(audioPath), sourceType := Some(sourceType),
                             sourceUrl := Some(sourceUrl), imageUrl := Some(imageUrl));
      && c.text == Some(text) && c.audioPath == Some(audioPath) && c.sourceType == Some(sourceType)
      && c.sourceUrl == Some(sourceUrl) && c.imageUrl == Some(imageUrl) && c.errorMessage == None
  {}

  /** `SummaryResult()` leaves both fields unset. */
  lemma DefaultSummaryResultIsEmpty()
    ensures SummaryResult() == SummaryResult(None, None)
  {}

  /** The type itself does not make summary and error exclusive: both may be set at once. */
  lemma SummaryResultNotExclusive(summary: string, error: string)
    ensures var r := SummaryResult(summary := Some(summary), errorMessage := Some(error));
      r.summary == Some(summary) && r.errorMessage == Some(error)
  {}
}
