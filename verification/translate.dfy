/** The text translation route: checks its three fields, passes text through
    unchanged when both languages agree, and otherwise asks the provider,
    falling back to the original text and language for whatever the
    provider leaves out. */
module TranslateRoute {
  import opened Base
  import opened Http

  const MissingFieldsError := "Missing required fields: text, sourceLanguage, targetLanguage"
  const ProviderError := "Translation failed"
  const CrashError := "Internal server error during translation"
  const QueryFormat := "text"

  /** The JSON request body. */
  datatype TranslateBody = TranslateBody(text: Option<string>, sourceLanguage: Option<string>, targetLanguage: Option<string>)

  /** The query sent to the provider. */
  datatype GoogleQuery = GoogleQuery(q: string, source: string, target: string, format: string)

  /** The first translation in the provider's answer; either field may be absent. */
  datatype GoogleTranslation = GoogleTranslation(translatedText: Option<string>, detectedSourceLanguage: Option<string>)

  /** The route's success body. */
  datatype Translation = Translation(translatedText: string, detectedSourceLanguage: string)

  predicate Complete(body: TranslateBody)
  {
    Truthy(body.text) && Truthy(body.sourceLanguage) && Truthy(body.targetLanguage)
  }

  /** Handles one request. */
  function Translate(body: TranslateBody, google: GoogleQuery -> ProviderOutcome<GoogleTranslation>)
    : (r: Handled<Translation, GoogleQuery>)
    // a missing or empty field is rejected without a provider call
    ensures !Complete(body) ==> r.reply == Reject(400, MissingFieldsError) && r.query.None?
    // equal languages: the text comes back verbatim, no provider call
    ensures Complete(body) && body.sourceLanguage == body.targetLanguage ==>
        r.reply == Ok(Translation(body.text.value, body.sourceLanguage.value)) && r.query.None?
    // the provider is queried exactly for complete bodies with distinct languages
    ensures r.query.Some? <==> Complete(body) && body.sourceLanguage != body.targetLanguage
    ensures r.query.Some? ==>
        r.query.value == GoogleQuery(body.text.value, body.sourceLanguage.value, body.targetLanguage.value, QueryFormat)
    // a provider refusal keeps its status
    ensures r.query.Some? && google(r.query.value).Refused? ==>
        r.reply == Err(google(r.query.value).status, ErrorBody(Some(ProviderError), Some(google(r.query.value).text)))
    // an unreachable provider lands in the catch: the generic 500
    ensures r.query.Some? && google(r.query.value).Unreachable? ==> r.reply == Reject(500, CrashError)
    // missing answer fields fall back to the original text and the source language
    ensures r.query.Some? && google(r.query.value).Answered? ==>
        r.reply == Ok(Translation(OrElse(google(r.query.value).value.translatedText, body.text.value),
                                  OrElse(google(r.query.value).value.detectedSourceLanguage, body.sourceLanguage.value)))
    // every success carries non-empty text
    ensures r.reply.Ok? ==> r.reply.value.translatedText != "" && r.reply.value.detectedSourceLanguage != ""
    ensures !r.reply.Broken?
  {
    if !Complete(body) then Handled(Reject(400, MissingFieldsError), None)
    else
      var text, source, target := body.text.value, body.sourceLanguage.value, body.targetLanguage.value;
      if source == target then Handled(Ok(Translation(text, source)), None)
      else
        var query := GoogleQuery(text, source, target, QueryFormat);
        var reply := match google(query)
          case Unreachable => Reject(500, CrashError)
          case Refused(status, details) => Err(status, ErrorBody(Some(ProviderError), Some(details)))
          case Answered(t) =>
            Ok(Translation(OrElse(t.translatedText, text), OrElse(t.detectedSourceLanguage, source)));
        Handled(reply, Some(query))
  }

  /** Whatever the provider does, a successful reply never loses the text:
      it is the provider's non-empty translation or the input itself. */
  lemma TranslationNeverBlank(body: TranslateBody, google: GoogleQuery -> ProviderOutcome<GoogleTranslation>)
    ensures var r := Translate(body, google);
      r.reply.Ok? ==> r.reply.value.translatedText != ""
    ensures var r := Translate(body, google);
      r.reply.Ok? ==>
        || r.reply.value.translatedText == body.text.value
        || (r.query.Some? && google(r.query.value).Answered?
            && google(r.query.value).value.translatedText == Some(r.reply.value.translatedText))
  {
  }
}
