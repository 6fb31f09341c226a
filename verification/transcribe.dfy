/** The speech-to-text route: validates the uploaded audio, picks the
    provider's language code and turns the provider's answer into a
    transcript or an error reply. */
module TranscribeRoute {
  import opened Base
  import opened Http

  /** Captures below this many bytes are rejected before the provider is called. */
  const MinAudioBytes := 1000
  const DefaultLanguage := "es"
  const FallbackProviderLanguage := "en-US"
  const ProviderModel := "nova-2"

  /** The application's language codes and the provider codes they stand for. */
  const LanguageMap: map<string, string> := map[
    "es" := "es", "en" := "en-US", "fr" := "fr", "de" := "de", "pt" := "pt",
    "it" := "it", "zh" := "zh-CN", "ja" := "ja", "ko" := "ko", "ar" := "ar"]

  const NoAudioError := "No audio file provided"
  /** Written in three pieces so that the phrase the orchestrator searches
      for stands on its own; the text is one sentence. */
  const TooShortError := "Audio is " + "too short" + ". Please speak for at least 1 second."
  const NoSpeechError := "No speech detected"
  const ProviderError := "Transcription failed"
  const CrashError := "Internal server error during transcription"

  /** The multipart form: an `audio` file and an optional `language` field. */
  datatype TranscribeForm = TranscribeForm(audio: Option<Audio>, language: Option<string>)

  /** The query sent to the provider. */
  datatype DeepgramQuery = DeepgramQuery(language: string, model: string, audio: Audio)

  /** The first alternative of the first channel of the provider's answer;
      either field may be absent. */
  datatype Alternative = Alternative(transcript: Option<string>, confidence: Option<real>)

  /** The route's success body. */
  datatype Transcription = Transcription(transcript: string, confidence: real)

  /** The requested language, `es` when the field is absent or empty. */
  function RequestLanguage(form: TranscribeForm): (r: string)
    ensures r != ""
    ensures Truthy(form.language) ==> r == form.language.value
    ensures !Truthy(form.language) ==> r == DefaultLanguage
  {
    OrElse(form.language, DefaultLanguage)
  }

  /** The provider code for an application code; codes outside the table
      fall back to `en-US`. */
  function ProviderLanguage(language: string): (r: string)
    ensures r in LanguageMap.Values
    ensures language in LanguageMap ==> r == LanguageMap[language]
    ensures language !in LanguageMap ==> r == FallbackProviderLanguage
  {
    if language in LanguageMap && LanguageMap[language] != "" then LanguageMap[language]
    else assert LanguageMap["en"] == FallbackProviderLanguage; FallbackProviderLanguage
  }

  /** Every listed code other than English and Chinese is passed through
      unchanged; those two gain their region. */
  lemma ProviderLanguageTable()
    ensures ProviderLanguage("en") == "en-US" && ProviderLanguage("zh") == "zh-CN"
    ensures forall c :: c in LanguageMap && c != "en" && c != "zh" ==> ProviderLanguage(c) == c
    ensures ProviderLanguage("") == "en-US" && ProviderLanguage("es-MX") == "en-US"
  {
  }

  /** Handles one request. The provider is consulted only for a present
      capture of at least MinAudioBytes bytes. */
  function Transcribe(form: TranscribeForm, deepgram: DeepgramQuery -> ProviderOutcome<Alternative>)
    : (r: Handled<Transcription, DeepgramQuery>)
    // an absent file is rejected first
    ensures form.audio.None? ==> r.reply == Reject(400, NoAudioError) && r.query.None?
    // a short capture is rejected without a provider call
    ensures form.audio.Some? && |form.audio.value| < MinAudioBytes ==>
        r.reply == Reject(400, TooShortError) && r.query.None?
    // the provider is queried exactly for long enough captures, in the mapped language
    ensures r.query.Some? <==> form.audio.Some? && |form.audio.value| >= MinAudioBytes
    ensures r.query.Some? ==> r.query.value == DeepgramQuery(ProviderLanguage(RequestLanguage(form)), ProviderModel, form.audio.value)
    // a provider refusal keeps its status
    ensures r.query.Some? && deepgram(r.query.value).Refused? ==>
        r.reply == Err(deepgram(r.query.value).status, ErrorBody(Some(ProviderError), Some(deepgram(r.query.value).text)))
    // an unreachable provider lands in the catch: the generic 500
    ensures r.query.Some? && deepgram(r.query.value).Unreachable? ==> r.reply == Reject(500, CrashError)
    // success means the provider answered with a non-empty transcript, which is returned verbatim
    ensures r.reply.Ok? <==> r.query.Some? && deepgram(r.query.value).Answered?
                             && Truthy(deepgram(r.query.value).value.transcript)
    ensures r.reply.Ok? ==> r.reply.value.transcript == deepgram(r.query.value).value.transcript.value
    // an absent confidence is reported as 0
    ensures r.reply.Ok? ==>
        r.reply.value.confidence == (match deepgram(r.query.value).value.confidence case Some(c) => c case None => 0.0)
    // an empty or absent transcript is an error, never a success
    ensures r.query.Some? && deepgram(r.query.value).Answered? && !Truthy(deepgram(r.query.value).value.transcript) ==>
        r.reply == Reject(400, NoSpeechError)
    // the route always answers with JSON
    ensures !r.reply.Broken?
  {
    if form.audio.None? then Handled(Reject(400, NoAudioError), None)
    else if |form.audio.value| < MinAudioBytes then Handled(Reject(400, TooShortError), None)
    else
      var query := DeepgramQuery(ProviderLanguage(RequestLanguage(form)), ProviderModel, form.audio.value);
      var reply := match deepgram(query)
        case Unreachable => Reject(500, CrashError)
        case Refused(status, text) => Err(status, ErrorBody(Some(ProviderError), Some(text)))
        case Answered(alt) =>
          if !Truthy(alt.transcript) then Reject(400, NoSpeechError)
          else Ok(Transcription(alt.transcript.value, Confidence(alt)));
      Handled(reply, Some(query))
  }

  /** The reported confidence, 0 when the provider gives none. */
  function Confidence(alt: Alternative): real
  {
    match alt.confidence
    case Some(v) => v
    case None => 0.0
  }
}
