/** The speech synthesis route: rejects empty text, chooses a voice by
    language and returns the provider's audio as base64. */
module SynthesizeRoute {
  import opened Base
  import opened Http

  const NoTextError := "No text provided"
  const ProviderError := "Speech synthesis failed"
  const CrashError := "Internal server error during speech synthesis"
  const DefaultVoice := "alloy"
  const SpeechModel := "tts-1"
  const SpeechFormat := "wav"

  /** Language code to provider voice. */
  const VoiceMap: map<string, string> := map[
    "es" := "nova", "en" := "alloy", "fr" := "shimmer", "de" := "onyx", "pt" := "nova",
    "it" := "shimmer", "zh" := "alloy", "ja" := "echo", "ko" := "fable", "ar" := "onyx"]

  /** The voices the route can ever ask for. */
  const Voices: set<string> := {"alloy", "nova", "shimmer", "onyx", "echo", "fable"}

  /** The JSON request body. */
  datatype SynthesizeBody = SynthesizeBody(text: Option<string>, language: Option<string>)

  /** The query sent to the provider. */
  datatype SpeechQuery = SpeechQuery(model: string, input: string, voice: string, format: string)

  /** The route's success body. */
  datatype Speech = Speech(audioBase64: string, voice: string)

  /** The voice for a language; absent and unlisted languages get `alloy`. */
  function Voice(language: Option<string>): (v: string)
    ensures v in Voices
    ensures language.Some? && language.value in VoiceMap ==> v == VoiceMap[language.value]
    ensures language.None? || language.value !in VoiceMap ==> v == DefaultVoice
  {
    if language.Some? && language.value in VoiceMap && VoiceMap[language.value] != "" then VoiceMap[language.value]
    else DefaultVoice
  }

  /** The voice table as fixed pairs: a total function of the language. */
  lemma VoiceTable()
    ensures Voice(Some("es")) == "nova" && Voice(Some("pt")) == "nova"
    ensures Voice(Some("en")) == "alloy" && Voice(Some("zh")) == "alloy"
    ensures Voice(Some("fr")) == "shimmer" && Voice(Some("it")) == "shimmer"
    ensures Voice(Some("de")) == "onyx" && Voice(Some("ar")) == "onyx"
    ensures Voice(Some("ja")) == "echo" && Voice(Some("ko")) == "fable"
    ensures forall l :: l !in VoiceMap ==> Voice(Some(l)) == DefaultVoice
    ensures Voice(None) == DefaultVoice
  {
  }

  /** Handles one request; `base64` is the encoding of the provider's bytes. */
  function Synthesize(body: SynthesizeBody, openai: SpeechQuery -> ProviderOutcome<Audio>, base64: Audio -> string)
    : (r: Handled<Speech, SpeechQuery>)
    // empty or absent text is rejected without a provider call
    ensures !Truthy(body.text) ==> r.reply == Reject(400, NoTextError) && r.query.None?
    // otherwise the provider is asked for that exact text in the language's voice
    ensures r.query.Some? <==> Truthy(body.text)
    ensures r.query.Some? ==> r.query.value == SpeechQuery(SpeechModel, body.text.value, Voice(body.language), SpeechFormat)
    // a provider refusal keeps its status
    ensures r.query.Some? && openai(r.query.value).Refused? ==>
        r.reply == Err(openai(r.query.value).status, ErrorBody(Some(ProviderError), Some(openai(r.query.value).text)))
    // an unreachable provider lands in the catch: the generic 500
    ensures r.query.Some? && openai(r.query.value).Unreachable? ==> r.reply == Reject(500, CrashError)
    // success carries the encoded audio and the voice used
    ensures r.reply.Ok? <==> r.query.Some? && openai(r.query.value).Answered?
    ensures r.reply.Ok? ==>
        r.reply.value == Speech(base64(openai(r.query.value).value), r.query.value.voice)
    ensures !r.reply.Broken?
  {
    if !Truthy(body.text) then Handled(Reject(400, NoTextError), None)
    else
      var query := SpeechQuery(SpeechModel, body.text.value, Voice(body.language), SpeechFormat);
      var reply := match openai(query)
        case Unreachable => Reject(500, CrashError)
        case Refused(status, details) => Err(status, ErrorBody(Some(ProviderError), Some(details)))
        case Answered(audio) => Ok(Speech(base64(audio), query.voice));
      Handled(reply, Some(query))
  }
}
