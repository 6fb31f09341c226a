/** The orchestrator wired to the three route models, with only the external
    providers left as parameters. The lemmas here are the facts that hold
    only because of how the routes and the orchestrator fit together: the
    error text one route produces is the text the other one searches. */
module Wiring {
  import opened Base
  import opened Http
  import opened Text
  import T = TranscribeRoute
  import L = TranslateRoute
  import S = SynthesizeRoute
  import P = ProcessAudio
  import ConversationLog

  /** The external services: speech-to-text, translation, speech synthesis,
      and the base64 encoding of the synthesized bytes. */
  datatype Providers = Providers(
    deepgram: T.DeepgramQuery -> ProviderOutcome<T.Alternative>,
    google: L.GoogleQuery -> ProviderOutcome<L.GoogleTranslation>,
    openai: S.SpeechQuery -> ProviderOutcome<Audio>,
    base64: Audio -> string)

  /** What the orchestrator destructures from a reply: one field, or the error as is. */
  function Field<V>(reply: StageReply<V>, read: V -> string): StageReply<Option<string>>
  {
    match reply
    case Ok(v) => Ok(Some(read(v)))
    case Err(status, body) => Err(status, body)
    case Broken => Broken
  }

  /** The stages as the three route models over the given providers. */
  function Routes(p: Providers): P.Stages
  {
    P.Stages(
      (f: T.TranscribeForm) => Field(T.Transcribe(f, p.deepgram).reply, (x: T.Transcription) => x.transcript),
      (b: L.TranslateBody) => Field(L.Translate(b, p.google).reply, (x: L.Translation) => x.translatedText),
      (b: S.SynthesizeBody) => Field(S.Synthesize(b, p.openai, p.base64).reply, (x: S.Speech) => x.audioBase64))
  }

  function Run(form: P.TurnForm, p: Providers, store: ConversationLog.Store,
               saveFails: bool, id: string, now: int): P.Turn
  {
    P.Process(form, Routes(p), store, saveFails, id, now)
  }

  /** The transcription route's short-audio error mentions "too short". */
  lemma TooShortErrorMatches()
    ensures P.ErrorMentions(ErrorBody(Some(T.TooShortError), None), P.TooShortMarker)
  {
    InMiddle("Audio is ", P.TooShortMarker, ". Please speak for at least 1 second.");
  }

  /** Its no-speech error mentions "No speech detected" and not "too short". */
  lemma NoSpeechErrorMatches()
    ensures !P.ErrorMentions(ErrorBody(Some(T.NoSpeechError), None), P.TooShortMarker)
    ensures P.ErrorMentions(ErrorBody(Some(T.NoSpeechError), None), P.NoSpeechMarker)
  {
    InMiddle("", P.NoSpeechMarker, "");
    assert "" + P.NoSpeechMarker + "" == T.NoSpeechError;
    Absent(T.NoSpeechError, P.TooShortMarker);
  }

  /** Its provider and crash errors mention neither marker. */
  lemma GenericErrorsMatchNothing()
    ensures !P.ErrorMentions(ErrorBody(Some(T.ProviderError), None), P.TooShortMarker)
    ensures !P.ErrorMentions(ErrorBody(Some(T.ProviderError), None), P.NoSpeechMarker)
    ensures !P.ErrorMentions(ErrorBody(Some(T.CrashError), None), P.TooShortMarker)
    ensures !P.ErrorMentions(ErrorBody(Some(T.CrashError), None), P.NoSpeechMarker)
  {
    Absent(T.ProviderError, P.TooShortMarker);
    Absent(T.ProviderError, P.NoSpeechMarker);
    Absent(T.CrashError, P.TooShortMarker);
    Absent(T.CrashError, P.NoSpeechMarker);
  }

  lemma InMiddle(a: string, m: string, b: string)
    ensures Contains(a + m + b, m)
  {
    var s := a + m + b;
    assert s[|a|..|a| + |m|] == m;
    assert OccursAt(s, m, |a|);
  }

  /** sub does not occur in s when no position of s starts with sub's
      first two characters. */
  lemma Absent(s: string, sub: string)
    requires |sub| > 1
    requires forall i :: 0 <= i <= |s| - |sub| ==> s[i] != sub[0] || s[i + 1] != sub[1]
    ensures !Contains(s, sub)
  {
    forall i | 0 <= i <= |s| - |sub| ensures !OccursAt(s, sub, i) {
      assert s[i..i + |sub|][0] == s[i] && s[i..i + |sub|][1] == s[i + 1];
    }
  }

  /** A capture under 1000 bytes is answered with the Spanish short-audio
      guidance, the speech-to-text provider is never queried, and nothing
      else runs. */
  lemma ShortCaptureGuidance(form: P.TurnForm, p: Providers, store: ConversationLog.Store,
                             saveFails: bool, id: string, now: int)
    requires P.AllPresent(form) && |form.audio.value| < T.MinAudioBytes
    ensures var t := Run(form, p, store, saveFails, id, now);
      && t.response == P.Fail(400, P.TooShortMessage)
      && t.calls == [P.TranscribeCall(P.TranscribeRequest(form))]
      && T.Transcribe(t.calls[0].form, p.deepgram).query.None?
      && t.store == store
  {
    TooShortErrorMatches();
  }

  /** A long enough capture whose transcript comes back empty is answered
      with the Spanish no-speech guidance. */
  lemma SilentCaptureGuidance(form: P.TurnForm, p: Providers, store: ConversationLog.Store,
                              saveFails: bool, id: string, now: int)
    requires P.AllPresent(form) && |form.audio.value| >= T.MinAudioBytes
    requires var q := T.Transcribe(P.TranscribeRequest(form), p.deepgram).query.value;
      p.deepgram(q).Answered? && !Truthy(p.deepgram(q).value.transcript)
    ensures var t := Run(form, p, store, saveFails, id, now);
      t.response == P.Fail(400, P.NoSpeechMessage) && |t.calls| == 1 && t.store == store
  {
    NoSpeechErrorMatches();
  }

  /** A speech-to-text provider refusal is an infrastructure failure (500)
      whatever the provider's own text says, since that text travels only in
      the details. */
  lemma ProviderRefusalIsGeneric(form: P.TurnForm, p: Providers, store: ConversationLog.Store,
                                 saveFails: bool, id: string, now: int)
    requires P.AllPresent(form) && |form.audio.value| >= T.MinAudioBytes
    requires p.deepgram(T.Transcribe(P.TranscribeRequest(form), p.deepgram).query.value).Refused?
    ensures var t := Run(form, p, store, saveFails, id, now);
      && t.response.status == 500
      && t.response.body.TurnError? && t.response.body.error == P.TranscriptionMessage
      && t.response.body.details.Some? && t.response.body.details.value.error == Some(T.ProviderError)
  {
    GenericErrorsMatchNothing();
  }

  /** An unreachable Deepgram: the route's catch answers 500 with its
      generic text, which the orchestrator passes on as the generic 500 turn,
      not as the short-audio guidance. */
  lemma ProviderOutageIsGeneric(form: P.TurnForm, p: Providers, store: ConversationLog.Store,
                                saveFails: bool, id: string, now: int)
    requires P.AllPresent(form) && |form.audio.value| >= T.MinAudioBytes
    requires p.deepgram(T.Transcribe(P.TranscribeRequest(form), p.deepgram).query.value).Unreachable?
    ensures var t := Run(form, p, store, saveFails, id, now);
      && t.response.status == 500
      && t.response.body.TurnError? && t.response.body.error == P.TranscriptionMessage
      && t.response.body.details.Some? && t.response.body.details.value.error == Some(T.CrashError)
      && t.store == store
  {
    GenericErrorsMatchNothing();
  }

  /** Equal languages: the translation provider is never queried and the
      turn's translated text is the transcript verbatim. */
  lemma SameLanguagePassThrough(form: P.TurnForm, p: Providers, store: ConversationLog.Store,
                                saveFails: bool, id: string, now: int)
    requires P.AllPresent(form) && form.sourceLanguage == form.targetLanguage
    ensures var t := Run(form, p, store, saveFails, id, now);
      |t.calls| >= 2 ==>
        && L.Translate(t.calls[1].body, p.google).query.None?
        && (t.response.status == 200 ==> t.response.body.translatedText == Some(t.response.body.originalText))
  {
  }

  /** Wired to the real routes, synthesis is always asked for non-empty
      text: the translation route never hands back a blank translation. */
  lemma SynthesisGetsText(form: P.TurnForm, p: Providers, store: ConversationLog.Store,
                          saveFails: bool, id: string, now: int)
    ensures var t := Run(form, p, store, saveFails, id, now);
      |t.calls| == 3 ==> Truthy(t.calls[2].speech.text)
  {
  }

  /** When all three providers answer and the transcript is clear, the turn
      succeeds with the provider's transcript, the translation (or the
      transcript when the provider gave none) and the encoded audio. */
  lemma HappyPath(form: P.TurnForm, p: Providers, store: ConversationLog.Store, id: string, now: int)
    requires P.AllPresent(form) && |form.audio.value| >= T.MinAudioBytes
    requires form.sourceLanguage != form.targetLanguage
    requires var q := T.Transcribe(P.TranscribeRequest(form), p.deepgram).query.value;
      p.deepgram(q).Answered? && !P.Unclear(p.deepgram(q).value.transcript)
    requires forall q :: p.google(q).Answered?
    requires forall q :: p.openai(q).Answered?
    ensures var t := Run(form, p, store, false, id, now);
      var transcript := p.deepgram(T.Transcribe(P.TranscribeRequest(form), p.deepgram).query.value).value.transcript.value;
      var g := p.google(L.GoogleQuery(transcript, form.sourceLanguage.value, form.targetLanguage.value, L.QueryFormat));
      var translated := OrElse(g.value.translatedText, transcript);
      var speech := S.SpeechQuery(S.SpeechModel, translated, S.Voice(form.targetLanguage), S.SpeechFormat);
      && t.response.status == 200
      && t.response.body == P.TurnResult(transcript, Some(translated), Some(p.base64(p.openai(speech).value)),
                                         form.sessionId.value, form.speaker.value)
      && ConversationLog.History(t.store, form.sessionId.value)
           == ConversationLog.History(store, form.sessionId.value)
              + [ConversationLog.Message(id, form.sessionId.value, form.speaker.value, transcript,
                                         form.sourceLanguage.value, Some(translated), form.targetLanguage.value,
                                         Some(p.base64(p.openai(speech).value)), now)]
  {
  }
}
