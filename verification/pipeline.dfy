/** The turn orchestrator: for one recorded utterance it checks the form,
    calls transcription, translation and synthesis strictly one after the
    other, maps failures to user-facing replies, and saves the finished turn
    to the conversation log on a best-effort basis.

    The three internal routes are parameters: each takes the request the
    orchestrator builds and yields what the orchestrator reads back from the
    JSON (`transcript`, `translatedText`, `audioBase64`). The result records
    every call made, so that "no stage runs after a failure" is a property of
    the result. */
module ProcessAudio {
  import opened Base
  import opened Http
  import opened Text
  import TranscribeRoute
  import TranslateRoute
  import SynthesizeRoute
  import ConversationLog

  const MissingFieldsError := "Missing required fields"
  const TooShortMarker := "too short"
  const NoSpeechMarker := "No speech detected"
  const TooShortMessage := "Audio demasiado corto. Mantén presionado el botón y habla al menos 1 segundo."
  const NoSpeechMessage := "No se detectó voz clara. Intenta hablar más cerca del micrófono."
  const TranscriptionMessage := "Error en la transcripción. Intenta nuevamente."
  const UnclearMessage := "No se pudo entender el audio. Por favor, habla más claro y despacio."
  const TranslationMessage := "Translation failed"
  const SynthesisMessage := "Speech synthesis failed"
  const CrashMessage := "Internal server error during audio processing"

  /** The multipart form of one turn. */
  datatype TurnForm = TurnForm(
    audio: Option<Audio>, sourceLanguage: Option<string>, targetLanguage: Option<string>,
    sessionId: Option<string>, speaker: Option<string>)

  /** The internal routes as the orchestrator sees them. */
  datatype Stages = Stages(
    transcribe: TranscribeRoute.TranscribeForm -> StageReply<Option<string>>,
    translate: TranslateRoute.TranslateBody -> StageReply<Option<string>>,
    synthesize: SynthesizeRoute.SynthesizeBody -> StageReply<Option<string>>)

  /** One call to an internal route, with the request sent. */
  datatype StageCall =
    | TranscribeCall(form: TranscribeRoute.TranscribeForm)
    | TranslateCall(body: TranslateRoute.TranslateBody)
    | SynthesizeCall(speech: SynthesizeRoute.SynthesizeBody)

  datatype TurnBody =
    | TurnError(error: string, details: Option<ErrorBody>)
    | TurnResult(originalText: string, translatedText: Option<string>, audioBase64: Option<string>,
                 sessionId: string, speaker: string)

  datatype TurnResponse = TurnResponse(status: int, body: TurnBody)

  /** The reply, the calls made in order, and the log afterwards. */
  datatype Turn = Turn(response: TurnResponse, calls: seq<StageCall>, store: ConversationLog.Store)

  predicate AllPresent(form: TurnForm)
  {
    form.audio.Some? && Truthy(form.sourceLanguage) && Truthy(form.targetLanguage)
    && Truthy(form.sessionId) && Truthy(form.speaker)
  }

  /** `!transcript || transcript.trim().length < 2`, with JavaScript's length. */
  predicate Unclear(transcript: Option<string>)
  {
    !Truthy(transcript) || Utf16Length(Trim(transcript.value)) < 2
  }

  predicate ErrorMentions(body: ErrorBody, marker: string)
  {
    body.error.Some? && Contains(body.error.value, marker)
  }

  /** The reply to a failed transcription: input-quality causes get a 400
      with specific guidance, "too short" taking precedence; anything else is
      a 500 that carries the route's error body. */
  function TranscriptionFailure(body: ErrorBody): (r: TurnResponse)
    ensures ErrorMentions(body, TooShortMarker) ==> r == TurnResponse(400, TurnError(TooShortMessage, None))
    ensures !ErrorMentions(body, TooShortMarker) && ErrorMentions(body, NoSpeechMarker) ==>
        r == TurnResponse(400, TurnError(NoSpeechMessage, None))
    ensures r.status == 400 <==> ErrorMentions(body, TooShortMarker) || ErrorMentions(body, NoSpeechMarker)
    ensures r.status != 400 ==> r == TurnResponse(500, TurnError(TranscriptionMessage, Some(body)))
  {
    if ErrorMentions(body, TooShortMarker) then TurnResponse(400, TurnError(TooShortMessage, None))
    else if ErrorMentions(body, NoSpeechMarker) then TurnResponse(400, TurnError(NoSpeechMessage, None))
    else TurnResponse(500, TurnError(TranscriptionMessage, Some(body)))
  }

  function Fail(status: int, message: string): TurnResponse
  {
    TurnResponse(status, TurnError(message, None))
  }

  /** The requests the orchestrator builds for each stage. */
  function TranscribeRequest(form: TurnForm): TranscribeRoute.TranscribeForm
  {
    TranscribeRoute.TranscribeForm(form.audio, form.sourceLanguage)
  }

  function TranslateRequest(form: TurnForm, transcript: string): TranslateRoute.TranslateBody
  {
    TranslateRoute.TranslateBody(Some(transcript), form.sourceLanguage, form.targetLanguage)
  }

  function SynthesizeRequest(form: TurnForm, translated: Option<string>): SynthesizeRoute.SynthesizeBody
  {
    SynthesizeRoute.SynthesizeBody(translated, form.targetLanguage)
  }

  /** The log entry of a finished turn. */
  function Draft(form: TurnForm, transcript: string, translated: Option<string>, audio: Option<string>)
    : ConversationLog.Draft
    requires AllPresent(form)
  {
    ConversationLog.Draft(form.sessionId.value, form.speaker.value, transcript, form.sourceLanguage.value,
                          translated, form.targetLanguage.value, audio)
  }

  /** A successful transcription: this call, its reply was ok, and the
      transcript was clear enough to continue. */
  predicate Transcribed(form: TurnForm, stages: Stages, calls: seq<StageCall>)
  {
    && |calls| >= 1 && calls[0] == TranscribeCall(TranscribeRequest(form))
    && stages.transcribe(calls[0].form).Ok?
    && !Unclear(stages.transcribe(calls[0].form).value)
  }

  /** The log after a finished turn: unchanged when the save raises. */
  function Commit(form: TurnForm, transcript: string, translated: Option<string>, audio: Option<string>,
                  store: ConversationLog.Store, saveFails: bool, id: string, now: int): ConversationLog.Store
    requires AllPresent(form)
  {
    if saveFails then store
    else ConversationLog.SaveMessage(store, Draft(form, transcript, translated, audio), id, now).store
  }

  /** The synthesis stage and what follows it. */
  function Synthesizing(form: TurnForm, stages: Stages, transcript: string, translated: Option<string>,
                        store: ConversationLog.Store, saveFails: bool, id: string, now: int): (t: Turn)
    requires AllPresent(form)
    ensures t.calls == [SynthesizeCall(SynthesizeRequest(form, translated))]
    ensures t.response.status == 200 <==> stages.synthesize(SynthesizeRequest(form, translated)).Ok?
    ensures t.response.status == 200 ==>
        && t.response.body == TurnResult(transcript, translated, stages.synthesize(SynthesizeRequest(form, translated)).value,
                                         form.sessionId.value, form.speaker.value)
        && t.store == Commit(form, transcript, translated, t.response.body.audioBase64, store, saveFails, id, now)
    ensures t.response.status != 200 ==> t.store == store
    ensures stages.synthesize(SynthesizeRequest(form, translated)).Broken? ==> t.response == Fail(500, CrashMessage)
    ensures stages.synthesize(SynthesizeRequest(form, translated)).Err? ==>
        t.response == TurnResponse(500, TurnError(SynthesisMessage, Some(stages.synthesize(SynthesizeRequest(form, translated)).body)))
  {
    var call := SynthesizeCall(SynthesizeRequest(form, translated));
    match stages.synthesize(call.speech)
    case Broken => Turn(Fail(500, CrashMessage), [call], store)
    case Err(_, body) => Turn(TurnResponse(500, TurnError(SynthesisMessage, Some(body))), [call], store)
    case Ok(audio) =>
      Turn(TurnResponse(200, TurnResult(transcript, translated, audio, form.sessionId.value, form.speaker.value)),
           [call], Commit(form, transcript, translated, audio, store, saveFails, id, now))
  }

  /** The translation stage and what follows it. */
  function Translating(form: TurnForm, stages: Stages, transcript: string,
                       store: ConversationLog.Store, saveFails: bool, id: string, now: int): (t: Turn)
    requires AllPresent(form)
    ensures 1 <= |t.calls| <= 2
    ensures t.calls[0] == TranslateCall(TranslateRequest(form, transcript))
    ensures |t.calls| == 2 <==> stages.translate(TranslateRequest(form, transcript)).Ok?
    ensures |t.calls| == 2 ==>
        t == var s := Synthesizing(form, stages, transcript, stages.translate(TranslateRequest(form, transcript)).value,
                                   store, saveFails, id, now);
             s.(calls := [t.calls[0]] + s.calls)
    ensures |t.calls| == 1 ==> t.response.status != 200 && t.store == store
    ensures stages.translate(TranslateRequest(form, transcript)).Broken? ==> t.response == Fail(500, CrashMessage)
    ensures stages.translate(TranslateRequest(form, transcript)).Err? ==>
        t.response == TurnResponse(500, TurnError(TranslationMessage, Some(stages.translate(TranslateRequest(form, transcript)).body)))
  {
    var call := TranslateCall(TranslateRequest(form, transcript));
    match stages.translate(call.body)
    case Broken => Turn(Fail(500, CrashMessage), [call], store)
    case Err(_, body) => Turn(TurnResponse(500, TurnError(TranslationMessage, Some(body))), [call], store)
    case Ok(translated) =>
      var rest := Synthesizing(form, stages, transcript, translated, store, saveFails, id, now);
      rest.(calls := [call] + rest.calls)
  }

  /** The transcription stage and what follows it. */
  function Transcribing(form: TurnForm, stages: Stages,
                        store: ConversationLog.Store, saveFails: bool, id: string, now: int): (t: Turn)
    requires AllPresent(form)
    ensures 1 <= |t.calls| <= 3
    ensures t.calls[0] == TranscribeCall(TranscribeRequest(form))
    ensures |t.calls| >= 2 <==> Transcribed(form, stages, t.calls)
    ensures |t.calls| >= 2 ==>
        t == var rest := Translating(form, stages, stages.transcribe(TranscribeRequest(form)).value.value,
                                     store, saveFails, id, now);
             rest.(calls := [t.calls[0]] + rest.calls)
    ensures |t.calls| == 1 ==> t.response.status != 200 && t.store == store
    ensures stages.transcribe(TranscribeRequest(form)).Err? ==>
        t.response == TranscriptionFailure(stages.transcribe(TranscribeRequest(form)).body)
    ensures stages.transcribe(TranscribeRequest(form)).Broken? ==> t.response == Fail(500, CrashMessage)
    ensures stages.transcribe(TranscribeRequest(form)).Ok? && Unclear(stages.transcribe(TranscribeRequest(form)).value) ==>
        t.response == Fail(400, UnclearMessage)
  {
    var call := TranscribeCall(TranscribeRequest(form));
    match stages.transcribe(call.form)
    case Broken => Turn(Fail(500, CrashMessage), [call], store)
    case Err(_, body) => Turn(TranscriptionFailure(body), [call], store)
    case Ok(transcript) =>
      if Unclear(transcript) then Turn(Fail(400, UnclearMessage), [call], store)
      else
        var rest := Translating(form, stages, transcript.value, store, saveFails, id, now);
        rest.(calls := [call] + rest.calls)
  }

  /** Handles one turn. `saveFails` says whether the log raises when asked
      to save; `id` and `now` are the generated id and the clock reading. */
  function Process(form: TurnForm, stages: Stages, store: ConversationLog.Store,
                   saveFails: bool, id: string, now: int): (t: Turn)
    // a missing field is rejected before any stage runs
    ensures !AllPresent(form) <==> t.response == Fail(400, MissingFieldsError)
    ensures !AllPresent(form) ==> t.calls == []
    // the stages run in their fixed order, each only after the previous one succeeded
    ensures |t.calls| <= 3
    ensures |t.calls| >= 1 ==> t.calls[0] == TranscribeCall(TranscribeRequest(form))
    ensures |t.calls| >= 2 ==> Transcribed(form, stages, t.calls)
    ensures |t.calls| >= 2 ==> t.calls[1] == TranslateCall(TranslateRequest(form, stages.transcribe(t.calls[0].form).value.value))
    ensures |t.calls| == 3 ==> stages.translate(t.calls[1].body).Ok?
    ensures |t.calls| == 3 ==> t.calls[2] == SynthesizeCall(SynthesizeRequest(form, stages.translate(t.calls[1].body).value))
    // a failing stage is the last one called
    ensures |t.calls| == 1 ==> !Transcribed(form, stages, t.calls) && t.response.status != 200
    ensures |t.calls| == 2 ==> !stages.translate(t.calls[1].body).Ok? && t.response.status != 200
    // the reply to a transcription that does not go on
    ensures AllPresent(form) && stages.transcribe(TranscribeRequest(form)).Err? ==>
        t.response == TranscriptionFailure(stages.transcribe(TranscribeRequest(form)).body) && |t.calls| == 1
    ensures AllPresent(form) && stages.transcribe(TranscribeRequest(form)).Broken? ==>
        t.response == Fail(500, CrashMessage) && |t.calls| == 1
    ensures AllPresent(form) && stages.transcribe(TranscribeRequest(form)).Ok?
            && Unclear(stages.transcribe(TranscribeRequest(form)).value) ==>
        t.response == Fail(400, UnclearMessage) && |t.calls| == 1
    // a complete form always reaches transcription, a clear transcript
    // always reaches translation, and a translation always reaches synthesis
    ensures AllPresent(form) ==> |t.calls| >= 1
    ensures AllPresent(form) && stages.transcribe(TranscribeRequest(form)).Ok?
            && !Unclear(stages.transcribe(TranscribeRequest(form)).value) ==>
        |t.calls| >= 2
    ensures AllPresent(form) && stages.transcribe(TranscribeRequest(form)).Ok?
            && !Unclear(stages.transcribe(TranscribeRequest(form)).value)
            && stages.translate(TranslateRequest(form, stages.transcribe(TranscribeRequest(form)).value.value)).Ok? ==>
        |t.calls| == 3
    // success is exactly: three calls, the last one ok
    ensures t.response.status == 200 <==> |t.calls| == 3 && stages.synthesize(t.calls[2].speech).Ok?
    // the success body echoes the turn
    ensures t.response.status == 200 ==>
        t.response.body == TurnResult(stages.transcribe(t.calls[0].form).value.value,
                                      stages.translate(t.calls[1].body).value,
                                      stages.synthesize(t.calls[2].speech).value,
                                      form.sessionId.value, form.speaker.value)
    // the log changes only for a finished turn whose save did not raise
    ensures t.store != store ==> t.response.status == 200 && !saveFails
    ensures t.response.status == 200 && !saveFails ==>
        t.store == ConversationLog.SaveMessage(store,
                     Draft(form, t.response.body.originalText, t.response.body.translatedText, t.response.body.audioBase64),
                     id, now).store
  {
    if !AllPresent(form) then Turn(Fail(400, MissingFieldsError), [], store)
    else Transcribing(form, stages, store, saveFails, id, now)
  }

  /** Whether the save raises never changes the reply or the calls made. */
  lemma SaveFailureInvisible(form: TurnForm, stages: Stages, store: ConversationLog.Store, id: string, now: int)
    ensures Process(form, stages, store, true, id, now).response == Process(form, stages, store, false, id, now).response
    ensures Process(form, stages, store, true, id, now).calls == Process(form, stages, store, false, id, now).calls
    ensures Process(form, stages, store, true, id, now).store == store
  {
  }

  /** A transcription error mentioning "too short" gives the short-audio
      guidance, whatever else it mentions. */
  lemma TooShortTakesPrecedence(form: TurnForm, stages: Stages, store: ConversationLog.Store,
                                saveFails: bool, id: string, now: int)
    requires AllPresent(form)
    requires stages.transcribe(TranscribeRequest(form)).Err?
    requires ErrorMentions(stages.transcribe(TranscribeRequest(form)).body, TooShortMarker)
    ensures var t := Process(form, stages, store, saveFails, id, now);
      t.response == Fail(400, TooShortMessage) && |t.calls| == 1 && t.store == store
  {
  }

  /** A transcript that is blank after trimming stops the turn before translation. */
  lemma BlankTranscriptStops(form: TurnForm, stages: Stages, store: ConversationLog.Store,
                             saveFails: bool, id: string, now: int)
    requires AllPresent(form)
    requires stages.transcribe(TranscribeRequest(form)).Ok?
    requires var tr := stages.transcribe(TranscribeRequest(form)).value; tr.Some? && AllTrimmable(tr.value)
    ensures var t := Process(form, stages, store, saveFails, id, now);
      t.response == Fail(400, UnclearMessage) && |t.calls| == 1 && t.store == store
  {
    TrimEmptyIff(stages.transcribe(TranscribeRequest(form)).value.value);
  }

  /** What counts as unclear: no transcript, one that is blank after
      trimming, or one whose trimmed form is a single character of the Basic
      Multilingual Plane. A single character outside it has a JavaScript
      length of 2 and goes on. */
  lemma UnclearExactly(transcript: string)
    ensures Unclear(Some(transcript)) <==>
      || transcript == ""
      || AllTrimmable(transcript)
      || (|Trim(transcript)| == 1 && !IsAstral(Trim(transcript)[0]))
  {
    TrimEmptyIff(transcript);
    var r := Trim(transcript);
    if |r| == 1 {
      assert r == [r[0]];
    }
  }

  /** A failed translation stops the turn before synthesis, with a 500. */
  lemma TranslationFailureStops(form: TurnForm, stages: Stages, store: ConversationLog.Store,
                                saveFails: bool, id: string, now: int)
    requires AllPresent(form)
    requires var t := Process(form, stages, store, saveFails, id, now);
      |t.calls| >= 2 && stages.translate(t.calls[1].body).Err?
    ensures var t := Process(form, stages, store, saveFails, id, now);
      && t.response == TurnResponse(500, TurnError(TranslationMessage, Some(stages.translate(t.calls[1].body).body)))
      && |t.calls| == 2 && t.store == store
  {
  }

  /** A failed synthesis is a 500 and nothing reaches the log. */
  lemma SynthesisFailureStops(form: TurnForm, stages: Stages, store: ConversationLog.Store,
                              saveFails: bool, id: string, now: int)
    requires var t := Process(form, stages, store, saveFails, id, now);
      |t.calls| == 3 && stages.synthesize(t.calls[2].speech).Err?
    ensures var t := Process(form, stages, store, saveFails, id, now);
      && t.response == TurnResponse(500, TurnError(SynthesisMessage, Some(stages.synthesize(t.calls[2].speech).body)))
      && t.store == store
  {
  }
}
