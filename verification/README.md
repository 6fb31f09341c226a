# Ablafree turn pipeline and relays, modelled in Dafny

Ablafree is a two-party spoken-translation kiosk: a customer and a cashier
each record an utterance, and the other side hears it translated. This
project models the server side of that loop:

- the **process-audio orchestrator** (`ProcessAudio`): it validates a turn's
  form, then calls transcription, translation and synthesis strictly in
  sequence. Each failure is mapped to a user-facing reply, with the
  transcription errors "too short" and "No speech detected" turned into
  Spanish guidance. A finished turn is saved best-effort;
- the three **internal routes** (`TranscribeRoute`, `TranslateRoute`,
  `SynthesizeRoute`): input checks, the language-to-provider and
  language-to-voice tables, the status passed through from a provider
  refusal, and the fallbacks applied to what a provider answers;
- the **in-memory conversation log** (`ConversationLog`): save, read with an
  optional "newer than" cursor, clear a session, and list sessions in
  JavaScript `Map` order;
- the **two socket relays**. `SessionRelay` is the relay built into the web
  server: join, send-message, language-update and disconnect. `SocketRelay`
  is the standalone relay server: join, set-language, audio-stream,
  transcription, translation and disconnect, over its session registry
  and per-socket languages. Both share `Transport`, the socket.io room
  model, and `Registry`, the `activeSessions` map;
- `Wiring` plugs the real route models into the orchestrator. It proves
  that the error text the transcription route produces is the text the
  orchestrator searches for.

The external providers (Deepgram, Google Translate, OpenAI speech) are
function parameters that return a `ProviderOutcome`: answered, refused with
a non-2xx status and a text, or unreachable. The clock, the id generator and
base64 encoding are parameters too. Whether the log's save raises is a
boolean parameter.

The relays are modelled as the code is written:

- Joining a second session leaves the old socket.io room, but the socket
  stays in the old session's registry entry
  (`SessionRelay.JoinKeepsStaleEntry`).
- `language-update` is echoed to everyone in the room, the sender included.
  Nothing is stored, so a socket that joins later is told nothing about
  earlier language choices (`SessionRelay.LanguageUpdateNotReplayed`).
- The standalone relay announces a departure for every registry entry that
  listed the socket, even an entry it has just deleted. The web server's
  relay announces only for entries that survive.
- `socket.to(room)` leaves out every socket in the room named after the
  sender's id. Normally that is the sender alone, but a socket that joined
  a session named after another socket's id is left out too
  (`SessionRelay.SessionNamedAfterSender`).

On the pipeline side, the 1000-byte floor on the audio is checked by the
transcription route, not by the orchestrator's own validation. The source
language that translation detects is returned by the route and then
ignored by the orchestrator.

## Model

| member | source | states |
|---|---|---|
| Text.Trim | app/api/process-audio/route.ts:61 | `trim()` cuts only whitespace and line terminators from both ends and leaves a result that neither starts nor ends with one |
| Text.TrimEmptyIff | app/api/process-audio/route.ts:61 | a transcript trims to the empty string exactly when every character is whitespace |
| Text.Utf16Length | app/api/process-audio/route.ts:61 | JavaScript `.length` counts between one and two code units per character: exactly one per character for a string with no character at or above U+10000, exactly two per character when every character is |
| Text.Utf16LengthAppend | app/api/process-audio/route.ts:61 | the length of a concatenation is the sum of the lengths, which with the one-character cases fixes the length of every string |
| TranscribeRoute.RequestLanguage | app/api/transcribe/route.ts:9 | the requested language, or "es" when absent or empty |
| TranscribeRoute.ProviderLanguage | app/api/transcribe/route.ts:30-43 | the provider language is always one of the table's values: the mapped code for a listed language, "en-US" otherwise |
| TranscribeRoute.ProviderLanguageTable | app/api/transcribe/route.ts:30-43 | English and Chinese gain a region, every other listed code passes unchanged, unlisted codes become "en-US" |
| TranscribeRoute.Transcribe | app/api/transcribe/route.ts:7-81 | a missing file is a 400 and a capture under 1000 bytes is the "too short" 400, neither querying the provider; the provider is queried exactly for long enough captures; a refusal keeps its status; an unreachable provider is the 500 "Internal server error during transcription"; success iff a non-empty transcript came back, returned verbatim; an empty one is "No speech detected" |
| TranslateRoute.Translate | app/api/translate/route.ts:7-67 | a missing or empty field is a 400 without a query; equal languages return the text verbatim without a query; otherwise the provider is queried with format "text", a refusal keeps its status, an unreachable provider is the 500 "Internal server error during translation", and an absent translation or detected language falls back to the input |
| TranslateRoute.TranslationNeverBlank | app/api/translate/route.ts:53 | a successful translation is never the empty string, and it is either the input text or the provider's own translation |
| SynthesizeRoute.Voice | app/api/synthesize/route.ts:14-27 | the voice is always one of the six voices: the table's for a listed language, "alloy" otherwise |
| SynthesizeRoute.VoiceTable | app/api/synthesize/route.ts:14-25 | the per-language voice assignments, and "alloy" for unlisted or absent languages |
| SynthesizeRoute.Synthesize | app/api/synthesize/route.ts:7-67 | empty text is a 400 without a query; the provider is queried with tts-1, the chosen voice and wav; a refusal keeps its status; an unreachable provider is the 500 "Internal server error during speech synthesis"; success iff the provider answered, returning the encoding of exactly its bytes and the voice |
| ConversationLog.SaveMessage | lib/db.ts:18-30 | the stored entry keeps every field given, gets the given id and time, is appended to its own session only, and a new session goes last in key order |
| ConversationLog.GetMessages | lib/db.ts:33-41 | without a cursor, the whole session in order; with one, an order-preserving selection that holds each strictly newer entry as many times as the session does and nothing else; an unknown session reads as empty |
| ConversationLog.NewerThanCounts | lib/db.ts:37 | the filter keeps every strictly newer entry as often as it occurs and drops every other one |
| ConversationLog.ClearSession | lib/db.ts:44-46 | the session's entries and key are gone; every other session is untouched |
| ConversationLog.GetAllSessions | lib/db.ts:49-51 | every session key the log holds is listed, exactly once |
| ConversationLog.ClearKeepsOrder | lib/db.ts:44-46 | deleting a session takes its key out of the enumeration order at its one position and leaves every other key in its order |
| ConversationLog.ClearIdempotent | lib/db.ts:44-46 | clearing twice is clearing once |
| ConversationLog.ClearedSessionIsEmpty | lib/db.ts:33-46 | a cleared session reads as empty with or without a cursor |
| ConversationLog.SaveThenRead | lib/db.ts:18-41 | a saved entry is the last one read back from its session |
| ConversationLog.CursorSeesNewSave | lib/db.ts:18-41 | an entry saved after the cursor time is what a cursor read adds at the end |
| ConversationLog.CursorIsSuffix | lib/db.ts:36-38 | on a chronological session, a cursor read is a suffix of the session |
| ConversationLog.SaveKeepsChronological | lib/db.ts:18-27 | saving with a clock that does not run backwards keeps a session chronological |
| ConversationLog.ListedIffLive | lib/db.ts:18-51 | after any sequence of saves and clears, a session is listed exactly when it was saved to since it was last cleared |
| ProcessAudio.TranscriptionFailure | app/api/process-audio/route.ts:35-56 | "too short" gives the short-audio 400 and takes precedence, "No speech detected" gives the no-speech 400; anything else is a 500 carrying the route's body |
| ProcessAudio.Synthesizing | app/api/process-audio/route.ts:86-125 | a 200 iff synthesis succeeds, echoing transcript, translation and audio; only then is the log touched |
| ProcessAudio.Translating | app/api/process-audio/route.ts:68-99 | synthesis runs iff translation succeeded; a translation error is a 500 with its body and leaves the log alone |
| ProcessAudio.Transcribing | app/api/process-audio/route.ts:25-66 | a transcription error gets the reply its text calls for, a crashed route the 500, an absent or unclear transcript the 400; translation follows exactly when the transcript is clear |
| ProcessAudio.Process | app/api/process-audio/route.ts:7-134 | a missing field is the 400, and then no stage runs; the stages run in order, each only after the previous succeeded, and each does run once the previous one did: a complete form is transcribed, a clear transcript is translated, a translation is synthesized; the reply to each way transcription can stop; a 200 iff all three succeed, with the echoed body; the log changes only on success, by exactly the save of that turn |
| ProcessAudio.UnclearExactly | app/api/process-audio/route.ts:61 | a transcript is rejected exactly when it is absent or blank after trimming, or trims to one character of the Basic Multilingual Plane |
| ProcessAudio.SaveFailureInvisible | app/api/process-audio/route.ts:103-117 | a failing save changes neither the reply nor the calls, only the log |
| ProcessAudio.TooShortTakesPrecedence | app/api/process-audio/route.ts:40-44 | an error mentioning "too short" gives the short-audio guidance whatever else it says |
| ProcessAudio.BlankTranscriptStops | app/api/process-audio/route.ts:60-66 | a transcript that is only whitespace stops the turn with the 400 before translation |
| ProcessAudio.TranslationFailureStops | app/api/process-audio/route.ts:79-82 | a translation error stops the turn before synthesis with a 500 |
| ProcessAudio.SynthesisFailureStops | app/api/process-audio/route.ts:96-99 | a synthesis error is a 500 and nothing is saved |
| Wiring.TooShortErrorMatches | app/api/transcribe/route.ts:21-23 | the transcription route's short-audio text contains the "too short" marker |
| Wiring.NoSpeechErrorMatches | app/api/transcribe/route.ts:67-69 | its no-speech text contains "No speech detected" and not "too short" |
| Wiring.GenericErrorsMatchNothing | app/api/transcribe/route.ts:55-61 | its provider-failure and crash texts contain neither marker |
| Wiring.ShortCaptureGuidance | app/api/process-audio/route.ts:40-44 | a capture under 1000 bytes ends in the Spanish short-audio guidance without querying the speech-to-text provider |
| Wiring.SilentCaptureGuidance | app/api/process-audio/route.ts:46-50 | an empty transcript ends in the Spanish no-speech guidance |
| Wiring.ProviderRefusalIsGeneric | app/api/process-audio/route.ts:52-55 | a speech-to-text refusal is always the generic 500 with the route's body as details |
| Wiring.ProviderOutageIsGeneric | app/api/process-audio/route.ts:52-55 | an unreachable speech-to-text provider ends in the generic 500 carrying the route's crash text, never the short-audio guidance, and nothing is saved |
| Wiring.SameLanguagePassThrough | app/api/translate/route.ts:19-25 | with equal languages the translation provider is never queried and a successful turn's translation is its transcript |
| Wiring.SynthesisGetsText | app/api/process-audio/route.ts:87-94 | synthesis is only ever asked for non-empty text |
| Wiring.HappyPath | app/api/process-audio/route.ts:7-125 | with all providers answering and a clear transcript, the turn is the 200 with the provider's transcript, translation and encoded audio, and the log gains exactly that entry |
| Transport.Connect | server.js:35 | a new socket is in its own room only, and every other socket's rooms are unchanged |
| Transport.ToOthers | server.js:58 | `socket.to(room)` reaches exactly the members of the room that are not in the sender's own room: never the sender, nor any socket sharing that room |
| Transport.SwitchRoom | server.js:41-49 | a join keeps only the socket's own room and then adds the session room, leaving other sockets alone |
| Transport.Drop | server.js:105 | a disconnected socket is in no room and every room loses just it |
| Transport.FirstOtherRoom | socket-server/server.js:59 | the first room that is not the socket's own, or none when there is no such room |
| Transport.SessionRoom | socket-server/server.js:59 | on well-formed rooms, the session room exists iff the socket joined one, and it is that room |
| Registry.Track | server.js:51-55 | the session's entry gains the socket, created when absent; other entries are untouched |
| Registry.Untrack | server.js:108-123 | the socket is removed from every entry, exactly the entries it alone made up are deleted, and no entry is left empty |
| SessionRelay.InitialInv | server.js:33 | the empty registry satisfies the relay invariant |
| SessionRelay.Connect | server.js:35-36 | a connection adds the socket in its own room, leaves every other socket's rooms and the registry as they were, and keeps the invariant |
| SessionRelay.OnJoin | server.js:38-65 | the socket moves to the session room and no other socket's rooms change; the registry gains the socket in that entry, created when absent, and nothing else, so earlier entries keep it; only the others already in the room hear of it; the invariant is kept |
| SessionRelay.OnSendMessage | server.js:67-91 | the turn goes, unchanged, to the named room's members outside the sender's own room, never back to the sender, and to every member that does not share the sender's own room |
| SessionRelay.RecipientCountAccuracy | server.js:74-78 | the logged count is the true number of recipients plus the room members sharing the sender's own room, less one; so when the sender is alone in its own room the count is exact iff the sender is in the room, and one short otherwise |
| SessionRelay.SessionNamedAfterSender | server.js:81 | a turn sent to a session named after the sender's own id reaches nobody, even when another socket has joined that session |
| SessionRelay.LanguageUpdateNotReplayed | server.js:93-103 | a language update stores nothing: a later join sees exactly what it would have seen without it |
| SessionRelay.OnLanguageUpdate | server.js:93-103 | the change goes to everyone in the named room, the sender included, and nothing is stored |
| SessionRelay.OnDisconnect | server.js:105-124 | the socket leaves every entry and emptied entries are deleted, while every other socket keeps its rooms and its listings; the notices are exactly one per surviving entry that listed it, sent to that room's remaining members outside the socket's own room |
| SessionRelay.Handle | server.js:38-124 | every handler keeps the relay invariant |
| SessionRelay.JoinKeepsStaleEntry | server.js:41-55 | after moving to another session the socket has left the old room but is still listed in the old entry |
| SocketRelay.InitialInv | socket-server/server.js:19-20 | the empty maps satisfy the relay invariant |
| SocketRelay.Connect | socket-server/server.js:22 | a connection adds the socket in its own room, leaves every other socket's rooms, the registry and the languages as they were, and keeps the invariant |
| SocketRelay.LanguageOf | socket-server/server.js:71 | the language the socket set, or "unknown" when it set none or an empty one |
| SocketRelay.OnJoin | socket-server/server.js:25-51 | as for the web server's relay: only this socket's rooms change, the registry gains it in the joined entry and nothing else, and only the others already in the room hear of it; languages are untouched |
| SocketRelay.OnSetLanguage | socket-server/server.js:53-56 | only this socket's language changes, and nothing is emitted |
| SocketRelay.OnDisconnect | socket-server/server.js:93-114 | the registry is cleaned as in the web server's relay, and every other socket keeps its rooms, listings and language; the notices are exactly one per entry that listed the socket, surviving or not, sent to all of that room's remaining members; its language is forgotten |
| SocketRelay.Handle | socket-server/server.js:22-115 | every handler keeps the relay invariant |
| SocketRelay.RelaysReachSessionPeers | socket-server/server.js:58-91 | audio, transcriptions and translations each carry their payload and sender, plus the sender's language or the target language and the time; they reach exactly the sockets in the sender's session room (with a non-empty name) that are not in the room named after the sender, which never includes the sender |
| SocketRelay.PeersHearEachOther | socket-server/server.js:58-91 | two sockets in the same named session receive each other's relays, and no socket receives its own |
| SocketRelay.UnjoinedRelaysNothing | socket-server/server.js:59-60 | a socket with no session room, or one named "", relays to nobody |
| SocketRelay.SetLanguageThenTranscribe | socket-server/server.js:53-79 | the language a socket sets is the one its next transcription carries, or "unknown" when it is empty |
| SocketRelay.LastListedStillAnnounced | socket-server/server.js:97-110 | the last socket listed in a session still announces its departure as the entry is deleted |

## Left out

- Provider HTTP calls, API keys and JSON parsing: each provider is a function parameter. A provider that cannot be reached, or whose response body fails to parse, is the single `Unreachable` outcome.
- Reading the multipart form or JSON body: the parsed fields are the inputs. A body that fails to parse is covered only by the crash replies.
- `Buffer` base64 encoding is a parameter of the synthesis route.
- `Date.now()`, `new Date()` and `Math.random()` become the `id` and `now` parameters of a save. The `timestamp` fields of the web server's user-joined and user-left events are dropped.
- Console logging is left out, and so is the floating-point kilobyte size that send-message only logs.
- The module-level singleton of the log across hot reloads is left out: the log is passed explicitly.
- Text.Utf16Length: characters are Unicode scalar values, so a JavaScript string holding a lone surrogate (say, parsed from the JSON escape `"\ud83d"`) cannot be represented. Its `.length` and `trim()` are not modelled.
- TranscribeRoute.Confidence: a NaN or zero confidence from the provider is not distinguished, because reals have no NaN.
- ConversationLog.GetMessages: the cursor is an integer time. A cursor that parses to an Invalid Date, for which every comparison is false and the read returns nothing, is not modelled.
- TranscribeRoute.ProviderLanguage: keys inherited from the JavaScript object prototype (such as "constructor") are treated as unlisted languages.
- SynthesizeRoute.Voice: keys inherited from the JavaScript object prototype are treated as unlisted languages.
- The payload fields of the standalone relay's audio, transcription and translation events are taken as present strings. An absent `text` or `audio` is not modelled.
- The order in which a disconnect's several user-left notices are sent is not modelled: the emissions are a set. socket.io delivery, acknowledgements and reconnection are not modelled either.
- The socket `error` handler only logs, and the HTTP listeners only start servers, so both are left out.
- The conversations and messages API routes and the client components are not part of this model.
