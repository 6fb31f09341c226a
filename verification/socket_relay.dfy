/** The standalone relay server: the same session registry as the web
    server's relay, plus a language per socket (`set-language`) and three
    relays (`audio-stream`, `transcription`, `translation`) that go to the
    other members of the first room that is not the socket's own. */
module SocketRelay {
  import opened Base
  import opened Transport
  import opened Registry

  const UnknownLanguage := "unknown"

  datatype Inbound =
    | JoinSession(sessionId: Room)
    | SetLanguage(language: Option<string>)
    | AudioStream(audio: string)
    | Transcription(text: string, now: int)
    | Translation(text: string, targetLanguage: Option<string>, now: int)
    | Disconnect

  datatype Outbound =
    | UserJoined(userId: SocketId, joined: Room)
    | AudioRelayed(audio: string, fromUser: SocketId)
    | TranscriptionRelayed(text: string, fromUser: SocketId, language: string, timestamp: int)
    | TranslationRelayed(text: string, fromUser: SocketId, targetLanguage: Option<string>, timestamp: int)
    | UserLeft(userId: SocketId, left: Room)

  /** Registry, rooms, and the last language each socket set (absent values included). */
  datatype State = State(net: Net, sessions: Sessions, languages: map<SocketId, Option<string>>)

  datatype Step = Step(state: State, emitted: set<Emission<Outbound>>)

  /** As for the web server's relay, plus: languages are kept only for
      connected sockets. */
  predicate Inv(st: State)
  {
    && WellFormed(st.net)
    && NoEmpty(st.sessions)
    && (forall k, x :: k in st.sessions && x in st.sessions[k] ==> x in st.net.rooms)
    && (forall s :: s in st.net.rooms && |st.net.rooms[s]| == 2 ==>
          st.net.rooms[s][1] in st.sessions && s in st.sessions[st.net.rooms[s][1]])
    && st.languages.Keys <= st.net.rooms.Keys
  }

  const Initial := State(Net(map[]), map[], map[])

  lemma InitialInv()
    ensures Inv(Initial)
  {
  }

  function Connect(st: State, s: SocketId): (r: State)
    requires s !in st.net.rooms
    ensures r.net.rooms.Keys == st.net.rooms.Keys + {s} && r.net.rooms[s] == [s]
    ensures forall x :: x in st.net.rooms ==> r.net.rooms[x] == st.net.rooms[x]
    ensures r.sessions == st.sessions && r.languages == st.languages
    ensures Inv(st) ==> Inv(r)
  {
    st.(net := Transport.Connect(st.net, s))
  }

  /** The language relayed with a socket's transcriptions: what it set, or
      `unknown` when it set none or an empty one. */
  function LanguageOf(st: State, s: SocketId): (l: string)
    ensures l != ""
    ensures s in st.languages && Truthy(st.languages[s]) ==> l == st.languages[s].value
    ensures !(s in st.languages && Truthy(st.languages[s])) ==> l == UnknownLanguage
  {
    OrElse(if s in st.languages then st.languages[s] else None, UnknownLanguage)
  }

  /** `join-session`, as in the web server's relay. */
  function OnJoin(st: State, s: SocketId, sessionId: Room): (r: Step)
    requires s in st.net.rooms
    ensures r.state.net.rooms.Keys == st.net.rooms.Keys
    ensures WellFormed(st.net) ==> r.state.net.rooms[s] == [s] + (if sessionId == s then [] else [sessionId])
    ensures forall x :: x in st.net.rooms && x != s ==> r.state.net.rooms[x] == st.net.rooms[x]
    ensures sessionId in r.state.sessions && s in r.state.sessions[sessionId]
    // the registry gains the socket in the joined entry and nothing else
    ensures r.state.sessions.Keys == st.sessions.Keys + {sessionId}
    ensures r.state.sessions[sessionId] - {s} == (if sessionId in st.sessions then st.sessions[sessionId] else {}) - {s}
    ensures forall k :: k in st.sessions && k != sessionId ==> r.state.sessions[k] == st.sessions[k]
    ensures forall k :: k in st.sessions && s in st.sessions[k] ==> k in r.state.sessions && s in r.state.sessions[k]
    ensures r.state.languages == st.languages
    ensures WellFormed(st.net) ==> r.emitted == {Emission(UserJoined(s, sessionId), ToOthers(st.net, s, sessionId))}
    ensures forall e :: e in r.emitted ==> e.event == UserJoined(s, sessionId)
    ensures WellFormed(st.net) ==> forall e :: e in r.emitted ==> s !in e.to
    ensures Inv(st) ==> Inv(r.state)
    // at most one room besides the socket's own
    ensures WellFormed(st.net) ==> |r.state.net.rooms[s]| <= 2
  {
    var net := SwitchRoom(st.net, s, sessionId);
    SwitchKeepsAudience(st.net, s, sessionId);
    Step(State(net, Track(st.sessions, sessionId, s), st.languages),
         {Emission(UserJoined(s, sessionId), ToOthers(net, s, sessionId))})
  }

  /** `set-language`: overwrites this socket's entry and nothing else. */
  function OnSetLanguage(st: State, s: SocketId, language: Option<string>): (r: Step)
    ensures r.state.net == st.net && r.state.sessions == st.sessions
    ensures s in r.state.languages && r.state.languages[s] == language
    ensures forall x :: x != s ==> (x in r.state.languages <==> x in st.languages)
    ensures forall x :: x != s && x in st.languages ==> r.state.languages[x] == st.languages[x]
    ensures r.emitted == {}
  {
    Step(st.(languages := st.languages[s := language]), {})
  }

  /** A relay: `socket.to` the socket's first non-own room, or nothing when
      it has none or that room's name is empty (the handlers test the found
      name for truthiness). */
  function Relay(st: State, s: SocketId, event: Outbound): (r: set<Emission<Outbound>>)
    requires s in st.net.rooms
    ensures |r| <= 1
    ensures forall e :: e in r ==> e.event == event
  {
    var room := SessionRoom(st.net, s);
    if Truthy(room) then {Emission(event, ToOthers(st.net, s, room.value))} else {}
  }

  /** Whether socket x hears a relay from s: s is in a session room with a
      non-empty name, x is in it too, and x is not in the room named after s. */
  predicate Hears(st: State, s: SocketId, x: SocketId)
    requires s in st.net.rooms
  {
    var k := SessionRoom(st.net, s);
    Truthy(k) && x in st.net.rooms && k.value in st.net.rooms[x] && s !in st.net.rooms[x]
  }

  /** Whether some emission reaches x. */
  predicate Delivers(emitted: set<Emission<Outbound>>, x: SocketId)
  {
    exists e :: e in emitted && x in e.to
  }

  function OnAudioStream(st: State, s: SocketId, audio: string): (r: Step)
    requires s in st.net.rooms
    ensures r.state == st
  {
    Step(st, Relay(st, s, AudioRelayed(audio, s)))
  }

  /** A relayed transcription carries the sender's language. */
  function OnTranscription(st: State, s: SocketId, text: string, now: int): (r: Step)
    requires s in st.net.rooms
    ensures r.state == st
  {
    Step(st, Relay(st, s, TranscriptionRelayed(text, s, LanguageOf(st, s), now)))
  }

  function OnTranslation(st: State, s: SocketId, text: string, target: Option<string>, now: int): (r: Step)
    requires s in st.net.rooms
    ensures r.state == st
  {
    Step(st, Relay(st, s, TranslationRelayed(text, s, target, now)))
  }

  /** The three relays change nothing, emit at most one event carrying the
      sender's payload, and reach exactly the sockets that hear the sender,
      never the sender itself. */
  lemma RelaysReachSessionPeers(st: State, s: SocketId, audio: string, text: string,
                                target: Option<string>, now: int)
    requires Inv(st) && s in st.net.rooms
    ensures !Hears(st, s, s)
    ensures forall x :: Delivers(OnAudioStream(st, s, audio).emitted, x) <==> Hears(st, s, x)
    ensures forall x :: Delivers(OnTranscription(st, s, text, now).emitted, x) <==> Hears(st, s, x)
    ensures forall x :: Delivers(OnTranslation(st, s, text, target, now).emitted, x) <==> Hears(st, s, x)
    ensures forall e :: e in OnAudioStream(st, s, audio).emitted ==> e.event == AudioRelayed(audio, s)
    ensures forall e :: e in OnTranscription(st, s, text, now).emitted ==>
        e.event == TranscriptionRelayed(text, s, LanguageOf(st, s), now)
    ensures forall e :: e in OnTranslation(st, s, text, target, now).emitted ==>
        e.event == TranslationRelayed(text, s, target, now)
  {
    assert st.net.rooms[s][0] == s;
    RelayAudience(st, s, AudioRelayed(audio, s));
    RelayAudience(st, s, TranscriptionRelayed(text, s, LanguageOf(st, s), now));
    RelayAudience(st, s, TranslationRelayed(text, s, target, now));
  }

  lemma RelayAudience(st: State, s: SocketId, event: Outbound)
    requires s in st.net.rooms
    ensures forall x :: Delivers(Relay(st, s, event), x) <==> Hears(st, s, x)
  {
    var k := SessionRoom(st.net, s);
    forall x ensures Delivers(Relay(st, s, event), x) <==> Hears(st, s, x) {
      if Hears(st, s, x) {
        assert x in ToOthers(st.net, s, k.value);
        assert Emission(event, ToOthers(st.net, s, k.value)) in Relay(st, s, event);
      }
    }
  }

  /** `disconnect`: removed from every registry entry, empty entries
      deleted, a notice to the room of every entry that listed the socket
      (even one now deleted), and the language forgotten. */
  function OnDisconnect(st: State, s: SocketId): (r: Step)
    requires s in st.net.rooms
    ensures r.state.net.rooms.Keys == st.net.rooms.Keys - {s}
    ensures forall k :: k in r.state.sessions ==> s !in r.state.sessions[k]
    ensures forall k :: k in r.state.sessions <==> k in st.sessions && !(s in st.sessions[k] && st.sessions[k] == {s})
    // every other socket keeps its rooms and its registry listings
    ensures forall x :: x in r.state.net.rooms ==> r.state.net.rooms[x] == st.net.rooms[x]
    ensures forall k :: k in r.state.sessions ==> r.state.sessions[k] == st.sessions[k] - {s}
    // exactly one notice per entry that listed the socket, to all the room's remaining members
    ensures r.emitted == set k | k in st.sessions && s in st.sessions[k] :: Emission(UserLeft(s, k), Members(st.net, k) - {s})
    ensures forall e :: e in r.emitted ==> e.event.UserLeft? && e.event.userId == s && s !in e.to
    ensures s !in r.state.languages
    ensures forall x :: x != s ==> (x in r.state.languages <==> x in st.languages)
    ensures forall x :: x in r.state.languages ==> r.state.languages[x] == st.languages[x]
    ensures Inv(st) ==> Inv(r.state)
  {
    var net := Drop(st.net, s);
    var emitted := set k | k in Containing(st.sessions, s) :: Emission(UserLeft(s, k), Members(net, k));
    assert forall k :: Members(net, k) == Members(st.net, k) - {s};
    Step(State(net, Untrack(st.sessions, s), st.languages - {s}), emitted)
  }

  function Handle(st: State, s: SocketId, ev: Inbound): (r: Step)
    requires s in st.net.rooms
    ensures Inv(st) ==> Inv(r.state)
    ensures !ev.Disconnect? ==> r.state.net.rooms.Keys == st.net.rooms.Keys
    ensures ev.Disconnect? ==> r.state.net.rooms.Keys == st.net.rooms.Keys - {s}
  {
    match ev
    case JoinSession(k) => OnJoin(st, s, k)
    case SetLanguage(l) => OnSetLanguage(st, s, l)
    case AudioStream(a) => OnAudioStream(st, s, a)
    case Transcription(t, now) => OnTranscription(st, s, t, now)
    case Translation(t, target, now) => OnTranslation(st, s, t, target, now)
    case Disconnect => OnDisconnect(st, s)
  }

  /** Two sockets that joined the same named session hear each other's
      relays, and a socket never hears its own. */
  lemma PeersHearEachOther(st: State, s: SocketId, x: SocketId, k: Room, ev: Outbound)
    requires Inv(st) && s in st.net.rooms && x in st.net.rooms && s != x
    requires st.net.rooms[s] == [s, k] && st.net.rooms[x] == [x, k] && k != ""
    ensures exists e :: e in Relay(st, s, ev) && x in e.to
    ensures forall e :: e in Relay(st, s, ev) ==> e.event == ev && s !in e.to
  {
    assert Emission(ev, ToOthers(st.net, s, k)) in Relay(st, s, ev);
  }

  /** A socket that never joined a session, or joined one with an empty
      name, relays to nobody. */
  lemma UnjoinedRelaysNothing(st: State, s: SocketId, ev: Outbound)
    requires Inv(st) && s in st.net.rooms
    requires st.net.rooms[s] == [s] || st.net.rooms[s] == [s, ""]
    ensures Relay(st, s, ev) == {}
  {
  }

  /** The language a socket sets is the one its next transcription carries,
      unless it set an empty or absent one. */
  lemma SetLanguageThenTranscribe(st: State, s: SocketId, language: Option<string>, text: string, now: int)
    requires s in st.net.rooms
    ensures var st' := OnSetLanguage(st, s, language).state;
      forall e :: e in OnTranscription(st', s, text, now).emitted ==>
        e.event.language == (if Truthy(language) then language.value else UnknownLanguage)
  {
  }

  /** Unlike the web server's relay, this one announces the departure even
      when the socket was the last one listed in the session. The notice goes
      to the room's remaining members, which a stale registry entry can make
      non-empty. */
  lemma LastListedStillAnnounced(st: State, s: SocketId, k: Room)
    requires s in st.net.rooms && k in st.sessions && st.sessions[k] == {s}
    ensures var r := OnDisconnect(st, s);
      k !in r.state.sessions && Emission(UserLeft(s, k), Members(st.net, k) - {s}) in r.emitted
  {
  }
}
