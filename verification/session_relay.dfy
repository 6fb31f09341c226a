/** The relay built into the web server: sockets join a session room, relay
    finished turns to the other members, announce language changes, and are
    removed from the session registry when they disconnect.

    As written, joining a new session leaves the old socket.io room but keeps
    the socket in the old session's registry entry, a language change is
    echoed to every member including its sender, and no language is stored,
    so a late joiner learns nothing about its peer's language. */
module SessionRelay {
  import opened Base
  import opened Transport
  import opened Registry

  /** The `send-message` payload; `message-received` carries the same six fields. */
  datatype TurnData = TurnData(
    sessionId: Room, speaker: string, originalText: string, translatedText: string,
    audioBase64: Option<string>, timestamp: string)

  /** The `language-update` payload; the clients leave out `speaker`. */
  datatype LanguageData = LanguageData(sessionId: Room, speaker: Option<string>, language: string)

  datatype Inbound =
    | JoinSession(sessionId: Room)
    | SendMessage(turn: TurnData)
    | LanguageUpdate(update: LanguageData)
    | Disconnect

  datatype Outbound =
    | UserJoined(socketId: SocketId, joined: Room)
    | MessageReceived(turn: TurnData)
    | LanguageChanged(language: string, speaker: Option<string>, room: Room)
    | UserLeft(socketId: SocketId, left: Room)

  datatype State = State(net: Net, sessions: Sessions)

  datatype Step = Step(state: State, emitted: set<Emission<Outbound>>)

  /** What every reachable state satisfies: room shapes are as joins make
      them, no session is stored empty, only connected sockets are tracked,
      and a socket's current session room is tracked with it. */
  predicate Inv(st: State)
  {
    && WellFormed(st.net)
    && NoEmpty(st.sessions)
    && (forall k, x :: k in st.sessions && x in st.sessions[k] ==> x in st.net.rooms)
    && (forall s :: s in st.net.rooms && |st.net.rooms[s]| == 2 ==>
          st.net.rooms[s][1] in st.sessions && s in st.sessions[st.net.rooms[s][1]])
  }

  const Initial := State(Net(map[]), map[])

  lemma InitialInv()
    ensures Inv(Initial)
  {
  }

  /** A new connection: the socket is in its own room and nothing is emitted. */
  function Connect(st: State, s: SocketId): (r: State)
    requires s !in st.net.rooms
    ensures r.net.rooms.Keys == st.net.rooms.Keys + {s} && r.net.rooms[s] == [s]
    ensures forall x :: x in st.net.rooms ==> r.net.rooms[x] == st.net.rooms[x]
    ensures r.sessions == st.sessions
    ensures Inv(st) ==> Inv(r)
  {
    State(Transport.Connect(st.net, s), st.sessions)
  }

  /** `join-session`: leave every other room, join the session's room, add
      the socket to the session's registry entry, and tell the others. */
  function OnJoin(st: State, s: SocketId, sessionId: Room): (r: Step)
    requires s in st.net.rooms
    ensures r.state.net.rooms.Keys == st.net.rooms.Keys
    ensures WellFormed(st.net) ==> r.state.net.rooms[s] == [s] + (if sessionId == s then [] else [sessionId])
    ensures forall x :: x in st.net.rooms && x != s ==> r.state.net.rooms[x] == st.net.rooms[x]
    ensures sessionId in r.state.sessions && s in r.state.sessions[sessionId]
    // the registry gains the socket in the joined entry and nothing else
    ensures r.state.sessions.Keys == st.sessions.Keys + {sessionId}
    ensures r.state.sessions[sessionId] - {s} == (if sessionId in st.sessions then st.sessions[sessionId] else {}) - {s}
    ensures forall k :: k in st.sessions && k != sessionId ==> r.state.sessions[k] == st.sessions[k]
    // earlier registry entries keep the socket
    ensures forall k :: k in st.sessions && s in st.sessions[k] ==> k in r.state.sessions && s in r.state.sessions[k]
    // the others already in the room, and only they, hear of the join
    ensures WellFormed(st.net) ==> r.emitted == {Emission(UserJoined(s, sessionId), ToOthers(st.net, s, sessionId))}
    ensures forall e :: e in r.emitted ==> e.event == UserJoined(s, sessionId)
    ensures WellFormed(st.net) ==> forall e :: e in r.emitted ==> s !in e.to
    ensures Inv(st) ==> Inv(r.state)
  {
    var net := SwitchRoom(st.net, s, sessionId);
    SwitchKeepsAudience(st.net, s, sessionId);
    Step(State(net, Track(st.sessions, sessionId, s)),
         {Emission(UserJoined(s, sessionId), ToOthers(net, s, sessionId))})
  }

  /** `send-message`: the turn goes, as received, to the other sockets in the
      room the payload names. */
  function OnSendMessage(st: State, s: SocketId, turn: TurnData): (r: Step)
    requires s in st.net.rooms
    ensures r.state == st
    ensures r.emitted == {Emission(MessageReceived(turn), ToOthers(st.net, s, turn.sessionId))}
    // never back to the sender, and to every member not sharing its own room
    ensures WellFormed(st.net) ==> forall e :: e in r.emitted ==> s !in e.to
    ensures forall x :: x in Members(st.net, turn.sessionId) && s !in st.net.rooms[x] ==>
        exists e :: e in r.emitted && x in e.to
  {
    Step(st, {Emission(MessageReceived(turn), ToOthers(st.net, s, turn.sessionId))})
  }

  /** The count the handler logs: the room's size less one. */
  function RecipientCount(st: State, room: Room): int
  {
    |Members(st.net, room)| - 1
  }

  /** The logged count overstates the recipients by one less than the number
      of room members that also share the sender's own room. When only the
      sender is in its own room, the count is exact exactly when the sender
      is in the room, and one short otherwise. */
  lemma RecipientCountAccuracy(st: State, s: SocketId, turn: TurnData)
    requires s in st.net.rooms
    ensures var room := Members(st.net, turn.sessionId);
      RecipientCount(st, turn.sessionId)
        == |ToOthers(st.net, s, turn.sessionId)| + |room * Members(st.net, s)| - 1
    ensures Members(st.net, s) == {s} ==>
      var to := ToOthers(st.net, s, turn.sessionId);
      && (s in Members(st.net, turn.sessionId) ==> RecipientCount(st, turn.sessionId) == |to|)
      && (s !in Members(st.net, turn.sessionId) ==> RecipientCount(st, turn.sessionId) == |to| - 1)
  {
    var room := Members(st.net, turn.sessionId);
    SplitCard(room, Members(st.net, s));
    if Members(st.net, s) == {s} {
      if s in room {
        assert room * Members(st.net, s) == {s};
      } else {
        assert room * Members(st.net, s) == {};
      }
    }
  }

  /** A set is its part outside b plus its part inside b. */
  lemma SplitCard(a: set<SocketId>, b: set<SocketId>)
    ensures |a| == |a - b| + |a * b|
  {
    assert a == (a - b) + (a * b);
    assert (a - b) * (a * b) == {};
  }

  /** `language-update`: echoed as `language-changed` to everyone in the
      named room, the sender included; nothing is stored. */
  function OnLanguageUpdate(st: State, s: SocketId, update: LanguageData): (r: Step)
    ensures r.state == st
    ensures r.emitted == {Emission(LanguageChanged(update.language, update.speaker, update.sessionId),
                                   Members(st.net, update.sessionId))}
    ensures s in Members(st.net, update.sessionId) ==> forall e :: e in r.emitted ==> s in e.to
  {
    Step(st, {Emission(LanguageChanged(update.language, update.speaker, update.sessionId),
                       Members(st.net, update.sessionId))})
  }

  /** `disconnect`: the socket has left its rooms; it is removed from every
      registry entry, entries left empty are deleted, and the remaining
      members of each entry that survives are told. */
  function OnDisconnect(st: State, s: SocketId): (r: Step)
    requires s in st.net.rooms
    ensures r.state.net.rooms.Keys == st.net.rooms.Keys - {s}
    ensures forall k :: k in r.state.sessions ==> s !in r.state.sessions[k]
    ensures forall k :: k in r.state.sessions <==> k in st.sessions && !(s in st.sessions[k] && st.sessions[k] == {s})
    // every other socket keeps its rooms and its registry listings
    ensures forall x :: x in r.state.net.rooms ==> r.state.net.rooms[x] == st.net.rooms[x]
    ensures forall k :: k in r.state.sessions ==> r.state.sessions[k] == st.sessions[k] - {s}
    // exactly one notice per entry that listed the socket and survives,
    // to the room's remaining members outside the socket's own room
    ensures r.emitted == set k | k in st.sessions && s in st.sessions[k] && k in r.state.sessions
                                 :: Emission(UserLeft(s, k), Members(st.net, k) - {s} - Members(st.net, s))
    ensures forall e :: e in r.emitted ==> e.event.UserLeft? && e.event.socketId == s && s !in e.to
    ensures Inv(st) ==> Inv(r.state)
  {
    var net := Drop(st.net, s);
    var sessions := Untrack(st.sessions, s);
    var left := set k | k in Containing(st.sessions, s) && k in sessions;
    var emitted := set k | k in left :: Emission(UserLeft(s, k), ToOthers(net, s, k));
    assert forall k :: ToOthers(net, s, k) == Members(st.net, k) - {s} - Members(st.net, s) by {
      forall k ensures ToOthers(net, s, k) == Members(st.net, k) - {s} - Members(st.net, s) {
        assert Members(net, k) == Members(st.net, k) - {s};
        assert Members(net, s) == Members(st.net, s) - {s};
      }
    }
    Step(State(net, sessions), emitted)
  }

  /** One event on a connected socket. */
  function Handle(st: State, s: SocketId, ev: Inbound): (r: Step)
    requires s in st.net.rooms
    ensures Inv(st) ==> Inv(r.state)
    ensures !ev.Disconnect? ==> r.state.net.rooms.Keys == st.net.rooms.Keys
    ensures ev.Disconnect? ==> r.state.net.rooms.Keys == st.net.rooms.Keys - {s}
  {
    match ev
    case JoinSession(k) => OnJoin(st, s, k)
    case SendMessage(t) => OnSendMessage(st, s, t)
    case LanguageUpdate(u) => OnLanguageUpdate(st, s, u)
    case Disconnect => OnDisconnect(st, s)
  }

  /** A socket id used as a session name: when another socket has joined a
      session named after the sender's id, the sender's own-room exclusion
      also excludes that socket, so a turn sent to that session reaches nobody. */
  lemma SessionNamedAfterSender(st: State, a: SocketId, b: SocketId, turn: TurnData)
    requires Inv(st) && a in st.net.rooms && b in st.net.rooms && a != b
    requires st.net.rooms[b] == [b, a] && turn.sessionId == a
    ensures b in Members(st.net, turn.sessionId)
    ensures forall e :: e in OnSendMessage(st, a, turn).emitted ==> e.to == {}
  {
    assert st.net.rooms[a][0] == a;
  }

  /** A language update stores nothing: a socket that joins afterwards sees
      exactly what it would have seen without the update. */
  lemma LanguageUpdateNotReplayed(st: State, s: SocketId, update: LanguageData, x: SocketId, k: Room)
    requires x in st.net.rooms
    ensures OnJoin(OnLanguageUpdate(st, s, update).state, x, k) == OnJoin(st, x, k)
  {
  }

  /** After joining B from session A, the socket is no longer in A's room
      but is still listed in A's registry entry. */
  lemma JoinKeepsStaleEntry(st: State, s: SocketId, a: Room, b: Room)
    requires Inv(st) && s in st.net.rooms && st.net.rooms[s] == [s, a]
    requires b != a && b != s
    ensures var r := OnJoin(st, s, b).state;
      && a in r.sessions && s in r.sessions[a]
      && s !in Members(r.net, a)
      && s in Members(r.net, b) && s in r.sessions[b]
  {
  }
}
