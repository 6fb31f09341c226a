/** The part of socket.io both relay servers lean on: every connected socket
    has an ordered set of rooms, starting with the room named after its own
    id; `socket.to(room)` reaches the room's members except the sender and
    `io.to(room)` reaches all of them. */
module Transport {
  import opened Base

  type SocketId = string
  type Room = string

  /** The connected sockets and each one's rooms in the order it joined them. */
  datatype Net = Net(rooms: map<SocketId, seq<Room>>)

  /** One emit: an event and the sockets it is delivered to. */
  datatype Emission<+E> = Emission(event: E, to: set<SocketId>)

  /** Every socket is in its own room first and in at most one other room:
      the only shapes that connecting and the join handlers produce. */
  predicate WellFormed(net: Net)
  {
    forall s :: s in net.rooms ==> Shaped(net.rooms[s], s)
  }

  predicate Shaped(rooms: seq<Room>, s: SocketId)
  {
    rooms == [s] || (|rooms| == 2 && rooms[0] == s && rooms[1] != s)
  }

  /** A new connection, placed in its own room. */
  function Connect(net: Net, s: SocketId): (r: Net)
    requires s !in net.rooms
    ensures r.rooms.Keys == net.rooms.Keys + {s}
    ensures r.rooms[s] == [s]
    ensures forall x :: x in net.rooms ==> r.rooms[x] == net.rooms[x]
    ensures WellFormed(net) ==> WellFormed(r)
    ensures Members(r, s) >= {s}
  {
    Net(net.rooms[s := [s]])
  }

  /** The sockets in a room. */
  function Members(net: Net, room: Room): set<SocketId>
  {
    set x | x in net.rooms.Keys && room in net.rooms[x]
  }

  /** `socket.to(room)` from socket s: the room's members except every
      socket in the room named after s's id. That is s itself, plus any
      socket that joined a session whose name is s's id. */
  function ToOthers(net: Net, s: SocketId, room: Room): (r: set<SocketId>)
    ensures r <= Members(net, room)
    ensures WellFormed(net) && s in net.rooms ==> s !in r
    // no socket that shares the sender's own room hears it
    ensures forall x :: x in r ==> x in net.rooms && s !in net.rooms[x]
    // a socket in the room hears it unless it shares the sender's own room
    ensures forall x :: x in Members(net, room) && s !in net.rooms[x] ==> x in r
  {
    Members(net, room) - Members(net, s)
  }

  /** Leaves every room except the socket's own, then joins `room`. */
  function SwitchRoom(net: Net, s: SocketId, room: Room): (r: Net)
    requires s in net.rooms
    ensures r.rooms.Keys == net.rooms.Keys
    ensures forall x :: x in net.rooms && x != s ==> r.rooms[x] == net.rooms[x]
    ensures WellFormed(net) ==> r.rooms[s] == [s] + (if room == s then [] else [room])
    ensures WellFormed(net) ==> WellFormed(r)
  {
    var kept := if s in net.rooms[s] then [s] else [];
    Net(net.rooms[s := kept + (if room in kept then [] else [room])])
  }

  /** Switching rooms changes nobody else's rooms, so the audience of a
      `socket.to(room)` for the room joined is the same before and after. */
  lemma SwitchKeepsAudience(net: Net, s: SocketId, room: Room)
    requires s in net.rooms
    ensures WellFormed(net) ==> ToOthers(SwitchRoom(net, s, room), s, room) == ToOthers(net, s, room)
  {
    if WellFormed(net) {
      var net' := SwitchRoom(net, s, room);
      assert Members(net', s) == Members(net, s);
    }
  }

  /** Disconnection: the socket leaves all its rooms. */
  function Drop(net: Net, s: SocketId): (r: Net)
    ensures r.rooms.Keys == net.rooms.Keys - {s}
    ensures forall room :: Members(r, room) == Members(net, room) - {s}
    ensures WellFormed(net) ==> WellFormed(r)
  {
    Net(net.rooms - {s})
  }

  /** `Array.from(socket.rooms).find(room => room !== socket.id)`. */
  function FirstOtherRoom(rooms: seq<Room>, s: SocketId): (r: Option<Room>)
    ensures r.None? <==> forall i :: 0 <= i < |rooms| ==> rooms[i] == s
    ensures r.Some? ==> exists i :: 0 <= i < |rooms| && rooms[i] == r.value
                                     && r.value != s && forall j :: 0 <= j < i ==> rooms[j] == s
  {
    if |rooms| == 0 then None
    else if rooms[0] != s then Some(rooms[0])
    else
      var r := FirstOtherRoom(rooms[1..], s);
      if r.Some? then
        var i :| 0 <= i < |rooms[1..]| && rooms[1..][i] == r.value && forall j :: 0 <= j < i ==> rooms[1..][j] == s;
        assert rooms[i + 1] == r.value;
        r
      else r
  }

  /** The session room a socket is in, if any. */
  function SessionRoom(net: Net, s: SocketId): (r: Option<Room>)
    requires s in net.rooms
    ensures WellFormed(net) ==> (r.Some? <==> |net.rooms[s]| == 2)
    ensures WellFormed(net) && r.Some? ==> r.value == net.rooms[s][1] && s in Members(net, r.value)
  {
    FirstOtherRoom(net.rooms[s], s)
  }
}

/** The `activeSessions` map both servers keep: session id to the ids of the
    sockets tracked in it. */
module Registry {
  import opened Transport

  type Sessions = map<Room, set<SocketId>>

  /** No stored session has an empty member set. */
  predicate NoEmpty(m: Sessions)
  {
    forall k :: k in m ==> m[k] != {}
  }

  /** Adds a socket to a session, creating the session when absent. */
  function Track(m: Sessions, k: Room, s: SocketId): (r: Sessions)
    ensures r.Keys == m.Keys + {k}
    ensures s in r[k] && r[k] - {s} == (if k in m then m[k] else {}) - {s}
    ensures forall j :: j in m && j != k ==> r[j] == m[j]
    ensures NoEmpty(m) ==> NoEmpty(r)
  {
    m[k := (if k in m then m[k] else {}) + {s}]
  }

  /** The sessions that list a socket. */
  function Containing(m: Sessions, s: SocketId): set<Room>
  {
    set k | k in m.Keys && s in m[k]
  }

  /** Removes a socket from every session and deletes each session this
      leaves empty; sessions that did not list the socket are kept as they are. */
  function Untrack(m: Sessions, s: SocketId): (r: Sessions)
    ensures forall k :: k in r <==> k in m && !(s in m[k] && m[k] == {s})
    ensures forall k :: k in r ==> r[k] == m[k] - {s}
    ensures NoEmpty(m) ==> NoEmpty(r)
    ensures NoEmpty(m) ==> forall k :: k in r <==> k in m && m[k] - {s} != {}
  {
    map k | k in m.Keys && !(s in m[k] && m[k] == {s}) :: m[k] - {s}
  }
}
