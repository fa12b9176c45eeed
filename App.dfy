/** The client's table view: the list of joined players kept from
    player_joined events, the join attempt (player-id check, socket, join
    request), the connected/joining flags, and the seat lookup. */
module App {
  import opened Common

  /** A player as the client lists it: chips are not kept. */
  datatype PlayerEntry = PlayerEntry(playerId: string, seat: int)

  /** The data of a player_joined event. */
  datatype JoinedData = JoinedData(playerId: string, seat: int, chips: int)

  /** An inbound socket message: a decoded event name with its data, or a
      payload that JSON.parse rejects (the error is caught and logged). */
  datatype Inbound =
    | Message(event: string, data: JoinedData)
    | Unparsable

  /** prev.find(p => p.player_id === id): the first entry with that id. */
  function FindById(players: seq<PlayerEntry>, id: string): (r: Option<PlayerEntry>)
    ensures r.Some? <==> exists k | 0 <= k < |players| :: players[k].playerId == id
    ensures r.Some? ==> exists k | 0 <= k < |players| :: players[k] == r.value && r.value.playerId == id
  {
    if players == [] then None
    else if players[0].playerId == id then Some(players[0])
    else
      var r := FindById(players[1..], id);
      assert r.Some? ==> exists k | 0 <= k < |players[1..]| :: players[1..][k] == r.value;
      r
  }

  /** The setPlayers updater for a player_joined event: a known id leaves the
      list as it is, a new id is appended with its seat. */
  function PlayerJoined(prev: seq<PlayerEntry>, data: JoinedData): (next: seq<PlayerEntry>)
    ensures (exists k | 0 <= k < |prev| :: prev[k].playerId == data.playerId) ==> next == prev
    ensures (forall k | 0 <= k < |prev| :: prev[k].playerId != data.playerId) ==>
      next == prev + [PlayerEntry(data.playerId, data.seat)]
  {
    if FindById(prev, data.playerId).Some? then prev
    else prev + [PlayerEntry(data.playerId, data.seat)]
  }

  /** The onmessage handler's effect on the list: only a player_joined event
      changes it; other events and payloads that do not parse leave it alone. */
  function ApplyMessage(prev: seq<PlayerEntry>, msg: Inbound): (next: seq<PlayerEntry>)
    ensures msg.Unparsable? ==> next == prev
    ensures msg.Message? && msg.event != "player_joined" ==> next == prev
    ensures msg.Message? && msg.event == "player_joined" ==> next == PlayerJoined(prev, msg.data)
  {
    match msg
    case Unparsable => prev
    case Message(event, data) =>
      if event == "player_joined" then PlayerJoined(prev, data) else prev
  }

  /** Applying the same message twice is the same as applying it once. */
  lemma ApplyMessageIdempotent(prev: seq<PlayerEntry>, msg: Inbound)
    ensures ApplyMessage(ApplyMessage(prev, msg), msg) == ApplyMessage(prev, msg)
  {
    if msg.Message? && msg.event == "player_joined" {
      var d := msg.data;
      if forall k | 0 <= k < |prev| :: prev[k].playerId != d.playerId {
        var next := prev + [PlayerEntry(d.playerId, d.seat)];
        assert next[|prev|].playerId == d.playerId;
      }
    }
  }

  /** No player id appears twice in the list. */
  predicate UniqueIds(players: seq<PlayerEntry>)
  {
    forall i, j | 0 <= i < j < |players| :: players[i].playerId != players[j].playerId
  }

  /** The list after a stream of messages, in delivery order. */
  function Replay(prev: seq<PlayerEntry>, msgs: seq<Inbound>): seq<PlayerEntry>
    decreases |msgs|
  {
    if msgs == [] then prev else Replay(ApplyMessage(prev, msgs[0]), msgs[1..])
  }

  /** Every message keeps the ids unique and only ever appends. */
  lemma ApplyMessageKeepsUnique(prev: seq<PlayerEntry>, msg: Inbound)
    requires UniqueIds(prev)
    ensures UniqueIds(ApplyMessage(prev, msg))
    ensures prev <= ApplyMessage(prev, msg)
  {
  }

  /** Whatever messages arrive, starting from a list with unique ids (the
      empty list at start-up) the ids stay unique and no entry is lost. */
  lemma {:induction false} ReplayKeepsUnique(prev: seq<PlayerEntry>, msgs: seq<Inbound>)
    requires UniqueIds(prev)
    ensures UniqueIds(Replay(prev, msgs))
    ensures prev <= Replay(prev, msgs)
    decreases |msgs|
  {
    if msgs != [] {
      ApplyMessageKeepsUnique(prev, msgs[0]);
      ReplayKeepsUnique(ApplyMessage(prev, msgs[0]), msgs[1..]);
    }
  }

  /** The characters String.prototype.trim removes: white space and line terminators. */
  predicate IsJsWhitespace(c: char)
  {
    || c in {'\t', '\n', '\U{000B}', '\U{000C}', '\r', ' ', '\U{00A0}', '\U{1680}',
             '\U{2028}', '\U{2029}', '\U{202F}', '\U{205F}', '\U{3000}', '\U{FEFF}'}
    || '\U{2000}' <= c <= '\U{200A}'
  }

  /** String.prototype.trim: drop leading and trailing white space. */
  function Trim(s: string): (t: string)
    ensures |t| <= |s|
    decreases |s|
  {
    if s == [] then s
    else if IsJsWhitespace(s[0]) then Trim(s[1..])
    else if IsJsWhitespace(s[|s| - 1]) then Trim(s[..|s| - 1])
    else s
  }

  /** Trim returns a slice of its input: only white space lies outside it,
      and a non-empty result neither starts nor ends with white space. */
  lemma {:induction false} TrimIsSlice(s: string) returns (i: nat, j: nat)
    ensures i <= j <= |s| && Trim(s) == s[i..j]
    ensures forall k | 0 <= k < i :: IsJsWhitespace(s[k])
    ensures forall k | j <= k < |s| :: IsJsWhitespace(s[k])
    ensures Trim(s) != [] ==> !IsJsWhitespace(Trim(s)[0]) && !IsJsWhitespace(Trim(s)[|Trim(s)| - 1])
    decreases |s|
  {
    if s == [] {
      i, j := 0, 0;
    } else if IsJsWhitespace(s[0]) {
      var i', j' := TrimIsSlice(s[1..]);
      i, j := i' + 1, j' + 1;
      assert s[1..][i'..j'] == s[i..j];
      assert forall k | 1 <= k < i :: s[k] == s[1..][k - 1];
      assert forall k | j <= k < |s| :: s[k] == s[1..][k - 1];
    } else if IsJsWhitespace(s[|s| - 1]) {
      var i', j' := TrimIsSlice(s[..|s| - 1]);
      i, j := i', j';
      assert s[..|s| - 1][i'..j'] == s[i..j];
      assert forall k | j <= k < |s| - 1 :: s[k] == s[..|s| - 1][k];
    } else {
      i, j := 0, |s|;
      assert s[0..|s|] == s;
    }
  }

  /** A player id is rejected exactly when every character is white space. */
  lemma {:induction false} TrimEmptyIffBlank(s: string)
    ensures Trim(s) == "" <==> forall i | 0 <= i < |s| :: IsJsWhitespace(s[i])
    decreases |s|
  {
    if s != [] {
      if IsJsWhitespace(s[0]) {
        TrimEmptyIffBlank(s[1..]);
        assert forall i | 1 <= i < |s| :: s[i] == s[1..][i - 1];
      } else if IsJsWhitespace(s[|s| - 1]) {
        TrimEmptyIffBlank(s[..|s| - 1]);
        assert s[..|s| - 1][0] == s[0];
      }
    }
  }

  /** players.find(p => p.seat === seatNumber): who the seat view shows. */
  function SeatOccupant(players: seq<PlayerEntry>, seatNumber: int): (r: Option<PlayerEntry>)
    ensures r.None? <==> forall k | 0 <= k < |players| :: players[k].seat != seatNumber
    ensures r.Some? ==> exists k | 0 <= k < |players| ::
      players[k] == r.value && r.value.seat == seatNumber &&
      forall j | 0 <= j < k :: players[j].seat != seatNumber
  {
    if players == [] then None
    else if players[0].seat == seatNumber then Some(players[0])
    else
      var r := SeatOccupant(players[1..], seatNumber);
      if r.Some? then
        var k :| 0 <= k < |players[1..]| && players[1..][k] == r.value && r.value.seat == seatNumber &&
          forall j | 0 <= j < k :: players[1..][j].seat != seatNumber;
        assert players[k + 1] == r.value && forall j | 0 <= j < k + 1 :: players[j].seat != seatNumber;
        r
      else r
  }

  /** The seat is highlighted as the local player's own when its occupant has
      the entered player id (an empty seat never is). */
  function IsCurrentPlayer(players: seq<PlayerEntry>, seatNumber: int, playerId: string): (mine: bool)
    ensures mine <==> SeatOccupant(players, seatNumber).Some? && SeatOccupant(players, seatNumber).value.playerId == playerId
  {
    match SeatOccupant(players, seatNumber)
    case Some(p) => p.playerId == playerId
    case None => false
  }

  /** The join request body the client posts: it carries the player id only,
      no buy-in and no seat. */
  datatype JoinBody = JoinBody(playerId: string, buyIn: Option<int>, seat: Option<int>)

  /** The App component's state. Sockets are numbered in the order they are
      created; socket is wsRef.current. */
  class Session {
    var playerId: string
    var players: seq<PlayerEntry>
    var connected: bool
    var joining: bool
    var socket: Option<nat>
    var created: nat
    var closed: set<nat>

    /** wsRef holds the newest socket, every older one has been closed, and
        only sockets already created are closed. */
    ghost predicate Valid()
      reads this
    {
      && (socket.None? <==> created == 0)
      && (socket.Some? ==> socket.value == created - 1)
      && (forall s | 0 <= s < created - 1 :: s in closed)
      && (forall s | s in closed :: s < created)
      && UniqueIds(players)
    }

    /** Sockets that are neither closed nor the current one: none. */
    ghost function Leaked(): set<nat>
      reads this
    {
      set s | 0 <= s < created && s !in closed && Some(s) != socket
    }

    constructor ()
      ensures Valid() && Leaked() == {}
      ensures playerId == "" && players == [] && !connected && !joining
      ensures socket == None && created == 0 && closed == {}
    {
      playerId, players := "", [];
      connected, joining := false, false;
      socket, created, closed := None, 0, {};
    }

    /** The player-id input: it is part of the join form, which is shown only
        while disconnected, and it is disabled while a join is in progress. */
    method EditPlayerId(text: string)
      modifies this
      ensures playerId == (if old(connected) || old(joining) then old(playerId) else text)
      ensures players == old(players) && connected == old(connected) && joining == old(joining)
      ensures socket == old(socket) && created == old(created) && closed == old(closed)
    {
      if !connected && !joining {
        playerId := text;
      }
    }

    /** connectWebSocket: close the socket in wsRef, if any, then open a new one and keep it. */
    method ConnectWebSocket()
      requires Valid()
      modifies this
      ensures Valid() && Leaked() == {}
      ensures socket == Some(old(created)) && created == old(created) + 1
      ensures closed == old(closed) + (if old(socket).Some? then {old(socket).value} else {})
      ensures playerId == old(playerId) && players == old(players)
      ensures connected == old(connected) && joining == old(joining)
    {
      if socket.Some? {
        closed := closed + {socket.value};
      }
      socket := Some(created);
      created := created + 1;
    }

    /** The first half of joinTable, up to the request: a blank player id
        stops everything; otherwise joining is set, a socket opened and the
        request (player id only) sent. */
    method BeginJoin() returns (sent: Option<JoinBody>)
      requires Valid()
      requires !connected && !joining
      modifies this
      ensures Valid() && (old(Leaked()) == {} ==> Leaked() == {})
      ensures sent.Some? <==> JoinButtonEnabled(old(connected), old(joining), old(playerId))
      ensures Trim(old(playerId)) == "" ==>
        sent == None && joining == old(joining) && connected == old(connected) &&
        socket == old(socket) && created == old(created) && closed == old(closed)
      ensures Trim(old(playerId)) != "" ==>
        sent == Some(JoinBody(old(playerId), None, None)) && joining &&
        connected == old(connected) && socket == Some(old(created)) && created == old(created) + 1 &&
        closed == old(closed) + (if old(socket).Some? then {old(socket).value} else {})
      ensures playerId == old(playerId) && players == old(players)
    {
      if Trim(playerId) == "" {
        return None;
      }
      joining := true;
      ConnectWebSocket();
      sent := Some(JoinBody(playerId, None, None));
    }

    /** The second half of joinTable, once the request settles: a failure
        (network error or a non-2xx answer) clears connected, but the socket
        stays open; joining is cleared either way. */
    method FinishJoin(ok: bool)
      modifies this
      ensures !joining
      ensures connected == (if ok then old(connected) else false)
      ensures socket == old(socket) && created == old(created) && closed == old(closed)
      ensures playerId == old(playerId) && players == old(players)
    {
      if !ok {
        connected := false;
      }
      joining := false;
    }

    /** ws.onopen */
    method OnOpen()
      modifies this
      ensures connected
      ensures joining == old(joining) && players == old(players) && playerId == old(playerId)
      ensures socket == old(socket) && created == old(created) && closed == old(closed)
    {
      connected := true;
    }

    /** ws.onclose and ws.onerror */
    method OnCloseOrError()
      modifies this
      ensures !connected
      ensures joining == old(joining) && players == old(players) && playerId == old(playerId)
      ensures socket == old(socket) && created == old(created) && closed == old(closed)
    {
      connected := false;
    }

    /** ws.onmessage */
    method OnMessage(msg: Inbound)
      requires Valid()
      modifies this
      ensures Valid()
      ensures players == ApplyMessage(old(players), msg)
      ensures connected == old(connected) && joining == old(joining) && playerId == old(playerId)
      ensures socket == old(socket) && created == old(created) && closed == old(closed)
    {
      ApplyMessageKeepsUnique(players, msg);
      players := ApplyMessage(players, msg);
    }

    /** The effect cleanup on unmount: close the socket in wsRef, if any. */
    method Unmount()
      requires Valid()
      modifies this
      ensures Valid()
      ensures closed == old(closed) + (if socket.Some? then {socket.value} else {})
      ensures socket == old(socket) && created == old(created)
      ensures connected == old(connected) && joining == old(joining)
      ensures playerId == old(playerId) && players == old(players)
    {
      if socket.Some? {
        closed := closed + {socket.value};
      }
    }
  }

  /** The Join Table button is clickable only when no join is running and the
      player id is not blank; the join form is shown only while disconnected. */
  predicate JoinButtonEnabled(connected: bool, joining: bool, playerId: string)
  {
    !connected && !joining && Trim(playerId) != ""
  }

  /** The button is offered exactly while disconnected, not joining, and with
      an id holding some character other than white space. */
  lemma JoinButtonGate(connected: bool, joining: bool, playerId: string)
    ensures JoinButtonEnabled(connected, joining, playerId) <==>
      !connected && !joining && exists i | 0 <= i < |playerId| :: !IsJsWhitespace(playerId[i])
  {
    TrimEmptyIffBlank(playerId);
  }
}
