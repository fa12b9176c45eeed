/** The game server's table: players keyed by player id, each with a seat and
    a chip count, and the seat allocation of AddPlayerToTable together with the
    field checks the join-table handler makes before calling it. */
module TableServer {
  import opened Common

  const MinBuyIn := 100
  const MaxBuyIn := 10000
  const MaxSeats := 10

  datatype Player = Player(playerId: string, seat: int, chips: int)

  /** Why AddPlayerToTable refused a player. */
  datatype JoinError =
    | BuyInOutOfRange   // "buy-in must be between 100 and 10000 chips"
    | SeatOutOfRange    // "seat number must be between 1 and 10"
    | SeatOccupied(seat: int)  // "seat N is already occupied"
    | TableFull         // "table is full"

  /** Some player at the table holds this seat. */
  predicate SeatHeld(players: map<string, Player>, seat: int)
  {
    exists id | id in players :: players[id].seat == seat
  }

  /** The table invariant: every entry is keyed by its own player id, sits in
      a seat of 1..MaxSeats, and no two players share a seat. */
  predicate WellSeated(players: map<string, Player>)
  {
    && (forall id | id in players :: players[id].playerId == id)
    && (forall id | id in players :: 1 <= players[id].seat <= MaxSeats)
    && (forall a, b | a in players && b in players && a != b :: players[a].seat != players[b].seat)
  }

  /** The lowest seat in from..MaxSeats that nobody holds, if any. */
  function FirstFreeSeat(players: map<string, Player>, from: int): Option<int>
    decreases MaxSeats + 1 - from
  {
    if from > MaxSeats then None
    else if !SeatHeld(players, from) then Some(from)
    else FirstFreeSeat(players, from + 1)
  }

  /** FirstFreeSeat finds a free seat at or after from, every seat it skipped
      is held, and it finds none only when all seats from there on are held. */
  lemma {:induction false} FirstFreeSeatIsLowest(players: map<string, Player>, from: int)
    requires 1 <= from
    ensures FirstFreeSeat(players, from).Some? ==>
      var s := FirstFreeSeat(players, from).value;
      from <= s <= MaxSeats && !SeatHeld(players, s) &&
      forall t | from <= t < s :: SeatHeld(players, t)
    ensures FirstFreeSeat(players, from).None? <==> forall t | from <= t <= MaxSeats :: SeatHeld(players, t)
    decreases MaxSeats + 1 - from
  {
    if from <= MaxSeats && SeatHeld(players, from) {
      FirstFreeSeatIsLowest(players, from + 1);
    }
  }

  /** What AddPlayerToTable answers and what the table becomes, checked in the
      source's order: buy-in range, already seated, preferred seat, lowest free seat. */
  function Admit(players: map<string, Player>, playerId: string, preferredSeat: Option<int>, buyIn: int)
    : (r: (Result<Player, JoinError>, map<string, Player>))
    ensures r.0.Failure? ==> r.1 == players
    ensures r.0.Success? ==> playerId in r.1 && r.1[playerId] == r.0.value
    ensures r.1.Keys == players.Keys || r.1.Keys == players.Keys + {playerId}
    ensures forall id | id in players && id != playerId :: id in r.1 && r.1[id] == players[id]
  {
    if buyIn < MinBuyIn || buyIn > MaxBuyIn then (Failure(BuyInOutOfRange), players)
    else if playerId in players then (Success(players[playerId]), players)
    else match preferredSeat
      case Some(seat) =>
        if seat < 1 || seat > MaxSeats then (Failure(SeatOutOfRange), players)
        else if SeatHeld(players, seat) then (Failure(SeatOccupied(seat)), players)
        else (Success(Player(playerId, seat, buyIn)), players[playerId := Player(playerId, seat, buyIn)])
      case None =>
        match FirstFreeSeat(players, 1)
        case Some(seat) => (Success(Player(playerId, seat, buyIn)), players[playerId := Player(playerId, seat, buyIn)])
        case None => (Failure(TableFull), players)
  }

  /** Every refusal leaves the table as it was; a buy-in outside 100..10000 is
      refused before anything else is looked at, even for a seated player. */
  lemma AdmitRefusalChangesNothing(players: map<string, Player>, playerId: string, preferredSeat: Option<int>, buyIn: int)
    ensures Admit(players, playerId, preferredSeat, buyIn).0.Failure? ==>
      Admit(players, playerId, preferredSeat, buyIn).1 == players
    ensures (buyIn < MinBuyIn || buyIn > MaxBuyIn) ==>
      Admit(players, playerId, preferredSeat, buyIn).0 == Failure(BuyInOutOfRange)
    ensures MinBuyIn <= buyIn <= MaxBuyIn && preferredSeat.Some? && playerId !in players ==>
      var seat := preferredSeat.value;
      (seat < 1 || seat > MaxSeats ==> Admit(players, playerId, preferredSeat, buyIn).0 == Failure(SeatOutOfRange)) &&
      (1 <= seat <= MaxSeats && SeatHeld(players, seat) ==>
         Admit(players, playerId, preferredSeat, buyIn).0 == Failure(SeatOccupied(seat)))
  {
  }

  /** A seated player gets their own entry back, unchanged, whatever seat or
      (in-range) buy-in they ask for. */
  lemma AdmitSeatedPlayer(players: map<string, Player>, playerId: string, preferredSeat: Option<int>, buyIn: int)
    requires MinBuyIn <= buyIn <= MaxBuyIn && playerId in players
    ensures Admit(players, playerId, preferredSeat, buyIn) == (Success(players[playerId]), players)
  {
  }

  /** A new player with an in-range buy-in who asks for a free seat in 1..10
      gets it; a new player who is let in gets exactly one new entry, under
      their id, with the chosen seat and the buy-in as chips; no other entry
      changes. */
  lemma AdmitNewPlayer(players: map<string, Player>, playerId: string, preferredSeat: Option<int>, buyIn: int)
    requires playerId !in players
    ensures (MinBuyIn <= buyIn <= MaxBuyIn && preferredSeat.Some? &&
             1 <= preferredSeat.value <= MaxSeats && !SeatHeld(players, preferredSeat.value)) ==>
        Admit(players, playerId, preferredSeat, buyIn).0 == Success(Player(playerId, preferredSeat.value, buyIn))
    ensures var (r, after) := Admit(players, playerId, preferredSeat, buyIn);
      r.Success? ==>
        && r.value == Player(playerId, r.value.seat, buyIn)
        && after == players[playerId := r.value]
        && after.Keys == players.Keys + {playerId}
        && (preferredSeat.Some? ==> r.value.seat == preferredSeat.value)
        && 1 <= r.value.seat <= MaxSeats && !SeatHeld(players, r.value.seat)
  {
    FirstFreeSeatIsLowest(players, 1);
  }

  /** Without a preference a new player gets the lowest free seat, and the
      table is full exactly when all ten seats are held. */
  lemma AdmitLowestFreeSeat(players: map<string, Player>, playerId: string, buyIn: int)
    requires MinBuyIn <= buyIn <= MaxBuyIn && playerId !in players
    ensures var r := Admit(players, playerId, None, buyIn).0;
      && (r.Success? ==> !SeatHeld(players, r.value.seat) && 1 <= r.value.seat <= MaxSeats
                         && forall t | 1 <= t < r.value.seat :: SeatHeld(players, t))
      && (r == Failure(TableFull) <==> forall t | 1 <= t <= MaxSeats :: SeatHeld(players, t))
      && (r.Success? || r == Failure(TableFull))
  {
    FirstFreeSeatIsLowest(players, 1);
  }

  /** Every outcome of AddPlayerToTable keeps the table invariant. */
  lemma {:induction false} AdmitKeepsWellSeated(players: map<string, Player>, playerId: string, preferredSeat: Option<int>, buyIn: int)
    requires WellSeated(players)
    ensures WellSeated(Admit(players, playerId, preferredSeat, buyIn).1)
  {
    var (r, after) := Admit(players, playerId, preferredSeat, buyIn);
    if after != players {
      AdmitNewPlayer(players, playerId, preferredSeat, buyIn);
      var p := r.value;
      forall a, b | a in after && b in after && a != b
        ensures after[a].seat != after[b].seat
      {
        if a == playerId {
          assert !SeatHeld(players, p.seat);
          assert players[b].seat != p.seat;
        } else if b == playerId {
          assert !SeatHeld(players, p.seat);
          assert players[a].seat != p.seat;
        }
      }
    }
  }

  /** The seats lo..hi as a set. */
  function SeatRange(lo: int, hi: int): (seats: set<int>)
    ensures forall s :: s in seats <==> lo <= s <= hi
    decreases hi - lo
  {
    if lo > hi then {} else {lo} + SeatRange(lo + 1, hi)
  }

  lemma {:induction false} SeatRangeSize(lo: int, hi: int)
    requires lo <= hi + 1
    ensures |SeatRange(lo, hi)| == hi - lo + 1
    decreases hi - lo
  {
    if lo <= hi {
      SeatRangeSize(lo + 1, hi);
      assert lo !in SeatRange(lo + 1, hi);
    }
  }

  /** Players on pairwise distinct seats drawn from a set are no more numerous than that set. */
  lemma {:induction false} DistinctSeatsBound(players: map<string, Player>, seats: set<int>)
    requires forall id | id in players :: players[id].seat in seats
    requires forall a, b | a in players && b in players && a != b :: players[a].seat != players[b].seat
    ensures |players| <= |seats|
    decreases |players|
  {
    if |players| > 0 {
      var id :| id in players;
      var rest := players - {id};
      assert |rest| == |players| - 1;
      DistinctSeatsBound(rest, seats - {players[id].seat});
    }
  }

  /** A table keeps at most one player per seat, so it never holds more than ten players. */
  lemma WellSeatedAtMostTen(players: map<string, Player>)
    requires WellSeated(players)
    ensures |players| <= MaxSeats
  {
    SeatRangeSize(1, MaxSeats);
    DistinctSeatsBound(players, SeatRange(1, MaxSeats));
  }

  /** The server's table (NewHub creates it empty). */
  class Table {
    var players: map<string, Player>

    ghost predicate Valid()
      reads this
    {
      WellSeated(players)
    }

    /** The empty table of NewHub. */
    constructor ()
      ensures players == map[] && Valid()
    {
      players := map[];
    }

    /** The loop over the players that looks for one holding the given seat. */
    method SeatTaken(seat: int) returns (taken: bool)
      ensures taken == SeatHeld(players, seat)
    {
      taken := false;
      var unseen := players.Keys;
      while unseen != {}
        invariant unseen <= players.Keys
        invariant forall id | id in players.Keys - unseen :: players[id].seat != seat
        decreases unseen
      {
        var id :| id in unseen;
        if players[id].seat == seat {
          taken := true;
          break;
        }
        unseen := unseen - {id};
      }
    }

    /** AddPlayerToTable: validate the buy-in, return a seated player as is,
        otherwise seat the player in the preferred seat or the lowest free one. */
    method AddPlayerToTable(playerId: string, preferredSeat: Option<int>, buyIn: int)
      returns (r: Result<Player, JoinError>)
      requires Valid()
      modifies this
      ensures Valid()
      ensures (r, players) == Admit(old(players), playerId, preferredSeat, buyIn)
    {
      AdmitKeepsWellSeated(players, playerId, preferredSeat, buyIn);
      if buyIn < MinBuyIn || buyIn > MaxBuyIn {
        return Failure(BuyInOutOfRange);
      }
      if playerId in players {
        return Success(players[playerId]);
      }
      if preferredSeat.Some? {
        var seat := preferredSeat.value;
        if seat < 1 || seat > MaxSeats {
          return Failure(SeatOutOfRange);
        }
        var occupied := SeatTaken(seat);
        if occupied {
          return Failure(SeatOccupied(seat));
        }
        var player := Player(playerId, seat, buyIn);
        players := players[playerId := player];
        return Success(player);
      }
      var seat := 1;
      while seat <= MaxSeats
        invariant 1 <= seat <= MaxSeats + 1
        invariant players == old(players)
        invariant FirstFreeSeat(players, seat) == FirstFreeSeat(players, 1)
      {
        var seatTaken := SeatTaken(seat);
        if !seatTaken {
          var player := Player(playerId, seat, buyIn);
          players := players[playerId := player];
          return Success(player);
        }
        seat := seat + 1;
      }
      return Failure(TableFull);
    }
  }

  /** The body of a join-table request after parsing; a field the client left
      out arrives as Go's zero value ("" or 0), an absent seat as None. */
  datatype JoinTableRequest = JoinTableRequest(playerId: string, seat: Option<int>, buyIn: int)

  /** Why the join-table handler answered 400 before consulting the table. */
  datatype RequestError =
    | PlayerIdRequired  // "player_id is required"
    | BuyInRequired     // "buy_in is required and must be positive"

  /** The handler's own field checks, in order. */
  function CheckJoinRequest(req: JoinTableRequest): (e: Option<RequestError>)
    ensures e == Some(PlayerIdRequired) <==> req.playerId == ""
    ensures e == Some(BuyInRequired) <==> req.playerId != "" && req.buyIn <= 0
    ensures e == None <==> req.playerId != "" && req.buyIn > 0
  {
    if req.playerId == "" then Some(PlayerIdRequired)
    else if req.buyIn <= 0 then Some(BuyInRequired)
    else None
  }

  /** The outcome of a join-table request: refused by the handler's checks,
      refused by the table, or seated. */
  datatype JoinOutcome =
    | BadRequest(reason: RequestError)
    | Refused(error: JoinError)
    | Joined(player: Player)

  /** The join-table handler: its field checks come before the table is touched. */
  method HandleJoinTable(table: Table, req: JoinTableRequest) returns (outcome: JoinOutcome)
    requires table.Valid()
    modifies table
    ensures table.Valid()
    ensures CheckJoinRequest(req).Some? ==>
      outcome == BadRequest(CheckJoinRequest(req).value) && table.players == old(table.players)
    ensures CheckJoinRequest(req).None? ==>
      var (r, after) := Admit(old(table.players), req.playerId, req.seat, req.buyIn);
      table.players == after &&
      outcome == (if r.Success? then Joined(r.value) else Refused(r.error))
  {
    var invalid := CheckJoinRequest(req);
    if invalid.Some? {
      return BadRequest(invalid.value);
    }
    var r := table.AddPlayerToTable(req.playerId, req.seat, req.buyIn);
    outcome := if r.Success? then Joined(r.value) else Refused(r.error);
  }
}
