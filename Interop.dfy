/** The client's join request as the server reads it. */
module Interop {
  import opened Common
  import App
  import TableServer

  /** The server's body parser: a field the body does not carry keeps Go's
      zero value, so a missing buy_in reads as 0 and a missing seat as nil. */
  function ParseJoinBody(b: App.JoinBody): (req: TableServer.JoinTableRequest)
    ensures req.playerId == b.playerId && req.seat == b.seat
    ensures b.buyIn.None? ==> req.buyIn == 0
    ensures b.buyIn.Some? ==> req.buyIn == b.buyIn.value
  {
    TableServer.JoinTableRequest(b.playerId, b.seat, if b.buyIn.Some? then b.buyIn.value else 0)
  }

  /** Every request the client can send is refused by the handler's buy-in
      check: the player id passed the client's blank check, so it is not
      empty, and no buy-in is sent. */
  lemma ClientRequestLacksBuyIn(playerId: string)
    requires App.Trim(playerId) != ""
    ensures TableServer.CheckJoinRequest(ParseJoinBody(App.JoinBody(playerId, None, None))) == Some(TableServer.BuyInRequired)
  {
    assert playerId != "";
  }

  /** One press of Join Table (offered only while disconnected and not
      joining) against the server: with a non-blank player id
      the request is always refused for its missing buy-in, the table does
      not change, the client clears connected and joining, and the socket it
      opened stays open. The flags are those right after the answer: if the new
      socket's open event arrives later, OnOpen sets connected again although
      the player was not seated. */
  method JoinAgainstServer(session: App.Session, table: TableServer.Table)
    returns (outcome: Option<TableServer.JoinOutcome>)
    requires session.Valid() && table.Valid()
    requires !session.connected && !session.joining
    modifies session, table
    ensures session.Valid() && table.Valid()
    ensures table.players == old(table.players)
    ensures App.Trim(old(session.playerId)) == "" <==> outcome.None?
    ensures outcome.Some? ==>
      && outcome.value == TableServer.BadRequest(TableServer.BuyInRequired)
      && !session.connected && !session.joining
      && session.socket.Some? && session.socket.value !in session.closed
  {
    var sent := session.BeginJoin();
    if sent.None? {
      return None;
    }
    ClientRequestLacksBuyIn(session.playerId);
    var handled := TableServer.HandleJoinTable(table, ParseJoinBody(sent.value));
    session.FinishJoin(handled.Joined?);
    outcome := Some(handled);
  }
}
