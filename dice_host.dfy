/** The roll-dice host page (games/roll-dice/host/page.tsx): the joined players, the
    force it hands to the die, the last face rolled, and the player the last roll was
    for. Each handler returns the effects it performs on the links, in order; which
    links are open is given to it as `open`. */
module DiceHost {
  import opened Protocol
  import opened Registry

  /** What `handleDiceRollComplete` sends: the face, to the current player when there
      is one, whether or not that link is open. */
  function RollResultDelivery(currentPlayer: Option<Player>, face: int): (es: seq<Effect>)
    ensures |es| <= 1
    ensures es != [] <==> currentPlayer.Some?
    ensures es != [] ==> es[0].Send? && es[0].to == currentPlayer.value.link && es[0].msg == DiceResult(face)
  {
    if currentPlayer.Some? then [Send(currentPlayer.value.link, DiceResult(face))] else []
  }

  class DiceHostPage {
    var players: seq<Player>
    var gameStarted: bool
    var rollingForce: real
    var diceResult: Option<int>
    var currentPlayer: Option<Player>

    /** Every player id is listed once. */
    ghost predicate Valid()
      reads this
    {
      UniqueKeys(players, PlayerId)
    }

    /** Mounting: single-player mode (`?mode=single`) starts the game at once. */
    constructor(singlePlayer: bool)
      ensures Valid() && players == [] && gameStarted == singlePlayer
      ensures rollingForce == 0.0 && diceResult == None && currentPlayer == None
    {
      players := [];
      gameStarted := singlePlayer;
      rollingForce := 0.0;
      diceResult := None;
      currentPlayer := None;
    }

    /** `closeConnection`: close every player link that is open. */
    method CloseConnection(open: set<Link>) returns (effects: seq<Effect>)
      ensures effects == Fanout(Links(players), open, true, CloseLink)
    {
      effects := [];
      if |players| > 0 {
        effects := ForEachLink(Links(players), open, true, CloseLink);
      }
    }

    /** `startDiceRoll(force)`: hand the force to the die. */
    method StartDiceRoll(force: real)
      modifies this
      ensures rollingForce == force
      ensures players == old(players) && gameStarted == old(gameStarted)
      ensures diceResult == old(diceResult) && currentPlayer == old(currentPlayer)
    {
      rollingForce := force;
    }

    /** A message on a player's link. Every swipe, with no gating, makes the sender the
        current player and hands its force to the die; a join lists the player unless
        the id is already listed. */
    method OnData(conn: Link, msg: Message)
      requires Valid()
      modifies this
      ensures Valid()
      ensures msg.Swipe? ==> currentPlayer == Some(Player(conn.peer, None, conn)) && rollingForce == msg.force
      ensures !msg.Swipe? ==> currentPlayer == old(currentPlayer) && rollingForce == old(rollingForce)
      ensures msg.Join? ==> players == AddIfAbsent(old(players), Player(msg.peerId, Some(msg.nickname), conn), PlayerId)
      ensures !msg.Join? ==> players == old(players)
      ensures gameStarted == old(gameStarted) && diceResult == old(diceResult)
    {
      if msg.Swipe? {
        currentPlayer := Some(Player(conn.peer, None, conn));
        StartDiceRoll(msg.force);
      }
      if msg.Join? {
        AddIfAbsentKeepsUnique(players, Player(msg.peerId, Some(msg.nickname), conn), PlayerId);
        players := AddIfAbsent(players, Player(msg.peerId, Some(msg.nickname), conn), PlayerId);
      }
    }

    /** A player link's `close` or `error`: every open player link is closed, and the
        players listed under that link's peer id are dropped. */
    method OnConnectionLost(conn: Link, open: set<Link>) returns (effects: seq<Effect>)
      requires Valid()
      modifies this
      ensures Valid()
      ensures effects == Fanout(Links(old(players)), open, true, CloseLink)
      ensures players == RemoveKey(old(players), conn.peer, PlayerId)
      ensures gameStarted == old(gameStarted) && rollingForce == old(rollingForce)
      ensures diceResult == old(diceResult) && currentPlayer == old(currentPlayer)
    {
      effects := CloseConnection(open);
      RemoveKeyKeepsUnique(players, conn.peer, PlayerId);
      players := RemoveKey(players, conn.peer, PlayerId);
    }

    /** The die's `onRollComplete(result)`: show the face and send it to the current
        player. */
    method HandleDiceRollComplete(result: int) returns (effects: seq<Effect>)
      modifies this
      ensures diceResult == Some(result)
      ensures effects == RollResultDelivery(currentPlayer, result)
      ensures players == old(players) && gameStarted == old(gameStarted)
      ensures rollingForce == old(rollingForce) && currentPlayer == old(currentPlayer)
    {
      diceResult := Some(result);
      effects := [];
      if currentPlayer.Some? {
        effects := [Send(currentPlayer.value.link, DiceResult(result))];
      }
    }

    /** The Start Game button: the game starts and every open player is told so. */
    method StartGame(open: set<Link>) returns (effects: seq<Effect>)
      requires Valid()
      modifies this
      ensures Valid() && gameStarted
      ensures effects == Fanout(Links(players), open, true, SendMsg(GameStarted))
      ensures players == old(players) && rollingForce == old(rollingForce)
      ensures diceResult == old(diceResult) && currentPlayer == old(currentPlayer)
    {
      gameStarted := true;
      effects := ForEachLink(Links(players), open, true, SendMsg(GameStarted));
    }

    /** The host's Roll button: a fresh `Math.random()` draw `r` becomes the force; the
        current player stays as it was. */
    method RollButton(r: real)
      requires 0.0 <= r < 1.0
      modifies this
      ensures rollingForce == r && currentPlayer == old(currentPlayer)
      ensures players == old(players) && gameStarted == old(gameStarted) && diceResult == old(diceResult)
    {
      rollingForce := r;
    }

    /** The Back to QR button: the game view closes; the players are not told. */
    method BackToQr()
      modifies this
      ensures !gameStarted
      ensures players == old(players) && rollingForce == old(rollingForce)
      ensures diceResult == old(diceResult) && currentPlayer == old(currentPlayer)
    {
      gameStarted := false;
    }
  }

  /** A roll the host starts with the Roll button is still reported to the player who
      swiped last. */
  method HostRollReportsToLastSwiper(conn: Link, force: real, r: real, face: int) returns (effects: seq<Effect>)
    requires 0.0 <= r < 1.0
    ensures effects == [Send(conn, DiceResult(face))]
  {
    var page := new DiceHostPage(false);
    page.OnData(conn, Swipe(force));
    page.RollButton(r);
    effects := page.HandleDiceRollComplete(face);
  }
}
