/** The roll-dice player page (games/roll-dice/player/page.tsx): the connection flags,
    the last face rolled for this player, and the swipe it sends while the game runs.
    Each handler returns the effects it performs; which links are open is given to it
    as `open`, `Date.now()` as `now`, and the `Math.random()` draw as `r`. */
module DicePlayer {
  import opened Js
  import opened Protocol
  import opened Force
  import opened Controller

  class DicePlayerPage {
    /** The page's own peer id, once its peer has opened. */
    var peerId: Option<string>
    var nickname: string
    var conn: Option<Link>
    var attempt: Option<Attempt>
    var isConnected: bool
    var isConnecting: bool
    var isGameStarted: bool
    var result: Option<int>
    /** Set once the page has sent the browser back to the home page. */
    var leftForHome: bool
    var touchStartY: real
    var touchStartTime: int

    constructor()
      ensures peerId == None && nickname == "" && conn == None && attempt == None
      ensures !isConnected && !isConnecting && !isGameStarted && result == None && !leftForHome
      ensures touchStartY == 0.0 && touchStartTime == 0
    {
      peerId := None;
      nickname := "";
      conn := None;
      attempt := None;
      isConnected := false;
      isConnecting := false;
      isGameStarted := false;
      result := None;
      leftForHome := false;
      touchStartY := 0.0;
      touchStartTime := 0;
    }

    /** The page's own peer opens under `id`; only then is the form shown. */
    method OnPeerOpen(id: string)
      modifies this
      ensures peerId == Some(id)
      ensures nickname == old(nickname) && conn == old(conn) && attempt == old(attempt)
      ensures isConnected == old(isConnected) && isConnecting == old(isConnecting)
      ensures isGameStarted == old(isGameStarted) && result == old(result) && leftForHome == old(leftForHome)
      ensures touchStartY == old(touchStartY) && touchStartTime == old(touchStartTime)
    {
      peerId := Some(id);
    }

    /** Typing into the nickname field. */
    method SetNickname(s: string)
      modifies this
      ensures nickname == s
      ensures peerId == old(peerId) && conn == old(conn) && attempt == old(attempt)
      ensures isConnected == old(isConnected) && isConnecting == old(isConnecting)
      ensures isGameStarted == old(isGameStarted) && result == old(result) && leftForHome == old(leftForHome)
      ensures touchStartY == old(touchStartY) && touchStartTime == old(touchStartTime)
    {
      nickname := s;
    }

    /** `handleConnect(hostId)`: with a host id and a nickname, connect to the host;
        otherwise do nothing. There is no timeout on this page. */
    method HandleConnect(hostId: string) returns (effects: seq<Effect>)
      requires peerId.Some?
      modifies this
      ensures hostId != "" && nickname != "" ==>
        && effects == [Connect(hostId)]
        && attempt == Some(Attempt(Link(hostId), old(peerId).value, nickname))
        && isConnecting
      ensures !(hostId != "" && nickname != "") ==>
        effects == [] && attempt == old(attempt) && isConnecting == old(isConnecting)
      ensures peerId == old(peerId) && nickname == old(nickname) && conn == old(conn)
      ensures isConnected == old(isConnected) && isGameStarted == old(isGameStarted)
      ensures result == old(result) && leftForHome == old(leftForHome)
      ensures touchStartY == old(touchStartY) && touchStartTime == old(touchStartTime)
    {
      effects := [];
      if hostId != "" && nickname != "" {
        isConnecting := true;
        effects := [Connect(hostId)];
        attempt := Some(Attempt(Link(hostId), peerId.value, nickname));
      }
    }

    /** The attempt's connection opens: the page is connected, no longer connecting,
        and joins with its own id and the trimmed nickname. */
    method OnOpen() returns (effects: seq<Effect>)
      requires attempt.Some?
      modifies this
      ensures effects == [Send(old(attempt).value.link, Join(old(attempt).value.peerId, Trim(old(attempt).value.nickname)))]
      ensures conn == Some(old(attempt).value.link) && isConnected && !isConnecting
      ensures peerId == old(peerId) && nickname == old(nickname) && attempt == old(attempt)
      ensures isGameStarted == old(isGameStarted) && result == old(result) && leftForHome == old(leftForHome)
      ensures touchStartY == old(touchStartY) && touchStartTime == old(touchStartTime)
    {
      var a := attempt.value;
      effects := [Send(a.link, Join(a.peerId, Trim(a.nickname)))];
      conn := Some(a.link);
      isConnected := true;
      isConnecting := false;
    }

    /** A message from the host: `diceResult` shows the face and `gameStarted` switches
        the game on; nothing switches it off. */
    method OnData(msg: Message)
      modifies this
      ensures result == if msg.DiceResult? then Some(msg.face) else old(result)
      ensures isGameStarted == (old(isGameStarted) || msg.GameStarted?)
      ensures peerId == old(peerId) && nickname == old(nickname) && conn == old(conn) && attempt == old(attempt)
      ensures isConnected == old(isConnected) && isConnecting == old(isConnecting) && leftForHome == old(leftForHome)
      ensures touchStartY == old(touchStartY) && touchStartTime == old(touchStartTime)
    {
      if msg.DiceResult? {
        result := Some(msg.face);
      }
      if msg.GameStarted? {
        isGameStarted := true;
      }
    }

    /** The connection's `close` or `error`: the page sends the browser home. */
    method OnConnectionLost()
      modifies this
      ensures leftForHome
      ensures peerId == old(peerId) && nickname == old(nickname) && conn == old(conn) && attempt == old(attempt)
      ensures isConnected == old(isConnected) && isConnecting == old(isConnecting)
      ensures isGameStarted == old(isGameStarted) && result == old(result)
      ensures touchStartY == old(touchStartY) && touchStartTime == old(touchStartTime)
    {
      leftForHome := true;
    }

    /** `touchstart`, heard only while the game runs: remember where and when. */
    method TouchStart(y: real, now: int)
      modifies this
      ensures isGameStarted ==> touchStartY == y && touchStartTime == now
      ensures !isGameStarted ==> touchStartY == old(touchStartY) && touchStartTime == old(touchStartTime)
      ensures peerId == old(peerId) && nickname == old(nickname) && conn == old(conn) && attempt == old(attempt)
      ensures isConnected == old(isConnected) && isConnecting == old(isConnecting)
      ensures isGameStarted == old(isGameStarted) && result == old(result) && leftForHome == old(leftForHome)
    {
      if isGameStarted {
        touchStartY := y;
        touchStartTime := now;
      }
    }

    /** `touchend`, heard only while the game runs: an upward swipe on an open
        connection sends a force clamped to [1, 10]. */
    method TouchEnd(y: real, now: int, r: real, open: set<Link>) returns (effects: seq<Effect>)
      ensures !isGameStarted ==> effects == []
      ensures isGameStarted ==>
        effects == SwipeEffects(conn, open, y - touchStartY,
                                ClampedForce(y - touchStartY, now - touchStartTime, Variation(r)))
      ensures forall e :: e in effects ==> e.Send? && e.msg.Swipe? && 1.0 <= e.msg.force <= 10.0
    {
      effects := [];
      if !isGameStarted {
        return;
      }
      if conn.None? || conn.value !in open {
        return;
      }
      var deltaY := y - touchStartY;
      var swipeTime := now - touchStartTime;
      if deltaY < -50.0 {
        var speed := ClampedForce(deltaY, swipeTime, Variation(r));
        effects := [Send(conn.value, Swipe(speed))];
      }
    }

    /** `handleDisconnect`: close an open connection and show the page as not connected. */
    method HandleDisconnect(open: set<Link>) returns (effects: seq<Effect>)
      modifies this
      ensures conn.Some? && conn.value in open ==> effects == [Close(conn.value)] && !isConnected
      ensures !(conn.Some? && conn.value in open) ==> effects == [] && isConnected == old(isConnected)
      ensures peerId == old(peerId) && nickname == old(nickname) && conn == old(conn) && attempt == old(attempt)
      ensures isConnecting == old(isConnecting) && isGameStarted == old(isGameStarted)
      ensures result == old(result) && leftForHome == old(leftForHome)
      ensures touchStartY == old(touchStartY) && touchStartTime == old(touchStartTime)
    {
      effects := [];
      if conn.Some? && conn.value in open {
        effects := [Close(conn.value)];
        isConnected := false;
      }
    }
  }
}
