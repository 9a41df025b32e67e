/** The drunk-wheel player page (games/drunk-wheel-challenge/player/page.tsx): the
    connection flags, the last spin result, and the swipe it sends while the game runs.
    Each handler returns the effects it performs; which links are open is given to it
    as `open`, `Date.now()` as `now`, and the `Math.random()` draw as `r`. */
module WheelPlayer {
  import opened Js
  import opened Protocol
  import opened Force
  import opened Controller

  /** How long the page waits for the connection to open, in milliseconds. */
  const ConnectTimeout: int := 5000

  class WheelPlayerPage {
    /** The page's own peer id, once its peer has opened. */
    var peerId: Option<string>
    var nickname: string
    var conn: Option<Link>
    var attempt: Option<Attempt>
    /** Whether the `ConnectTimeout` timer of the attempt is still pending. */
    var timerArmed: bool
    var isConnected: bool
    var isConnecting: bool
    var isGameStarted: bool
    var isError: bool
    var result: Option<string>
    var touchStartY: real
    var touchStartTime: int

    /** A pending timer belongs to an attempt. */
    ghost predicate Valid()
      reads this
    {
      timerArmed ==> attempt.Some?
    }

    constructor()
      ensures Valid() && peerId == None && nickname == "" && conn == None && attempt == None
      ensures !timerArmed && !isConnected && !isConnecting && !isGameStarted && !isError
      ensures result == None && touchStartY == 0.0 && touchStartTime == 0
    {
      peerId := None;
      nickname := "";
      conn := None;
      attempt := None;
      timerArmed := false;
      isConnected := false;
      isConnecting := false;
      isGameStarted := false;
      isError := false;
      result := None;
      touchStartY := 0.0;
      touchStartTime := 0;
    }

    /** The page's own peer opens under `id`; only then is the form shown. */
    method OnPeerOpen(id: string)
      modifies this
      ensures peerId == Some(id)
      ensures nickname == old(nickname) && conn == old(conn) && attempt == old(attempt) && timerArmed == old(timerArmed)
      ensures isConnected == old(isConnected) && isConnecting == old(isConnecting)
      ensures isGameStarted == old(isGameStarted) && isError == old(isError) && result == old(result)
      ensures touchStartY == old(touchStartY) && touchStartTime == old(touchStartTime)
    {
      peerId := Some(id);
    }

    /** Typing into the nickname field. */
    method SetNickname(s: string)
      modifies this
      ensures nickname == s
      ensures peerId == old(peerId) && conn == old(conn) && attempt == old(attempt) && timerArmed == old(timerArmed)
      ensures isConnected == old(isConnected) && isConnecting == old(isConnecting)
      ensures isGameStarted == old(isGameStarted) && isError == old(isError) && result == old(result)
      ensures touchStartY == old(touchStartY) && touchStartTime == old(touchStartTime)
    {
      nickname := s;
    }

    /** `handleConnect(hostId)`: with a host id and a nickname, connect to the host and
        arm the timeout; otherwise do nothing. */
    method HandleConnect(hostId: string) returns (effects: seq<Effect>)
      requires Valid() && peerId.Some?
      modifies this
      ensures Valid()
      ensures hostId != "" && nickname != "" ==>
        && effects == [Connect(hostId)]
        && attempt == Some(Attempt(Link(hostId), old(peerId).value, nickname))
        && timerArmed && isConnecting
      ensures !(hostId != "" && nickname != "") ==>
        && effects == [] && attempt == old(attempt) && timerArmed == old(timerArmed) && isConnecting == old(isConnecting)
      ensures peerId == old(peerId) && nickname == old(nickname) && conn == old(conn)
      ensures isConnected == old(isConnected) && isGameStarted == old(isGameStarted) && isError == old(isError)
      ensures result == old(result) && touchStartY == old(touchStartY) && touchStartTime == old(touchStartTime)
    {
      effects := [];
      if hostId != "" && nickname != "" {
        isConnecting := true;
        effects := [Connect(hostId)];
        attempt := Some(Attempt(Link(hostId), peerId.value, nickname));
        timerArmed := true;
      }
    }

    /** The attempt's connection opens: the timer is cleared, the page is connected
        and not in error, and it joins with its own id and the trimmed nickname. */
    method OnOpen() returns (effects: seq<Effect>)
      requires Valid() && attempt.Some?
      modifies this
      ensures Valid()
      ensures effects == [Send(old(attempt).value.link, Join(old(attempt).value.peerId, Trim(old(attempt).value.nickname)))]
      ensures conn == Some(old(attempt).value.link) && !timerArmed
      ensures isConnected && !isConnecting && !isError
      ensures peerId == old(peerId) && nickname == old(nickname) && attempt == old(attempt)
      ensures isGameStarted == old(isGameStarted) && result == old(result)
      ensures touchStartY == old(touchStartY) && touchStartTime == old(touchStartTime)
    {
      var a := attempt.value;
      effects := [Send(a.link, Join(a.peerId, Trim(a.nickname)))];
      timerArmed := false;
      isError := false;
      conn := Some(a.link);
      isConnected := true;
      isConnecting := false;
    }

    /** The timer fires `ConnectTimeout` milliseconds after a connect that has not
        opened: the attempt's connection is closed, and the page is neither connecting
        nor connected, the game is off, and the error is shown. */
    method OnTimeout() returns (effects: seq<Effect>)
      requires Valid() && timerArmed
      modifies this
      ensures Valid()
      ensures effects == [Close(old(attempt).value.link)]
      ensures attempt == None && !timerArmed
      ensures !isConnecting && !isConnected && !isGameStarted && isError
      ensures peerId == old(peerId) && nickname == old(nickname) && conn == old(conn) && result == old(result)
      ensures touchStartY == old(touchStartY) && touchStartTime == old(touchStartTime)
    {
      effects := [Close(attempt.value.link)];
      attempt := None;
      timerArmed := false;
      isConnecting := false;
      isConnected := false;
      isGameStarted := false;
      isError := true;
    }

    /** A message from the host: `spinResult` shows the result, `gameStarted` and
        `gameStopped` switch the game on and off, and `spinStarted` or any other
        message changes nothing. */
    method OnData(msg: Message)
      modifies this
      ensures result == if msg.SpinResult? then msg.result else old(result)
      ensures isGameStarted == if msg.GameStarted? then true else if msg.GameStopped? then false else old(isGameStarted)
      ensures peerId == old(peerId) && nickname == old(nickname) && conn == old(conn)
      ensures attempt == old(attempt) && timerArmed == old(timerArmed)
      ensures isConnected == old(isConnected) && isConnecting == old(isConnecting) && isError == old(isError)
      ensures touchStartY == old(touchStartY) && touchStartTime == old(touchStartTime)
    {
      if msg.SpinResult? {
        result := msg.result;
      }
      if msg.GameStarted? {
        isGameStarted := true;
      }
      if msg.GameStopped? {
        isGameStarted := false;
      }
    }

    /** The connection's `close` or `error`: not connected, and the game is off. */
    method OnConnectionLost()
      modifies this
      ensures !isConnected && !isGameStarted
      ensures peerId == old(peerId) && nickname == old(nickname) && conn == old(conn)
      ensures attempt == old(attempt) && timerArmed == old(timerArmed)
      ensures isConnecting == old(isConnecting) && isError == old(isError) && result == old(result)
      ensures touchStartY == old(touchStartY) && touchStartTime == old(touchStartTime)
    {
      isConnected := false;
      isGameStarted := false;
    }

    /** `touchstart`, heard only while the game runs: remember where and when. */
    method TouchStart(y: real, now: int)
      modifies this
      ensures isGameStarted ==> touchStartY == y && touchStartTime == now
      ensures !isGameStarted ==> touchStartY == old(touchStartY) && touchStartTime == old(touchStartTime)
      ensures peerId == old(peerId) && nickname == old(nickname) && conn == old(conn)
      ensures attempt == old(attempt) && timerArmed == old(timerArmed) && isConnected == old(isConnected)
      ensures isConnecting == old(isConnecting) && isGameStarted == old(isGameStarted)
      ensures isError == old(isError) && result == old(result)
    {
      if isGameStarted {
        touchStartY := y;
        touchStartTime := now;
      }
    }

    /** `touchend`, heard only while the game runs: an upward swipe on an open
        connection sends a force clamped to [1, 10]. */
    method TouchEnd(y: real, now: int, r: real, open: set<Link>) returns (effects: seq<Effect>)
      ensures !isGameStarted ==> effects == []
      ensures isGameStarted ==>
        effects == SwipeEffects(conn, open, y - touchStartY,
                                ClampedForce(y - touchStartY, now - touchStartTime, Variation(r)))
      ensures forall e :: e in effects ==> e.Send? && e.msg.Swipe? && 1.0 <= e.msg.force <= 10.0
    {
      effects := [];
      if !isGameStarted {
        return;
      }
      if conn.None? || conn.value !in open {
        return;
      }
      var deltaY := y - touchStartY;
      var swipeTime := now - touchStartTime;
      if deltaY < -50.0 {
        var speed := ClampedForce(deltaY, swipeTime, Variation(r));
        effects := [Send(conn.value, Swipe(speed))];
      }
    }

    /** `handleDisconnect`: close an open connection and show the page as not connected. */
    method HandleDisconnect(open: set<Link>) returns (effects: seq<Effect>)
      modifies this
      ensures conn.Some? && conn.value in open ==> effects == [Close(conn.value)] && !isConnected
      ensures !(conn.Some? && conn.value in open) ==> effects == [] && isConnected == old(isConnected)
      ensures peerId == old(peerId) && nickname == old(nickname) && conn == old(conn)
      ensures attempt == old(attempt) && timerArmed == old(timerArmed) && isConnecting == old(isConnecting)
      ensures isGameStarted == old(isGameStarted) && isError == old(isError) && result == old(result)
      ensures touchStartY == old(touchStartY) && touchStartTime == old(touchStartTime)
    {
      effects := [];
      if conn.Some? && conn.value in open {
        effects := [Close(conn.value)];
        isConnected := false;
      }
    }
  }
}
