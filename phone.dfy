/** The phone controller of the desktop wheel (phone/page.tsx): which desktop it connects
    to, and the swipe it sends. Its touch listeners are always installed. Each handler
    returns the effects it performs; which links are open is given to it as `open`,
    and `Date.now()` as `now`. */
module Phone {
  import opened Protocol
  import opened Force
  import opened Controller

  /** `inputPeerId || peerIdFromUrl`: the typed id when there is one, the id from the
      page address otherwise. */
  function Target(input: Option<string>, fromUrl: Option<string>): (t: Option<string>)
    ensures Truthy(t) <==> Truthy(input) || Truthy(fromUrl)
    ensures Truthy(input) ==> t == input
    ensures Truthy(t) && !Truthy(input) ==> t == fromUrl
  {
    if Truthy(input) then input else fromUrl
  }

  class PhonePage {
    var peerId: Option<string>
    var peerIdFromUrl: Option<string>
    var conn: Option<Link>
    var attempt: Option<Link>
    var isConnected: bool
    var isConnecting: bool
    var touchStartY: real
    var touchStartTime: int

    /** Mounting reads `peerId` from the page address. */
    constructor(fromUrl: Option<string>)
      ensures peerId == None && peerIdFromUrl == fromUrl && conn == None && attempt == None
      ensures !isConnected && !isConnecting && touchStartY == 0.0 && touchStartTime == 0
    {
      peerId := None;
      peerIdFromUrl := fromUrl;
      conn := None;
      attempt := None;
      isConnected := false;
      isConnecting := false;
      touchStartY := 0.0;
      touchStartTime := 0;
    }

    /** The page's own peer opens under `id`; only then are the Connect buttons shown. */
    method OnPeerOpen(id: string)
      modifies this
      ensures peerId == Some(id)
      ensures peerIdFromUrl == old(peerIdFromUrl) && conn == old(conn) && attempt == old(attempt)
      ensures isConnected == old(isConnected) && isConnecting == old(isConnecting)
      ensures touchStartY == old(touchStartY) && touchStartTime == old(touchStartTime)
    {
      peerId := Some(id);
    }

    /** `handleConnect(inputPeerId)`: connect to the chosen desktop when there is one;
        otherwise do nothing. */
    method HandleConnect(input: Option<string>) returns (effects: seq<Effect>)
      requires peerId.Some?
      modifies this
      ensures Truthy(Target(input, peerIdFromUrl)) ==>
        var target := Target(input, peerIdFromUrl).value;
        effects == [Connect(target)] && attempt == Some(Link(target)) && isConnecting
      ensures !Truthy(Target(input, peerIdFromUrl)) ==>
        effects == [] && attempt == old(attempt) && isConnecting == old(isConnecting)
      ensures peerId == old(peerId) && peerIdFromUrl == old(peerIdFromUrl) && conn == old(conn)
      ensures isConnected == old(isConnected)
      ensures touchStartY == old(touchStartY) && touchStartTime == old(touchStartTime)
    {
      effects := [];
      var desktopId := Target(input, peerIdFromUrl);
      if Truthy(desktopId) {
        isConnecting := true;
        effects := [Connect(desktopId.value)];
        attempt := Some(Link(desktopId.value));
      }
    }

    /** The attempt's connection opens: the page is connected and no longer
        connecting. Nothing is sent. */
    method OnOpen()
      requires attempt.Some?
      modifies this
      ensures conn == old(attempt) && isConnected && !isConnecting
      ensures peerId == old(peerId) && peerIdFromUrl == old(peerIdFromUrl) && attempt == old(attempt)
      ensures touchStartY == old(touchStartY) && touchStartTime == old(touchStartTime)
    {
      conn := attempt;
      isConnected := true;
      isConnecting := false;
    }

    /** `touchstart`: remember where and when. */
    method TouchStart(y: real, now: int)
      modifies this
      ensures touchStartY == y && touchStartTime == now
      ensures peerId == old(peerId) && peerIdFromUrl == old(peerIdFromUrl) && conn == old(conn)
      ensures attempt == old(attempt) && isConnected == old(isConnected) && isConnecting == old(isConnecting)
    {
      touchStartY := y;
      touchStartTime := now;
    }

    /** `touchend`: an upward swipe on an open connection sends
        `min(|deltaY| / swipeTime, 10)`, which has no lower bound. */
    method TouchEnd(y: real, now: int, open: set<Link>) returns (effects: seq<Effect>)
      ensures effects == SwipeEffects(conn, open, y - touchStartY, CappedForce(y - touchStartY, now - touchStartTime))
      ensures forall e :: e in effects ==> e.Send? && e.msg.Swipe? && e.msg.force <= 10.0
      ensures now > touchStartTime ==> forall e :: e in effects ==> e.msg.force > 0.0
    {
      effects := [];
      if conn.None? || conn.value !in open {
        return;
      }
      var deltaY := y - touchStartY;
      var swipeTime := now - touchStartTime;
      if deltaY < -50.0 {
        var speed := CappedForce(deltaY, swipeTime);
        effects := [Send(conn.value, Swipe(speed))];
      }
    }
  }
}
