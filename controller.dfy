/** What the three controller pages share: the connection attempt a Connect click
    starts, and what a finished touch sends. */
module Controller {
  import opened Protocol
  import opened Force

  /** A `peer.connect(hostId)` under way, with the own id and nickname its `open`
      handler captured when the button was pressed. */
  datatype Attempt = Attempt(link: Link, peerId: string, nickname: string)

  /** `handleTouchEnd` once its listener runs: nothing without an open connection; a
      touch that moved up by more than 50 pixels sends `{gesture: "swipe", force}`, any
      other touch sends nothing. */
  function SwipeEffects(conn: Option<Link>, open: set<Link>, deltaY: real, force: real): (es: seq<Effect>)
    ensures |es| <= 1
    ensures es != [] <==> conn.Some? && conn.value in open && IsSwipe(deltaY)
    ensures es != [] ==> es[0].Send? && es[0].to == conn.value && es[0].msg == Swipe(force)
  {
    if conn.None? || conn.value !in open then []
    else if deltaY < -50.0 then [Send(conn.value, Swipe(force))]
    else []
  }

  /** The random variation the wheel and dice controllers add: `(Math.random() - 0.5) * 1`. */
  function Variation(r: real): (v: real)
    ensures 0.0 <= r < 1.0 ==> -0.5 <= v < 0.5
  {
    (r - 0.5) * 1.0
  }
}
