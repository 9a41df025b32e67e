/** What travels between a host page and the controller pages. The PeerJS transport is
    reduced to link values named by the remote peer's id; whether a link is open
    (`conn.open`) is transport state that a handler receives as the set of open links.
    A handler does not perform I/O; it returns the effects it would perform, in order. */
module Protocol {

  datatype Option<+T> = None | Some(value: T)

  /** A JavaScript string value's truth: present and not empty. */
  predicate Truthy(s: Option<string>)
  {
    s.Some? && s.value != ""
  }

  /** A PeerJS `DataConnection`, known by `conn.peer`. */
  datatype Link = Link(peer: string)

  /** The data objects the pages exchange. */
  datatype Message =
    | Join(peerId: string, nickname: string)   // {event: "join", peerId, nickname}
    | Swipe(force: real)                       // {gesture: "swipe", force}
    | Heartbeat                                // {event: "heartbeat"}
    | SpinStarted                              // {event: "spinStarted"}
    | SpinResult(result: Option<string>)       // {event: "spinResult", result}; None is `undefined`
    | GameStarted                              // {event: "gameStarted"}
    | GameStopped                              // {event: "gameStopped"}
    | DiceResult(face: int)                    // {event: "diceResult", result}

  /** An effect a handler performs on the transport. */
  datatype Effect =
    | Send(to: Link, msg: Message)   // conn.send(msg)
    | Close(to: Link)                // conn.close()
    | Connect(target: string)        // peer.connect(target)

  /** What a `forEach` over links does to each link it visits. */
  datatype Action = SendMsg(msg: Message) | CloseLink

  function Act(l: Link, a: Action): Effect
  {
    match a
    case SendMsg(m) => Send(l, m)
    case CloseLink => Close(l)
  }

  /** `links.forEach(c => { if (!onlyOpen || c.open) <act on c> })`, as a value; `open`
      holds the links that are open when the handler runs. */
  function Fanout(links: seq<Link>, open: set<Link>, onlyOpen: bool, a: Action): seq<Effect>
  {
    if links == [] then []
    else
      var l := links[|links| - 1];
      Fanout(links[..|links| - 1], open, onlyOpen, a) + (if !onlyOpen || l in open then [Act(l, a)] else [])
  }

  /** The fan-out acts on exactly the links the filter admits, and on nothing else. */
  lemma {:induction false} FanoutExact(links: seq<Link>, open: set<Link>, onlyOpen: bool, a: Action, e: Effect)
    ensures e in Fanout(links, open, onlyOpen, a) <==>
      !e.Connect? && e.to in links && (onlyOpen ==> e.to in open) && e == Act(e.to, a)
  {
    if links != [] {
      var init := links[..|links| - 1];
      FanoutExact(init, open, onlyOpen, a, e);
      assert links == init + [links[|links| - 1]];
    }
  }

  /** It visits the links in list order: the fan-out of a concatenation is the
      concatenation of the fan-outs. */
  lemma {:induction false} FanoutConcat(xs: seq<Link>, ys: seq<Link>, open: set<Link>, onlyOpen: bool, a: Action)
    ensures Fanout(xs + ys, open, onlyOpen, a) == Fanout(xs, open, onlyOpen, a) + Fanout(ys, open, onlyOpen, a)
    decreases |ys|
  {
    if ys != [] {
      var ys' := ys[..|ys| - 1];
      assert (xs + ys)[..|xs + ys| - 1] == xs + ys';
      FanoutConcat(xs, ys', open, onlyOpen, a);
    } else {
      assert xs + ys == xs;
    }
  }

  /** Every link passing the filter is acted on once: the count of effects is the
      count of admitted links. */
  function CountAdmitted(links: seq<Link>, open: set<Link>, onlyOpen: bool): nat
  {
    if links == [] then 0
    else CountAdmitted(links[..|links| - 1], open, onlyOpen) + (if !onlyOpen || links[|links| - 1] in open then 1 else 0)
  }

  lemma {:induction false} FanoutLength(links: seq<Link>, open: set<Link>, onlyOpen: bool, a: Action)
    ensures |Fanout(links, open, onlyOpen, a)| == CountAdmitted(links, open, onlyOpen)
    ensures !onlyOpen ==> |Fanout(links, open, onlyOpen, a)| == |links|
  {
    if links != [] {
      FanoutLength(links[..|links| - 1], open, onlyOpen, a);
    }
  }

  /** The `forEach` loop itself. */
  method ForEachLink(links: seq<Link>, open: set<Link>, onlyOpen: bool, a: Action) returns (out: seq<Effect>)
    ensures out == Fanout(links, open, onlyOpen, a)
  {
    out := [];
    var i := 0;
    while i < |links|
      invariant 0 <= i <= |links|
      invariant out == Fanout(links[..i], open, onlyOpen, a)
    {
      assert links[..i + 1][..i] == links[..i];
      if !onlyOpen || links[i] in open {
        out := out + [Act(links[i], a)];
      }
      i := i + 1;
    }
    assert links[..i] == links;
  }
}
