/** The desktop host page (desktop/page.tsx): the connected phones, listed both as links
    and as peer ids, the time each phone last sent a heartbeat, and the spin it asks of
    the legacy wheel. Each handler returns the effects it performs on the links, in
    order; which links are open is given to it as `open`, and `Date.now()` as `now`. */
module DesktopHost {
  import opened Protocol
  import opened Registry
  import opened Force
  import WheelHost

  /** The id `currentSpinner` holds before any phone swipes. */
  const HostSpinner: string := "host"

  /** What `handleSpinCompleted` sends: to every open phone when `isHost` is set;
      otherwise to the phone whose peer id is the current spinner, when it is listed
      and open. */
  function ResultDelivery(isHost: bool, phones: seq<Link>, currentSpinner: Option<string>,
                          open: set<Link>, option: Option<string>): (es: seq<Effect>)
    ensures isHost ==> es == Fanout(phones, open, true, SendMsg(SpinResult(option)))
    ensures !isHost ==>
      && (es != [] <==> currentSpinner.Some? && Link(currentSpinner.value) in phones && Link(currentSpinner.value) in open)
      && (es != [] ==> es == [Send(Link(currentSpinner.value), SpinResult(option))])
  {
    if isHost then Fanout(phones, open, true, SendMsg(SpinResult(option)))
    else if currentSpinner.Some? then
      match Find(phones, LinkPeer, currentSpinner.value)
      case Some(target) =>
        assert target == Link(currentSpinner.value);
        if target in open then [Send(target, SpinResult(option))] else []
      case None =>
        assert forall i :: 0 <= i < |phones| ==> LinkPeer(phones[i]) != currentSpinner.value;
        []
    else []
  }

  class DesktopPage {
    var connectedPhones: seq<Link>
    var phoneIds: seq<string>
    var isConnected: bool
    var startSpin: bool
    var spinTime: real
    var spinCount: int
    var currentSpinner: Option<string>
    var gameStarted: bool
    var challenges: seq<string>
    var selectedChallenge: Option<string>
    /** `phoneHeartbeats.current`: the last heartbeat time of each phone. */
    var heartbeats: map<string, int>
    /** The `customChallenges` entry of local storage, already parsed. */
    var saved: Option<seq<string>>

    /** The two phone lists agree: `phoneIds` is the peer ids of `connectedPhones`, in
        order, each listed once. */
    ghost predicate Valid()
      reads this
    {
      phoneIds == Keys(connectedPhones, LinkPeer) && UniqueKeys(connectedPhones, LinkPeer)
    }

    constructor(stored: Option<seq<string>>)
      ensures Valid() && connectedPhones == [] && phoneIds == [] && !isConnected
      ensures !startSpin && spinTime == WheelHost.InitialSpinTime && spinCount == WheelHost.InitialSpinCount
      ensures currentSpinner == Some(HostSpinner) && !gameStarted && selectedChallenge == None
      ensures heartbeats == map[] && saved == stored
      ensures challenges == if stored.Some? then stored.value else WheelHost.DefaultChallenges
    {
      connectedPhones := [];
      phoneIds := [];
      isConnected := false;
      startSpin := false;
      spinTime := WheelHost.InitialSpinTime;
      spinCount := WheelHost.InitialSpinCount;
      currentSpinner := Some(HostSpinner);
      gameStarted := false;
      challenges := if stored.Some? then stored.value else WheelHost.DefaultChallenges;
      selectedChallenge := None;
      heartbeats := map[];
      saved := stored;
    }

    /** A phone connects: each list gains it unless its peer id is already there. */
    method OnConnection(conn: Link)
      requires Valid()
      modifies this
      ensures Valid() && isConnected
      ensures connectedPhones == AddIfAbsent(old(connectedPhones), conn, LinkPeer)
      ensures phoneIds == AddIfAbsent(old(phoneIds), conn.peer, Itself)
      ensures startSpin == old(startSpin) && spinTime == old(spinTime) && spinCount == old(spinCount)
      ensures currentSpinner == old(currentSpinner) && gameStarted == old(gameStarted)
      ensures challenges == old(challenges) && selectedChallenge == old(selectedChallenge)
      ensures heartbeats == old(heartbeats) && saved == old(saved)
    {
      KeysOfAddIfAbsent(connectedPhones, conn, LinkPeer);
      AddIfAbsentKeepsUnique(connectedPhones, conn, LinkPeer);
      connectedPhones := AddIfAbsent(connectedPhones, conn, LinkPeer);
      phoneIds := AddIfAbsent(phoneIds, conn.peer, Itself);
      isConnected := true;
    }

    /** `initiateSpin(force, peerId)`: a given peer id becomes the current spinner; the
        spin parameters are set, the wheel is asked to spin, and every open phone is
        told. */
    method InitiateSpin(force: real, peerId: Option<string>, open: set<Link>) returns (effects: seq<Effect>)
      requires Valid()
      modifies this
      ensures Valid()
      ensures currentSpinner == if Truthy(peerId) then peerId else old(currentSpinner)
      ensures spinTime == SpinTime(force) && spinCount == SpinCount(force) && startSpin
      ensures effects == Fanout(connectedPhones, open, true, SendMsg(SpinStarted))
      ensures connectedPhones == old(connectedPhones) && phoneIds == old(phoneIds) && isConnected == old(isConnected)
      ensures gameStarted == old(gameStarted) && challenges == old(challenges)
      ensures selectedChallenge == old(selectedChallenge) && heartbeats == old(heartbeats) && saved == old(saved)
    {
      if Truthy(peerId) {
        currentSpinner := peerId;
      }
      spinTime := SpinTime(force);
      spinCount := SpinCount(force);
      startSpin := true;
      effects := ForEachLink(connectedPhones, open, true, SendMsg(SpinStarted));
    }

    /** A message on a phone's link: a swipe while no spin is asked for starts one for
        that phone; a heartbeat records `now` for the phone and changes nothing else. */
    method OnData(conn: Link, msg: Message, open: set<Link>, now: int) returns (effects: seq<Effect>)
      requires Valid()
      modifies this
      ensures Valid()
      ensures msg.Swipe? && !old(startSpin) ==>
        && currentSpinner == (if Truthy(Some(conn.peer)) then Some(conn.peer) else old(currentSpinner))
        && spinTime == SpinTime(msg.force) && spinCount == SpinCount(msg.force) && startSpin
        && effects == Fanout(connectedPhones, open, true, SendMsg(SpinStarted))
      ensures !(msg.Swipe? && !old(startSpin)) ==>
        && effects == [] && currentSpinner == old(currentSpinner)
        && startSpin == old(startSpin) && spinTime == old(spinTime) && spinCount == old(spinCount)
      ensures heartbeats == if msg.Heartbeat? then old(heartbeats)[conn.peer := now] else old(heartbeats)
      ensures connectedPhones == old(connectedPhones) && phoneIds == old(phoneIds) && isConnected == old(isConnected)
      ensures gameStarted == old(gameStarted) && challenges == old(challenges)
      ensures selectedChallenge == old(selectedChallenge) && saved == old(saved)
    {
      effects := [];
      if msg.Swipe? && !startSpin {
        effects := InitiateSpin(msg.force, Some(conn.peer), open);
      }
      if msg.Heartbeat? {
        heartbeats := heartbeats[conn.peer := now];
      }
    }

    /** A phone link's `close` or `error`: the phone leaves both lists. */
    method OnConnectionLost(conn: Link)
      requires Valid()
      modifies this
      ensures Valid()
      ensures connectedPhones == RemoveKey(old(connectedPhones), conn.peer, LinkPeer)
      ensures phoneIds == RemoveKey(old(phoneIds), conn.peer, Itself)
      ensures isConnected == old(isConnected) && startSpin == old(startSpin)
      ensures spinTime == old(spinTime) && spinCount == old(spinCount)
      ensures currentSpinner == old(currentSpinner) && gameStarted == old(gameStarted)
      ensures challenges == old(challenges) && selectedChallenge == old(selectedChallenge)
      ensures heartbeats == old(heartbeats) && saved == old(saved)
    {
      KeysOfRemoveKey(connectedPhones, conn.peer, LinkPeer);
      RemoveKeyKeepsUnique(connectedPhones, conn.peer, LinkPeer);
      connectedPhones := RemoveKey(connectedPhones, conn.peer, LinkPeer);
      phoneIds := RemoveKey(phoneIds, conn.peer, Itself);
    }

    /** The wheel's `onFinished`: show the outcome, allow the next swipe, deliver the
        result, and clear the spinner. The legacy wheel this page shows passes only the
        label, so `isHost` arrives as `undefined` and the targeted branch is taken. */
    method HandleSpinCompleted(option: Option<string>, isHost: bool, open: set<Link>) returns (effects: seq<Effect>)
      requires Valid()
      modifies this
      ensures Valid()
      ensures effects == ResultDelivery(isHost, connectedPhones, old(currentSpinner), open, option)
      ensures selectedChallenge == option && !startSpin && currentSpinner == None
      ensures connectedPhones == old(connectedPhones) && phoneIds == old(phoneIds) && isConnected == old(isConnected)
      ensures spinTime == old(spinTime) && spinCount == old(spinCount) && gameStarted == old(gameStarted)
      ensures challenges == old(challenges) && heartbeats == old(heartbeats) && saved == old(saved)
    {
      selectedChallenge := option;
      startSpin := false;
      if isHost {
        effects := ForEachLink(connectedPhones, open, true, SendMsg(SpinResult(option)));
      } else {
        effects := ResultDelivery(false, connectedPhones, currentSpinner, open, option);
      }
      currentSpinner := None;
    }

    /** The Start Game button: the game starts and every listed phone is sent
        `gameStarted`, open or not. */
    method StartGame() returns (effects: seq<Effect>)
      requires Valid()
      modifies this
      ensures Valid() && gameStarted
      ensures effects == Fanout(connectedPhones, {}, false, SendMsg(GameStarted))
      ensures |effects| == |connectedPhones|
      ensures connectedPhones == old(connectedPhones) && phoneIds == old(phoneIds) && isConnected == old(isConnected)
      ensures startSpin == old(startSpin) && spinTime == old(spinTime) && spinCount == old(spinCount)
      ensures currentSpinner == old(currentSpinner) && challenges == old(challenges)
      ensures selectedChallenge == old(selectedChallenge) && heartbeats == old(heartbeats) && saved == old(saved)
    {
      gameStarted := true;
      effects := ForEachLink(connectedPhones, {}, false, SendMsg(GameStarted));
      FanoutLength(connectedPhones, {}, false, SendMsg(GameStarted));
    }

    /** Editing challenge `index` replaces that entry and saves the whole list. */
    method HandleEditChallenge(index: nat, value: string)
      requires index < |challenges|
      modifies this
      ensures challenges == WheelHost.EditedChallenges(old(challenges), index, value) && saved == Some(challenges)
      ensures connectedPhones == old(connectedPhones) && phoneIds == old(phoneIds) && isConnected == old(isConnected)
      ensures startSpin == old(startSpin) && spinTime == old(spinTime) && spinCount == old(spinCount)
      ensures currentSpinner == old(currentSpinner) && gameStarted == old(gameStarted)
      ensures selectedChallenge == old(selectedChallenge) && heartbeats == old(heartbeats)
    {
      challenges := WheelHost.EditedChallenges(challenges, index, value);
      saved := Some(challenges);
    }

    /** The Back to Home button under the wheel: the game view closes. */
    method StopGame()
      modifies this
      ensures !gameStarted
      ensures connectedPhones == old(connectedPhones) && phoneIds == old(phoneIds) && isConnected == old(isConnected)
      ensures startSpin == old(startSpin) && spinTime == old(spinTime) && spinCount == old(spinCount)
      ensures currentSpinner == old(currentSpinner) && challenges == old(challenges)
      ensures selectedChallenge == old(selectedChallenge) && heartbeats == old(heartbeats) && saved == old(saved)
    {
      gameStarted := false;
    }
  }

  /** With one phone listed, a report without `isHost` reaches it exactly when it is the
      spinner and its link is open. */
  lemma LonePhoneDelivery(phone: Link, open: set<Link>, option: Option<string>)
    ensures ResultDelivery(false, [phone], Some(if phone.peer != "" then phone.peer else HostSpinner), open, option)
      == if phone.peer != "" && phone in open then [Send(phone, SpinResult(option))] else []
  {
    assert Link(phone.peer) == phone;
  }

  /** A fresh page to which one phone has connected. */
  method PageWithPhone(phone: Link) returns (page: DesktopPage)
    ensures fresh(page) && page.Valid() && !page.startSpin
    ensures page.connectedPhones == [phone] && page.currentSpinner == Some(HostSpinner)
  {
    page := new DesktopPage(None);
    page.OnConnection(phone);
    assert page.connectedPhones == [phone];
  }

  /** ... on which that phone has then swiped. */
  method PageAfterSwipe(phone: Link, force: real, open: set<Link>, now: int) returns (page: DesktopPage)
    ensures fresh(page) && page.Valid()
    ensures page.connectedPhones == [phone]
    ensures page.currentSpinner == Some(if phone.peer != "" then phone.peer else HostSpinner)
  {
    page := PageWithPhone(phone);
    var started := page.OnData(phone, Swipe(force), open, now);
  }

  /** A phone that connects and swipes is sent the outcome of the round its swipe
      starts, because the legacy wheel reports without `isHost`, when its link is still
      open and PeerJS gave it a non-empty id. */
  method SwipedPhoneGetsItsResult(phone: Link, force: real, option: Option<string>,
                                  open: set<Link>, now: int) returns (effects: seq<Effect>)
    ensures effects == if phone.peer != "" && phone in open then [Send(phone, SpinResult(option))] else []
  {
    var page := PageAfterSwipe(phone, force, open, now);
    LonePhoneDelivery(phone, open, option);
    effects := page.HandleSpinCompleted(option, false, open);
  }
}
