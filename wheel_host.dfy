/** The drunk-wheel host page (games/drunk-wheel-challenge/host/page.tsx): the joined
    players, the spin parameters it hands to the wheel, who the current round is for,
    and what it sends to the players. Each handler returns the effects it performs on
    the links, in order; which links are open is given to it as `open`. */
module WheelHost {
  import opened Protocol
  import opened Registry
  import opened Force
  import SpinWheelComponent

  /** The challenge labels used when none were saved. */
  const DefaultChallenges: seq<string> := [
    "ดื่ม 2 ช็อต 🍻",
    "หมุนอีกครั้ง!",
    "เลือกคนอื่นให้ดื่ม 🍷",
    "วิดพื้น 10 ครั้ง 💪",
    "เล่าเรื่องตลก 🎤",
    "ดื่มโดยไม่ใช้มือ! 🙌",
    "ทำหน้าตลก 30 วินาที 😜",
    "ทุกคนต้องดื่ม 🌊",
    "สลับเสื้อกับใครสักคน 👕",
    "หมุนอีกครั้งและดื่ม 2 เท่า! 🔄"]

  const InitialSpinTime: real := 5000.0
  const InitialSpinCount: int := 10

  /** What `handleSpinCompleted` sends. Its second parameter is declared as the payer's
      id, but the wheel passes its `isHost` flag in that position; only the flag's
      truth matters. When it is set, the player listed under the current spinner's id
      receives the result if that player's link is open; nothing else is sent. */
  function SpinResultDelivery(payerId: bool, players: seq<Player>, currentSpinner: Option<Player>,
                              open: set<Link>, option: Option<string>): (es: seq<Effect>)
    ensures |es| <= 1
    ensures es != [] <==>
      payerId && currentSpinner.Some? && HasKey(players, PlayerId, currentSpinner.value.id)
      && players[FindIndex(players, PlayerId, currentSpinner.value.id)].link in open
    ensures es != [] ==>
      es[0] == Send(players[FindIndex(players, PlayerId, currentSpinner.value.id)].link, SpinResult(option))
  {
    if payerId && currentSpinner.Some? then
      match Find(players, PlayerId, currentSpinner.value.id)
      case Some(target) => if target.link in open then [Send(target.link, SpinResult(option))] else []
      case None => []
    else []
  }

  /** In a round the host started, the wheel names the player before reporting; the
      result then goes to that player alone, provided the link is open. */
  lemma HostRoundResultReachesItsPlayer(players: seq<Player>, k: nat, open: set<Link>, option: Option<string>)
    requires UniqueKeys(players, PlayerId) && k < |players|
    ensures SpinResultDelivery(true, players, Some(players[k]), open, option) ==
      if players[k].link in open then [Send(players[k].link, SpinResult(option))] else []
  {
    FindUnique(players, PlayerId, k);
  }

  /** A round started by a swipe is reported with `isHost` false, so its result is sent
      to nobody, the swiping player included. */
  lemma SwipeRoundSendsNoResult(segments: seq<string>, spinCount: int, angle: real,
                                spinner: Option<Player>, d: SpinWheelComponent.Draw,
                                players: seq<Player>, open: set<Link>)
    requires |segments| > 0
    ensures var cbs := SpinWheelComponent.Play(segments, spinCount, false, angle,
                                                [SpinWheelComponent.Turn(spinner, None)], [d]).0;
      && |cbs| == 2 && cbs[1].Finished?
      && SpinResultDelivery(cbs[1].isHost, players, spinner, open, cbs[1].winner) == []
  {
    SpinWheelComponent.PlayShape(segments, spinCount, false, angle, [SpinWheelComponent.Turn(spinner, None)], [d]);
  }

  /** `challenges` with the entry at `index` replaced, as `handleEditChallenge` builds it. */
  function EditedChallenges(challenges: seq<string>, index: nat, value: string): (r: seq<string>)
    requires index < |challenges|
    ensures |r| == |challenges| && r[index] == value
    ensures forall i :: 0 <= i < |r| && i != index ==> r[i] == challenges[i]
  {
    challenges[index := value]
  }

  class WheelHostPage {
    var players: seq<Player>
    var startSpin: bool
    var spinTime: real
    var spinCount: int
    var currentSpinner: Option<Player>
    var gameStarted: bool
    var challenges: seq<string>
    var selectedChallenge: Option<string>
    /** The `customChallenges` entry of local storage, already parsed. */
    var saved: Option<seq<string>>

    /** Every player id is listed once. */
    ghost predicate Valid()
      reads this
    {
      UniqueKeys(players, PlayerId)
    }

    /** Mounting: single-player mode (`?mode=single`) starts the game at once, and saved
        challenges replace the defaults. */
    constructor(singlePlayer: bool, stored: Option<seq<string>>)
      ensures Valid() && players == [] && !startSpin && currentSpinner == None
      ensures spinTime == InitialSpinTime && spinCount == InitialSpinCount
      ensures gameStarted == singlePlayer && selectedChallenge == None && saved == stored
      ensures challenges == if stored.Some? then stored.value else DefaultChallenges
    {
      players := [];
      startSpin := false;
      spinTime := InitialSpinTime;
      spinCount := InitialSpinCount;
      currentSpinner := None;
      gameStarted := singlePlayer;
      challenges := if stored.Some? then stored.value else DefaultChallenges;
      selectedChallenge := None;
      saved := stored;
    }

    /** `closeConnection`: close every player link that is open. */
    method CloseConnection(open: set<Link>) returns (effects: seq<Effect>)
      ensures effects == Fanout(Links(players), open, true, CloseLink)
    {
      effects := [];
      if |players| > 0 {
        effects := ForEachLink(Links(players), open, true, CloseLink);
      }
    }

    /** `initiateSpin(force)`: set the spin parameters, ask the wheel to spin, and tell
        every open player that a spin started. */
    method InitiateSpin(force: real, open: set<Link>) returns (effects: seq<Effect>)
      requires Valid()
      modifies this
      ensures Valid()
      ensures spinTime == SpinTime(force) && spinCount == SpinCount(force) && startSpin
      ensures effects == Fanout(Links(players), open, true, SendMsg(SpinStarted))
      ensures players == old(players) && currentSpinner == old(currentSpinner)
      ensures gameStarted == old(gameStarted) && challenges == old(challenges)
      ensures selectedChallenge == old(selectedChallenge) && saved == old(saved)
    {
      spinTime := SpinTime(force);
      spinCount := SpinCount(force);
      startSpin := true;
      effects := ForEachLink(Links(players), open, true, SendMsg(SpinStarted));
    }

    /** A message on a player's link. A swipe while no spin is asked for makes the
        sender the current spinner and starts a spin; a join lists the player unless
        the id is already listed. */
    method OnData(conn: Link, msg: Message, open: set<Link>) returns (effects: seq<Effect>)
      requires Valid()
      modifies this
      ensures Valid()
      ensures msg.Swipe? && !old(startSpin) ==>
        && currentSpinner == Some(Player(conn.peer, None, conn))
        && spinTime == SpinTime(msg.force) && spinCount == SpinCount(msg.force) && startSpin
        && effects == Fanout(Links(players), open, true, SendMsg(SpinStarted))
      ensures !(msg.Swipe? && !old(startSpin)) ==>
        && effects == []
        && startSpin == old(startSpin) && currentSpinner == old(currentSpinner)
        && spinTime == old(spinTime) && spinCount == old(spinCount)
      ensures msg.Join? ==> players == AddIfAbsent(old(players), Player(msg.peerId, Some(msg.nickname), conn), PlayerId)
      ensures !msg.Join? ==> players == old(players)
      ensures gameStarted == old(gameStarted) && challenges == old(challenges)
      ensures selectedChallenge == old(selectedChallenge) && saved == old(saved)
    {
      effects := [];
      if msg.Swipe? && !startSpin {
        currentSpinner := Some(Player(conn.peer, None, conn));
        effects := InitiateSpin(msg.force, open);
      }
      if msg.Join? {
        AddIfAbsentKeepsUnique(players, Player(msg.peerId, Some(msg.nickname), conn), PlayerId);
        players := AddIfAbsent(players, Player(msg.peerId, Some(msg.nickname), conn), PlayerId);
      }
    }

    /** A player link's `close` or `error`: every open player link is closed, and the
        players listed under that link's peer id are dropped. */
    method OnConnectionLost(conn: Link, open: set<Link>) returns (effects: seq<Effect>)
      requires Valid()
      modifies this
      ensures Valid()
      ensures effects == Fanout(Links(old(players)), open, true, CloseLink)
      ensures players == RemoveKey(old(players), conn.peer, PlayerId)
      ensures startSpin == old(startSpin) && currentSpinner == old(currentSpinner)
      ensures spinTime == old(spinTime) && spinCount == old(spinCount)
      ensures gameStarted == old(gameStarted) && challenges == old(challenges)
      ensures selectedChallenge == old(selectedChallenge) && saved == old(saved)
    {
      effects := CloseConnection(open);
      RemoveKeyKeepsUnique(players, conn.peer, PlayerId);
      players := RemoveKey(players, conn.peer, PlayerId);
    }

    /** The wheel's `onSpinStart`: the round is for `spinner`. */
    method HandleSpinStart(spinner: Option<Player>)
      modifies this
      ensures currentSpinner == spinner
      ensures players == old(players) && startSpin == old(startSpin)
      ensures spinTime == old(spinTime) && spinCount == old(spinCount)
      ensures gameStarted == old(gameStarted) && challenges == old(challenges)
      ensures selectedChallenge == old(selectedChallenge) && saved == old(saved)
    {
      currentSpinner := spinner;
    }

    /** The wheel's `onFinished`: show the outcome, allow the next swipe, deliver the
        result, and forget the round's player. */
    method HandleSpinCompleted(option: Option<string>, payerId: bool, open: set<Link>) returns (effects: seq<Effect>)
      requires Valid()
      modifies this
      ensures Valid()
      ensures effects == SpinResultDelivery(payerId, players, old(currentSpinner), open, option)
      ensures selectedChallenge == option && !startSpin && currentSpinner == None
      ensures players == old(players) && spinTime == old(spinTime) && spinCount == old(spinCount)
      ensures gameStarted == old(gameStarted) && challenges == old(challenges) && saved == old(saved)
    {
      selectedChallenge := option;
      startSpin := false;
      effects := SpinResultDelivery(payerId, players, currentSpinner, open, option);
      currentSpinner := None;
    }

    /** Editing challenge `index` (one input per challenge) replaces that entry and
        saves the whole list. */
    method HandleEditChallenge(index: nat, value: string)
      requires index < |challenges|
      modifies this
      ensures challenges == EditedChallenges(old(challenges), index, value)
      ensures saved == Some(challenges)
      ensures players == old(players) && startSpin == old(startSpin) && currentSpinner == old(currentSpinner)
      ensures spinTime == old(spinTime) && spinCount == old(spinCount)
      ensures gameStarted == old(gameStarted) && selectedChallenge == old(selectedChallenge)
    {
      challenges := EditedChallenges(challenges, index, value);
      saved := Some(challenges);
    }

    /** The Start Game button: the game starts and every open player is told so. */
    method StartGame(open: set<Link>) returns (effects: seq<Effect>)
      requires Valid()
      modifies this
      ensures Valid()
      ensures gameStarted
      ensures effects == Fanout(Links(players), open, true, SendMsg(GameStarted))
      ensures players == old(players) && startSpin == old(startSpin) && currentSpinner == old(currentSpinner)
      ensures spinTime == old(spinTime) && spinCount == old(spinCount)
      ensures challenges == old(challenges) && selectedChallenge == old(selectedChallenge) && saved == old(saved)
    {
      gameStarted := true;
      effects := ForEachLink(Links(players), open, true, SendMsg(GameStarted));
    }

    /** The Back to QR button: the game view closes; the players are not told. */
    method BackToQr()
      modifies this
      ensures !gameStarted
      ensures players == old(players) && startSpin == old(startSpin) && currentSpinner == old(currentSpinner)
      ensures spinTime == old(spinTime) && spinCount == old(spinCount)
      ensures challenges == old(challenges) && selectedChallenge == old(selectedChallenge) && saved == old(saved)
    {
      gameStarted := false;
    }
  }
}
