/** The newer wheel component (components/SpinWheel.tsx): it keeps whether it is spinning
    and the angle it rests at, and a spin runs one round per player when the host presses
    Spin, or one round for the current spinner otherwise. Each awaited round completes
    before the next begins. Every round of one spin computes its outcome from the
    `currentAngle` the spin started with: the running `spinWheel` closure never sees
    the `setCurrentAngle` of an earlier round. The `Math.random()` draws of each round
    are parameters. */
module SpinWheelComponent {
  import opened Js
  import opened Protocol
  import opened Registry
  import opened WheelOutcome

  /** The two `Math.random()` draws of a round: the extra rotation within a segment, and
      the further rotation of a round the host started. */
  datatype Draw = Draw(extra: real, jitter: real)

  /** One round: the player given to `onSpinStart`, and the `playerId` given to `onFinished`. */
  datatype Turn = Turn(spinner: Option<Player>, playerId: Option<string>)

  /** What the wheel tells the page that hosts it. */
  datatype Callback =
    | SpinStart(spinner: Option<Player>)                                       // onSpinStart(spinner)
    | Finished(winner: Option<string>, isHost: bool, playerId: Option<string>) // onFinished(label, isHost, playerId)

  /** The rounds of one call of `spinWheel(isHost)`: every player in list order when the
      host starts it and someone has joined, otherwise a single round for the current
      spinner with no player id. */
  function Turns(isHost: bool, players: seq<Player>, currentSpinner: Option<Player>): (ts: seq<Turn>)
    ensures |ts| > 0
    ensures isHost && |players| > 0 ==>
      |ts| == |players| && forall i :: 0 <= i < |ts| ==> ts[i] == Turn(Some(players[i]), Some(players[i].id))
    ensures !(isHost && |players| > 0) ==> ts == [Turn(currentSpinner, None)]
  {
    if isHost && |players| > 0 then
      seq(|players|, i requires 0 <= i < |players| => Turn(Some(players[i]), Some(players[i].id)))
    else [Turn(currentSpinner, None)]
  }

  /** The angle a round leaves the wheel at, from the angle it started at. */
  function RoundAngle(angle: real, isHost: bool, spinCount: int, d: Draw, n: nat): real
    requires n > 0
  {
    FinalAngle(angle, TotalRotation(isHost, spinCount, d.extra, d.jitter, n))
  }

  /** Rounds run strictly one after the other, each computing its outcome from the angle
      `start` the spin began at: the callbacks in the order they are made, and the angle
      the last round stores. */
  function Play(segments: seq<string>, spinCount: int, isHost: bool, start: real,
                turns: seq<Turn>, draws: seq<Draw>): (seq<Callback>, real)
    requires |segments| > 0 && |draws| == |turns|
    decreases |turns|
  {
    if turns == [] then ([], start)
    else
      var k := |turns| - 1;
      var cbs := Play(segments, spinCount, isHost, start, turns[..k], draws[..k]).0;
      var a := RoundAngle(start, isHost, spinCount, draws[k], |segments|);
      (cbs + [SpinStart(turns[k].spinner), Finished(Label(segments, WinningIndex(a, |segments|)), isHost, turns[k].playerId)], a)
  }

  /** The outcome round `k` reports: a single round's from the spin's starting angle with
      that round's own draws, whatever the earlier rounds drew. */
  function RoundWinner(segments: seq<string>, spinCount: int, isHost: bool, start: real, d: Draw): Option<string>
    requires |segments| > 0
  {
    Label(segments, WinningIndex(RoundAngle(start, isHost, spinCount, d, |segments|), |segments|))
  }

  /** Round `k` tells the page whom it is for, then reports for that player the outcome
      of its own draws from the starting angle; nothing else is called back, and the
      wheel is left where the last round computed. */
  lemma {:induction false} PlayShape(segments: seq<string>, spinCount: int, isHost: bool, angle: real,
                                     turns: seq<Turn>, draws: seq<Draw>)
    requires |segments| > 0 && |draws| == |turns|
    ensures var cbs := Play(segments, spinCount, isHost, angle, turns, draws).0;
      && |cbs| == 2 * |turns|
      && forall k :: 0 <= k < |turns| ==>
           && cbs[2 * k] == SpinStart(turns[k].spinner)
           && cbs[2 * k + 1] == Finished(RoundWinner(segments, spinCount, isHost, angle, draws[k]),
                                         isHost, turns[k].playerId)
    ensures |turns| > 0 ==>
      Play(segments, spinCount, isHost, angle, turns, draws).1
        == RoundAngle(angle, isHost, spinCount, draws[|turns| - 1], |segments|)
    decreases |turns|
  {
    if turns != [] {
      var k := |turns| - 1;
      PlayShape(segments, spinCount, isHost, angle, turns[..k], draws[..k]);
      var cbs := Play(segments, spinCount, isHost, angle, turns, draws).0;
      var prev := Play(segments, spinCount, isHost, angle, turns[..k], draws[..k]).0;
      assert cbs[..2 * k] == prev;
      forall j | 0 <= j < k
        ensures cbs[2 * j] == SpinStart(turns[j].spinner)
             && cbs[2 * j + 1] == Finished(RoundWinner(segments, spinCount, isHost, angle, draws[j]),
                                           isHost, turns[j].playerId)
      {
        assert cbs[2 * j] == prev[2 * j] && cbs[2 * j + 1] == prev[2 * j + 1];
        assert turns[..k][j] == turns[j] && draws[..k][j] == draws[j];
      }
    }
  }

  /** On a wheel of 3 or of 7 to 10 segments every round reports a segment. */
  lemma {:induction false} PlayReportsSegments(segments: seq<string>, spinCount: int, isHost: bool, angle: real,
                                               turns: seq<Turn>, draws: seq<Draw>)
    requires |segments| == 3 || 7 <= |segments| <= 10
    requires |draws| == |turns|
    ensures var cbs := Play(segments, spinCount, isHost, angle, turns, draws).0;
      forall c :: c in cbs && c.Finished? ==> c.winner.Some? && c.winner.value in segments
    decreases |turns|
  {
    if turns != [] {
      var k := |turns| - 1;
      PlayReportsSegments(segments, spinCount, isHost, angle, turns[..k], draws[..k]);
      var a' := RoundAngle(angle, isHost, spinCount, draws[k], |segments|);
      CalIndexInRangeExactly(|segments|);
      assert 0 <= CalIndex(WinningIndex(a', |segments|), |segments|) < |segments|;
    }
  }

  /** A spin the host starts with players joined gives every player one round, in list
      order, and reports each outcome under that player's id. */
  lemma HostSpinVisitsPlayersInOrder(segments: seq<string>, spinCount: int, angle: real,
                                     players: seq<Player>, currentSpinner: Option<Player>, draws: seq<Draw>)
    requires |segments| > 0 && |players| > 0 && |draws| == |players|
    ensures var cbs := Play(segments, spinCount, true, angle, Turns(true, players, currentSpinner), draws).0;
      && |cbs| == 2 * |players|
      && forall k :: 0 <= k < |players| ==>
           && cbs[2 * k] == SpinStart(Some(players[k]))
           && cbs[2 * k + 1] == Finished(RoundWinner(segments, spinCount, true, angle, draws[k]), true, Some(players[k].id))
  {
    PlayShape(segments, spinCount, true, angle, Turns(true, players, currentSpinner), draws);
  }

  /** The `players` prop: the list, or none when the page passes no list. */
  function Listed(players: Option<seq<Player>>): (ps: seq<Player>)
    ensures players.Some? ==> ps == players.value
    ensures players.None? ==> ps == []
  {
    if players.Some? then players.value else []
  }

  class SpinWheel {
    var isSpinning: bool
    var currentAngle: real

    /** The stored angle is always one `FinalAngle` produced (or the initial 0). */
    ghost predicate Valid()
      reads this
    {
      -360.0 < currentAngle < 360.0
    }

    constructor()
      ensures Valid() && !isSpinning && currentAngle == 0.0
    {
      isSpinning := false;
      currentAngle := 0.0;
    }

    /** The `onComplete` of a round of a spin that started at angle `start` (the
        `currentAngle` its closure captured): the wheel stops, the round's resting angle
        is stored, and the outcome is reported. */
    method CompleteRound(start: real, segments: seq<string>, spinCount: int, isHost: bool, turn: Turn, d: Draw)
      returns (cb: Callback)
      requires |segments| > 0
      modifies this
      ensures Valid() && !isSpinning
      ensures currentAngle == RoundAngle(start, isHost, spinCount, d, |segments|)
      ensures cb == Finished(Label(segments, WinningIndex(currentAngle, |segments|)), isHost, turn.playerId)
    {
      isSpinning := false;
      var totalRotation := TotalRotation(isHost, spinCount, d.extra, d.jitter, |segments|);
      var finalAngle := FinalAngle(start, totalRotation);
      var winningIndex := WinningIndex(finalAngle, |segments|);
      cb := Finished(Label(segments, winningIndex), isHost, turn.playerId);
      currentAngle := finalAngle;
    }

    /** `spinWheel(isHost)`: nothing while a spin is under way; otherwise one round per
        turn, in order, each announced by `onSpinStart` before it runs. A page that passes
        no `players` (`None`) makes a host spin throw at `players.length`, right after
        `isSpinning` was set, so the wheel stays spinning. */
    method Spin(isHost: bool, segments: seq<string>, spinCount: int, players: Option<seq<Player>>,
                currentSpinner: Option<Player>, draws: seq<Draw>) returns (cbs: seq<Callback>)
      requires Valid() && |segments| > 0
      requires |draws| == |Turns(isHost, Listed(players), currentSpinner)|
      modifies this
      ensures Valid()
      ensures old(isSpinning) ==> cbs == [] && isSpinning && currentAngle == old(currentAngle)
      ensures !old(isSpinning) && isHost && players.None? ==>
        cbs == [] && isSpinning && currentAngle == old(currentAngle)
      ensures !old(isSpinning) && !(isHost && players.None?) ==> (!isSpinning &&
        (cbs, currentAngle) == Play(segments, spinCount, isHost, old(currentAngle), Turns(isHost, Listed(players), currentSpinner), draws))
    {
      if isSpinning {
        return [];
      }
      isSpinning := true;
      if isHost && players.None? {
        return [];
      }
      var start := currentAngle;
      var turns := Turns(isHost, Listed(players), currentSpinner);
      cbs := [];
      var i := 0;
      while i < |turns|
        invariant 0 <= i <= |turns|
        invariant Valid()
        invariant i > 0 ==> !isSpinning
        invariant (cbs, currentAngle) == Play(segments, spinCount, isHost, old(currentAngle), turns[..i], draws[..i])
      {
        assert turns[..i + 1][..i] == turns[..i] && draws[..i + 1][..i] == draws[..i];
        ghost var before := cbs;
        cbs := cbs + [SpinStart(turns[i].spinner)];
        var done := CompleteRound(start, segments, spinCount, isHost, turns[i], draws[i]);
        cbs := cbs + [done];
        assert cbs == before + [SpinStart(turns[i].spinner), done];
        i := i + 1;
      }
      assert turns[..i] == turns && draws[..i] == draws;
    }

    /** The effect on a change of the `startSpin` prop: spin as a non-host round when
        asked to and not already spinning. */
    method OnStartSpin(startSpin: bool, segments: seq<string>, spinCount: int,
                       currentSpinner: Option<Player>, d: Draw) returns (cbs: seq<Callback>)
      requires Valid() && |segments| > 0
      modifies this
      ensures Valid()
      ensures !(startSpin && !old(isSpinning)) ==> cbs == [] && isSpinning == old(isSpinning) && currentAngle == old(currentAngle)
      ensures startSpin && !old(isSpinning) ==> (!isSpinning &&
        (cbs, currentAngle) == Play(segments, spinCount, false, old(currentAngle), [Turn(currentSpinner, None)], [d]))
    {
      cbs := [];
      if startSpin && !isSpinning {
        cbs := Spin(false, segments, spinCount, None, currentSpinner, [d]);
      }
    }
  }

  /** A wheel given no `players` and spun by the host stays spinning, so a later
      `startSpin` starts no round and reports nothing. */
  method HostSpinWithoutPlayersJams(segments: seq<string>, spinCount: int, spinner: Option<Player>,
                                    d: Draw, d': Draw) returns (cbs: seq<Callback>)
    requires |segments| > 0
    ensures cbs == []
  {
    var wheel := new SpinWheel();
    var first := wheel.Spin(true, segments, spinCount, None, spinner, [d]);
    cbs := wheel.OnStartSpin(true, segments, spinCount, spinner, d');
  }
}
