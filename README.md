# P2P game hub: wheel and dice outcomes, host sessions, controllers

A Dafny model of the logic inside the React pages of a peer-to-peer party-game hub. A
host page (the drunk-wheel host, the desktop wheel, the roll-dice host) keeps a list of
connected players. Phones running a controller page (wheel player, dice player, phone)
join it over PeerJS links and send swipes. A swipe's speed becomes a force. The force
sets how long and how many turns the wheel spins, or how hard the die is thrown. The
host decides which segment or face won and sends the result back to a player.

The model covers:

- **Outcome resolution.** The newer SVG wheel (`WheelOutcome`, `SpinWheelComponent`)
  uses a pointer-aligned index followed by the `calIndex` remap. The older canvas wheel
  (`WheelOutcome`, `LegacySpinWheel`) uses a truncated-remainder index. The die
  (`Dice`) picks the first face normal pointing most nearly up and maps it through the
  `faceOrder` table. Angles are exact reals. JavaScript's `%` is the truncated
  remainder (`Js.Rem`), not Dafny's Euclidean one.
- **The wheel and die components as objects.** Their `isSpinning` / `rolling` guards,
  the stored resting angle, and the newer wheel's round-per-player loop.
- **The three host pages as classes.** Their state is the player registry (`Registry`:
  append if the id is absent, filter on removal) plus each page's flags. Each handler
  returns the transport effects it would perform (`Protocol.Effect`) instead of
  performing them. The set of open links is a parameter.
- **The three controller pages as classes.** They hold the connect guard, the
  connection flags, the timeout, and the swipe-to-force conversion (`Force`,
  `Controller`).

`Math.random()` draws, `Date.now()` readings and link openness are parameters.

Behaviours of the code that the model keeps as they are, including where the project's
design notes describe a different outcome (7 turns at force 4, segment "D" in the
four-segment example, a result for the swiping player on the drunk-wheel host):

- A force of 4 gives `5 + floor(4 * 3) = 17` whole turns and a 5000 ms spin
  (`Force.SpinAtForceFour`).
- The newer wheel applies the `calIndex` remap after finding the segment under the
  pointer. Four segments resting at 90 degrees put index 3 under the pointer; the remap
  sends it to 6, so the reported winner is `undefined` (`WheelOutcome.FourSegmentsAtNinety`).
- Every round of one spin of the newer wheel computes its outcome from the angle the
  spin started at, not from where the previous round left the wheel
  (`SpinWheelComponent.PlayShape`).
- On the drunk-wheel host page, a round started by a swipe sends its result to nobody.
  The wheel passes `isHost` (false) where the page expects a payer id
  (`WheelHost.SwipeRoundSendsNoResult`). The desktop page does send the result to the
  swiping phone (`DesktopHost.SwipedPhoneGetsItsResult`).
- The drunk-wheel host page passes no `players` to the wheel. Its Spin button then
  throws and leaves the wheel spinning until it is mounted again, so no later swipe spins it
  (`SpinWheelComponent.HostSpinWithoutPlayersJams`).

## Model

| member | source | states |
|---|---|---|
| Js.Rem | app/components/SpinWheel.tsx:94 | JavaScript `x % m`: the result lies in (-m, m), carries the sign of `x`, and differs from `x` by a whole multiple of `m` |
| Js.RemIdempotent | app/SpinWheel.tsx:50 | applying `% m` twice equals applying it once |
| Js.RemAddMultiple | app/components/SpinWheel.tsx:94 | adding whole multiples of `m` to a non-negative number leaves its remainder unchanged |
| Js.IntRem | app/SpinWheel.tsx:49-51 | the integer `%` lies in (-n, n), has the sign of the dividend, and differs from it by a whole multiple of `n` |
| Js.IntRemUnique | app/SpinWheel.tsx:49-51 | those properties determine the integer `%` uniquely |
| Js.Trim | app/games/drunk-wheel-challenge/player/page.tsx:67 | `trim()` yields the infix of the string with only white space cut off either side; it neither starts nor ends with white space |
| Js.TrimIdempotent | app/games/drunk-wheel-challenge/player/page.tsx:67 | trimming a trimmed nickname changes nothing |
| Protocol.FanoutExact | app/games/drunk-wheel-challenge/host/page.tsx:158-162 | a `forEach` send or close reaches exactly the listed links that pass the open check, and performs no other effect |
| Protocol.FanoutConcat | app/games/drunk-wheel-challenge/host/page.tsx:158-162 | the links are visited in list order |
| Protocol.FanoutLength | app/desktop/page.tsx:232-236 | one effect per admitted link; with no open check, one per listed link |
| Protocol.ForEachLink | app/games/drunk-wheel-challenge/host/page.tsx:158-162 | the loop performs exactly the fan-out |
| Registry.AddIfAbsent | app/games/drunk-wheel-challenge/host/page.tsx:109-121 | a join appends the entry when its id is absent; otherwise the list is unchanged; either way the id is listed afterwards |
| Registry.RemoveKey | app/games/drunk-wheel-challenge/host/page.tsx:128 | the filter keeps exactly the entries whose id differs from the closed peer |
| Registry.Find | app/games/drunk-wheel-challenge/host/page.tsx:173-175 | `find` returns an entry iff one has the key, and then the first such entry |
| Registry.FindUnique | app/games/drunk-wheel-challenge/host/page.tsx:173-175 | with unique ids, looking up an entry's id finds that entry |
| Registry.NotifyOpenPlayers | app/games/drunk-wheel-challenge/host/page.tsx:200-207 | the open-checked broadcast reaches exactly the players whose link is open |
| Registry.AddIfAbsentKeepsUnique | app/games/drunk-wheel-challenge/host/page.tsx:109-121 | a join keeps player ids unique |
| Registry.RemoveKeyKeepsUnique | app/games/drunk-wheel-challenge/host/page.tsx:128 | a removal keeps player ids unique |
| Registry.RemoveKeyConcat | app/games/drunk-wheel-challenge/host/page.tsx:134 | filtering distributes over concatenation |
| Registry.RemoveKeyAbsent | app/games/drunk-wheel-challenge/host/page.tsx:134 | removing an id nobody has leaves the list unchanged |
| Registry.RemoveKeyIsSubsequence | app/games/drunk-wheel-challenge/host/page.tsx:134 | removal keeps the remaining players in their order |
| Registry.ReplayKeepsUnique | app/games/drunk-wheel-challenge/host/page.tsx:109-134 | ids stay unique across any sequence of joins and removals |
| Registry.ReplayKeepsOrder | app/games/drunk-wheel-challenge/host/page.tsx:109-134 | after any sequence of joins and removals, the list is a subsequence of the initial list followed by the offered players in arrival order |
| Registry.HasKeyOfKeys | app/desktop/page.tsx:79-86 | `phoneIds.includes(peer)` agrees with `connectedPhones.some(p => p.peer === peer)` |
| Registry.KeysOfAddIfAbsent | app/desktop/page.tsx:77-90 | appending a phone if absent and appending its id if absent keep `phoneIds` equal to the phones' peer ids |
| Registry.KeysOfRemoveKey | app/desktop/page.tsx:108-111 | filtering both lists keeps `phoneIds` equal to the phones' peer ids |
| Force.ClampedForce | app/games/drunk-wheel-challenge/player/page.tsx:116-120 | the wheel/dice player force lies in [1, 10]; it is the raw speed plus variation when that is within [1, 10] and is clamped otherwise; a zero swipe time gives 10 |
| Force.CappedForce | app/phone/page.tsx:68 | the phone force is at most 10; it is the speed when the speed is at most 10; it is positive for a swipe with positive duration |
| Force.CappedForceHasNoFloor | app/phone/page.tsx:68 | a slow swipe gives the desktop a force below 1, while the clamped force is never below 1 |
| Force.SpinTime | app/games/drunk-wheel-challenge/host/page.tsx:154 | different forces give different spin times, and a non-negative force at least 3000 ms; its bounds and growth are stated in `Force.ClampedForceSpinBounds` and `Force.SpinParametersMonotone` |
| Force.SpinCount | app/games/drunk-wheel-challenge/host/page.tsx:155 | `spinCount - 5` is the floor of `3·force` |
| Force.SpinParametersMonotone | app/games/drunk-wheel-challenge/host/page.tsx:154-155 | a larger force never gives a shorter spin or fewer turns |
| Force.ClampedForceSpinBounds | app/games/drunk-wheel-challenge/host/page.tsx:154-155 | for every force a player page sends, a spin lasts 3.5 to 8 s and makes 8 to 35 turns |
| Force.SpinAtForceFour | app/games/drunk-wheel-challenge/host/page.tsx:154-155 | force 4 gives 17 turns and 5000 ms |
| WheelOutcome.SegmentSize | app/components/SpinWheel.tsx:39 | the segments tile the full 360 degrees |
| WheelOutcome.FinalAngle | app/components/SpinWheel.tsx:94 | the resting angle lies in (-360, 360), is non-negative for a non-negative accumulated angle, and differs from it by whole turns |
| WheelOutcome.FinalAngleIdempotent | app/components/SpinWheel.tsx:94 | normalising an already normalised angle changes nothing |
| WheelOutcome.FinalAngleWholeTurns | app/components/SpinWheel.tsx:94 | extra whole turns do not move the resting angle |
| WheelOutcome.ExtraRotation | app/components/SpinWheel.tsx:81 | for a draw in [0, 1), the extra rotation lies in [0, segmentSize) |
| WheelOutcome.TotalRotation | app/components/SpinWheel.tsx:82-84 | a non-host round turns `spinCount·360 + extraRotation`; the rotation is non-negative for the ranges of the draws |
| WheelOutcome.SpinCountIrrelevant | app/components/SpinWheel.tsx:82-94 | the number of whole turns does not affect where a round stops |
| WheelOutcome.AdjustedAngle | app/components/SpinWheel.tsx:95 | the pointer-aligned angle lies in [0, 360) for every resting angle up to 360 |
| WheelOutcome.WinningIndex | app/components/SpinWheel.tsx:96 | the index names the segment whose arc holds the adjusted angle, and it is in [0, n) |
| WheelOutcome.CalIndexInRangeExactly | app/components/SpinWheel.tsx:106-111 | the remap sends every index into range iff the wheel has 3 segments or 7 to 10 segments |
| WheelOutcome.CalIndexTen | app/components/SpinWheel.tsx:106-111 | for 10 segments the remap is `(w + 7) mod 10`, and `(c + 3) mod 10` undoes it |
| WheelOutcome.CalIndexTenOnto | app/components/SpinWheel.tsx:106-111 | for 10 segments every segment is reported for some winning index |
| WheelOutcome.CalIndexCollides | app/components/SpinWheel.tsx:106-111 | for 7 to 9 segments two winning indices report the same segment |
| WheelOutcome.Label | app/components/SpinWheel.tsx:114 | `segments[calIndex]` is defined iff the remapped index is in range, and is then that segment |
| WheelOutcome.OutcomeDefined | app/components/SpinWheel.tsx:94-114 | on 3 or 7 to 10 segments every round reports a segment |
| WheelOutcome.FourSegmentsAtNinety | app/components/SpinWheel.tsx:94-111 | four segments at 90 degrees: the pointer is over index 3, which the remap sends out of range (`undefined`) |
| WheelOutcome.TenSegmentsZeroAndFullTurn | app/components/SpinWheel.tsx:94-96 | on ten segments, resting at 0 and at 360 both select index 0 |
| WheelOutcome.LegacyTotalRotation | app/SpinWheel.tsx:37 | the older wheel turns between `spinCount` and `spinCount + 1` full turns |
| WheelOutcome.LegacyWinningIndex | app/SpinWheel.tsx:48-51 | the older wheel's index is in [0, n) for every angle |
| WheelOutcome.LegacyInnerRemRedundant | app/SpinWheel.tsx:38-50 | the inner `finalAngle % 360` is a no-op on the angle computed at spin time |
| WheelOutcome.LegacyZeroAndFullTurn | app/SpinWheel.tsx:48-51 | resting at 0 and at 360 both select segment 0 |
| WheelOutcome.LegacyIndexHoldsAngle | app/SpinWheel.tsx:48-51 | strictly inside a turn, the index names the segment whose arc holds `360 - finalAngle` |
| WheelOutcome.LegacySpinCountIrrelevant | app/SpinWheel.tsx:37-38 | the number of whole turns does not affect the older wheel's result |
| SpinWheelComponent.Turns | app/components/SpinWheel.tsx:54-63 | a host spin with players has one round per player in list order; otherwise one round for the current spinner with no player id |
| SpinWheelComponent.PlayShape | app/components/SpinWheel.tsx:54-117 | each round calls `onSpinStart` with its player, then `onFinished` with `isHost`, its player id, and the outcome of its own draws from the spin's starting angle (earlier rounds do not shift it); nothing else is called, and the wheel is left at the last round's angle |
| SpinWheelComponent.PlayReportsSegments | app/components/SpinWheel.tsx:106-114 | on 3 or 7 to 10 segments every reported winner is one of the segments |
| SpinWheelComponent.HostSpinVisitsPlayersInOrder | app/components/SpinWheel.tsx:54-60 | a host spin visits every player once, in list order, announcing each before reporting, under that player's id, the outcome of that player's own draws |
| SpinWheelComponent.SpinWheel.constructor | app/components/SpinWheel.tsx:37-38 | the wheel starts idle at angle 0 |
| SpinWheelComponent.SpinWheel.CompleteRound | app/components/SpinWheel.tsx:90-117 | completion clears `isSpinning`, stores the resting angle computed from the spin's starting angle, and reports the remapped segment |
| SpinWheelComponent.SpinWheel.Spin | app/components/SpinWheel.tsx:49-67 | a spin while spinning is a no-op; a host spin without a `players` list stops at once with the wheel left spinning; otherwise the rounds run strictly one after the other, all from the angle the spin started at |
| SpinWheelComponent.HostSpinWithoutPlayersJams | app/components/SpinWheel.tsx:43-54 | after a host spin on a wheel given no `players`, a raised `startSpin` starts nothing and reports nothing |
| SpinWheelComponent.SpinWheel.OnStartSpin | app/components/SpinWheel.tsx:43-47 | a raised `startSpin` while idle runs one non-host round; otherwise nothing happens |
| LegacySpinWheel.LegacyLabel | app/SpinWheel.tsx:61 | the winner is defined iff there are segments, and is then one of them |
| LegacySpinWheel.LegacyWheel.constructor | app/SpinWheel.tsx:24-25 | the wheel starts idle at angle 0 |
| LegacySpinWheel.LegacyWheel.Spin | app/SpinWheel.tsx:33-38 | a spin while spinning is a no-op; otherwise it starts and fixes the resting angle at spin time |
| LegacySpinWheel.LegacyWheel.Complete | app/SpinWheel.tsx:44-64 | completion clears `isSpinning`, reports `segments[winningIndex]` and stores the resting angle |
| LegacySpinWheel.LegacyWheel.OnStartSpin | app/SpinWheel.tsx:27-31 | a raised `startSpin` while idle starts a spin; otherwise nothing happens |
| Dice.RotateIdentity | app/components/Dice.tsx:153 | the identity quaternion leaves every normal unchanged |
| Dice.FaceOrderIsPermutation | app/components/Dice.tsx:147 | `faceOrder` is a permutation of 1..6 |
| Dice.UpDots | app/components/Dice.tsx:152-154 | one up-alignment per face normal, in table order |
| Dice.FirstArgMax | app/components/Dice.tsx:152-160 | the chosen position holds a maximum, and every earlier position holds strictly less (ties go to the first) |
| Dice.FirstArgMaxUnique | app/components/Dice.tsx:156-159 | those two properties determine the position |
| Dice.FaceOf | app/components/Dice.tsx:147-160 | the resolved face is an entry of `faceOrder`, so it lies in 1..6 |
| Dice.IdentityUpDots | app/components/Dice.tsx:137-145 | at rest in the identity orientation, each normal's up-alignment is its y component |
| Dice.UprightShowsThree | app/components/Dice.tsx:147-160 | a die whose alignments are the normals' y components picks the normal (0, 1, 0) at position 3 and shows 3 |
| Dice.IdentityShowsThree | app/components/Dice.tsx:138-147 | in the identity orientation the die shows `faceOrder[3] = 3` |
| Dice.DetectDiceFace | app/components/Dice.tsx:136-164 | the strict-`>` scan from `-Infinity` (so `bestFace = 1` is always overwritten) returns the resolved face |
| Dice.DiceRoller.constructor | app/components/Dice.tsx:117-132 | on mount, the effect starts a roll iff the initial force is positive |
| Dice.DiceRoller.OnForce | app/components/Dice.tsx:117-132 | a changed force starts a roll iff it is positive and no roll is under way; `rolling` is then set |
| Dice.DiceRoller.OnRollTimeout | app/components/Dice.tsx:127-130 | after the roll the resolved face is reported and `rolling` is cleared |
| WheelHost.SpinResultDelivery | app/games/drunk-wheel-challenge/host/page.tsx:165-182 | a result is sent iff the second argument is truthy and the player listed under the current spinner's id has an open link; it goes to that player alone |
| WheelHost.HostRoundResultReachesItsPlayer | app/games/drunk-wheel-challenge/host/page.tsx:171-179 | in a host round the result reaches exactly the round's player, if open; this page's own wheel never completes a host round, because it gets no `players` (`SpinWheelComponent.HostSpinWithoutPlayersJams`) |
| WheelHost.SwipeRoundSendsNoResult | app/games/drunk-wheel-challenge/host/page.tsx:165-179 | a swipe-started round is reported with `isHost` false, so no result is sent |
| WheelHost.EditedChallenges | app/games/drunk-wheel-challenge/host/page.tsx:191-194 | editing replaces only the entry at `index`; the length and every other entry stay the same |
| WheelHost.WheelHostPage.constructor | app/games/drunk-wheel-challenge/host/page.tsx:42-82 | initial state: no players, spin time 5000, 10 turns, saved challenges or the defaults, and the game already started in single-player mode |
| WheelHost.WheelHostPage.CloseConnection | app/games/drunk-wheel-challenge/host/page.tsx:61-70 | closes exactly the open player links |
| WheelHost.WheelHostPage.InitiateSpin | app/games/drunk-wheel-challenge/host/page.tsx:152-163 | sets spin time, turn count and `startSpin`, and sends `spinStarted` to exactly the open players |
| WheelHost.WheelHostPage.OnData | app/games/drunk-wheel-challenge/host/page.tsx:96-122 | a swipe is acted on only while `startSpin` is false and makes the sender the spinner; a join is appended only if the id is absent; ids stay unique |
| WheelHost.WheelHostPage.OnConnectionLost | app/games/drunk-wheel-challenge/host/page.tsx:125-135 | close or error closes every open player link and removes exactly the entries with the closed peer's id |
| WheelHost.WheelHostPage.HandleSpinStart | app/games/drunk-wheel-challenge/host/page.tsx:184-189 | the round's player becomes the current spinner |
| WheelHost.WheelHostPage.HandleSpinCompleted | app/games/drunk-wheel-challenge/host/page.tsx:165-182 | shows the outcome, clears `startSpin` and the spinner, and performs the targeted delivery |
| WheelHost.WheelHostPage.HandleEditChallenge | app/games/drunk-wheel-challenge/host/page.tsx:191-198 | replaces one entry and saves the whole list |
| WheelHost.WheelHostPage.StartGame | app/games/drunk-wheel-challenge/host/page.tsx:200-207 | sets `gameStarted` and sends `gameStarted` to exactly the open players |
| WheelHost.WheelHostPage.BackToQr | app/games/drunk-wheel-challenge/host/page.tsx:331 | the game view closes and nothing is sent |
| DesktopHost.ResultDelivery | app/desktop/page.tsx:153-175 | with `isHost` set, the result goes to every open phone; otherwise it goes only to the phone whose peer is the current spinner, and only if that phone is listed and open |
| DesktopHost.LonePhoneDelivery | app/desktop/page.tsx:164-171 | with one phone listed, a report without `isHost` reaches it exactly when it is the spinner and its link is open |
| DesktopHost.SwipedPhoneGetsItsResult | app/desktop/page.tsx:73-175 | a phone that connects and swipes is sent the outcome of its round, and only that, when its link is open |
| DesktopHost.DesktopPage.constructor | app/desktop/page.tsx:39-62 | no phones, `currentSpinner` starts as `"host"`, heartbeats empty, saved challenges or the defaults |
| DesktopHost.DesktopPage.OnConnection | app/desktop/page.tsx:73-92 | the phone and its id are appended only when absent; the two lists stay in step and unique |
| DesktopHost.DesktopPage.InitiateSpin | app/desktop/page.tsx:135-151 | a truthy peer id becomes the spinner; time, turns and `startSpin` are set; `spinStarted` goes to exactly the open phones |
| DesktopHost.DesktopPage.OnData | app/desktop/page.tsx:95-102 | a swipe is acted on only while `startSpin` is false; a heartbeat only updates `phoneHeartbeats[sender]` |
| DesktopHost.DesktopPage.OnConnectionLost | app/desktop/page.tsx:104-120 | close or error removes the peer from both lists, which stay in step |
| DesktopHost.DesktopPage.HandleSpinCompleted | app/desktop/page.tsx:153-175 | shows the outcome, clears `startSpin`, performs the broadcast or targeted delivery, and resets the spinner to null |
| DesktopHost.DesktopPage.StartGame | app/desktop/page.tsx:229-241 | sets `gameStarted` and sends `gameStarted` to every listed phone, with no open check |
| DesktopHost.DesktopPage.HandleEditChallenge | app/desktop/page.tsx:177-184 | replaces one entry and saves the whole list |
| DesktopHost.DesktopPage.StopGame | app/desktop/page.tsx:290 | the game view closes |
| DiceHost.RollResultDelivery | app/games/roll-dice/host/page.tsx:126-132 | the face is sent iff there is a current player, to that player alone, with no open check |
| DiceHost.HostRollReportsToLastSwiper | app/games/roll-dice/host/page.tsx:205 | after a swipe and then the host's Roll button, the rolled face still goes to the swiping player |
| DiceHost.DiceHostPage.constructor | app/games/roll-dice/host/page.tsx:12-32 | no players, force 0, no result, no current player; single-player mode starts the game at once |
| DiceHost.DiceHostPage.CloseConnection | app/games/roll-dice/host/page.tsx:34-43 | closes exactly the open player links |
| DiceHost.DiceHostPage.StartDiceRoll | app/games/roll-dice/host/page.tsx:122-124 | hands the force to the die |
| DiceHost.DiceHostPage.OnData | app/games/roll-dice/host/page.tsx:58-85 | every swipe, ungated, sets the current player and the force; a join is appended only if the id is absent |
| DiceHost.DiceHostPage.OnConnectionLost | app/games/roll-dice/host/page.tsx:87-97 | closes every open player link and removes exactly the entries with the closed peer's id |
| DiceHost.DiceHostPage.HandleDiceRollComplete | app/games/roll-dice/host/page.tsx:126-132 | stores the face and delivers it to the current player |
| DiceHost.DiceHostPage.StartGame | app/games/roll-dice/host/page.tsx:114-121 | sets `gameStarted` and sends `gameStarted` to exactly the open players |
| DiceHost.DiceHostPage.RollButton | app/games/roll-dice/host/page.tsx:205 | the Roll button changes the force but not the current player |
| DiceHost.DiceHostPage.BackToQr | app/games/roll-dice/host/page.tsx:218 | the game view closes and nothing is sent |
| Controller.SwipeEffects | app/games/drunk-wheel-challenge/player/page.tsx:109-126 | a swipe message is sent iff the connection is open and `deltaY < -50`, and it carries the force |
| Controller.Variation | app/games/drunk-wheel-challenge/player/page.tsx:119 | the random variation lies in [-0.5, 0.5) |
| WheelPlayer.WheelPlayerPage.constructor | app/games/drunk-wheel-challenge/player/page.tsx:7-21 | the page starts unconnected, with no result and no error |
| WheelPlayer.WheelPlayerPage.OnPeerOpen | app/games/drunk-wheel-challenge/player/page.tsx:30-33 | the page learns its own peer id |
| WheelPlayer.WheelPlayerPage.SetNickname | app/games/drunk-wheel-challenge/player/page.tsx:165 | the nickname field is stored |
| WheelPlayer.WheelPlayerPage.HandleConnect | app/games/drunk-wheel-challenge/player/page.tsx:40-54 | it connects and arms the timer only when host id and nickname are non-empty; otherwise nothing happens |
| WheelPlayer.WheelPlayerPage.OnOpen | app/games/drunk-wheel-challenge/player/page.tsx:56-69 | clears the timer and the error, marks the page connected, and joins with its own id and the trimmed nickname |
| WheelPlayer.WheelPlayerPage.OnTimeout | app/games/drunk-wheel-challenge/player/page.tsx:47-54 | closes the pending link; the page is then not connecting, not connected, game off, error set |
| WheelPlayer.WheelPlayerPage.OnData | app/games/drunk-wheel-challenge/player/page.tsx:71-88 | `spinResult` sets the result; `gameStarted`/`gameStopped` set/clear the game; `spinStarted` changes nothing |
| WheelPlayer.WheelPlayerPage.OnConnectionLost | app/games/drunk-wheel-challenge/player/page.tsx:90-100 | close and error clear both `isConnected` and `isGameStarted` |
| WheelPlayer.WheelPlayerPage.TouchStart | app/games/drunk-wheel-challenge/player/page.tsx:104-107 | the touch start is recorded only while the game is started (listeners installed) |
| WheelPlayer.WheelPlayerPage.TouchEnd | app/games/drunk-wheel-challenge/player/page.tsx:109-126 | only while the game is started, on an open connection, and for `deltaY < -50` is a swipe sent; its force lies in [1, 10] |
| WheelPlayer.WheelPlayerPage.HandleDisconnect | app/games/drunk-wheel-challenge/player/page.tsx:128-133 | an open connection is closed and the page marked not connected |
| DicePlayer.DicePlayerPage.constructor | app/games/roll-dice/player/page.tsx:7-20 | the page starts unconnected, with no result |
| DicePlayer.DicePlayerPage.OnPeerOpen | app/games/roll-dice/player/page.tsx:29-32 | the page learns its own peer id |
| DicePlayer.DicePlayerPage.SetNickname | app/games/roll-dice/player/page.tsx:147 | the nickname field is stored |
| DicePlayer.DicePlayerPage.HandleConnect | app/games/roll-dice/player/page.tsx:39-45 | it connects only when host id and nickname are non-empty |
| DicePlayer.DicePlayerPage.OnOpen | app/games/roll-dice/player/page.tsx:46-57 | marks the page connected and not connecting, and joins with the trimmed nickname |
| DicePlayer.DicePlayerPage.OnData | app/games/roll-dice/player/page.tsx:59-72 | `diceResult` sets the result; `gameStarted` sets the game; nothing clears it |
| DicePlayer.DicePlayerPage.OnConnectionLost | app/games/roll-dice/player/page.tsx:74-82 | close and error send the browser home |
| DicePlayer.DicePlayerPage.TouchStart | app/games/roll-dice/player/page.tsx:86-89 | the touch start is recorded only while the game is started |
| DicePlayer.DicePlayerPage.TouchEnd | app/games/roll-dice/player/page.tsx:91-108 | only while the game is started, on an open connection, and for `deltaY < -50` is a swipe sent; its force lies in [1, 10] |
| DicePlayer.DicePlayerPage.HandleDisconnect | app/games/roll-dice/player/page.tsx:110-115 | an open connection is closed and the page marked not connected |
| Phone.Target | app/phone/page.tsx:40 | the target is the typed id when non-empty, otherwise the id from the address; a target exists iff either is non-empty |
| Phone.PhonePage.constructor | app/phone/page.tsx:20-23 | the id from the page address is kept; the phone starts unconnected |
| Phone.PhonePage.OnPeerOpen | app/phone/page.tsx:28-32 | the page learns its own peer id |
| Phone.PhonePage.HandleConnect | app/phone/page.tsx:39-45 | no connection is attempted without a target; otherwise it connects to the target |
| Phone.PhonePage.OnOpen | app/phone/page.tsx:46-51 | marks the phone connected and not connecting |
| Phone.PhonePage.TouchStart | app/phone/page.tsx:55-58 | the touch start is always recorded |
| Phone.PhonePage.TouchEnd | app/phone/page.tsx:60-73 | a swipe is sent only on an open connection and for `deltaY < -50`; its force is at most 10, positive for a positive duration, with no lower clamp |

## Left out

- Transport: PeerJS peers, `connect`, event wiring, and delivery are not modelled. Handlers return effects; link openness is the `open` parameter.
- Navigation: `window.location` redirects and router navigation are not modelled, except the dice player's flag that records it was sent home.
- Rendering: SVG wedges, canvas drawing, the three.js/cannon-es scene and physics stepping, gsap tweening and confetti are not modelled. The die's resting orientation and each round's random draws are parameters.
- Page surroundings: local storage, JSON parsing, QR codes, the clipboard, and `app/api/socket/route.ts` are not modelled. Saved challenges arrive already parsed.
- Floating point: numbers are exact reals, so rounding, `NaN` and `Infinity` are not modelled. The one infinite case that matters (a swipe time of 0) is handled explicitly in `Force`.
- React timing: stale closures (the host pages register their data handlers once, with the first render's `players` and `startSpin`) and batched state updates are not modelled. Handlers use the current state.
- Touch variables: `touchStartY` and `touchStartTime` are reset to 0 on every re-render. The model keeps their last values.
- Asynchronous overlap: several spins or rolls under way at once are not modelled. Each awaited wheel round completes before the next begins.
- Connection attempts: several concurrent attempts on a controller page, each with its own timer, are not modelled. The model keeps only the latest attempt.
- SpinWheelComponent.SpinWheel.Spin: the thrown `TypeError` of a host spin without `players` is modelled only as an immediate return with `isSpinning` still set. The error itself is not modelled.
- SpinWheelComponent.PlayShape: where the gsap tween leaves the wheel on screen is not modelled. The tween adds each round's rotation to the visible angle, so from the second round of a host spin on, the reported segment need not be the one shown under the pointer.
- LegacySpinWheel.LegacyLabel: the empty wheel's `NaN` index is modelled only as an `undefined` label.
- Heartbeat expiry, host-side nickname validation, and any correction of `calIndex` or of the argument-order quirk are absent from the code and are not added.
- Force.SpinParametersMonotone: proved by the solver unaided. It is stated for the reader.
