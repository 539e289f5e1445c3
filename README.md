# Session bookkeeping of the multiplayer-aliens game server

This project models, in Dafny, the authoritative state of the game server in
`public/server.js`. That state consists of:

- the `players` object and the insertion order of its keys;
- the counters `totalPlayers` and `alivePlayers`;
- the bullet timer, the last killer bullet id, and the `gameTickerOn` and `gameOn` flags.

The realtime handlers and timer bodies that change this state are:

- presence enter and leave;
- the dead-player notification;
- a player's "pos" input;
- one firing of the game ticker;
- one firing of a player's downward-movement interval;
- `finishGame`.

The JavaScript event loop runs each handler to completion. Each handler is
therefore one method of the class `Server.Session`. A timer firing is an
explicit method call.

Modules:

- `Players` (players.dfy): the player record and its constants. It has the
  clamped horizontal step `StepX`, the downward step `Descend`, and lemmas
  about repeated descent. Horizontal positions are integers in thousandths
  of a canvas unit, because a spawn position is rounded to three decimals.
- `Ticker` (ticker.dfy): the bullet timer, the "game-state" snapshot and
  lemmas about the bullet cycle.
- `KeyOrder` (keyorder.dfy): the insertion order of the keys of a JavaScript
  object, and how `delete` affects it.
- `Ranking` (ranking.dfy): the JavaScript meaning of `finishGame`'s
  comparator and of its `leftoverPlayers == 2` test. It also has the
  selection of the winner and runners-up (`FinishOutcome`).
- `Server` (server.dfy): the `Session` class, with one method per handler
  and timer body.

Behaviours of the code that the model keeps:

- A repeated join overwrites the record. The key keeps its place, and both
  counters still go up.
- A leave decrements `alivePlayers` even when that player was already dead
  or was never present.
- A repeated death notification counts the death again (`Server.RepeatedDeath`).
- An id that is not a key of `players` makes the death handler throw. So
  does such an id with "left" or "right" in the input handler. Either way
  nothing has changed before the throw. The model returns `UnknownPlayer`
  or `TypeError` and leaves the state as it was. Ids that name inherited
  object properties are the exception; see "Left out".
- The ranking records store the score under `socre`, while the comparator
  reads `score`. Every comparison is therefore NaN, which sorting treats as
  +0. Any sort that meets the ECMAScript requirements (stable since 2019)
  then leaves the records in key order (`Ranking.StableSortKeepsInsertionOrder`).
  So the runners-up are chosen by join order, not by score.
- The winner stays in the list, so a winner who joined second or third can
  also be named as a runner-up.
- `leftoverPlayers == 2` compares an array with a number. It is true only
  for an empty array compared with 0, so it never fires.
- `gameOn` is never set to true (it is part of `Session.Valid`).
- The ship's physics body is never created, so a snapshot carries the
  placeholder position "".

## Model

| member | source | states |
|---|---|---|
| `Players.StepX` | public/server.js:177-189 | "left" gives max(x − 20, 20) and "right" gives min(x + 20, 1380), each stated as a bound the result attains. Any other key leaves x unchanged. For x in [0, 1400], a left or right input lands in [20, 1380]. |
| `Players.Descend` | public/server.js:196-197 | A downward step raises y and score and changes no other field. It preserves the record invariant 4·score = y − 20 together with the x bounds. |
| `Players.DescendNClosedForm` | public/server.js:194-198 | After n firings of the interval, y has grown by 20·n and score by 5·n. |
| `Players.PlatformFirstPassedOnStep35` | public/server.js:196-199 | A freshly spawned player (y = 20, score 0) is past the platform (y > 718) after n steps iff n ≥ 35. At step 35, y = 720 and score = 175. |
| `Ticker.AdvanceBulletTimer` | public/server.js:151-158 | A tick emits a bullet exactly when the timer is reset to 0. It keeps the timer in {0, 100, …, 400}. From that range, it emits exactly when the timer was 400. |
| `Ticker.TimerAfterTicks` | public/server.js:152-154 | Starting from 0, the timer after n ticks is (n mod 5)·100. |
| `Ticker.BulletOnEveryFifthTick` | public/server.js:152-158 | The n-th tick emits a bullet iff n is a multiple of 5. |
| `KeyOrder.Without` | public/server.js:129 | After `delete`, the key order holds exactly the other keys, still without duplicates. It is unchanged when the key was absent. |
| `KeyOrder.WithoutKeepsOrder` | public/server.js:129 | `delete` keeps the remaining keys in their relative order: deleting from a concatenation of two key lists deletes from each part. |
| `KeyOrder.DeleteKeepsKeysInOrder` | public/server.js:129 | After `delete`, the order still lists each remaining key exactly once. |
| `Ranking.SortCompare` | public/server.js:215-223 | A record has only the keys `nickname` and `socre` (`Get`), so reading `score` gives undefined and NaN (`ScoreProperty`). The comparator's subtraction (`Comparator`, `Subtract`) is then NaN, and every pair of records compares as +0. |
| `Ranking.StableSortKeepsInsertionOrder` | public/server.js:221-223 | Any result the stable-sort contract allows under this comparator is the identity permutation. The sorted list equals the pushed list. |
| `Ranking.ArrayToNumber` | public/server.js:228 | An array of records converts to NaN or to 0, never to another number. |
| `Ranking.ArrayLooseEquals` | public/server.js:228 | `leftoverPlayers == n` can hold only for an empty array and n = 0, so `== 2` never holds. |
| `Ranking.FinishOutcome` | public/server.js:209-246 | Winner is "Nobody" for id "" and otherwise the winner's nickname. With ≥ 3 records, the runners-up are records 0 and 1 without a winner, and records 1 and 2 with one. With fewer than 3, both runners-up are "". The player counter is reported unchanged. |
| `Server.Session.constructor` | public/server.js:20-36 | The initial state: no players, counters and bullet timer 0, no killer bullet, ticker and game off. |
| `Server.Session.Join` | public/server.js:95-124 | Stores a player with y = 20, score 0, alive, the given nickname and spawn x. A new id is appended to the key order; a repeated id keeps its place and the number of players is unchanged. Both counters rise by one. The ticker is switched on exactly when totalPlayers becomes 1, and the ship/bullet start fires exactly when it equals 3. |
| `Server.Session.Leave` | public/server.js:125-133 | Removes only that id from the players and the key order, and lowers both counters by one. Requests a reset iff totalPlayers ≤ 0 afterwards. |
| `Server.Session.NotifyDeath` | public/server.js:134-143 | For a known id: isAlive becomes false, the killer bullet id is recorded and alivePlayers drops by one, with no check of the old liveness. A finish with no winner is scheduled iff alivePlayers becomes 0. An unknown id throws and changes nothing. |
| `Server.Session.ApplyInput` | public/server.js:175-191 | Changes only the addressed player's x, to StepX of the old x, with no liveness check. After left or right, x is in [20, 1380]. A left/right for an absent id throws and changes nothing. No counter, order or timer changes. |
| `Server.Session.TickerStep` | public/server.js:146-173 | With the ticker off, the interval clears itself. Otherwise the timer advances as `AdvanceBulletTimer` says. The snapshot holds the players, playerCount = totalPlayers, gameOn false, and the killer bullet id. It carries a bullet at y = 718 iff the timer was reset to 0. |
| `Server.Session.DownwardStep` | public/server.js:193-207 | On a present, alive player: y += 20 and score += 5 (`Descend`), and it finishes with that player iff the new y > 718, with the outcome of `finishGame` for that id. On an absent or dead player it stops and changes nothing. |
| `Server.Session.Finish` | public/server.js:209-249 | Pushes one ranking record per player in key order, then returns `FinishOutcome`. With ≥ 3 players, the runners-up are the first two joined players without a winner, and the second and third with one. With fewer than 3 players, both are "". Changes no state. |
| `Server.LeaveUndoesFreshJoin` | public/server.js:98-129 | A leave right after the join of a new id restores the players and their key order. |
| `Server.OpeningJoins` | public/server.js:98-122 | On a fresh server, the first join starts the ticker, the second starts nothing, and the third starts the ship and bullets. |
| `Server.RepeatedDeath` | public/server.js:134-143 | Two death notifications for a lone player: the first schedules the finish, the second is recorded again, and alivePlayers ends at −1. |

## Left out

- The presence subscriptions at public/server.js:95 and 125 go through `gameRoom.precense`, a misspelling. That property is undefined, so the call at line 95 throws and the rest of the "connected" callback never runs. As a result, the enter, leave and "dead-notif" handlers (lines 95-143) are never registered. Since `startGameTicker` is called only from the enter handler, no ticker ever starts either. The model takes all three handlers, and so the ticker, as they would run if registered.
- Server.Session.NotifyDeath: an id that is not an own key of `players` is treated as unknown. Inherited `Object.prototype` properties are not modelled. For an id such as "constructor", "toString" or "__proto__", the read at public/server.js:135 finds the inherited value and does not throw. Lines 136-141 then still record the killer bullet, decrement `alivePlayers` and may schedule a finish. For "__proto__", the assignment also adds an enumerable `isAlive` to every object, which the for-in at line 214 would then list.
- Realtime transport: channel lookup, publish, subscribe and presence (public/server.js:42-45, 92-94, 107, 123, 163, 241). A publish is modelled as the returned snapshot or outcome.
- Subscribing to a player's input channel is not modelled. After a repeated join, every input message on that channel would reach two listeners and move the player twice.
- The HTTP routes, token authentication, `uniqueId` and `listen` (public/server.js:47-90) are I/O plumbing.
- `setInterval`, `setTimeout` and `clearInterval` are not modelled as time. Each firing is one method call: `TickerStep`, `DownwardStep`, and `Finish("")` for the delayed finish of the death handler. Which firings happen, how many intervals are running, and the 1 s delay are not modelled. A return of `Cleared`, `Stopped` or `Finished` stands for the interval clearing itself.
- `Server.Session.Join` reports when the source calls `startGameTicker` but does not count running tickers. After the player count falls back to 0 and rises to 1 again, the source runs a second ticker beside the first.
- `startDownardMovement` is never called in the source: `startShipAndBullets` is empty. `DownwardStep` models its interval body as written.
- Randomness: the spawn x (passed in, in thousandths, within [30, 1400], a superset of the [30, 1399.999] the source produces) and the random part of bullet ids (passed in as a string). The client-id randomness is part of `uniqueId`, which is left out.
- The empty functions `resetServerState`, `startShipAndBullets`, `startMovingPhysicsWorld`, `calcRandomVelocity` and `randomAvatarSelector` (public/server.js:251-259) have no effect. The avatar type and colour they would choose are JavaScript's undefined (`None`). The p2 physics world and the ship body are never created.
- The in-place `sort` of public/server.js:221-223 is not executed step by step. `Ranking.StableSortKeepsInsertionOrder` proves that every result the ECMAScript sort contract allows equals its input, and `Server.Session.Finish` uses that input.
- Floating point: x is a double in the source. The model uses exact thousandths, so rounding in x ± 20 is not modelled.
- Integer-like keys, which JavaScript would list first, are not modelled; client ids start with "id-".
- public/script.js is the client-side Phaser scene (asset loading, rendering). It is not part of this model.
