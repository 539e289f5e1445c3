/** The game ticker: every 100 ms the server advances its bullet timer and
    publishes one "game-state" snapshot. */
module Ticker {
  import opened Players

  const GAME_TICKER_MS: int := 100
  /** A bullet is emitted when the timer reaches five tick intervals. */
  const BULLET_INTERVAL: int := GAME_TICKER_MS * 5

  /** The ship's physics body is never created, so the snapshot always carries
      the position of the placeholder copy, the empty string. */
  const SHIP_POSITION_PLACEHOLDER: string := ""

  datatype Bullet = Bullet(y: int, id: string)

  /** The payload of a "game-state" message; bulletOrBlank is None where the
      source sends the empty string. */
  datatype Snapshot = Snapshot(
    players: map<string, Player>,
    playerCount: int,
    shipBody: string,
    bulletOrBlank: Option<Bullet>,
    gameOn: bool,
    killerBullet: string)

  /** One firing of the ticker interval: it clears itself when the ticker is
      off, and publishes a snapshot otherwise. */
  datatype TickResult = Cleared | Published(snapshot: Snapshot)

  /** The values bulletTimer takes from its initial 0. */
  predicate TimerOnSchedule(t: int)
  {
    0 <= t < BULLET_INTERVAL && t % GAME_TICKER_MS == 0
  }

  /** The bullet timer after one tick, and whether a bullet is emitted. */
  function AdvanceBulletTimer(t: int): (r: (int, bool))
    ensures r.1 ==> r.0 == 0
    ensures TimerOnSchedule(t) ==> TimerOnSchedule(r.0)
    ensures TimerOnSchedule(t) ==> (r.1 <==> t == BULLET_INTERVAL - GAME_TICKER_MS)
    ensures t >= 0 ==> (r.1 <==> r.0 == 0)
  {
    var sum := t + GAME_TICKER_MS;
    if sum >= BULLET_INTERVAL then (0, true) else (sum, false)
  }

  /** The bullet timer after n ticks of a ticker started at 0. */
  function TimerAfter(n: nat): int
  {
    if n == 0 then 0 else AdvanceBulletTimer(TimerAfter(n - 1)).0
  }

  /** Whether the n-th tick (counting from 1) emits a bullet. */
  predicate BulletOnTick(n: nat)
    requires n >= 1
  {
    AdvanceBulletTimer(TimerAfter(n - 1)).1
  }

  lemma {:induction false} TimerAfterTicks(n: nat)
    ensures TimerAfter(n) == (n % 5) * GAME_TICKER_MS
  {
    if n > 0 {
      TimerAfterTicks(n - 1);
    }
  }

  /** A bullet appears on exactly every fifth tick. */
  lemma {:induction false} BulletOnEveryFifthTick(n: nat)
    requires n >= 1
    ensures BulletOnTick(n) <==> n % 5 == 0
  {
    TimerAfterTicks(n - 1);
  }
}
