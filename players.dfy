/** Player records of the game server, the constants that govern them, and the
    two per-player rules: the horizontal step on a key press and the downward
    step of the per-player interval.

    Horizontal positions are integers in thousandths of a canvas unit, because
    a spawn position is rounded to three decimals. */
module Players {

  datatype Option<T> = None | Some(value: T)

  const X_SCALE: int := 1000
  const CANVAS_WIDTH: int := 1400
  const SHIP_PLATFORM: int := 718
  const PLAYER_VERTICAL_INCREMENT: int := 20
  const PLAYER_SCORE_INCREMENT: int := 5

  /** A key press moves a player by 20 units, clamped to [20, 1380]. */
  const INPUT_STEP: int := 20 * X_SCALE
  const LEFT_EDGE: int := 20 * X_SCALE
  const RIGHT_EDGE: int := 1380 * X_SCALE

  /** A spawn position is 30 + 1370 * r for a random r in [0, 1), rounded down
      to thousandths, so it lies in [30, 1399.999]; the model admits spawn
      positions up to the canvas width, a superset of that range. */
  const SPAWN_MIN: int := 30 * X_SCALE
  const SPAWN_MAX: int := CANVAS_WIDTH * X_SCALE
  const SPAWN_Y: int := 20

  /** One entry of the server's `players` object. The avatar type and colour
      are looked up with an index the (empty) selector never returns, so they
      hold JavaScript's undefined, written None here. */
  datatype Player = Player(
    id: string,
    x: int,
    y: int,
    invaderAvatarType: Option<string>,
    invaderAvatarColor: Option<string>,
    score: int,
    nickname: string,
    isAlive: bool)

  /** The record the presence-enter handler stores for a new player. */
  function Spawn(id: string, x: int, nickname: string): Player
  {
    Player(id, x, SPAWN_Y, None, None, 0, nickname, true)
  }

  /** What every stored record satisfies: x within the spawn range or the
      clamped range, and score tied to the distance descended. */
  predicate Consistent(p: Player)
  {
    LEFT_EDGE <= p.x <= SPAWN_MAX && p.y >= SPAWN_Y
    && 4 * p.score == p.y - SPAWN_Y
  }

  /** The new x after a "pos" message with the given keyPressed value. */
  function StepX(x: int, key: string): (r: int)
    ensures key == "left" ==>
      r >= LEFT_EDGE && r >= x - INPUT_STEP && (r == LEFT_EDGE || r == x - INPUT_STEP)
    ensures key == "right" ==>
      r <= RIGHT_EDGE && r <= x + INPUT_STEP && (r == RIGHT_EDGE || r == x + INPUT_STEP)
    ensures key != "left" && key != "right" ==> r == x
    ensures (key == "left" || key == "right") && 0 <= x <= SPAWN_MAX ==>
      LEFT_EDGE <= r <= RIGHT_EDGE
  {
    if key == "left" then
      if x - INPUT_STEP < LEFT_EDGE then LEFT_EDGE else x - INPUT_STEP
    else if key == "right" then
      if x + INPUT_STEP > RIGHT_EDGE then RIGHT_EDGE else x + INPUT_STEP
    else x
  }

  /** One firing of the per-player downward interval on a present, alive player. */
  function Descend(p: Player): (q: Player)
    ensures q.id == p.id && q.x == p.x && q.nickname == p.nickname && q.isAlive == p.isAlive
    ensures q.invaderAvatarType == p.invaderAvatarType && q.invaderAvatarColor == p.invaderAvatarColor
    ensures q.y > p.y && q.score > p.score
    ensures Consistent(p) ==> Consistent(q)
  {
    p.(y := p.y + PLAYER_VERTICAL_INCREMENT, score := p.score + PLAYER_SCORE_INCREMENT)
  }

  /** The record after n downward steps. */
  function DescendN(p: Player, n: nat): Player
  {
    if n == 0 then p else Descend(DescendN(p, n - 1))
  }

  lemma {:induction false} DescendNClosedForm(p: Player, n: nat)
    ensures DescendN(p, n) == p.(y := p.y + 20 * n, score := p.score + 5 * n)
  {
    if n > 0 {
      DescendNClosedForm(p, n - 1);
    }
  }

  /** A freshly spawned player is first beyond the platform on the 35th step,
      at y = 720 with score 175. */
  lemma {:induction false} PlatformFirstPassedOnStep35(p: Player, n: nat)
    requires p.y == SPAWN_Y && p.score == 0
    ensures DescendN(p, n).y > SHIP_PLATFORM <==> n >= 35
    ensures DescendN(p, 35).y == 720 && DescendN(p, 35).score == 175
  {
    DescendNClosedForm(p, n);
    DescendNClosedForm(p, 35);
  }
}
