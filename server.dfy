/** The game server's session bookkeeping: the module-level state that the
    realtime handlers and the interval bodies update. Each handler runs to
    completion on the event loop, so each is one method; each timer firing is
    one call. */
module Server {
  import opened Players
  import opened Ticker
  import opened Ranking
  import opened KeyOrder

  const MIN_PLAYERS_TO_START_GAME: int := 3

  /** What the presence-enter handler starts besides storing the player. */
  datatype JoinEffects = JoinEffects(tickerStarted: bool, shipAndBulletsStarted: bool)

  /** A handler either completes or throws a TypeError on reading a field of
      an absent player, before it has changed anything. */
  datatype Handled = Done | TypeError

  /** The dead-notification handler: it throws on an unknown id, and otherwise
      records the death and says whether it scheduled a finish with no winner. */
  datatype DeathResult = UnknownPlayer | Recorded(finishScheduled: bool)

  /** One firing of a player's downward interval: the interval clears itself
      (Stopped), goes on (Continued), or finishes the game with that player. */
  datatype DescentTick = Stopped | Continued | Finished(outcome: Outcome)

  /** The ranking records finishGame pushes, in key order. */
  function RecordsOf(order: seq<string>, players: map<string, Player>): seq<Ranked>
    requires forall i :: 0 <= i < |order| ==> order[i] in players
  {
    seq(|order|, i requires 0 <= i < |order| => Ranked(players[order[i]].nickname, players[order[i]].score))
  }

  class Session {
    var players: map<string, Player>
    /** The insertion order of the keys of `players`. */
    var order: seq<string>
    var totalPlayers: int
    var alivePlayers: int
    var bulletTimer: int
    var killerBulletId: string
    var gameTickerOn: bool
    /** Never set to true by the server. */
    var gameOn: bool

    ghost predicate Valid()
      reads this
    {
      && KeysInOrder(players, order)
      && (forall id :: id in players ==> players[id].id == id && Consistent(players[id]))
      && TimerOnSchedule(bulletTimer)
      && !gameOn
    }

    /** The state at server start. */
    constructor ()
      ensures Valid()
      ensures players == map[] && order == []
      ensures totalPlayers == 0 && alivePlayers == 0 && bulletTimer == 0
      ensures killerBulletId == "" && !gameTickerOn && !gameOn
    {
      players := map[];
      order := [];
      totalPlayers := 0;
      alivePlayers := 0;
      bulletTimer := 0;
      killerBulletId := "";
      gameTickerOn := false;
      gameOn := false;
    }

    /** The presence "enter" handler; spawnX is the random spawn position in
        thousandths. A repeated id overwrites the record in place and still
        counts as a new player. */
    method Join(id: string, nickname: string, spawnX: int) returns (e: JoinEffects)
      requires Valid()
      requires SPAWN_MIN <= spawnX <= SPAWN_MAX
      modifies this
      ensures Valid()
      ensures players == old(players)[id := Spawn(id, spawnX, nickname)]
      ensures order == if id in old(players) then old(order) else old(order) + [id]
      ensures totalPlayers == old(totalPlayers) + 1 && alivePlayers == old(alivePlayers) + 1
      ensures |players| == if id in old(players) then |old(players)| else |old(players)| + 1
      ensures gameTickerOn == (old(gameTickerOn) || totalPlayers == 1)
      ensures e.tickerStarted <==> totalPlayers == 1
      ensures e.shipAndBulletsStarted <==> totalPlayers == MIN_PLAYERS_TO_START_GAME
      ensures bulletTimer == old(bulletTimer) && killerBulletId == old(killerBulletId)
      ensures gameOn == old(gameOn)
    {
      alivePlayers := alivePlayers + 1;
      totalPlayers := totalPlayers + 1;
      var tickerStarted := false;
      if totalPlayers == 1 {
        gameTickerOn := true;
        tickerStarted := true;
      }
      if id !in players {
        order := order + [id];
      }
      players := players[id := Spawn(id, spawnX, nickname)];
      e := JoinEffects(tickerStarted, totalPlayers == MIN_PLAYERS_TO_START_GAME);
    }

    /** The presence "leave" handler: both counters drop whether or not the
        id is present or alive; a reset is requested when no player is left. */
    method Leave(id: string) returns (resetRequested: bool)
      requires Valid()
      modifies this
      ensures Valid()
      ensures players == old(players) - {id}
      ensures order == Without(old(order), id)
      ensures totalPlayers == old(totalPlayers) - 1 && alivePlayers == old(alivePlayers) - 1
      ensures |players| == if id in old(players) then |old(players)| - 1 else |old(players)|
      ensures resetRequested <==> totalPlayers <= 0
      ensures bulletTimer == old(bulletTimer) && killerBulletId == old(killerBulletId)
      ensures gameTickerOn == old(gameTickerOn) && gameOn == old(gameOn)
    {
      alivePlayers := alivePlayers - 1;
      totalPlayers := totalPlayers - 1;
      DeleteKeepsKeysInOrder(players, order, id);
      players := players - {id};
      order := Without(order, id);
      resetRequested := totalPlayers <= 0;
    }

    /** The "dead-notif" handler. It does not check whether the player was
        already dead, so a repeated notification counts the death again. */
    method NotifyDeath(deadPlayerId: string, killerBullet: string) returns (r: DeathResult)
      requires Valid()
      modifies this
      ensures Valid()
      ensures deadPlayerId !in old(players) ==>
        r == UnknownPlayer && players == old(players)
        && alivePlayers == old(alivePlayers) && killerBulletId == old(killerBulletId)
      ensures deadPlayerId in old(players) ==>
        && players == old(players)[deadPlayerId := old(players)[deadPlayerId].(isAlive := false)]
        && killerBulletId == killerBullet
        && alivePlayers == old(alivePlayers) - 1
        && r == Recorded(alivePlayers == 0)
      ensures order == old(order) && totalPlayers == old(totalPlayers)
      ensures bulletTimer == old(bulletTimer)
      ensures gameTickerOn == old(gameTickerOn) && gameOn == old(gameOn)
    {
      if deadPlayerId !in players {
        return UnknownPlayer;
      }
      players := players[deadPlayerId := players[deadPlayerId].(isAlive := false)];
      killerBulletId := killerBullet;
      alivePlayers := alivePlayers - 1;
      r := Recorded(alivePlayers == 0);
    }

    /** A "pos" message on a player's channel. Only "left" and "right" read
        the record, so only they throw for an absent player; there is no
        check that the player is alive. */
    method ApplyInput(id: string, keyPressed: string) returns (h: Handled)
      requires Valid()
      modifies this
      ensures Valid()
      ensures h == TypeError <==> (keyPressed == "left" || keyPressed == "right") && id !in old(players)
      ensures players == if id in old(players)
        then old(players)[id := old(players)[id].(x := StepX(old(players)[id].x, keyPressed))]
        else old(players)
      ensures id in players && (keyPressed == "left" || keyPressed == "right") ==>
        LEFT_EDGE <= players[id].x <= RIGHT_EDGE
      ensures order == old(order) && totalPlayers == old(totalPlayers) && alivePlayers == old(alivePlayers)
      ensures bulletTimer == old(bulletTimer) && killerBulletId == old(killerBulletId)
      ensures gameTickerOn == old(gameTickerOn) && gameOn == old(gameOn)
    {
      if keyPressed == "left" || keyPressed == "right" {
        if id !in players {
          return TypeError;
        }
        var p := players[id];
        players := players[id := p.(x := StepX(p.x, keyPressed))];
      }
      h := Done;
    }

    /** One firing of the game ticker interval; bulletNumber is the random
        part of a new bullet's id. */
    method TickerStep(bulletNumber: string) returns (t: TickResult)
      requires Valid()
      modifies this
      ensures Valid()
      ensures !old(gameTickerOn) ==> t == Cleared && bulletTimer == old(bulletTimer)
      ensures old(gameTickerOn) ==>
        && bulletTimer == AdvanceBulletTimer(old(bulletTimer)).0
        && t == Published(Snapshot(
             players, totalPlayers, SHIP_POSITION_PLACEHOLDER,
             if AdvanceBulletTimer(old(bulletTimer)).1
             then Some(Bullet(SHIP_PLATFORM, "bulletId-" + bulletNumber)) else None,
             false, killerBulletId))
      ensures t.Published? ==> (t.snapshot.bulletOrBlank.Some? <==> bulletTimer == 0)
      ensures players == old(players) && order == old(order)
      ensures totalPlayers == old(totalPlayers) && alivePlayers == old(alivePlayers)
      ensures killerBulletId == old(killerBulletId)
      ensures gameTickerOn == old(gameTickerOn) && gameOn == old(gameOn)
    {
      if !gameTickerOn {
        return Cleared;
      }
      var bulletOrBlank := None;
      bulletTimer := bulletTimer + GAME_TICKER_MS;
      if bulletTimer >= GAME_TICKER_MS * 5 {
        bulletTimer := 0;
        bulletOrBlank := Some(Bullet(SHIP_PLATFORM, "bulletId-" + bulletNumber));
      }
      t := Published(Snapshot(players, totalPlayers, SHIP_POSITION_PLACEHOLDER,
                              bulletOrBlank, gameOn, killerBulletId));
    }

    /** One firing of a player's downward interval. */
    method DownwardStep(id: string) returns (d: DescentTick)
      requires Valid()
      modifies this
      ensures Valid()
      ensures !(id in old(players) && old(players)[id].isAlive) ==>
        d == Stopped && players == old(players)
      ensures id in old(players) && old(players)[id].isAlive ==>
        && players == old(players)[id := Descend(old(players)[id])]
        && (d.Finished? <==> players[id].y > SHIP_PLATFORM)
        && (!d.Finished? ==> d == Continued)
      ensures d.Finished? ==>
        d.outcome == FinishOutcome(RecordsOf(order, players), id, players, totalPlayers)
      ensures order == old(order) && totalPlayers == old(totalPlayers) && alivePlayers == old(alivePlayers)
      ensures bulletTimer == old(bulletTimer) && killerBulletId == old(killerBulletId)
      ensures gameTickerOn == old(gameTickerOn) && gameOn == old(gameOn)
    {
      if id in players && players[id].isAlive {
        players := players[id := Descend(players[id])];
        if players[id].y > SHIP_PLATFORM {
          var o := Finish(id);
          return Finished(o);
        }
        return Continued;
      }
      d := Stopped;
    }

    /** finishGame: the outcome for winner id winnerId, "" meaning none (as
        the death handler's delayed call passes). The records are pushed in
        key order, and by StableSortKeepsInsertionOrder the sort keeps that
        order, so the runners-up are picked by join order. */
    method Finish(winnerId: string) returns (o: Outcome)
      requires Valid()
      requires winnerId != "" ==> winnerId in players
      ensures o == FinishOutcome(RecordsOf(order, players), winnerId, players, totalPlayers)
      ensures o.totalPlayers == totalPlayers
      ensures |order| == |players|
      ensures |players| < 3 ==> o.firstRunnerUp == "" && o.secondRunnerUp == ""
      ensures |players| >= 3 && winnerId == "" ==>
        o.firstRunnerUp == players[order[0]].nickname && o.secondRunnerUp == players[order[1]].nickname
      ensures |players| >= 3 && winnerId != "" ==>
        o.firstRunnerUp == players[order[1]].nickname && o.secondRunnerUp == players[order[2]].nickname
    {
      var leftoverPlayers: seq<Ranked> := [];
      var k := 0;
      while k < |order|
        invariant 0 <= k <= |order|
        invariant leftoverPlayers == RecordsOf(order, players)[..k]
      {
        var item := order[k];
        leftoverPlayers := leftoverPlayers + [Ranked(players[item].nickname, players[item].score)];
        k := k + 1;
      }
      KeysInOrderCount(players, order);
      o := FinishOutcome(leftoverPlayers, winnerId, players, totalPlayers);
    }
  }

  /** A leave right after the join of a new id restores the players and
      their order (the counters are back as well: Join adds one to each and
      Leave takes one from each). */
  lemma LeaveUndoesFreshJoin(players: map<string, Player>, order: seq<string>, id: string, p: Player)
    requires KeysInOrder(players, order)
    requires id !in players
    ensures players[id := p] - {id} == players
    ensures Without(order + [id], id) == order
  {
  }

  /** The first join starts the ticker, the third starts the ship and bullets. */
  method OpeningJoins(a: string, b: string, c: string, xa: int, xb: int, xc: int)
    returns (ea: JoinEffects, eb: JoinEffects, ec: JoinEffects)
    requires SPAWN_MIN <= xa <= SPAWN_MAX && SPAWN_MIN <= xb <= SPAWN_MAX && SPAWN_MIN <= xc <= SPAWN_MAX
    ensures ea == JoinEffects(true, false)
    ensures eb == JoinEffects(false, false)
    ensures ec == JoinEffects(false, true)
  {
    var s := new Session();
    ea := s.Join(a, "first", xa);
    eb := s.Join(b, "second", xb);
    ec := s.Join(c, "third", xc);
  }

  /** A repeated death notification for the only player counts twice: the
      first schedules the finish, and the counter then goes below zero. */
  method RepeatedDeath(id: string, x: int) returns (first: DeathResult, second: DeathResult, alive: int)
    requires SPAWN_MIN <= x <= SPAWN_MAX
    ensures first == Recorded(true)
    ensures second == Recorded(false)
    ensures alive == -1
  {
    var s := new Session();
    var _ := s.Join(id, "solo", x);
    first := s.NotifyDeath(id, "bulletId-1");
    second := s.NotifyDeath(id, "bulletId-2");
    alive := s.alivePlayers;
  }
}
