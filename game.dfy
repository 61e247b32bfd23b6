/** The mutable side of mario/game.js: the module-level session variables, the
    sprites that create spawns and the contact callbacks the physics engine
    invokes. Each engine-detected contact is a method call; what the engine
    decides (positions it integrated, touching.down, the blocked sides, the pad it
    enumerated) arrives as a sprite field it wrote or as a parameter. The level
    builders (CreateEnemies, CreateCoins, CreateBlocks, CreateLevel) are stated
    against the tables and layout functions of module Layout; the Scene methods are
    proved against the session rules in module Rules for score, lives, power-up and
    game over, and against the frame rules in module Controls for velocities. */
module Game {
  import Controls
  import Layout
  import Rules

  const SpawnX: real := 100.0
  const SpawnY: real := 450.0
  const EnemyWalk: real := -50.0
  const StompBounce: real := -300.0
  const MushroomSpeed: real := 100.0

  /** A dynamic sprite with an arcade body: position, velocity and whether its body
      is enabled (disableBody clears it). The engine moves it between callbacks. */
  class Sprite {
    var x: real
    var y: real
    var vx: real
    var vy: real
    var enabled: bool

    constructor (x: real, y: real, vx: real)
      ensures this.x == x && this.y == y && this.vx == vx && this.vy == 0.0 && enabled
    {
      this.x, this.y, this.vx, this.vy := x, y, vx, 0.0;
      enabled := true;
    }
  }

  /** A static question block; its data item 'hasItem' is the one mutable part. */
  class QuestionBlock {
    const x: real
    const y: real
    var hasItem: bool

    constructor (x: real, y: real)
      ensures this.x == x && this.y == y && hasItem
    {
      this.x, this.y := x, y;
      hasItem := true;
    }
  }

  /** A gamepad object owned by the engine, which refreshes its fields. */
  class Gamepad {
    var stickX: real
    var left: bool
    var right: bool
    var up: bool
    var buttons: seq<bool>
  }

  /** The latched pad's current state, or None when no pad is latched. */
  function PadState(g: Gamepad?): Controls.Option<Controls.Pad>
    reads g
  {
    if g == null then Controls.None
    else Controls.Some(Controls.Pad(g.stickX, g.left, g.right, g.up, g.buttons))
  }

  predicate Distinct<T(==)>(s: seq<T>)
  {
    forall i, j :: 0 <= i < j < |s| ==> s[i] != s[j]
  }

  /** The enemy-enemy collider callback of create: both participants reverse. The
      engine never pairs a body with itself; if it did, the two reversals would cancel. */
  method EnemiesCollide(e1: Sprite, e2: Sprite)
    modifies e1`vx, e2`vx
    ensures e1 != e2 ==> e1.vx == Controls.Reversed(old(e1.vx)) && e2.vx == Controls.Reversed(old(e2.vx))
    ensures e1 == e2 ==> e1.vx == old(e1.vx)
  {
    e1.vx := Controls.Reversed(e1.vx);
    e2.vx := Controls.Reversed(e2.vx);
  }

  // ---------------------------------------------------------------- create

  /** Every object of the group was allocated since the previous state. */
  twostate predicate AllFresh(new group: seq<object>)
  {
    forall i :: 0 <= i < |group| ==> fresh(group[i])
  }

  /** The dynamic objects of a freshly built level, as create places them. */
  ghost predicate LevelAt(player: Sprite, enemies: seq<Sprite>, coins: seq<Sprite>, blocks: seq<QuestionBlock>)
    reads player, enemies, coins, blocks
  {
    && player.x == SpawnX && player.y == SpawnY && player.vx == 0.0 && player.vy == 0.0 && player.enabled
    && |enemies| == |Layout.EnemyXs|
    && (forall i :: 0 <= i < |enemies| ==>
          && enemies[i].x == Layout.EnemyXs[i] as real && enemies[i].y == Layout.EnemyY as real
          && enemies[i].vx == EnemyWalk && enemies[i].enabled)
    && |coins| == |Layout.Coins()|
    && (forall i :: 0 <= i < |coins| ==>
          coins[i].x == Layout.Coins()[i].x as real && coins[i].y == Layout.Coins()[i].y as real && coins[i].enabled)
    && |blocks| == |Layout.QuestionBlocks|
    && (forall i :: 0 <= i < |blocks| ==>
          blocks[i].x == Layout.QuestionBlocks[i].x as real && blocks[i].y == Layout.QuestionBlocks[i].y as real
          && blocks[i].hasItem)
  }

  /** The enemyPositions loop: one goomba per table entry at y = 400, walking left. */
  method CreateEnemies() returns (enemies: seq<Sprite>)
    ensures |enemies| == |Layout.EnemyXs| && Distinct(enemies)
    ensures AllFresh(enemies)
    ensures forall i :: 0 <= i < |enemies| ==>
      && enemies[i].x == Layout.EnemyXs[i] as real && enemies[i].y == Layout.EnemyY as real
      && enemies[i].vx == EnemyWalk && enemies[i].enabled
  {
    enemies := [];
    for i := 0 to |Layout.EnemyXs|
      invariant |enemies| == i && Distinct(enemies)
      invariant forall k :: 0 <= k < i ==> fresh(enemies[k])
      invariant forall k :: 0 <= k < i ==>
        && enemies[k].x == Layout.EnemyXs[k] as real && enemies[k].y == Layout.EnemyY as real
        && enemies[k].vx == EnemyWalk && enemies[k].enabled
    {
      var goomba := new Sprite(Layout.EnemyXs[i] as real, Layout.EnemyY as real, EnemyWalk);
      enemies := enemies + [goomba];
    }
  }

  /** The coinAreas loops: one coin per layout position. */
  method CreateCoins() returns (coins: seq<Sprite>)
    ensures |coins| == |Layout.Coins()| && Distinct(coins)
    ensures AllFresh(coins)
    ensures forall i :: 0 <= i < |coins| ==>
      coins[i].x == Layout.Coins()[i].x as real && coins[i].y == Layout.Coins()[i].y as real && coins[i].enabled
  {
    var spots := Layout.BuildCoins();
    coins := [];
    for i := 0 to |spots|
      invariant |coins| == i && Distinct(coins)
      invariant forall k :: 0 <= k < i ==> fresh(coins[k])
      invariant forall k :: 0 <= k < i ==>
        coins[k].x == spots[k].x as real && coins[k].y == spots[k].y as real && coins[k].enabled
    {
      var coin := new Sprite(spots[i].x as real, spots[i].y as real, 0.0);
      coins := coins + [coin];
    }
  }

  /** The question-block table, every block armed with its item. */
  method CreateBlocks() returns (blocks: seq<QuestionBlock>)
    ensures |blocks| == |Layout.QuestionBlocks| && Distinct(blocks)
    ensures AllFresh(blocks)
    ensures forall i :: 0 <= i < |blocks| ==>
      blocks[i].x == Layout.QuestionBlocks[i].x as real && blocks[i].y == Layout.QuestionBlocks[i].y as real
      && blocks[i].hasItem
  {
    blocks := [];
    for i := 0 to |Layout.QuestionBlocks|
      invariant |blocks| == i && Distinct(blocks)
      invariant forall k :: 0 <= k < i ==> fresh(blocks[k])
      invariant forall k :: 0 <= k < i ==>
        blocks[k].x == Layout.QuestionBlocks[k].x as real && blocks[k].y == Layout.QuestionBlocks[k].y as real
        && blocks[k].hasItem
    {
      var block := new QuestionBlock(Layout.QuestionBlocks[i].x as real, Layout.QuestionBlocks[i].y as real);
      blocks := blocks + [block];
    }
  }

  /** create: the static geometry (ground and pipes in the platforms group, the
      bricks), the player at its spawn point, the enemies, the coins and the blocks. */
  method CreateLevel() returns (platforms: seq<Layout.Point>, bricks: seq<Layout.Point>, player: Sprite,
                                enemies: seq<Sprite>, coins: seq<Sprite>, blocks: seq<QuestionBlock>)
    ensures platforms == Layout.Ground() + Layout.Pipes() && bricks == Layout.Bricks()
    ensures fresh(player) && LevelAt(player, enemies, coins, blocks)
    ensures player !in enemies && player !in coins
    ensures Distinct(enemies) && Distinct(coins) && Distinct(blocks)
    ensures AllFresh(enemies)
    ensures AllFresh(coins)
    ensures AllFresh(blocks)
  {
    var ground := Layout.BuildGround();
    bricks := Layout.BuildBricks();
    platforms := ground + Layout.Pipes();
    player := new Sprite(SpawnX, SpawnY, 0.0);
    enemies := CreateEnemies();
    coins := CreateCoins();
    blocks := CreateBlocks();
  }

  // ---------------------------------------------------------------- the game

  class Scene {
    // the module-level session variables
    var score: int
    var lives: int
    var powerUp: bool
    var gameOver: bool
    // the level that create built, and the pad update latched
    var platforms: seq<Layout.Point>
    var bricks: seq<Layout.Point>
    var player: Sprite
    var enemies: seq<Sprite>
    var coins: seq<Sprite>
    var blocks: seq<QuestionBlock>
    var mushrooms: seq<Sprite>
    var gamepad: Gamepad?

    function State(): Rules.Session
      reads this
    {
      Rules.Session(score, lives, powerUp, gameOver)
    }

    /** The player is not one of the group members, and the enemies, coins and
        blocks groups hold each of their objects once. */
    ghost predicate Valid()
      reads this
    {
      && player !in enemies && player !in coins && player !in mushrooms
      && Distinct(enemies) && Distinct(coins) && Distinct(blocks)
    }

    ghost predicate LevelAtStart()
      reads this, player, enemies, coins, blocks
    {
      && platforms == Layout.Ground() + Layout.Pipes() && bricks == Layout.Bricks()
      && LevelAt(player, enemies, coins, blocks) && mushrooms == []
    }

    /** Loading the script: the declared session values, then create. */
    constructor ()
      ensures Valid() && State() == Rules.Start && LevelAtStart() && gamepad == null
      ensures fresh(player)
      ensures AllFresh(enemies)
      ensures AllFresh(coins)
      ensures AllFresh(blocks)
    {
      var plats, brs, p, es, cs, bs := CreateLevel();
      score, lives, powerUp, gameOver := 0, Rules.StartLives, false, false;
      platforms, bricks, player, enemies, coins, blocks := plats, brs, p, es, cs, bs;
      mushrooms := [];
      gamepad := null;
    }

    /** The level part of a restart: create runs again and the groups are replaced. */
    method Rebuild()
      modifies this`platforms, this`bricks, this`player, this`enemies, this`coins, this`blocks, this`mushrooms
      ensures Valid() && LevelAtStart()
      ensures fresh(player) && AllFresh(enemies) && AllFresh(coins) && AllFresh(blocks)
    {
      var plats, brs, p, es, cs, bs := CreateLevel();
      assert AllFresh(es) && AllFresh(cs) && AllFresh(bs);
      platforms, bricks, player, enemies, coins, blocks, mushrooms := plats, brs, p, es, cs, bs, [];
    }

    /** The restart timer's callback: the scene is built again and the four session
        variables are put back; the latched gamepad is module-level and stays. */
    method Restart()
      modifies this
      ensures Valid() && State() == Rules.Start && LevelAtStart() && gamepad == old(gamepad)
      ensures fresh(player)
      ensures AllFresh(enemies)
      ensures AllFresh(coins)
      ensures AllFresh(blocks)
    {
      Rebuild();
      score, lives, powerUp, gameOver := 0, Rules.StartLives, false, false;
    }

    /** collectCoin: the coin's body is disabled and the score grows by 100. */
    method CollectCoin(coin: Sprite)
      requires Valid()
      modifies this`score, coin`enabled
      ensures Valid()
      ensures !coin.enabled
      ensures score == old(score) + Rules.CoinPoints
      ensures State() == Rules.AfterCoin(old(State()))
    {
      coin.enabled := false;
      score := score + Rules.CoinPoints;
    }

    /** hitQuestionBlock: nothing when the player is moving down or the item is
        spent; otherwise the item is consumed, a mushroom is spawned one tile above
        the block walking right, and the score grows by 200. */
    method HitQuestionBlock(block: QuestionBlock)
      requires Valid()
      modifies this`score, this`mushrooms, block`hasItem
      ensures Valid()
      ensures State() == Rules.AfterBlock(old(State()), player.vy, old(block.hasItem))
      ensures block.hasItem == Rules.ItemAfterBlock(player.vy, old(block.hasItem))
      ensures !Rules.BlockPays(player.vy, old(block.hasItem)) ==> mushrooms == old(mushrooms)
      ensures Rules.BlockPays(player.vy, old(block.hasItem)) ==>
        && |mushrooms| == |old(mushrooms)| + 1 && mushrooms[..|old(mushrooms)|] == old(mushrooms)
        && var m := mushrooms[|old(mushrooms)|];
           fresh(m) && m.x == block.x && m.y == block.y - 32.0 && m.vx == MushroomSpeed && m.enabled
    {
      if player.vy > 0.0 || !block.hasItem {
        return;
      }
      block.hasItem := false;
      var mushroom := new Sprite(block.x, block.y - 32.0, MushroomSpeed);
      mushrooms := mushrooms + [mushroom];
      score := score + Rules.BlockPoints;
    }

    /** The overlap handler registered for a spawned mushroom: it is disabled, the
        score grows by 1000 and the power-up is on. */
    method CollectMushroom(mushroom: Sprite)
      requires Valid()
      modifies this`score, this`powerUp, mushroom`enabled
      ensures Valid()
      ensures !mushroom.enabled && powerUp
      ensures score == old(score) + Rules.MushroomPoints
      ensures State() == Rules.AfterMushroom(old(State()))
    {
      mushroom.enabled := false;
      score := score + Rules.MushroomPoints;
      powerUp := true;
    }

    /** hitEnemy. A stomp disables the enemy, bounces the player up and scores 200.
        Any other contact is damage: a power-up is lost first; without one a life
        is lost, and then either game over (lives at 0 or below: the player stops)
        or the player goes back to the spawn point. gameOver is not consulted. */
    method HitEnemy(enemy: Sprite)
      requires Valid() && enemy != player
      modifies this`score, this`lives, this`powerUp, this`gameOver, enemy`enabled
      modifies player`x, player`y, player`vx, player`vy
      ensures Valid()
      ensures var c := Rules.Contact(old(player.vy), old(player.y), enemy.y);
        State() == Rules.AfterEnemy(old(State()), c)
      ensures var c := Rules.Contact(old(player.vy), old(player.y), enemy.y);
        match Rules.KindOf(old(State()), c)
        case Stomp =>
          !enemy.enabled && player.vy == StompBounce
          && player.x == old(player.x) && player.y == old(player.y) && player.vx == old(player.vx)
        case PowerLost =>
          enemy.enabled == old(enemy.enabled) && unchanged(player)
        case LifeLost =>
          enemy.enabled == old(enemy.enabled) && player.x == SpawnX && player.y == SpawnY
          && player.vx == old(player.vx) && player.vy == old(player.vy)
        case Died =>
          enemy.enabled == old(enemy.enabled) && player.vx == 0.0 && player.vy == 0.0
          && player.x == old(player.x) && player.y == old(player.y)
    {
      if player.vy > 0.0 && player.y < enemy.y {
        enemy.enabled := false;
        player.vy := StompBounce;
        score := score + Rules.StompPoints;
      } else {
        if powerUp {
          powerUp := false;
        } else {
          lives := lives - 1;
          if lives <= 0 {
            gameOver := true;
            player.vx, player.vy := 0.0, 0.0;
          } else {
            player.x, player.y := SpawnX, SpawnY;
          }
        }
      }
    }

    /** update, one frame. Nothing while game over. Otherwise: latch the first pad
        the engine enumerates if none is latched yet; resolve the intent; set the
        player's horizontal velocity and gate the jump on touching.down; bounce every
        enemy the engine reports blocked on a side; then the goal check, which
        latches game over and stops the player once x reaches the goal. */
    method Update(keys: Controls.Keys, firstPad: Gamepad?, touchingDown: bool, blocked: seq<Controls.Blocked>)
      requires Valid() && |blocked| == |enemies|
      modifies this`gamepad, this`gameOver, player`vx, player`vy, enemies`vx
      ensures Valid()
      ensures State() == Rules.AfterFrame(old(State()), player.x)
      ensures old(gameOver) ==>
        && gamepad == old(gamepad) && player.vx == old(player.vx) && player.vy == old(player.vy)
        && forall k :: 0 <= k < |enemies| ==> enemies[k].vx == old(enemies[k].vx)
      ensures !old(gameOver) ==>
        && gamepad == (if old(gamepad) == null then firstPad else old(gamepad))
        && (forall k :: 0 <= k < |enemies| ==> enemies[k].vx == Controls.Bounced(old(enemies[k].vx), blocked[k]))
        && var intent := Controls.ResolveIntent(keys, PadState(gamepad));
           var goal := player.x >= Layout.GoalX as real;
           && player.vx == (if goal then 0.0 else Controls.HorizontalVelocity(intent))
           && player.vy == (if goal then 0.0 else Controls.VerticalVelocity(intent, touchingDown, old(player.vy)))
    {
      if gameOver {
        return;
      }
      if gamepad == null && firstPad != null {
        gamepad := firstPad;
      }
      var intent := Controls.ResolveIntent(keys, PadState(gamepad));
      player.vx := Controls.HorizontalVelocity(intent);
      player.vy := Controls.VerticalVelocity(intent, touchingDown, player.vy);

      var group := enemies;
      for i := 0 to |group|
        modifies group`vx
        invariant forall k :: 0 <= k < i ==> group[k].vx == Controls.Bounced(old(group[k].vx), blocked[k])
        invariant forall k :: i <= k < |group| ==> group[k].vx == old(group[k].vx)
      {
        group[i].vx := Controls.Bounced(group[i].vx, blocked[i]);
      }

      if player.x >= Layout.GoalX as real && !gameOver {
        gameOver := true;
        player.vx, player.vy := 0.0, 0.0;
      }
    }
  }
}
