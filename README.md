# Mario-style platformer: level layout, controls and encounter rules

This project models the logic that the platformer in `mario/game.js` owns itself. The Phaser
engine is abstracted away. Three parts are modelled:

- **Controls** (`controls.dfy`): the per-frame input resolution of `update`. The keyboard's
  cursor keys are OR'ed with the latched gamepad's left stick (which counts only strictly beyond
  ±0.3), its D-pad flags, D-pad buttons 12/14/15, and jump buttons 0 and 1. The module also holds
  the horizontal-velocity choice (left is checked first), the jump gate on `touching.down`, and
  enemy velocity reversal.
- **Layout** (`layout.dfy`): the counted loops and constant tables of `create`. These are the
  ground strip of 200 slots with pits at indices 35–38, 70–74 and 120–125, the seven brick areas
  (including the staircase), the 12-brick goal pole at x = 5800, and the tables of question
  blocks, pipes, enemies and coin areas. Every loop of `layout.dfy` is an imperative `Build…`
  method proved equal to a specification function. The loops that allocate sprites and blocks
  (`Game.CreateEnemies`, `Game.CreateCoins`, `Game.CreateBlocks`) state their results against
  these tables and `Layout.Coins()` directly. Lemmas give the counts and memberships: 185 ground tiles, 73
  bricks, 116 coins.
- **Encounters** (`rules.dfy`, `game.dfy`): the session variables `score`, `lives`, `powerUp`
  and `gameOver`, and the per-object flags (a body's `enabled`, a block's `hasItem`).
  - The contact callbacks `collectCoin`, `hitQuestionBlock` (with its mushroom overlap handler)
    and `hitEnemy` are methods of the class `Game.Scene`. So are the frame step of `update` and
    the restart. The enemy-enemy collider is the module-level method `Game.EnemiesCollide`.
  - The `Scene` methods are proved against the session-level functions in `Rules` for score,
    lives, power-up and game over, and against the functions in `Controls` for velocities.
    `Game.EnemiesCollide` is stated with `Controls.Reversed`.
  - `Rules` proves what those functions promise over runs of contacts:
    - coins add exactly 100 each;
    - a block pays at most once;
    - a power-up absorbs exactly one hit;
    - without a power-up, game over comes exactly at the hit that takes lives to 0;
    - stomps never cost a life.

Engine facts are inputs to the model. These are the player's and the enemies' integrated
positions and velocities (fields the engine writes), `touching.down`, each enemy's blocked
sides, and the pad that `getPad(0)` returns.

The contact callbacks never read `gameOver` (only `update` does), and `lives` is decremented
with no floor. So a session that is already over, whether at the goal or by the last life, still
reacts to contacts. `Rules.DamageRun` shows lives going below 0, and
`Rules.CallbacksIgnoreGameOver` shows three effects after game over:
- a collected coin still scores;
- a damaging hit still costs a life;
- with lives already at 1 or below, that hit takes the game-over branch again, which schedules a
  second restart.

## Model

| member | source | states |
|---|---|---|
| Controls.ResolveIntent | mario/game.js:514-541 | with no pad the intent is exactly the keyboard's; keyboard flags are never overridden; each pad source (stick beyond ±0.3, D-pad flag or button 14/15, buttons 12/0/1 for jump) alone sets its flag; and no flag is set by anything else |
| Controls.DeadZone | mario/game.js:532-537 | a stick anywhere in [-0.3, 0.3], end points included, with nothing pressed leaves the keyboard intent unchanged |
| Controls.HorizontalVelocity | mario/game.js:544-550 | vx is negative iff left is intended, positive iff right without left, zero iff neither; it is always -200, 0 or 200 |
| Controls.LeftWins | mario/game.js:544-550 | with both directions pressed the player moves left at full speed |
| Controls.VerticalVelocity | mario/game.js:553-556 | vy becomes -500 when jump is intended and touching.down holds; without touching.down, or without jump, vy is kept (no mid-air jump) |
| Controls.Bounced | mario/game.js:559-563 | an enemy blocked on the left or right has its velocity reversed; otherwise it is kept; either way its speed is kept, and a bounce flips a moving enemy's heading |
| Layout.GroundCount | mario/game.js:264-270 | the first n ground iterations place n minus the number of pit slots below n tiles |
| Layout.GroundMembership | mario/game.js:264-270 | a point is a tile of the first n slots iff it is at y = 568 and x = 32*i for some non-pit slot i < n |
| Layout.GroundLayout | mario/game.js:264-270 | the ground has exactly 185 tiles; every non-pit slot of [0, 200) has its tile at 32*i; no tile lies in a pit |
| Layout.BuildGround | mario/game.js:264-270 | the ground loop builds exactly the specified strip |
| Layout.BuildRow | mario/game.js:276-278 | a counted brick row builds n bricks at x0 + 32*i |
| Layout.ColumnMembership | mario/game.js:348-350 | a point is in a column of n bricks iff it has the column's x and is k tiles above the ground row for some k < n |
| Layout.StaircaseShape | mario/game.js:282-286 | the staircase has 6 bricks: exactly the cells (800 + 32*i, 568 - 32*j) with j <= i < 3 |
| Layout.BuildStaircase | mario/game.js:282-286 | the nested staircase loop builds exactly the staircase, column by column |
| Layout.TwoLayerShape | mario/game.js:307-312 | area 6 has 9 bricks: a point is one of them iff it is one of the six slots x = 3000 + 32*i at y = 300, or the upper brick at y = 200 over slots 2 to 4 (x = 3064, 3096, 3128) |
| Layout.BuildTwoLayer | mario/game.js:307-312 | the area-6 loop with its conditional upper brick builds exactly that area |
| Layout.GoalPoleShape | mario/game.js:348-350 | the pole is 12 bricks at the goal x = 5800, from the ground row up to y = 216 |
| Layout.BuildGoalPole | mario/game.js:348-350 | the pole loop builds exactly the pole |
| Layout.BricksCount | mario/game.js:273-350 | the bricks group holds 73 bricks, the goal pole last |
| Layout.BuildBricks | mario/game.js:273-350 | the brick loops, in creation order, build exactly the bricks group |
| Layout.TablesShape | mario/game.js:323-369 | 13 question blocks, 8 pipes and 25 enemies; enemy and pipe x positions strictly increase; every enemy, pipe and block lies inside the 6400 x 600 world bounds and left of the goal, and every block has a tile of room above it |
| Layout.CoinsOfCount | mario/game.js:397-402 | the coin loops place as many coins as the areas' counts add up to |
| Layout.AreaCoinsMembership | mario/game.js:398-401 | a point is a coin of an area iff it is at y = 450 and x = start + 40*i for some i < count |
| Layout.CoinsOfMembership | mario/game.js:397-402 | a point is a coin iff it is a coin of one of the areas |
| Layout.CoinLayout | mario/game.js:383-402 | 116 coins in all; the first area is the eight coins from x = 250 to 530 |
| Layout.BuildCoins | mario/game.js:397-402 | the nested coin loops build exactly the coin layout |
| Rules.CoinRun | mario/game.js:597-602 | n coin pickups add exactly 100*n to score and change nothing else |
| Rules.FirstAreaScenario | mario/game.js:597-602 | collecting the whole first coin area adds 800 and leaves lives as they were |
| Rules.BlockPaysAtMostOnce | mario/game.js:604-611 | over any run of contacts with one block, score grows by 200 iff the item was armed and some contact had vy <= 0, else by 0; the item stays armed iff no contact paid |
| Rules.EnemyHitEffects | mario/game.js:634-685 | only a stomp scores (+200); only a non-stomp hit without power-up costs a life (exactly one); the power-up survives only a stomp; game over is set iff it was set or this hit takes lives to 0 or below |
| Rules.PowerUpAbsorbsOneHit | mario/game.js:643-651 | after a mushroom, the first damaging hit costs no life and the second costs one |
| Rules.DamageRun | mario/game.js:652-675 | from any session without power-up, a session already over included, k damaging hits cost exactly k lives and no score; game over holds afterwards iff it held before or some hit took lives to 0 or below |
| Rules.GameOverOnLastLife | mario/game.js:653-660 | from a running session with n lives, game over comes with the n-th damaging hit and not before |
| Rules.StompRun | mario/game.js:635-641 | k stomps add exactly 200*k and leave lives, power-up and game over unchanged |
| Rules.CallbacksIgnoreGameOver | mario/game.js:653-658 | after game over a coin still scores and a hit still costs a life; at lives <= 1 it re-enters the game-over branch |
| Rules.GoalLatches | mario/game.js:566-568 | a frame latches game over iff it was set or the player's x has reached 5800; nothing else in the session changes |
| Game.EnemiesCollide | mario/game.js:421-424 | both enemies in contact reverse their horizontal velocity |
| Game.CreateEnemies | mario/game.js:365-377 | one fresh, distinct, enabled goomba per table entry at (x, 400), walking left at 50 |
| Game.CreateCoins | mario/game.js:397-402 | one fresh enabled coin per layout position, each a separate sprite |
| Game.CreateBlocks | mario/game.js:323-335 | one fresh question block per table position, each a separate object with its item armed |
| Game.CreateLevel | mario/game.js:261-402 | create builds the ground and pipes, the bricks, the player at (100, 450) at rest, and the enemies, coins and blocks of the tables, every sprite and block newly allocated and each group free of repeats |
| Game.Scene.constructor | mario/game.js:36-41 | the session starts at score 0, lives 3, no power-up, not game over, with the level built from newly allocated sprites and blocks and no pad latched |
| Game.Scene.Restart | mario/game.js:585-591 | restart rebuilds the level from newly allocated sprites and blocks and restores exactly score 0, lives 3, game over false, power-up false; the latched pad stays |
| Game.Scene.CollectCoin | mario/game.js:597-602 | the coin is disabled and score grows by exactly 100; by the frame, lives, power-up and game over are untouched |
| Game.Scene.HitQuestionBlock | mario/game.js:604-632 | nothing when vy > 0 or the item is spent; otherwise the item is consumed, +200, and one fresh mushroom is spawned 32 above the block walking right at 100 |
| Game.Scene.CollectMushroom | mario/game.js:621-628 | the mushroom is disabled, +1000, and the power-up is on |
| Game.Scene.HitEnemy | mario/game.js:634-685 | stomp: enemy disabled, vy = -300, +200; power-up: only the power-up is lost; otherwise one life is lost and the player either stops at (0, 0) velocity with game over (lives <= 0) or goes back to (100, 450) |
| Game.Scene.Update | mario/game.js:502-592 | a no-op while game over; otherwise latches the first pad once, sets vx and the jump-gated vy from the resolved intent, bounces every blocked enemy, and on x >= 5800 latches game over and zeroes the velocity |

## Left out

- Sound synthesis (`playSoundEffect`): Web Audio oscillator scheduling in floating point, with no state the game reads.
- Sprite drawing (`preload` and the `create…Sprite` functions): rendering calls only.
- Engine physics: gravity, collision and overlap detection, the `touching` and `blocked` flags,
  world and camera bounds, and body sizes. Their results are inputs. The engine's guarantee that
  a disabled body raises no further contacts belongs to the engine, not to the model.
- Timers and events: the 1000 ms tint-clear and the 3000 ms restart delays, the 500 ms gamepad
  status poll, and the `connected`/`down` pad events. The restart is the explicit method
  `Game.Scene.Restart`. Pad latching is modelled only where `update` does it.
- Presentation: texts, tints, scale changes and console output. `powerUp` stands in for the
  player's scale.
- Overlap registration: `hitQuestionBlock` registers the player-mushroom overlap with the engine.
  The model records the spawned mushroom; `CollectMushroom` is the handler the engine then calls.
