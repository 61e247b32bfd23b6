/** The encounter rules of mario/game.js on the session state (score, lives,
    powerUp, gameOver): what each contact callback and the goal check of update do
    to the four module-level variables, given the facts the physics engine reports.
    The Scene class of module Game applies exactly these functions; the lemmas here state what the
    rules promise over one contact and over runs of contacts. */
module Rules {
  import Layout

  datatype Session = Session(score: int, lives: int, powerUp: bool, gameOver: bool)

  const StartLives: int := 3

  /** The values the module declares, and the ones a restart puts back. */
  const Start: Session := Session(0, StartLives, false, false)

  const CoinPoints: int := 100
  const BlockPoints: int := 200
  const StompPoints: int := 200
  const MushroomPoints: int := 1000

  // ---------------------------------------------------------------- coins

  /** collectCoin: the coin is disabled elsewhere; the session gains 100. */
  function AfterCoin(s: Session): Session
  {
    s.(score := s.score + CoinPoints)
  }

  /** n coins collected one after the other. */
  function AfterCoins(s: Session, n: nat): Session
  {
    if n == 0 then s else AfterCoin(AfterCoins(s, n - 1))
  }

  /** n coins add exactly 100*n and touch nothing else. */
  lemma {:induction false} CoinRun(s: Session, n: nat)
    ensures AfterCoins(s, n) == s.(score := s.score + CoinPoints * n)
  {
    if n > 0 {
      CoinRun(s, n - 1);
    }
  }

  /** Collecting the whole first coin area (start 250, 8 coins) adds 800 and no life. */
  lemma FirstAreaScenario(s: Session)
    ensures AfterCoins(s, |Layout.AreaCoins(Layout.CoinAreas[0])|).score == s.score + 800
    ensures AfterCoins(s, |Layout.AreaCoins(Layout.CoinAreas[0])|).lives == s.lives
  {
    CoinRun(s, 8);
  }

  // ---------------------------------------------------------------- question blocks

  /** hitQuestionBlock returns early when the player moves down or the item is spent. */
  predicate BlockPays(vy: real, hasItem: bool)
  {
    !(vy > 0.0 || !hasItem)
  }

  function AfterBlock(s: Session, vy: real, hasItem: bool): Session
  {
    if BlockPays(vy, hasItem) then s.(score := s.score + BlockPoints) else s
  }

  /** The block's hasItem flag after the contact. */
  function ItemAfterBlock(vy: real, hasItem: bool): bool
  {
    hasItem && !BlockPays(vy, hasItem)
  }

  /** A run of contacts with one block, given the player's vy at each contact;
      returns the session and the block's flag afterwards. */
  function BlockRun(s: Session, hasItem: bool, vys: seq<real>): (Session, bool)
    decreases |vys|
  {
    if |vys| == 0 then (s, hasItem)
    else BlockRun(AfterBlock(s, vys[0], hasItem), ItemAfterBlock(vys[0], hasItem), vys[1..])
  }

  predicate SomeUpward(vys: seq<real>)
  {
    exists k :: 0 <= k < |vys| && vys[k] <= 0.0
  }

  /** A block pays out at most once: however many contacts, the score grows by 200
      exactly when the item was armed and some contact came from below (vy <= 0),
      by 0 otherwise, and the item is still armed only if no contact paid. */
  lemma {:induction false} BlockPaysAtMostOnce(s: Session, hasItem: bool, vys: seq<real>)
    ensures BlockRun(s, hasItem, vys).0 ==
      s.(score := s.score + if hasItem && SomeUpward(vys) then BlockPoints else 0)
    ensures BlockRun(s, hasItem, vys).1 == (hasItem && !SomeUpward(vys))
    decreases |vys|
  {
    if |vys| > 0 {
      var s', item' := AfterBlock(s, vys[0], hasItem), ItemAfterBlock(vys[0], hasItem);
      BlockPaysAtMostOnce(s', item', vys[1..]);
      assert SomeUpward(vys) <==> vys[0] <= 0.0 || SomeUpward(vys[1..]) by {
        if SomeUpward(vys[1..]) {
          var k :| 0 <= k < |vys[1..]| && vys[1..][k] <= 0.0;
          assert vys[k + 1] <= 0.0;
        }
        if SomeUpward(vys) && vys[0] > 0.0 {
          var k :| 0 <= k < |vys| && vys[k] <= 0.0;
          assert vys[1..][k - 1] <= 0.0;
        }
      }
    }
  }

  /** The mushroom overlap handler: +1000 and the power-up. */
  function AfterMushroom(s: Session): Session
  {
    s.(score := s.score + MushroomPoints, powerUp := true)
  }

  // ---------------------------------------------------------------- enemies

  /** What the engine reports at a player-enemy contact: the player's vertical
      velocity and the two sprites' y positions (y grows downwards). */
  datatype Contact = Contact(vy: real, playerY: real, enemyY: real)

  datatype HitKind = Stomp | PowerLost | LifeLost | Died

  /** Falling onto an enemy from above. */
  predicate IsStomp(c: Contact)
  {
    c.vy > 0.0 && c.playerY < c.enemyY
  }

  /** The branch hitEnemy takes; Died is the branch where lives drop to 0 or below. */
  function KindOf(s: Session, c: Contact): HitKind
  {
    if IsStomp(c) then Stomp
    else if s.powerUp then PowerLost
    else if s.lives - 1 <= 0 then Died
    else LifeLost
  }

  function AfterEnemy(s: Session, c: Contact): Session
  {
    match KindOf(s, c)
    case Stomp => s.(score := s.score + StompPoints)
    case PowerLost => s.(powerUp := false)
    case LifeLost => s.(lives := s.lives - 1)
    case Died => s.(lives := s.lives - 1, gameOver := true)
  }

  /** One enemy contact: only a stomp scores, only an unguarded hit costs a life,
      the power-up is lost only by a non-stomp hit, and game over is set exactly
      when the hit takes lives to 0 or below. */
  lemma EnemyHitEffects(s: Session, c: Contact)
    ensures AfterEnemy(s, c).score == if IsStomp(c) then s.score + StompPoints else s.score
    ensures AfterEnemy(s, c).lives == if !IsStomp(c) && !s.powerUp then s.lives - 1 else s.lives
    ensures AfterEnemy(s, c).powerUp <==> s.powerUp && IsStomp(c)
    ensures AfterEnemy(s, c).gameOver <==> s.gameOver || (!IsStomp(c) && !s.powerUp && s.lives <= 1)
  {
  }

  /** A power-up absorbs exactly one damaging hit: the first costs no life, the second does. */
  lemma PowerUpAbsorbsOneHit(s: Session, c1: Contact, c2: Contact)
    requires !IsStomp(c1) && !IsStomp(c2)
    ensures AfterEnemy(AfterMushroom(s), c1).lives == s.lives
    ensures AfterEnemy(AfterEnemy(AfterMushroom(s), c1), c2).lives == s.lives - 1
  {
  }

  /** Contacts in time order. */
  function EnemyRun(s: Session, cs: seq<Contact>): Session
    decreases |cs|
  {
    if |cs| == 0 then s else EnemyRun(AfterEnemy(s, cs[0]), cs[1..])
  }

  predicate AllHits(cs: seq<Contact>)
  {
    forall k :: 0 <= k < |cs| ==> !IsStomp(cs[k])
  }

  predicate AllStomps(cs: seq<Contact>)
  {
    forall k :: 0 <= k < |cs| ==> IsStomp(cs[k])
  }

  /** Without a power-up, every damaging hit costs exactly one life and no score, and
      game over is set afterwards exactly when it was set before or some hit took
      lives to 0 or below. The callbacks are not guarded, so this holds from any
      session, one already over (at the goal or by the last life) included, and
      hits after game over keep counting lives down. */
  lemma {:induction false} DamageRun(s: Session, cs: seq<Contact>)
    requires AllHits(cs) && !s.powerUp
    ensures EnemyRun(s, cs) ==
      s.(lives := s.lives - |cs|, gameOver := s.gameOver || (|cs| > 0 && s.lives - |cs| <= 0))
    decreases |cs|
  {
    if |cs| > 0 {
      assert !IsStomp(cs[0]);
      DamageRun(AfterEnemy(s, cs[0]), cs[1..]);
    }
  }

  /** From a running session with n lives, game over is reached by the n-th damaging
      hit and not before. */
  lemma GameOverOnLastLife(s: Session, cs: seq<Contact>)
    requires AllHits(cs) && !s.powerUp && !s.gameOver && s.lives >= 1
    ensures EnemyRun(s, cs).gameOver <==> |cs| >= s.lives
    ensures EnemyRun(s, cs).lives == s.lives - |cs|
  {
    DamageRun(s, cs);
  }

  /** Stomps score 200 each and never touch lives, power-up or game over. */
  lemma {:induction false} StompRun(s: Session, cs: seq<Contact>)
    requires AllStomps(cs)
    ensures EnemyRun(s, cs) == s.(score := s.score + StompPoints * |cs|)
    decreases |cs|
  {
    if |cs| > 0 {
      assert IsStomp(cs[0]);
      StompRun(AfterEnemy(s, cs[0]), cs[1..]);
    }
  }

  /** The callbacks do not look at gameOver: after game over a coin still scores,
      a damaging hit still costs a life, and with lives already at 1 or below it
      takes the game-over branch a second time. */
  lemma CallbacksIgnoreGameOver(s: Session, c: Contact)
    requires s.gameOver && !s.powerUp && !IsStomp(c)
    ensures AfterCoin(s).score == s.score + CoinPoints
    ensures AfterEnemy(s, c).lives == s.lives - 1
    ensures s.lives <= 1 ==> KindOf(s, c) == Died
  {
  }

  // ---------------------------------------------------------------- frame and restart

  /** The session part of update: nothing while game over; otherwise the goal check
      latches game over once the player's x reaches the goal. */
  function AfterFrame(s: Session, playerX: real): Session
  {
    if s.gameOver then s
    else if playerX >= Layout.GoalX as real && !s.gameOver then s.(gameOver := true)
    else s
  }

  lemma GoalLatches(s: Session, playerX: real)
    ensures AfterFrame(s, playerX).gameOver <==> s.gameOver || playerX >= Layout.GoalX as real
    ensures AfterFrame(s, playerX).(gameOver := s.gameOver) == s
  {
  }
}
