/** The static level that create builds (mario/game.js, create): the ground strip
    with its three pits, the brick groups and the goal pole, the question-block,
    pipe and enemy tables, and the coin areas. Each counted loop of create is an
    imperative Build method proved equal to a specification function; the lemmas
    give the counts and the membership facts of those functions. */
module Layout {

  datatype Point = Point(x: int, y: int)

  const WorldWidth: int := 6400
  const WorldHeight: int := 600
  const TileSize: int := 32

  // ---------------------------------------------------------------- ground

  const GroundY: int := 568
  const GroundSlots: nat := 200

  /** The three pits: tile indices 35-38, 70-74 and 120-125 stay empty. */
  predicate IsGap(i: int)
  {
    (35 <= i <= 38) || (70 <= i <= 74) || (120 <= i <= 125)
  }

  /** The number of gap indices in [0, n), in closed form. */
  function GapsBelow(n: int): int
  {
    if n <= 35 then 0
    else if n <= 39 then n - 35
    else if n <= 70 then 4
    else if n <= 75 then 4 + (n - 70)
    else if n <= 120 then 9
    else if n <= 126 then 9 + (n - 120)
    else 15
  }

  /** The tiles placed by the first n iterations of the ground loop, in order. */
  function GroundUpTo(n: nat): seq<Point>
  {
    if n == 0 then []
    else GroundUpTo(n - 1) + (if IsGap(n - 1) then [] else [Point((n - 1) * TileSize, GroundY)])
  }

  function Ground(): seq<Point>
  {
    GroundUpTo(GroundSlots)
  }

  /** A tile position of the first n slots that is not a pit. */
  predicate GroundCell(p: Point, n: nat)
  {
    p.y == GroundY && 0 <= p.x < n * TileSize && p.x % TileSize == 0 && !IsGap(p.x / TileSize)
  }

  lemma {:induction false} GroundCount(n: nat)
    ensures |GroundUpTo(n)| == n - GapsBelow(n)
  {
    if n > 0 {
      GroundCount(n - 1);
    }
  }

  lemma {:induction false} GroundMembership(n: nat, p: Point)
    ensures p in GroundUpTo(n) <==> GroundCell(p, n)
  {
    if n > 0 {
      GroundMembership(n - 1, p);
      if p.y == GroundY && p.x == (n - 1) * TileSize {
        assert p.x / TileSize == n - 1;
      }
    }
  }

  /** The ground strip: 185 tiles, each at x = 32*i for a slot i in [0, 200) that is
      not a pit; every such slot has its tile and no tile lies in a pit. */
  lemma GroundLayout()
    ensures |Ground()| == 185
    ensures forall p :: p in Ground() <==> GroundCell(p, GroundSlots)
    ensures forall i :: 0 <= i < GroundSlots && !IsGap(i) ==> Point(i * TileSize, GroundY) in Ground()
    ensures forall p :: p in Ground() ==> !IsGap(p.x / TileSize)
  {
    GroundCount(GroundSlots);
    forall p ensures p in Ground() <==> GroundCell(p, GroundSlots) {
      GroundMembership(GroundSlots, p);
    }
    forall i | 0 <= i < GroundSlots && !IsGap(i) ensures Point(i * TileSize, GroundY) in Ground() {
      assert (i * TileSize) / TileSize == i;
      GroundMembership(GroundSlots, Point(i * TileSize, GroundY));
    }
  }

  /** The ground loop of create (skip the pit slots, place every other tile). */
  method BuildGround() returns (tiles: seq<Point>)
    ensures tiles == Ground()
  {
    tiles := [];
    for i := 0 to GroundSlots
      invariant tiles == GroundUpTo(i)
    {
      if IsGap(i) {
        continue;
      }
      tiles := tiles + [Point(i * TileSize, GroundY)];
    }
  }

  // ---------------------------------------------------------------- bricks

  /** n bricks side by side from x0 to the right, at height y. */
  function Row(x0: int, y: int, n: nat): seq<Point>
  {
    seq(n, k => Point(x0 + k * TileSize, y))
  }

  /** n bricks stacked upwards from the ground row at x. */
  function Column(x: int, n: nat): seq<Point>
  {
    seq(n, k => Point(x, GroundY - k * TileSize))
  }

  lemma ColumnMembership(x: int, n: nat, p: Point)
    ensures p in Column(x, n) <==>
      p.x == x && p.y <= GroundY && (GroundY - p.y) % TileSize == 0 && (GroundY - p.y) / TileSize < n
  {
    if p.x == x && p.y <= GroundY && (GroundY - p.y) % TileSize == 0 && (GroundY - p.y) / TileSize < n {
      var k := (GroundY - p.y) / TileSize;
      assert Column(x, n)[k] == p;
    }
  }

  /** The first i columns of the staircase; column c is c + 1 bricks high. */
  function StairsUpTo(i: nat): seq<Point>
  {
    if i == 0 then [] else StairsUpTo(i - 1) + Column(800 + (i - 1) * TileSize, i)
  }

  function Staircase(): seq<Point>
  {
    StairsUpTo(3)
  }

  /** A cell of a three-column staircase rising to the right from x = 800. */
  predicate StairCell(p: Point)
  {
    800 <= p.x < 800 + 3 * TileSize && (p.x - 800) % TileSize == 0 &&
    p.y <= GroundY && (GroundY - p.y) % TileSize == 0 &&
    (GroundY - p.y) / TileSize <= (p.x - 800) / TileSize
  }

  /** The staircase holds exactly the cells (800 + 32*i, 568 - 32*j) with j <= i < 3. */
  lemma StaircaseShape(p: Point)
    ensures |Staircase()| == 6
    ensures p in Staircase() <==> StairCell(p)
  {
    assert Staircase() == Column(800, 1) + Column(832, 2) + Column(864, 3);
    ColumnMembership(800, 1, p);
    ColumnMembership(832, 2, p);
    ColumnMembership(864, 3, p);
  }

  /** The nested staircase loop of create. */
  method BuildStaircase() returns (r: seq<Point>)
    ensures r == Staircase()
  {
    r := [];
    for i := 0 to 3
      invariant r == StairsUpTo(i)
    {
      for j := 0 to i + 1
        invariant r == StairsUpTo(i) + Column(800 + i * TileSize, j)
      {
        r := r + [Point(800 + i * TileSize, GroundY - j * TileSize)];
      }
    }
  }

  /** Area 6: a row of six at y = 300 with a second layer at y = 200 over its
      bricks 2 to 4, interleaved in loop order. */
  function TwoLayerUpTo(n: nat): seq<Point>
  {
    if n == 0 then []
    else
      var i := n - 1;
      TwoLayerUpTo(i) + [Point(3000 + i * TileSize, 300)]
        + (if 2 <= i <= 4 then [Point(3000 + i * TileSize, 200)] else [])
  }

  function TwoLayer(): seq<Point>
  {
    TwoLayerUpTo(6)
  }

  /** A cell of area 6: one of the six lower slots at y = 300 from x = 3000, or the
      upper brick at y = 200 over slots 2 to 4. */
  predicate TwoLayerCell(p: Point)
  {
    3000 <= p.x < 3000 + 6 * TileSize && (p.x - 3000) % TileSize == 0 &&
    (p.y == 300 || (p.y == 200 && 2 <= (p.x - 3000) / TileSize <= 4))
  }

  /** Area 6 has 9 bricks: exactly the lower row of six and the upper layer of three. */
  lemma TwoLayerShape(p: Point)
    ensures |TwoLayer()| == 9
    ensures p in TwoLayer() <==> TwoLayerCell(p)
  {
    var cells := [Point(3000, 300), Point(3032, 300), Point(3064, 300), Point(3064, 200),
                  Point(3096, 300), Point(3096, 200), Point(3128, 300), Point(3128, 200),
                  Point(3160, 300)];
    assert TwoLayer() == cells;
    if TwoLayerCell(p) {
      var i := (p.x - 3000) / TileSize;
      assert p.x == 3000 + i * TileSize;
      assert 0 <= i < 6;
      if p.y == 300 {
        assert p == cells[if i < 3 then i else 2 * i - 2];
      } else {
        assert p == cells[2 * i - 1];
      }
    }
  }

  /** The loop of area 6. */
  method BuildTwoLayer() returns (r: seq<Point>)
    ensures r == TwoLayer()
  {
    r := [];
    for i := 0 to 6
      invariant r == TwoLayerUpTo(i)
    {
      r := r + [Point(3000 + i * TileSize, 300)];
      if i >= 2 && i <= 4 {
        r := r + [Point(3000 + i * TileSize, 200)];
      }
    }
  }

  /** The goal is reached at this x; the goal pole stands on it. */
  const GoalX: int := 5800
  const GoalPoleHeight: nat := 12

  function GoalPole(): seq<Point>
  {
    Column(GoalX, GoalPoleHeight)
  }

  /** The pole is 12 bricks stacked from the ground row up to y = 216, all at the goal x. */
  lemma GoalPoleShape(p: Point)
    ensures |GoalPole()| == 12
    ensures GoalPole()[0] == Point(GoalX, GroundY) && GoalPole()[11] == Point(GoalX, 216)
    ensures p in GoalPole() <==> p.x == GoalX && 216 <= p.y <= GroundY && (GroundY - p.y) % TileSize == 0
  {
    ColumnMembership(GoalX, GoalPoleHeight, p);
  }

  /** A generic counted row loop of create (areas 1, 3, 4, 5 and 7). */
  method BuildRow(x0: int, y: int, n: nat) returns (r: seq<Point>)
    ensures r == Row(x0, y, n)
  {
    r := [];
    for i := 0 to n
      invariant r == Row(x0, y, i)
    {
      r := r + [Point(x0 + i * TileSize, y)];
    }
  }

  /** The goal-pole loop of create. */
  method BuildGoalPole() returns (r: seq<Point>)
    ensures r == GoalPole()
  {
    r := [];
    for i := 0 to GoalPoleHeight
      invariant r == Column(GoalX, i)
    {
      r := r + [Point(GoalX, GroundY - i * TileSize)];
    }
  }

  /** The bricks group in creation order: areas 1 to 7, then the goal pole. */
  function Bricks(): seq<Point>
  {
    Row(320, 300, 4) + [Point(352, 200)]
    + Staircase()
    + Row(1200, 300, 8)
    + Row(1600, 350, 5) + Row(1700, 250, 3)
    + Row(2200, 300, 10)
    + TwoLayer()
    + Row(5000, 250, 15)
    + GoalPole()
  }

  lemma BricksCount()
    ensures |Bricks()| == 73
    ensures Bricks()[|Bricks()| - GoalPoleHeight..] == GoalPole()
  {
    StaircaseShape(Point(0, 0));
    TwoLayerShape(Point(0, 0));
  }

  method BuildBricks() returns (r: seq<Point>)
    ensures r == Bricks()
  {
    var area1 := BuildRow(320, 300, 4);
    var stairs := BuildStaircase();
    var area3 := BuildRow(1200, 300, 8);
    var area4a := BuildRow(1600, 350, 5);
    var area4b := BuildRow(1700, 250, 3);
    var area5 := BuildRow(2200, 300, 10);
    var area6 := BuildTwoLayer();
    var area7 := BuildRow(5000, 250, 15);
    var pole := BuildGoalPole();
    r := area1 + [Point(352, 200)] + stairs + area3 + area4a + area4b + area5 + area6 + area7 + pole;
  }

  // ---------------------------------------------------------------- tables

  /** The 13 question blocks, each created with its item armed. */
  const QuestionBlocks: seq<Point> := [
    Point(384, 300), Point(500, 300), Point(900, 300), Point(1350, 300), Point(1750, 250),
    Point(2100, 200), Point(2400, 300), Point(2800, 300), Point(3100, 200), Point(3500, 300),
    Point(4000, 300), Point(4500, 250), Point(5200, 250)
  ]

  /** The 8 pipes, in the platforms group. */
  const PipeY: int := 504
  const PipeXs: seq<int> := [600, 1000, 1500, 2000, 2600, 3300, 4200, 4800]

  function Pipes(): seq<Point>
  {
    seq(|PipeXs|, i requires 0 <= i < |PipeXs| => Point(PipeXs[i], PipeY))
  }

  /** The 25 enemy spawn x positions; every enemy spawns at y = 400 walking left. */
  const EnemyY: int := 400
  const EnemyXs: seq<int> := [
    400, 550, 750, 950, 1150, 1300, 1450, 1650, 1850, 2050,
    2250, 2450, 2650, 2850, 3050, 3300, 3550, 3800, 4050, 4300,
    4550, 4800, 5050, 5300, 5550
  ]

  predicate StrictlyIncreasing(xs: seq<int>)
  {
    forall i, j :: 0 <= i < j < |xs| ==> xs[i] < xs[j]
  }

  /** Table sizes, and every spawn point lies inside the world bounds (0, 0, 6400,
      600) and before the goal; a block leaves a tile of room above it for its item. */
  lemma TablesShape()
    ensures |QuestionBlocks| == 13 && |PipeXs| == 8 && |EnemyXs| == 25
    ensures StrictlyIncreasing(EnemyXs) && StrictlyIncreasing(PipeXs)
    ensures GoalX < WorldWidth && 0 < EnemyY < WorldHeight && 0 < PipeY < WorldHeight
    ensures forall i :: 0 <= i < |EnemyXs| ==> 0 < EnemyXs[i] < GoalX
    ensures forall i :: 0 <= i < |PipeXs| ==> 0 < PipeXs[i] < GoalX
    ensures forall i :: 0 <= i < |QuestionBlocks| ==>
      0 < QuestionBlocks[i].x < GoalX && TileSize <= QuestionBlocks[i].y < WorldHeight
  {
  }

  // ---------------------------------------------------------------- coins

  datatype CoinArea = CoinArea(start: int, count: nat)

  const CoinY: int := 450
  const CoinSpacing: int := 40

  const CoinAreas: seq<CoinArea> := [
    CoinArea(250, 8), CoinArea(700, 10), CoinArea(1100, 12), CoinArea(1550, 8),
    CoinArea(2100, 15), CoinArea(2700, 10), CoinArea(3200, 12), CoinArea(3700, 8),
    CoinArea(4100, 10), CoinArea(4600, 8), CoinArea(5100, 15)
  ]

  /** The coins of one area, at start + 40*i. */
  function AreaCoins(a: CoinArea): seq<Point>
  {
    seq(a.count, i => Point(a.start + i * CoinSpacing, CoinY))
  }

  /** The coins of a list of areas, in loop order. */
  function CoinsOf(areas: seq<CoinArea>): seq<Point>
  {
    if |areas| == 0 then [] else CoinsOf(areas[..|areas| - 1]) + AreaCoins(areas[|areas| - 1])
  }

  function TotalCount(areas: seq<CoinArea>): nat
  {
    if |areas| == 0 then 0 else TotalCount(areas[..|areas| - 1]) + areas[|areas| - 1].count
  }

  function Coins(): seq<Point>
  {
    CoinsOf(CoinAreas)
  }

  lemma {:induction false} CoinsOfCount(areas: seq<CoinArea>)
    ensures |CoinsOf(areas)| == TotalCount(areas)
  {
    if |areas| > 0 {
      CoinsOfCount(areas[..|areas| - 1]);
    }
  }

  lemma AreaCoinsMembership(a: CoinArea, p: Point)
    ensures p in AreaCoins(a) <==>
      p.y == CoinY && a.start <= p.x && (p.x - a.start) % CoinSpacing == 0 && (p.x - a.start) / CoinSpacing < a.count
  {
    if p.y == CoinY && a.start <= p.x && (p.x - a.start) % CoinSpacing == 0 && (p.x - a.start) / CoinSpacing < a.count {
      var i := (p.x - a.start) / CoinSpacing;
      assert AreaCoins(a)[i] == p;
    }
  }

  /** A coin lies in the layout exactly when it lies in one of the areas. */
  lemma {:induction false} CoinsOfMembership(areas: seq<CoinArea>, p: Point)
    ensures p in CoinsOf(areas) <==> exists k :: 0 <= k < |areas| && p in AreaCoins(areas[k])
  {
    if |areas| > 0 {
      var init := areas[..|areas| - 1];
      CoinsOfMembership(init, p);
      if p in CoinsOf(init) {
        var k :| 0 <= k < |init| && p in AreaCoins(init[k]);
        assert areas[k] == init[k];
      }
      if exists k :: 0 <= k < |areas| && p in AreaCoins(areas[k]) {
        var k :| 0 <= k < |areas| && p in AreaCoins(areas[k]);
        if k < |init| {
          assert init[k] == areas[k];
        }
      }
    }
  }

  /** 116 coins in all; the first area is the eight coins 250, 290, ..., 530. */
  lemma CoinLayout()
    ensures |Coins()| == 116
    ensures AreaCoins(CoinAreas[0]) ==
      [Point(250, 450), Point(290, 450), Point(330, 450), Point(370, 450),
       Point(410, 450), Point(450, 450), Point(490, 450), Point(530, 450)]
  {
    CoinsOfCount(CoinAreas);
    assert TotalCount(CoinAreas) == 116 by {
      var a := CoinAreas;
      assert a[..0] == [];
      assert a[..1][..0] == a[..0];
      assert TotalCount(a[..1]) == 8;
      assert a[..2][..1] == a[..1];
      assert TotalCount(a[..2]) == 18;
      assert a[..3][..2] == a[..2];
      assert TotalCount(a[..3]) == 30;
      assert a[..4][..3] == a[..3];
      assert TotalCount(a[..4]) == 38;
      assert a[..5][..4] == a[..4];
      assert TotalCount(a[..5]) == 53;
      assert a[..6][..5] == a[..5];
      assert TotalCount(a[..6]) == 63;
      assert a[..7][..6] == a[..6];
      assert TotalCount(a[..7]) == 75;
      assert a[..8][..7] == a[..7];
      assert TotalCount(a[..8]) == 83;
      assert a[..9][..8] == a[..8];
      assert TotalCount(a[..9]) == 93;
      assert a[..10][..9] == a[..9];
      assert TotalCount(a[..10]) == 101;
      assert a[..11][..10] == a[..10];
      assert TotalCount(a[..11]) == 116;
      assert a[..11] == a;
    }
  }

  /** The coin loops of create: one row of coins per area. */
  method BuildCoins() returns (r: seq<Point>)
    ensures r == Coins()
  {
    r := [];
    for a := 0 to |CoinAreas|
      invariant r == CoinsOf(CoinAreas[..a])
    {
      var area := CoinAreas[a];
      for i := 0 to area.count
        invariant r == CoinsOf(CoinAreas[..a]) + AreaCoins(area)[..i]
      {
        r := r + [Point(area.start + i * CoinSpacing, CoinY)];
      }
      assert CoinAreas[..a + 1][..a] == CoinAreas[..a];
      assert AreaCoins(area)[..area.count] == AreaCoins(area);
    }
    assert CoinAreas[..|CoinAreas|] == CoinAreas;
  }
}
