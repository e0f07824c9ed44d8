/**
 * The rules that drive one session of the target game: its starting values,
 * the level reached from a score, the spawn delay and point size that shrink
 * on each level-up down to their floors, the palette and shape cycles, and the
 * play field a target may spawn in.
 *
 * Point sizes are integer thousandths of a scene unit: material size 0.05 is
 * 50, the floor 0.02 is 20 and the step 0.005 is 5.
 */
module Progression {

  /** Seconds on the clock when a session starts. */
  const StartTime: int := 30
  /** Hits per level. */
  const HitsPerLevel: int := 5
  /** Spawn delay (milliseconds) at level 1, its floor and its step per level-up. */
  const StartSpawnDelay: int := 1500
  const MinSpawnDelay: int := 500
  const SpawnDelayStep: int := 200
  /** Point size (thousandths) of a fresh target mesh, its floor and its step per level-up. */
  const StartPointSize: int := 50
  const MinPointSize: int := 20
  const PointSizeStep: int := 5

  /** The five target colours, as 24-bit RGB values. */
  const Palette: seq<int> := [0xff69b4, 0x00ffff, 0x00ff00, 0xffa500, 0xff0000]
  /** The five particle-cloud shapes the shape button cycles through. */
  const Shapes: seq<string> := ["sphere", "cube", "torus", "icosahedron", "octahedron"]

  /** A hit that brings the score to `score` levels up exactly when `score` is a multiple of five. */
  predicate LevelsUp(score: int) {
    score % HitsPerLevel == 0
  }

  /** The level a session is at once it has scored `score` hits: one level per five hits, starting at 1. */
  function LevelOf(score: nat): (level: int)
    ensures level >= 1
    ensures HitsPerLevel * (level - 1) <= score < HitsPerLevel * level
  {
    1 + score / HitsPerLevel
  }

  /** One more hit raises the level exactly when the new score is a multiple of five. */
  lemma LevelOfNextHit(score: nat)
    ensures LevelOf(score + 1) == LevelOf(score) + (if LevelsUp(score + 1) then 1 else 0)
  {
    var q := score / HitsPerLevel;
    assert score == HitsPerLevel * q + score % HitsPerLevel;
    if LevelsUp(score + 1) {
      assert score + 1 == HitsPerLevel * (q + 1);
    } else {
      assert score + 1 == HitsPerLevel * q + (score % HitsPerLevel + 1);
    }
  }

  /** `Math.max(500, spawnDelay - 200)`: the delay after a level-up. */
  function NextSpawnDelay(delay: int): (next: int)
    ensures next >= MinSpawnDelay
    ensures next >= delay - SpawnDelayStep
    ensures delay >= MinSpawnDelay ==> next <= delay
    ensures delay - SpawnDelayStep >= MinSpawnDelay ==> next == delay - SpawnDelayStep
  {
    if delay - SpawnDelayStep > MinSpawnDelay then delay - SpawnDelayStep else MinSpawnDelay
  }

  /** The spawn delay a session has at `level`, written in closed form. */
  function SpawnDelayAt(level: int): (delay: int)
    requires level >= 1
    ensures MinSpawnDelay <= delay <= StartSpawnDelay
  {
    var d := StartSpawnDelay - SpawnDelayStep * (level - 1);
    if d > MinSpawnDelay then d else MinSpawnDelay
  }

  /** Each level-up takes the spawn delay from its value at one level to its value at the next. */
  lemma SpawnDelayStepsDown(level: int)
    requires level >= 1
    ensures SpawnDelayAt(1) == StartSpawnDelay
    ensures NextSpawnDelay(SpawnDelayAt(level)) == SpawnDelayAt(level + 1)
    ensures level >= 6 ==> SpawnDelayAt(level) == MinSpawnDelay
  {
  }

  /** `Math.max(0.02, size - 0.005)` in thousandths: the point size after a level-up. */
  function NextPointSize(size: int): (next: int)
    ensures next >= MinPointSize
    ensures next >= size - PointSizeStep
    ensures size >= MinPointSize ==> next <= size
    ensures size - PointSizeStep >= MinPointSize ==> next == size - PointSizeStep
  {
    if size - PointSizeStep > MinPointSize then size - PointSizeStep else MinPointSize
  }

  /** `(level - 1) % colorMap.length`: the palette slot of the colour shown at `level`. */
  function PaletteIndex(level: int): (i: int)
    requires level >= 1
    ensures 0 <= i < |Palette|
    ensures level <= |Palette| ==> i == level - 1
  {
    (level - 1) % |Palette|
  }

  /** The colour is the same every five levels. */
  lemma {:induction false} PaletteRepeats(level: int)
    requires level >= 1
    ensures PaletteIndex(level + |Palette|) == PaletteIndex(level)
  {
    var q, r := (level - 1) / |Palette|, (level - 1) % |Palette|;
    assert level - 1 == |Palette| * q + r;
    assert level + |Palette| - 1 == |Palette| * (q + 1) + r;
  }

  /** `(shapeIndex + 1) % shapes.length`: the shape after one press of the shape button. */
  function NextShape(i: int): (next: int)
    requires 0 <= i < |Shapes|
    ensures 0 <= next < |Shapes|
    ensures next != i
    ensures i < |Shapes| - 1 ==> next == i + 1
  {
    (i + 1) % |Shapes|
  }

  /** The shape shown after `n` presses of the shape button, starting from shape `i`. */
  function ShapeAfter(i: int, n: nat): (k: int)
    requires 0 <= i < |Shapes|
    ensures 0 <= k < |Shapes|
  {
    if n == 0 then i else NextShape(ShapeAfter(i, n - 1))
  }

  /** `n` presses advance the shape by `n` places round the cycle of five. */
  lemma {:induction false} ShapeAfterIsModular(i: int, n: nat)
    requires 0 <= i < |Shapes|
    ensures ShapeAfter(i, n) == (i + n) % |Shapes|
  {
    if n > 0 {
      ShapeAfterIsModular(i, n - 1);
      var q, r := (i + n - 1) / |Shapes|, (i + n - 1) % |Shapes|;
      assert i + n - 1 == |Shapes| * q + r;
      if r < |Shapes| - 1 {
        assert i + n == |Shapes| * q + (r + 1);
      } else {
        assert i + n == |Shapes| * (q + 1);
      }
    }
  }

  /** Five presses bring back the shape the target started with. */
  lemma ShapeCycleCloses(i: int)
    requires 0 <= i < |Shapes|
    ensures ShapeAfter(i, |Shapes|) == i
  {
    ShapeAfterIsModular(i, |Shapes|);
    assert (i + |Shapes|) % |Shapes| == i;
  }

  /** `(Math.random() - 0.5) * 6`: a horizontal spawn coordinate from a draw in [0, 1). */
  function SpawnX(draw: real): (x: real)
    requires 0.0 <= draw < 1.0
    ensures -3.0 <= x < 3.0
  {
    (draw - 0.5) * 6.0
  }

  /** `(Math.random() - 0.5) * 4`: a vertical spawn coordinate from a draw in [0, 1). */
  function SpawnY(draw: real): (y: real)
    requires 0.0 <= draw < 1.0
    ensures -2.0 <= y < 2.0
  {
    (draw - 0.5) * 4.0
  }
}
