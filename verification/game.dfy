/** The full version of the game: collectibles (one point each) and hazards
    (game over) fall onto the player; a wall-clock gate checked every frame
    spawns objects ever faster, each spawn making hazards likelier and
    collectibles faster; a catch of a hazard resets the game. */
module Game {
  import opened Arena
  import opened JsArray

  /** Hazards always fall this far per frame; the ramp never touches it. */
  const EnemySpeed: real := 6.0
  /** The initial (and reset) values of the difficulty knobs. */
  const InitialObjectSpeed: real := 4.0
  const InitialEnemyProbability: real := 0.1
  const InitialSpawnInterval: int := 1000
  /** The ramp: the caps below which each knob still moves, and its steps. */
  const MaxEnemyProbability: real := 0.5
  const EnemyProbabilityStep: real := 0.001
  const MaxObjectSpeed: real := 15.0
  const ObjectSpeedStep: real := 0.005
  const MinSpawnInterval: int := 500
  const SpawnIntervalStep: int := 20
  /** player.y is fixed once, 350 below the bottom of the canvas as first laid out. */
  const PlayerDrop: real := 350.0

  /** The value of one falling object (its x and kind never change). */
  datatype Obj = Obj(x: real, y: real, isEnemy: bool)

  /** The whole simulation state of the page script. */
  datatype State = State(
    playerX: real,
    items: seq<Obj>,
    score: nat,
    isPaused: bool,
    isMuted: bool,
    objectSpeed: real,        // baseObjectSpeed
    enemyProbability: real,   // baseEnemyProbability
    spawnInterval: int,
    lastSpawnTime: int)

  /** The bounds the difficulty knobs keep for the whole session. */
  predicate Bounded(objectSpeed: real, enemyProbability: real, spawnInterval: int) {
    InitialObjectSpeed <= objectSpeed < MaxObjectSpeed + ObjectSpeedStep &&
    InitialEnemyProbability <= enemyProbability < MaxEnemyProbability + EnemyProbabilityStep &&
    MinSpawnInterval <= spawnInterval <= InitialSpawnInterval
  }

  predicate Inv(s: State) {
    Bounded(s.objectSpeed, s.enemyProbability, s.spawnInterval)
  }

  /** The state right after the script has loaded, for a canvas `canvasWidth` wide. */
  function Initial(canvasWidth: real): (s: State)
    ensures Inv(s) && s.items == [] && s.score == 0 && !s.isPaused && !s.isMuted
    ensures s.playerX == canvasWidth / 2.0
    ensures s.objectSpeed == InitialObjectSpeed && s.enemyProbability == InitialEnemyProbability
    ensures s.spawnInterval == InitialSpawnInterval && s.lastSpawnTime == 0
  {
    State(canvasWidth / 2.0, [], 0, false, false,
          InitialObjectSpeed, InitialEnemyProbability, InitialSpawnInterval, 0)
  }

  // ----- input ---------------------------------------------------------------

  /** `movePlayer(direction)` (the movement sound aside). */
  function Move(s: State, direction: string, canvasWidth: real): State {
    s.(playerX := MovedX(s.playerX, direction, canvasWidth))
  }

  /** `handleKeyDown`: arrow keys move the player unless the game is paused. */
  function KeyDown(s: State, key: string, canvasWidth: real): (t: State)
    ensures s.isPaused || KeyDirection(key).None? ==> t == s
    ensures !s.isPaused && key == "ArrowLeft" ==> t == s.(playerX := MovedX(s.playerX, "left", canvasWidth))
    ensures !s.isPaused && key == "ArrowRight" ==> t == s.(playerX := MovedX(s.playerX, "right", canvasWidth))
  {
    if s.isPaused then s
    else match KeyDirection(key)
      case None => s
      case Some(d) => Move(s, d, canvasWidth)
  }

  /** `handleTouchStart`: a touch left of the canvas centre moves left, any
      other touch moves right, unless the game is paused. */
  function TouchStart(s: State, touchX: real, canvasWidth: real): (t: State)
    ensures s.isPaused ==> t == s
    ensures !s.isPaused ==> t == s.(playerX := MovedX(s.playerX, if touchX < canvasWidth / 2.0 then "left" else "right", canvasWidth))
  {
    if s.isPaused then s else Move(s, TouchDirection(touchX, canvasWidth), canvasWidth)
  }

  /** `toggleMute()`: flip the flag (the mute or unmute call that follows
      stores the value it already has). */
  function Muted(s: State): (t: State)
    ensures t.isMuted == !s.isMuted && t.(isMuted := s.isMuted) == s
  {
    s.(isMuted := !s.isMuted)
  }

  // ----- game over -----------------------------------------------------------

  /** `resetGame()`: empty the array and restore the score, the fall speed, the
      hazard probability and the pause flag. The spawn interval, the last spawn
      time, the player's position and the mute flag are kept. */
  function Reset(s: State): (t: State)
    ensures t.items == [] && t.score == 0 && !t.isPaused
    ensures t.objectSpeed == InitialObjectSpeed && t.enemyProbability == InitialEnemyProbability
    ensures t.spawnInterval == s.spawnInterval && t.lastSpawnTime == s.lastSpawnTime
    ensures t.playerX == s.playerX && t.isMuted == s.isMuted
  {
    s.(items := [], objectSpeed := InitialObjectSpeed, enemyProbability := InitialEnemyProbability,
       score := 0, isPaused := false)
  }

  // ----- one frame -----------------------------------------------------------

  /** How far an object falls this frame. */
  function FallSpeed(o: Obj, objectSpeed: real): real {
    if o.isEnemy then EnemySpeed else objectSpeed
  }

  /** `object.y += speed` for the object at index k. */
  function Advance(s: State, k: nat): (t: State)
    requires k < |s.items|
  {
    s.(items := s.items[k := s.items[k].(y := s.items[k].y + FallSpeed(s.items[k], s.objectSpeed))])
  }

  /** The catch test on the object at k: a hazard ends the game
      (`handleGameover`); a collectible is removed (`indexOf` finds it at k) and
      the score rises by one. */
  function CatchStep(s: State, k: nat, py: real): State
    requires k < |s.items|
  {
    var o := s.items[k];
    if !Caught(o.x, o.y, s.playerX, py) then s
    else if o.isEnemy then Reset(s)
    else s.(items := Splice1(s.items, k), score := s.score + 1)
  }

  /** The bottom test on object o, which `indexOf` now finds at `index`. */
  function ReapStep(s: State, o: Obj, index: int, canvasHeight: real): (t: State)
    // a gone object is deleted where indexOf found it; the score is untouched
    ensures Reaped(o.y, canvasHeight) && 0 <= index < |s.items| ==> t.items == s.items[..index] + s.items[index + 1..]
    ensures !Reaped(o.y, canvasHeight) ==> t == s
    ensures t.(items := s.items) == s
  {
    if Reaped(o.y, canvasHeight) then s.(items := Splice1(s.items, index)) else s
  }

  /** The `forEach` callback of `moveObjects` for index k: advance the object
      there, then the catch test, then the bottom test. `forEach` skips an index
      the array no longer reaches. The bottom test's `removeObject` looks the
      object up again: it is still at k unless the catch removed it or the game
      was reset, in which case `indexOf` gives -1 and the splice takes the last
      element, if any. */
  function Visit(s: State, k: nat, py: real, canvasHeight: real): (t: State)
    ensures t.playerX == s.playerX && t.isMuted == s.isMuted
    ensures t.spawnInterval == s.spawnInterval && t.lastSpawnTime == s.lastSpawnTime
    ensures |t.items| <= |s.items|
    ensures !s.isPaused ==> !t.isPaused
    // one point exactly when the visited object is a collectible and is caught
    ensures t.score == s.score + 1 <==>
      k < |s.items| && !s.items[k].isEnemy && Caught(s.items[k].x, s.items[k].y + s.objectSpeed, s.playerX, py)
    // a caught hazard resets the game
    ensures k < |s.items| && s.items[k].isEnemy && Caught(s.items[k].x, s.items[k].y + EnemySpeed, s.playerX, py) ==>
      t == Reset(s)
    ensures t.score == s.score || t.score == s.score + 1 || t == Reset(s)
  {
    if k >= |s.items| then s
    else
      var s1 := Advance(s, k);
      var o := s1.items[k];
      ReapStep(CatchStep(s1, k, py), o, if Caught(o.x, o.y, s.playerX, py) then -1 else k, canvasHeight)
  }

  /** The callbacks for indices k, k+1, ..., n-1 in turn. */
  function Sweep(s: State, k: nat, n: nat, py: real, canvasHeight: real): (t: State)
    ensures t.playerX == s.playerX && t.isMuted == s.isMuted
    ensures t.spawnInterval == s.spawnInterval && t.lastSpawnTime == s.lastSpawnTime
    ensures |t.items| <= |s.items|
    ensures !s.isPaused ==> !t.isPaused
    decreases n - k
  {
    if k >= n then s else Sweep(Visit(s, k, py, canvasHeight), k + 1, n, py, canvasHeight)
  }

  /** `moveObjects()`: `forEach` fixes its range to the length at the start. */
  function MoveAll(s: State, py: real, canvasHeight: real): State {
    Sweep(s, 0, |s.items|, py, canvasHeight)
  }

  // ----- spawning and the difficulty ramp ---------------------------------------

  /** The hazard probability after one spawn: +0.001 while below 0.5. */
  function RampProbability(p: real): (r: real)
    ensures p <= r <= p + EnemyProbabilityStep
    ensures r == p <==> p >= MaxEnemyProbability
    ensures p < MaxEnemyProbability ==> r == p + EnemyProbabilityStep
    ensures p < MaxEnemyProbability + EnemyProbabilityStep ==> r < MaxEnemyProbability + EnemyProbabilityStep
  {
    if p < MaxEnemyProbability then p + EnemyProbabilityStep else p
  }

  /** The collectibles' fall speed after one spawn: +0.005 while below 15. */
  function RampSpeed(v: real): (r: real)
    ensures v <= r <= v + ObjectSpeedStep
    ensures r == v <==> v >= MaxObjectSpeed
    ensures v < MaxObjectSpeed ==> r == v + ObjectSpeedStep
    ensures v < MaxObjectSpeed + ObjectSpeedStep ==> r < MaxObjectSpeed + ObjectSpeedStep
  {
    if v < MaxObjectSpeed then v + ObjectSpeedStep else v
  }

  /** `Math.max(500, spawnInterval - 20)` */
  function NextInterval(i: int): (r: int)
    ensures r >= MinSpawnInterval
    ensures i >= MinSpawnInterval ==> r <= i
    ensures i >= MinSpawnInterval + SpawnIntervalStep ==> r == i - SpawnIntervalStep
    ensures i <= MinSpawnInterval + SpawnIntervalStep ==> r == MinSpawnInterval
  {
    if MinSpawnInterval < i - SpawnIntervalStep then i - SpawnIntervalStep else MinSpawnInterval
  }

  /** `generateObject()`: the kind is drawn against the probability as it was
      before the ramp; then both knobs ramp; then one object is appended at the
      top, at `xDraw * canvasWidth`. `enemyDraw` and `xDraw` are the two
      `Math.random()` draws, in that order. */
  function Spawn(s: State, enemyDraw: real, xDraw: real, canvasWidth: real): (t: State)
    requires 0.0 <= enemyDraw < 1.0 && 0.0 <= xDraw < 1.0
    ensures |t.items| == |s.items| + 1 && t.items[..|s.items|] == s.items
    ensures t.items[|s.items|].y == 0.0
    ensures t.items[|s.items|].isEnemy <==> enemyDraw < s.enemyProbability
    ensures canvasWidth > 0.0 ==> 0.0 <= t.items[|s.items|].x < canvasWidth
    ensures t.enemyProbability == RampProbability(s.enemyProbability)
    ensures t.objectSpeed == RampSpeed(s.objectSpeed)
    ensures t.(items := s.items, enemyProbability := s.enemyProbability, objectSpeed := s.objectSpeed) == s
  {
    assert xDraw * canvasWidth <= canvasWidth || canvasWidth <= 0.0;
    var isEnemy := enemyDraw < s.enemyProbability;
    s.(enemyProbability := RampProbability(s.enemyProbability),
       objectSpeed := RampSpeed(s.objectSpeed),
       items := s.items + [Obj(xDraw * canvasWidth, 0.0, isEnemy)])
  }

  /** The spawn gate: strictly more than the interval since the last spawn. */
  predicate SpawnDue(now: int, lastSpawnTime: int, spawnInterval: int) {
    now - lastSpawnTime > spawnInterval
  }

  /** The gate is closed when exactly the interval has passed, open one
      millisecond later, and open from then on. */
  lemma SpawnGate(lastSpawnTime: int, spawnInterval: int)
    ensures !SpawnDue(lastSpawnTime + spawnInterval, lastSpawnTime, spawnInterval)
    ensures SpawnDue(lastSpawnTime + spawnInterval + 1, lastSpawnTime, spawnInterval)
    ensures forall a: int, b: int | a <= b && SpawnDue(a, lastSpawnTime, spawnInterval) ::
              SpawnDue(b, lastSpawnTime, spawnInterval)
  {
  }

  /** `updateGame()` at wall-clock time `now`: while not paused, one frame of
      `moveObjects`, then the spawn gate. */
  function Update(s: State, now: int, enemyDraw: real, xDraw: real, canvasWidth: real,
                  py: real, canvasHeight: real): (t: State)
    requires 0.0 <= enemyDraw < 1.0 && 0.0 <= xDraw < 1.0
    // paused: nothing moves and nothing spawns
    ensures s.isPaused ==> t == s
    // the gate reads the interval and last spawn time of before the frame
    ensures !s.isPaused && SpawnDue(now, s.lastSpawnTime, s.spawnInterval) ==>
      t == Spawn(MoveAll(s, py, canvasHeight), enemyDraw, xDraw, canvasWidth).(
             lastSpawnTime := now, spawnInterval := NextInterval(s.spawnInterval))
    ensures !s.isPaused && !SpawnDue(now, s.lastSpawnTime, s.spawnInterval) ==>
      t == MoveAll(s, py, canvasHeight)
    ensures t.playerX == s.playerX && t.isMuted == s.isMuted
    ensures !s.isPaused ==> !t.isPaused
  {
    if s.isPaused then s
    else
      var m := MoveAll(s, py, canvasHeight);
      if SpawnDue(now, m.lastSpawnTime, m.spawnInterval) then
        Spawn(m, enemyDraw, xDraw, canvasWidth).(lastSpawnTime := now, spawnInterval := NextInterval(m.spawnInterval))
      else m
  }

  /** `togglePause()`: flip the flag; resuming runs a frame at once. */
  function Paused(s: State, now: int, enemyDraw: real, xDraw: real, canvasWidth: real,
                  py: real, canvasHeight: real): (t: State)
    requires 0.0 <= enemyDraw < 1.0 && 0.0 <= xDraw < 1.0
    ensures !s.isPaused ==> t == s.(isPaused := true)
    ensures s.isPaused ==> t == Update(s.(isPaused := false), now, enemyDraw, xDraw, canvasWidth, py, canvasHeight)
  {
    var flipped := s.(isPaused := !s.isPaused);
    if !flipped.isPaused then Update(flipped, now, enemyDraw, xDraw, canvasWidth, py, canvasHeight)
    else flipped
  }

  // ----- properties -----------------------------------------------------------

  /** What one callback does, case by case. */
  lemma VisitOutcomes(s: State, k: nat, py: real, canvasHeight: real)
    requires k < |s.items|
    ensures var o := Advance(s, k).items[k];
            var caught := Caught(o.x, o.y, s.playerX, py);
            var reaped := Reaped(o.y, canvasHeight);
            var t := Visit(s, k, py, canvasHeight);
            var rest := s.items[..k] + s.items[k + 1..];
            o.y == s.items[k].y + (if o.isEnemy then EnemySpeed else s.objectSpeed) &&
            (!caught && !reaped ==> t == s.(items := s.items[k := o])) &&
            (caught && o.isEnemy ==> t == Reset(s)) &&
            (caught && !o.isEnemy && !reaped ==> t == s.(items := rest, score := s.score + 1)) &&
            (!caught && reaped ==> t == s.(items := rest)) &&
            (caught && !o.isEnemy && reaped ==>
               t == s.(items := if rest == [] then [] else rest[..|rest| - 1], score := s.score + 1))
  {
    var o := Advance(s, k).items[k];
    assert s.items[k := o][..k] + s.items[k := o][k + 1..] == s.items[..k] + s.items[k + 1..];
  }

  /** Once the array is empty no callback does anything. */
  lemma {:induction false} SweepFromEmpty(s: State, k: nat, n: nat, py: real, canvasHeight: real)
    requires s.items == []
    ensures Sweep(s, k, n, py, canvasHeight) == s
    decreases n - k
  {
    if k < n {
      SweepFromEmpty(Visit(s, k, py, canvasHeight), k + 1, n, py, canvasHeight);
    }
  }

  /** Over a frame the score only rises, by at most one per callback, unless
      the frame ends in the reset state. */
  lemma {:induction false} SweepScore(s: State, k: nat, n: nat, py: real, canvasHeight: real)
    requires k <= n
    ensures var t := Sweep(s, k, n, py, canvasHeight);
            t.score <= s.score + (n - k) && (s.score <= t.score || t == Reset(t))
    decreases n - k
  {
    if k < n {
      var v := Visit(s, k, py, canvasHeight);
      SweepScore(v, k + 1, n, py, canvasHeight);
      if v == Reset(s) {
        SweepFromEmpty(v, k + 1, n, py, canvasHeight);
      }
    }
  }

  /** A caught hazard ends the frame: the game is reset and no later object is
      processed, so the frame's result is exactly the reset state. */
  lemma GameOverEndsFrame(s: State, k: nat, n: nat, py: real, canvasHeight: real)
    requires k < n && k < |s.items|
    requires var o := Advance(s, k).items[k]; o.isEnemy && Caught(o.x, o.y, s.playerX, py)
    ensures Sweep(s, k, n, py, canvasHeight) == Reset(s)
  {
    VisitOutcomes(s, k, py, canvasHeight);
    SweepFromEmpty(Reset(s), k + 1, n, py, canvasHeight);
  }

  /** A callback keeps the difficulty knobs in bounds. */
  lemma VisitKeepsInv(s: State, k: nat, py: real, canvasHeight: real)
    requires Inv(s)
    ensures Inv(Visit(s, k, py, canvasHeight))
  {
    if k < |s.items| {
      VisitOutcomes(s, k, py, canvasHeight);
    }
  }

  /** A frame keeps the difficulty knobs in bounds. */
  lemma {:induction false} SweepKeepsInv(s: State, k: nat, n: nat, py: real, canvasHeight: real)
    requires Inv(s)
    ensures Inv(Sweep(s, k, n, py, canvasHeight))
    decreases n - k
  {
    if k < n {
      VisitKeepsInv(s, k, py, canvasHeight);
      SweepKeepsInv(Visit(s, k, py, canvasHeight), k + 1, n, py, canvasHeight);
    }
  }

  /** A whole `updateGame` keeps the bounds and never lengthens the spawn interval. */
  lemma UpdateKeepsInv(s: State, now: int, enemyDraw: real, xDraw: real, canvasWidth: real,
                       py: real, canvasHeight: real)
    requires Inv(s) && 0.0 <= enemyDraw < 1.0 && 0.0 <= xDraw < 1.0
    ensures var t := Update(s, now, enemyDraw, xDraw, canvasWidth, py, canvasHeight);
            Inv(t) && t.spawnInterval <= s.spawnInterval
  {
    if !s.isPaused {
      SweepKeepsInv(s, 0, |s.items|, py, canvasHeight);
    }
  }

  /** A callback at index k leaves the objects before k alone, unless it ends
      the game, when the player's top edge is on the canvas (so no object is
      both caught and gone). */
  lemma VisitKeepsPrefix(s: State, k: nat, m: nat, py: real, canvasHeight: real)
    requires PlayerTopOnCanvas(py, canvasHeight)
    requires m <= k && m <= |s.items|
    ensures var t := Visit(s, k, py, canvasHeight);
            t.items == [] || (m <= |t.items| && t.items[..m] == s.items[..m])
  {
    if k < |s.items| {
      var s1 := Advance(s, k);
      var o := s1.items[k];
      var caught := Caught(o.x, o.y, s.playerX, py);
      assert s1.items[..m] == s.items[..m];
      var s2 := CatchStep(s1, k, py);
      SpliceKeepsPrefix(s1.items, k, m);
      assert s2.items == [] || s2.items[..m] == s.items[..m];
      CaughtExcludesReaped(py, canvasHeight);
      if Reaped(o.y, canvasHeight) {
        assert !caught && s2 == s1;
        SpliceKeepsPrefix(s2.items, k, m);
      }
    }
  }

  /** Objects the frame has already passed are never touched again, unless a
      caught hazard empties the array, when the player's top edge is on the
      canvas. */
  lemma {:induction false} SweepKeepsPrefix(s: State, k: nat, n: nat, m: nat, py: real, canvasHeight: real)
    requires PlayerTopOnCanvas(py, canvasHeight)
    requires m <= k && m <= |s.items|
    ensures var t := Sweep(s, k, n, py, canvasHeight);
            t.items == [] || (m <= |t.items| && t.items[..m] == s.items[..m])
    decreases n - k
  {
    if k < n {
      var v := Visit(s, k, py, canvasHeight);
      VisitKeepsPrefix(s, k, m, py, canvasHeight);
      if v.items == [] {
        SweepFromEmpty(v, k + 1, n, py, canvasHeight);
      } else {
        SweepKeepsPrefix(v, k + 1, n, m, py, canvasHeight);
      }
    }
  }

  /** Removal during the iteration: when the callback at k removes its object
      (a caught collectible or one gone past the bottom), the next object shifts
      into index k, which the frame has already passed, so it ends the frame
      where it was, not advanced, unless a later hazard resets the game. */
  lemma ShiftedObjectSkipped(s: State, k: nat, n: nat, py: real, canvasHeight: real)
    requires PlayerTopOnCanvas(py, canvasHeight)
    requires k < n && k + 1 < |s.items|
    requires var o := Advance(s, k).items[k];
             (Caught(o.x, o.y, s.playerX, py) && !o.isEnemy) || Reaped(o.y, canvasHeight)
    ensures var t := Sweep(s, k, n, py, canvasHeight);
            t.items != [] ==> k < |t.items| && t.items[k] == s.items[k + 1]
  {
    var v := Visit(s, k, py, canvasHeight);
    CaughtExcludesReaped(py, canvasHeight);
    VisitOutcomes(s, k, py, canvasHeight);
    assert v.items[k] == s.items[k + 1];
    SweepKeepsPrefix(v, k + 1, n, k + 1, py, canvasHeight);
    assert v.items[..k + 1][k] == v.items[k];
  }

  /** When the player's top edge lies below the canvas bottom, a collectible
      can be caught in the same callback that finds it gone. Then it is removed
      twice: the second `removeObject` gets -1 from `indexOf` and deletes the
      last object of the array too, although that one was neither caught nor
      gone. */
  lemma CaughtAndGoneRemovesLast(s: State, k: nat, py: real, canvasHeight: real)
    requires k + 1 < |s.items|
    requires var o := Advance(s, k).items[k];
             Caught(o.x, o.y, s.playerX, py) && !o.isEnemy && Reaped(o.y, canvasHeight)
    ensures var t := Visit(s, k, py, canvasHeight);
            t.score == s.score + 1 && t.items == s.items[..k] + s.items[k + 1..|s.items| - 1]
  {
    VisitOutcomes(s, k, py, canvasHeight);
    var rest := s.items[..k] + s.items[k + 1..];
    assert rest[..|rest| - 1] == s.items[..k] + s.items[k + 1..|s.items| - 1];
  }

  /** The spawn interval after n spawns: 1000 - 20n, never below 500. */
  function IntervalAfter(n: nat): int {
    if n == 0 then InitialSpawnInterval else NextInterval(IntervalAfter(n - 1))
  }

  lemma {:induction false} IntervalAfterSpawns(n: nat)
    ensures IntervalAfter(n) == if 1000 - 20 * n < 500 then 500 else 1000 - 20 * n
    ensures MinSpawnInterval <= IntervalAfter(n + 1) <= IntervalAfter(n) <= InitialSpawnInterval
  {
    if n > 0 {
      IntervalAfterSpawns(n - 1);
    }
  }

  /** The hazard probability after n spawns since the last reset:
      0.1 + 0.001 n until it reaches 0.5 after 400 spawns. */
  function ProbabilityAfter(n: nat): real {
    if n == 0 then InitialEnemyProbability else RampProbability(ProbabilityAfter(n - 1))
  }

  lemma {:induction false} ProbabilityAfterSpawns(n: nat)
    ensures ProbabilityAfter(n) == 0.1 + 0.001 * (if n < 400 then n else 400) as real
    ensures ProbabilityAfter(n) <= ProbabilityAfter(n + 1) <= MaxEnemyProbability
  {
    if n > 0 {
      ProbabilityAfterSpawns(n - 1);
    }
  }

  /** The collectibles' fall speed after n spawns since the last reset:
      4 + 0.005 n until it reaches 15 after 2200 spawns. */
  function SpeedAfter(n: nat): real {
    if n == 0 then InitialObjectSpeed else RampSpeed(SpeedAfter(n - 1))
  }

  lemma {:induction false} SpeedAfterSpawns(n: nat)
    ensures SpeedAfter(n) == 4.0 + 0.005 * (if n < 2200 then n else 2200) as real
    ensures SpeedAfter(n) <= SpeedAfter(n + 1) <= MaxObjectSpeed
  {
    if n > 0 {
      SpeedAfterSpawns(n - 1);
    }
  }

  /** A frame leaves both difficulty knobs as they were, unless it ends in the
      reset state. */
  lemma {:induction false} SweepKeepsKnobs(s: State, k: nat, n: nat, py: real, canvasHeight: real)
    ensures var t := Sweep(s, k, n, py, canvasHeight);
            t == Reset(t) || (t.objectSpeed == s.objectSpeed && t.enemyProbability == s.enemyProbability)
    decreases n - k
  {
    if k < n {
      var v := Visit(s, k, py, canvasHeight);
      SweepKeepsKnobs(v, k + 1, n, py, canvasHeight);
      if k < |s.items| {
        VisitOutcomes(s, k, py, canvasHeight);
      }
      if v == Reset(s) {
        SweepFromEmpty(v, k + 1, n, py, canvasHeight);
      }
    }
  }

  /** Both knobs stand where n ramps from their initial values put them. */
  predicate RampedBy(s: State, n: nat) {
    s.objectSpeed == SpeedAfter(n) && s.enemyProbability == ProbabilityAfter(n)
  }

  /** `updateGame` counts the spawns since the last reset in the knobs: a frame
      that ends in the reset state starts the count again at zero, and a spawn
      adds one. */
  lemma UpdateCountsSpawns(s: State, n: nat, now: int, enemyDraw: real, xDraw: real, canvasWidth: real,
                           py: real, canvasHeight: real)
    requires 0.0 <= enemyDraw < 1.0 && 0.0 <= xDraw < 1.0
    requires !s.isPaused && RampedBy(s, n)
    ensures var m := MoveAll(s, py, canvasHeight);
            var r := if m == Reset(m) then 0 else n;
            RampedBy(Update(s, now, enemyDraw, xDraw, canvasWidth, py, canvasHeight),
                     if SpawnDue(now, s.lastSpawnTime, s.spawnInterval) then r + 1 else r)
  {
    SweepKeepsKnobs(s, 0, |s.items|, py, canvasHeight);
  }

  /** Two toggles give the pause flag back; pausing changes nothing else. */
  lemma TogglePauseTwice(s: State, now: int, enemyDraw: real, xDraw: real, canvasWidth: real,
                         py: real, canvasHeight: real)
    requires 0.0 <= enemyDraw < 1.0 && 0.0 <= xDraw < 1.0
    ensures var t := Paused(s, now, enemyDraw, xDraw, canvasWidth, py, canvasHeight);
            Paused(t, now, enemyDraw, xDraw, canvasWidth, py, canvasHeight).isPaused == s.isPaused
  {
  }

  /** A hazard scenario on an 800 x 600 canvas (player at x = 400 with
      y = 950, its top edge at 925, on a canvas resized to 1000 high): a hazard
      at (400, 904) falls to 910, inside the catch band, and the game resets
      with the score back to 0. */
  lemma HazardScenario()
    ensures var s := Initial(800.0).(items := [Obj(400.0, 904.0, true)], score := 7, lastSpawnTime := 5000);
            Update(s, 5500, 0.5, 0.5, 800.0, 600.0 + PlayerDrop, 1000.0) == Reset(s)
  {
    var s := Initial(800.0).(items := [Obj(400.0, 904.0, true)], score := 7, lastSpawnTime := 5000);
    GameOverEndsFrame(s, 0, 1, 600.0 + PlayerDrop, 1000.0);
  }

  // ----- the page script as an object ------------------------------------------

  /** A falling object: `{ x, y, isEnemy }`, its y advanced in place each frame. */
  class FallingObject {
    const x: real
    var y: real
    const isEnemy: bool

    constructor (x: real, isEnemy: bool)
      ensures this.x == x && y == 0.0 && this.isEnemy == isEnemy
    {
      this.x := x;
      y := 0.0;
      this.isEnemy := isEnemy;
    }

    function Value(): Obj
      reads this
    {
      Obj(x, y, isEnemy)
    }
  }

  /** The values of a sequence of falling objects, in order. */
  ghost function ValuesOf(os: seq<FallingObject>): (vs: seq<Obj>)
    reads os
    ensures |vs| == |os| && forall i | 0 <= i < |os| :: vs[i] == os[i].Value()
  {
    seq(|os|, i requires 0 <= i < |os| reads os => os[i].Value())
  }

  /** Splicing an array of objects splices their values the same way. */
  lemma SpliceOfValues(os: seq<FallingObject>, index: int)
    ensures ValuesOf(Splice1(os, index)) == Splice1(ValuesOf(os), index)
  {
    var a := SpliceStart(|os|, index);
    if a < |os| {
      assert Splice1(os, index) == os[..a] + os[a + 1..];
      assert Splice1(ValuesOf(os), index) == ValuesOf(os)[..a] + ValuesOf(os)[a + 1..];
    }
  }

  /** The module-level globals of the script. */
  class Game {
    var playerX: real
    const playerY: real
    var fallingObjects: seq<FallingObject>
    var score: nat
    var isPaused: bool
    var isMuted: bool
    var baseObjectSpeed: real
    var baseEnemyProbability: real
    var spawnInterval: int
    var lastSpawnTime: int

    /** Each array entry is its own object and the knobs are in bounds. */
    ghost predicate Valid()
      reads this
    {
      Distinct(fallingObjects) && Bounded(baseObjectSpeed, baseEnemyProbability, spawnInterval)
    }

    ghost function Items(): seq<Obj>
      reads this`fallingObjects, fallingObjects
    {
      ValuesOf(fallingObjects)
    }

    ghost function Abs(): State
      reads this, fallingObjects
    {
      State(playerX, Items(), score, isPaused, isMuted,
            baseObjectSpeed, baseEnemyProbability, spawnInterval, lastSpawnTime)
    }

    /** The script's top-level declarations, on a canvas first laid out as
        canvasWidth x canvasHeight. */
    constructor (canvasWidth: real, canvasHeight: real)
      ensures Valid() && Abs() == Initial(canvasWidth)
      ensures playerY == canvasHeight + PlayerDrop
    {
      playerX := canvasWidth / 2.0;
      playerY := canvasHeight + PlayerDrop;
      fallingObjects := [];
      score := 0;
      isPaused := false;
      spawnInterval := InitialSpawnInterval;
      lastSpawnTime := 0;
      isMuted := false;
      baseObjectSpeed := InitialObjectSpeed;
      baseEnemyProbability := InitialEnemyProbability;
    }

    method MuteAudio()
      modifies this`isMuted
      ensures Abs() == old(Abs()).(isMuted := true)
    {
      isMuted := true;
    }

    method UnmuteAudio()
      modifies this`isMuted
      ensures Abs() == old(Abs()).(isMuted := false)
    {
      isMuted := false;
    }

    method ToggleMute()
      modifies this`isMuted
      ensures Abs() == Muted(old(Abs()))
    {
      isMuted := !isMuted;
      if isMuted {
        MuteAudio();
      } else {
        UnmuteAudio();
      }
    }

    method MovePlayer(direction: string, canvasWidth: real)
      modifies this`playerX
      ensures Abs() == Move(old(Abs()), direction, canvasWidth)
    {
      if direction == "left" {
        playerX := playerX - PlayerStep;
      } else if direction == "right" {
        playerX := playerX + PlayerStep;
      }
      playerX := Max(PlayerWidth / 2.0, Min(canvasWidth - PlayerWidth / 2.0, playerX));
    }

    method HandleKeyDown(key: string, canvasWidth: real)
      modifies this`playerX
      ensures Abs() == KeyDown(old(Abs()), key, canvasWidth)
    {
      if !isPaused {
        if key == "ArrowLeft" {
          MovePlayer("left", canvasWidth);
        } else if key == "ArrowRight" {
          MovePlayer("right", canvasWidth);
        }
      }
    }

    method HandleTouchStart(touchX: real, canvasWidth: real)
      modifies this`playerX
      ensures Abs() == TouchStart(old(Abs()), touchX, canvasWidth)
    {
      if !isPaused {
        var canvasCenter := canvasWidth / 2.0;
        if touchX < canvasCenter {
          MovePlayer("left", canvasWidth);
        } else {
          MovePlayer("right", canvasWidth);
        }
      }
    }

    method IncreaseScore()
      modifies this`score
      ensures Abs() == old(Abs()).(score := old(score) + 1)
    {
      score := score + 1;
    }

    method ResetGame()
      requires Valid()
      modifies this`fallingObjects, this`baseObjectSpeed, this`baseEnemyProbability, this`score, this`isPaused
      ensures Valid()
      ensures Abs() == Reset(old(Abs()))
    {
      fallingObjects := [];
      baseObjectSpeed := InitialObjectSpeed;
      baseEnemyProbability := InitialEnemyProbability;
      score := 0;
      isPaused := false;
    }

    /** `handleGameover()` without the sound and the alert. */
    method HandleGameover()
      requires Valid()
      modifies this`fallingObjects, this`baseObjectSpeed, this`baseEnemyProbability, this`score, this`isPaused
      ensures Valid()
      ensures Abs() == Reset(old(Abs()))
    {
      ResetGame();
    }

    /** `removeObject(object)`: `indexOf` by identity, then `splice(index, 1)`. */
    method RemoveObject(obj: FallingObject)
      requires Valid()
      modifies this`fallingObjects
      ensures Valid()
      ensures fallingObjects == Splice1(old(fallingObjects), IndexOf(old(fallingObjects), obj))
      ensures forall o | o in fallingObjects :: o in old(fallingObjects)
      ensures Abs() == old(Abs()).(items := Splice1(old(Items()), IndexOf(old(fallingObjects), obj)))
    {
      var index := IndexOf(fallingObjects, obj);
      SpliceKeepsDistinct(fallingObjects, index);
      fallingObjects := Splice1(fallingObjects, index);
      SpliceOfValues(old(fallingObjects), index);
    }

    /** `generateObject()`: `enemyDraw` and `xDraw` are its two `Math.random()` draws. */
    method GenerateObject(enemyDraw: real, xDraw: real, canvasWidth: real)
      requires Valid() && 0.0 <= enemyDraw < 1.0 && 0.0 <= xDraw < 1.0
      modifies this`fallingObjects, this`baseObjectSpeed, this`baseEnemyProbability
      ensures Valid()
      ensures Abs() == Spawn(old(Abs()), enemyDraw, xDraw, canvasWidth)
      ensures fallingObjects[..|fallingObjects| - 1] == old(fallingObjects)
      ensures fresh(fallingObjects[|fallingObjects| - 1])
    {
      var isEnemy := enemyDraw < baseEnemyProbability;
      baseEnemyProbability := if baseEnemyProbability < MaxEnemyProbability
        then baseEnemyProbability + EnemyProbabilityStep else baseEnemyProbability;
      baseObjectSpeed := if baseObjectSpeed < MaxObjectSpeed
        then baseObjectSpeed + ObjectSpeedStep else baseObjectSpeed;
      var obj := new FallingObject(xDraw * canvasWidth, isEnemy);
      assert obj !in fallingObjects;
      fallingObjects := fallingObjects + [obj];
      assert Items() == old(Items()) + [obj.Value()];
    }

    /** After `object.y += speed` on the object at k, the values are the old
        ones with that one object advanced. */
    twostate lemma AdvancedValues(k: nat)
      requires old(Valid()) && k < old(|fallingObjects|)
      requires unchanged(this)
      requires fallingObjects[k].y == old(fallingObjects[k].y) + FallSpeed(old(fallingObjects[k].Value()), baseObjectSpeed)
      requires forall i | 0 <= i < |fallingObjects| && i != k :: unchanged(fallingObjects[i])
      ensures Items() == old(Advance(Abs(), k).items)
    {
      forall i | 0 <= i < |fallingObjects|
        ensures Items()[i] == old(Advance(Abs(), k).items)[i]
      {
        if i != k {
          assert fallingObjects[i].Value() == old(fallingObjects[i].Value());
        }
      }
    }

    /** `object.y += speed` on the object at index k. */
    method Fall(obj: FallingObject, k: nat)
      requires Valid() && k < |fallingObjects| && fallingObjects[k] == obj
      modifies obj
      ensures Abs() == Advance(old(Abs()), k)
    {
      var speed := if obj.isEnemy then EnemySpeed else baseObjectSpeed;
      obj.y := obj.y + speed;
      AdvancedValues(k);
    }

    /** The catch test of the callback, on the object at index k: a hazard ends
        the game, a collectible is removed and scores. Either way a caught
        object is no longer in the array. */
    method CatchObject(obj: FallingObject, k: nat)
      requires Valid() && k < |fallingObjects| && fallingObjects[k] == obj
      modifies this`fallingObjects, this`score, this`baseObjectSpeed, this`baseEnemyProbability, this`isPaused
      ensures Valid()
      ensures Abs() == CatchStep(old(Abs()), k, playerY)
      ensures forall o | o in fallingObjects :: o in old(fallingObjects)
      ensures Caught(obj.x, obj.y, playerX, playerY) ==> obj !in fallingObjects
      ensures !Caught(obj.x, obj.y, playerX, playerY) ==> fallingObjects == old(fallingObjects)
    {
      assert old(Abs()).items[k] == obj.Value();
      IndexOfDistinct(fallingObjects, k);
      if Overlaps(obj.x, obj.y, playerX, playerY) {
        if TopAbove(obj.y, playerY) {
          if obj.isEnemy {
            HandleGameover();
          } else {
            RemoveObject(obj);
            IncreaseScore();
            assert fallingObjects == old(fallingObjects)[..k] + old(fallingObjects)[k + 1..];
          }
        }
      }
    }

    /** The `forEach` callback of `moveObjects`, called with the element at
        index k and k itself. */
    method MoveObject(obj: FallingObject, k: nat, canvasHeight: real)
      requires Valid() && k < |fallingObjects| && fallingObjects[k] == obj
      modifies this`fallingObjects, this`score, this`baseObjectSpeed, this`baseEnemyProbability, this`isPaused, obj
      ensures Valid()
      ensures Abs() == Visit(old(Abs()), k, playerY, canvasHeight)
      ensures forall o | o in fallingObjects :: o in old(fallingObjects)
    {
      Fall(obj, k);
      ghost var s1 := Abs();
      assert s1.items[k] == obj.Value();
      ghost var index := if Caught(obj.x, obj.y, playerX, playerY) then -1 else k;
      CatchObject(obj, k);
      ghost var s2 := Abs();
      assert s2 == CatchStep(s1, k, playerY);
      if index == k {
        IndexOfDistinct(fallingObjects, k);
      }
      assert IndexOf(fallingObjects, obj) == index;
      if obj.y - ObjectSize / 2.0 > canvasHeight {
        RemoveObject(obj);
      }
      assert Abs() == ReapStep(s2, s1.items[k], index, canvasHeight);
    }

    /** One step of `forEach`: the callback for index k, when the array still
        reaches it. */
    method ForEachStep(k: nat, canvasHeight: real)
      requires Valid()
      modifies this`fallingObjects, this`score, this`baseObjectSpeed, this`baseEnemyProbability, this`isPaused, fallingObjects
      ensures Valid()
      ensures forall o | o in fallingObjects :: o in old(fallingObjects)
      ensures Abs() == Visit(old(Abs()), k, playerY, canvasHeight)
    {
      if k < |fallingObjects| {
        MoveObject(fallingObjects[k], k, canvasHeight);
      }
    }

    /** `moveObjects()`: `forEach` over the array while the callbacks splice it.
        The range is fixed to the length at the start; an index the array no
        longer reaches is skipped. */
    method MoveObjects(canvasHeight: real)
      requires Valid()
      modifies this`fallingObjects, this`score, this`baseObjectSpeed, this`baseEnemyProbability, this`isPaused, fallingObjects
      ensures Valid()
      ensures Abs() == MoveAll(old(Abs()), playerY, canvasHeight)
    {
      ghost var start := Abs();
      var len := |fallingObjects|;
      var k := 0;
      while k < len
        invariant k <= len
        invariant Valid()
        invariant forall o | o in fallingObjects :: o in old(fallingObjects)
        invariant Sweep(Abs(), k, len, playerY, canvasHeight) == Sweep(start, 0, len, playerY, canvasHeight)
      {
        assert forall i | 0 <= i < |fallingObjects| :: fallingObjects[i] in old(fallingObjects);
        ForEachStep(k, canvasHeight);
        k := k + 1;
      }
    }

    /** The spawn gate of `updateGame()` at wall-clock time `now`. */
    method SpawnIfDue(now: int, enemyDraw: real, xDraw: real, canvasWidth: real)
      requires Valid() && 0.0 <= enemyDraw < 1.0 && 0.0 <= xDraw < 1.0
      modifies this`fallingObjects, this`baseObjectSpeed, this`baseEnemyProbability, this`lastSpawnTime, this`spawnInterval
      ensures Valid()
      ensures SpawnDue(now, old(lastSpawnTime), old(spawnInterval)) ==>
        Abs() == Spawn(old(Abs()), enemyDraw, xDraw, canvasWidth).(lastSpawnTime := now, spawnInterval := NextInterval(old(spawnInterval)))
      ensures !SpawnDue(now, old(lastSpawnTime), old(spawnInterval)) ==> Abs() == old(Abs())
    {
      var currentTime := now;
      if currentTime - lastSpawnTime > spawnInterval {
        GenerateObject(enemyDraw, xDraw, canvasWidth);
        lastSpawnTime := currentTime;
        spawnInterval := if MinSpawnInterval < spawnInterval - SpawnIntervalStep then spawnInterval - SpawnIntervalStep else MinSpawnInterval;
      }
    }

    /** `updateGame()` at wall-clock time `now`, without the drawing and the
        frame request. */
    method UpdateGame(now: int, enemyDraw: real, xDraw: real, canvasWidth: real, canvasHeight: real)
      requires Valid() && 0.0 <= enemyDraw < 1.0 && 0.0 <= xDraw < 1.0
      modifies this`fallingObjects, this`score, this`baseObjectSpeed, this`baseEnemyProbability, this`isPaused,
               this`lastSpawnTime, this`spawnInterval, fallingObjects
      ensures Valid()
      ensures Abs() == Update(old(Abs()), now, enemyDraw, xDraw, canvasWidth, playerY, canvasHeight)
    {
      if !isPaused {
        MoveObjects(canvasHeight);
        SpawnIfDue(now, enemyDraw, xDraw, canvasWidth);
      }
    }

    method TogglePause(now: int, enemyDraw: real, xDraw: real, canvasWidth: real, canvasHeight: real)
      requires Valid() && 0.0 <= enemyDraw < 1.0 && 0.0 <= xDraw < 1.0
      modifies this`fallingObjects, this`score, this`baseObjectSpeed, this`baseEnemyProbability, this`isPaused,
               this`lastSpawnTime, this`spawnInterval, fallingObjects
      ensures Valid()
      ensures Abs() == Paused(old(Abs()), now, enemyDraw, xDraw, canvasWidth, playerY, canvasHeight)
    {
      isPaused := !isPaused;
      if !isPaused {
        UpdateGame(now, enemyDraw, xDraw, canvasWidth, canvasHeight);
      }
    }
  }
}
