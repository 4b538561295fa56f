/** The earlier version of the game: collectibles only, all falling at a
    constant speed, a point per catch, no hazards, no difficulty ramp and no
    reset. New objects come from a host timer that fires whether or not the
    game is paused. */
module EarlyGame {
  import opened Arena
  import opened JsArray

  /** Every object falls this far per frame. */
  const ObjectSpeed: real := 4.0
  /** player.y is fixed once, 30 above the bottom of the canvas as first laid out. */
  const PlayerRise: real := 30.0

  /** The value of one falling object (its x never changes). */
  datatype Obj = Obj(x: real, y: real)

  /** The whole simulation state of the page script. */
  datatype State = State(playerX: real, items: seq<Obj>, score: nat, isPaused: bool)

  /** The state right after the script has loaded, for a canvas `canvasWidth` wide. */
  function Initial(canvasWidth: real): (s: State)
    ensures s.items == [] && s.score == 0 && !s.isPaused
    ensures s.playerX == canvasWidth / 2.0
  {
    State(canvasWidth / 2.0, [], 0, false)
  }

  function Fallen(o: Obj): Obj {
    o.(y := o.y + ObjectSpeed)
  }

  // ----- input ---------------------------------------------------------------

  /** `movePlayer(direction)` */
  function Move(s: State, direction: string, canvasWidth: real): State {
    s.(playerX := MovedX(s.playerX, direction, canvasWidth))
  }

  /** `handleKeyDown`: arrow keys move the player unless the game is paused. */
  function KeyDown(s: State, key: string, canvasWidth: real): (t: State)
    ensures t.items == s.items && t.score == s.score && t.isPaused == s.isPaused
    ensures s.isPaused || KeyDirection(key).None? ==> t == s
    ensures !s.isPaused && key == "ArrowLeft" ==> t.playerX == MovedX(s.playerX, "left", canvasWidth)
    ensures !s.isPaused && key == "ArrowRight" ==> t.playerX == MovedX(s.playerX, "right", canvasWidth)
  {
    if s.isPaused then s
    else match KeyDirection(key)
      case None => s
      case Some(d) => Move(s, d, canvasWidth)
  }

  /** `handleTouchStart`: a touch left of the canvas centre moves left, any
      other touch moves right, unless the game is paused. */
  function TouchStart(s: State, touchX: real, canvasWidth: real): (t: State)
    ensures t.items == s.items && t.score == s.score && t.isPaused == s.isPaused
    ensures s.isPaused ==> t == s
    ensures !s.isPaused ==> t.playerX == MovedX(s.playerX, if touchX < canvasWidth / 2.0 then "left" else "right", canvasWidth)
  {
    if s.isPaused then s else Move(s, TouchDirection(touchX, canvasWidth), canvasWidth)
  }

  // ----- one frame -----------------------------------------------------------

  /** The `forEach` callback of `moveObjects` for index k: advance the object
      there, then the catch test, then the bottom test. `forEach` skips an index
      the array no longer reaches. The bottom test's `removeObject` looks the
      object up again: it is still at k unless the catch already removed it, in
      which case `indexOf` gives -1 and the splice takes the last element. */
  function Visit(s: State, k: nat, py: real, canvasHeight: real): (t: State)
    ensures t.playerX == s.playerX && t.isPaused == s.isPaused
    ensures |t.items| <= |s.items|
    // the score rises by one exactly when the visited object is caught
    ensures t.score == s.score + 1 <==> k < |s.items| && Caught(s.items[k].x, s.items[k].y + ObjectSpeed, s.playerX, py)
    ensures t.score == s.score || t.score == s.score + 1
  {
    if k >= |s.items| then s
    else
      var s1 := Advance(s, k);
      var caught := Caught(s1.items[k].x, s1.items[k].y, s.playerX, py);
      ReapStep(CatchStep(s1, k, py), s1.items[k], if caught then -1 else k, canvasHeight)
  }

  /** `object.y += objectSpeed` for the object at index k. */
  function Advance(s: State, k: nat): (t: State)
    requires k < |s.items|
  {
    s.(items := s.items[k := Fallen(s.items[k])])
  }

  /** The catch test on the object at k: on a catch it is removed (`indexOf`
      finds it at k) and the score rises by one. */
  function CatchStep(s: State, k: nat, py: real): (t: State)
    requires k < |s.items|
  {
    var o := s.items[k];
    if Caught(o.x, o.y, s.playerX, py) then s.(items := Splice1(s.items, k), score := s.score + 1)
    else s
  }

  /** The bottom test on object o, which `indexOf` now finds at `index`. */
  function ReapStep(s: State, o: Obj, index: int, canvasHeight: real): (t: State)
    // a gone object is deleted where indexOf found it; the score is untouched
    ensures Reaped(o.y, canvasHeight) && 0 <= index < |s.items| ==> t.items == s.items[..index] + s.items[index + 1..]
    ensures !Reaped(o.y, canvasHeight) ==> t == s
    ensures t.(items := s.items) == s
  {
    if Reaped(o.y, canvasHeight) then s.(items := Splice1(s.items, index)) else s
  }

  /** The callbacks for indices k, k+1, ..., n-1 in turn. */
  function Sweep(s: State, k: nat, n: nat, py: real, canvasHeight: real): (t: State)
    ensures t.playerX == s.playerX && t.isPaused == s.isPaused
    decreases n - k
  {
    if k >= n then s else Sweep(Visit(s, k, py, canvasHeight), k + 1, n, py, canvasHeight)
  }

  /** `moveObjects()`: `forEach` fixes its range to the length at the start. */
  function MoveAll(s: State, py: real, canvasHeight: real): State {
    Sweep(s, 0, |s.items|, py, canvasHeight)
  }

  /** `updateGame()`: one frame, only while not paused. */
  function Update(s: State, py: real, canvasHeight: real): (t: State)
    ensures s.isPaused ==> t == s
    ensures !s.isPaused ==> t == MoveAll(s, py, canvasHeight)
    ensures t.playerX == s.playerX && t.isPaused == s.isPaused
  {
    if s.isPaused then s else MoveAll(s, py, canvasHeight)
  }

  /** `generateObject()`: one new object at the top, at `xDraw * canvasWidth`. */
  function Spawn(s: State, xDraw: real, canvasWidth: real): (t: State)
    requires 0.0 <= xDraw < 1.0
    ensures |t.items| == |s.items| + 1 && t.items[..|s.items|] == s.items
    ensures t.items[|s.items|].y == 0.0
    ensures canvasWidth > 0.0 ==> 0.0 <= t.items[|s.items|].x < canvasWidth
    ensures t.playerX == s.playerX && t.score == s.score && t.isPaused == s.isPaused
  {
    assert xDraw * canvasWidth <= canvasWidth || canvasWidth <= 0.0;
    s.(items := s.items + [Obj(xDraw * canvasWidth, 0.0)])
  }

  /** `togglePause()`: flip the flag; resuming runs a frame at once. */
  function Paused(s: State, py: real, canvasHeight: real): (t: State)
    ensures t.isPaused == !s.isPaused
    ensures !s.isPaused ==> t == s.(isPaused := true)
    ensures s.isPaused ==> t == MoveAll(s.(isPaused := false), py, canvasHeight)
  {
    var flipped := s.(isPaused := !s.isPaused);
    if !flipped.isPaused then Update(flipped, py, canvasHeight) else flipped
  }

  // ----- properties of a frame ------------------------------------------------

  /** What one callback does to the visited object, case by case. */
  lemma VisitOutcomes(s: State, k: nat, py: real, canvasHeight: real)
    requires k < |s.items|
    ensures var o := Fallen(s.items[k]);
            var caught := Caught(o.x, o.y, s.playerX, py);
            var reaped := Reaped(o.y, canvasHeight);
            var t := Visit(s, k, py, canvasHeight);
            var rest := s.items[..k] + s.items[k + 1..];
            (!caught && !reaped ==> t.items == s.items[k := o] && t.score == s.score) &&
            (caught && !reaped ==> t.items == rest && t.score == s.score + 1) &&
            (!caught && reaped ==> t.items == rest && t.score == s.score) &&
            (caught && reaped ==>
               t.score == s.score + 1 && t.items == if rest == [] then [] else rest[..|rest| - 1])
  {
    var o := Fallen(s.items[k]);
    assert s.items[k := o][..k] + s.items[k := o][k + 1..] == s.items[..k] + s.items[k + 1..];
  }

  /** Over a frame the score never falls and rises by at most one per visit;
      the array never grows. */
  lemma {:induction false} SweepScore(s: State, k: nat, n: nat, py: real, canvasHeight: real)
    requires k <= n
    ensures var t := Sweep(s, k, n, py, canvasHeight);
            s.score <= t.score <= s.score + (n - k) && |t.items| <= |s.items|
    decreases n - k
  {
    if k < n {
      SweepScore(Visit(s, k, py, canvasHeight), k + 1, n, py, canvasHeight);
    }
  }

  /** A callback at index k leaves the objects before k alone, when the
      player's top edge is on the canvas (so no object is both caught and gone). */
  lemma VisitKeepsPrefix(s: State, k: nat, m: nat, py: real, canvasHeight: real)
    requires PlayerTopOnCanvas(py, canvasHeight)
    requires m <= k && m <= |s.items|
    ensures var t := Visit(s, k, py, canvasHeight);
            m <= |t.items| && t.items[..m] == s.items[..m]
  {
    if k < |s.items| {
      var s1 := Advance(s, k);
      var o := s1.items[k];
      var caught := Caught(o.x, o.y, s.playerX, py);
      assert s1.items[..m] == s.items[..m];
      var s2 := CatchStep(s1, k, py);
      SpliceKeepsPrefix(s1.items, k, m);
      assert s2.items[..m] == s.items[..m];
      CaughtExcludesReaped(py, canvasHeight);
      if Reaped(o.y, canvasHeight) {
        assert !caught && s2 == s1;
        SpliceKeepsPrefix(s2.items, k, m);
      }
    }
  }

  /** Objects the frame has already passed are never touched again, when the
      player's top edge is on the canvas. */
  lemma {:induction false} SweepKeepsPrefix(s: State, k: nat, n: nat, m: nat, py: real, canvasHeight: real)
    requires PlayerTopOnCanvas(py, canvasHeight)
    requires m <= k && m <= |s.items|
    ensures var t := Sweep(s, k, n, py, canvasHeight);
            m <= |t.items| && t.items[..m] == s.items[..m]
    decreases n - k
  {
    if k < n {
      var v := Visit(s, k, py, canvasHeight);
      VisitKeepsPrefix(s, k, m, py, canvasHeight);
      SweepKeepsPrefix(v, k + 1, n, m, py, canvasHeight);
    }
  }

  /** Removal during the iteration: when the callback at k removes its object,
      the next object shifts into index k, which the frame has already passed,
      so it ends the frame where it was, not advanced. */
  lemma ShiftedObjectSkipped(s: State, k: nat, n: nat, py: real, canvasHeight: real)
    requires PlayerTopOnCanvas(py, canvasHeight)
    requires k < n && k + 1 < |s.items|
    requires var o := Fallen(s.items[k]);
             Caught(o.x, o.y, s.playerX, py) || Reaped(o.y, canvasHeight)
    ensures var t := Sweep(s, k, n, py, canvasHeight);
            k < |t.items| && t.items[k] == s.items[k + 1]
  {
    var v := Visit(s, k, py, canvasHeight);
    CaughtExcludesReaped(py, canvasHeight);
    VisitOutcomes(s, k, py, canvasHeight);
    assert v.items[k] == s.items[k + 1];
    SweepKeepsPrefix(v, k + 1, n, k + 1, py, canvasHeight);
    assert v.items[..k + 1][k] == v.items[k];
  }

  /** When the player's top edge lies below the canvas bottom, a collectible
      can be caught in the same callback that finds it gone. Then it is removed
      twice: the second `removeObject` gets -1 from `indexOf` and deletes the
      last object of the array too, although that one was neither caught nor
      gone. */
  lemma CaughtAndGoneRemovesLast(s: State, k: nat, py: real, canvasHeight: real)
    requires k + 1 < |s.items|
    requires var o := Fallen(s.items[k]);
             Caught(o.x, o.y, s.playerX, py) && Reaped(o.y, canvasHeight)
    ensures var t := Visit(s, k, py, canvasHeight);
            t.score == s.score + 1 && t.items == s.items[..k] + s.items[k + 1..|s.items| - 1]
  {
    VisitOutcomes(s, k, py, canvasHeight);
    var rest := s.items[..k] + s.items[k + 1..];
    assert rest[..|rest| - 1] == s.items[..k] + s.items[k + 1..|s.items| - 1];
  }

  /** Two toggles give the flag back; pausing changes nothing else. */
  lemma TogglePauseTwice(s: State, py: real, canvasHeight: real)
    ensures Paused(Paused(s, py, canvasHeight), py, canvasHeight).isPaused == s.isPaused
    ensures !s.isPaused ==> Paused(s, py, canvasHeight).items == s.items
  {
  }

  /** A catch scenario on an 800 x 600 canvas: the player stands at x = 400
      with y = 570; a trash item at (400, 524) falls to 528 in the next frame,
      which lies in the catch band, and is removed for one point. */
  lemma CatchScenario()
    ensures var s := State(400.0, [Obj(400.0, 524.0)], 0, false);
            Update(s, 600.0 - PlayerRise, 600.0) == State(400.0, [], 1, false)
  {
    var s := State(400.0, [Obj(400.0, 524.0)], 0, false);
    VisitOutcomes(s, 0, 600.0 - PlayerRise, 600.0);
  }

  // ----- the page script as an object ------------------------------------------

  /** A falling object: `{ x, y }`, its y advanced in place each frame. */
  class FallingObject {
    const x: real
    var y: real

    constructor (x: real)
      ensures this.x == x && y == 0.0
    {
      this.x := x;
      y := 0.0;
    }

    function Value(): Obj
      reads this
    {
      Obj(x, y)
    }
  }

  /** The values of a sequence of falling objects, in order. */
  ghost function ValuesOf(os: seq<FallingObject>): (vs: seq<Obj>)
    reads os
    ensures |vs| == |os| && forall i | 0 <= i < |os| :: vs[i] == os[i].Value()
  {
    seq(|os|, i requires 0 <= i < |os| reads os => os[i].Value())
  }

  /** Splicing an array of objects splices their values the same way. */
  lemma SpliceOfValues(os: seq<FallingObject>, index: int)
    ensures ValuesOf(Splice1(os, index)) == Splice1(ValuesOf(os), index)
  {
    var a := SpliceStart(|os|, index);
    if a < |os| {
      assert Splice1(os, index) == os[..a] + os[a + 1..];
      assert Splice1(ValuesOf(os), index) == ValuesOf(os)[..a] + ValuesOf(os)[a + 1..];
    }
  }

  /** The module-level globals of the script: `player`, `fallingObjects`,
      `score` and `isPaused`. */
  class Game {
    var playerX: real
    const playerY: real
    var fallingObjects: seq<FallingObject>
    var score: nat
    var isPaused: bool

    /** Each array entry is its own object. */
    ghost predicate Valid()
      reads this`fallingObjects
    {
      Distinct(fallingObjects)
    }

    /** The values of the falling objects, in array order. */
    ghost function Items(): seq<Obj>
      reads this`fallingObjects, fallingObjects
    {
      ValuesOf(fallingObjects)
    }

    ghost function Abs(): State
      reads this, fallingObjects
    {
      State(playerX, Items(), score, isPaused)
    }

    /** The script's top-level declarations, on a canvas first laid out as
        canvasWidth x canvasHeight. */
    constructor (canvasWidth: real, canvasHeight: real)
      ensures Valid() && Abs() == Initial(canvasWidth)
      ensures playerY == canvasHeight - PlayerRise
    {
      playerX := canvasWidth / 2.0;
      playerY := canvasHeight - PlayerRise;
      fallingObjects := [];
      score := 0;
      isPaused := false;
    }

    method MovePlayer(direction: string, canvasWidth: real)
      modifies this`playerX
      ensures Abs() == Move(old(Abs()), direction, canvasWidth)
    {
      if direction == "left" {
        playerX := playerX - PlayerStep;
      } else if direction == "right" {
        playerX := playerX + PlayerStep;
      }
      playerX := Max(PlayerWidth / 2.0, Min(canvasWidth - PlayerWidth / 2.0, playerX));
    }

    method HandleKeyDown(key: string, canvasWidth: real)
      modifies this`playerX
      ensures Abs() == KeyDown(old(Abs()), key, canvasWidth)
    {
      if !isPaused {
        if key == "ArrowLeft" {
          MovePlayer("left", canvasWidth);
        } else if key == "ArrowRight" {
          MovePlayer("right", canvasWidth);
        }
      }
    }

    method HandleTouchStart(touchX: real, canvasWidth: real)
      modifies this`playerX
      ensures Abs() == TouchStart(old(Abs()), touchX, canvasWidth)
    {
      if !isPaused {
        var canvasCenter := canvasWidth / 2.0;
        if touchX < canvasCenter {
          MovePlayer("left", canvasWidth);
        } else {
          MovePlayer("right", canvasWidth);
        }
      }
    }

    method IncreaseScore()
      modifies this`score
      ensures Abs() == old(Abs()).(score := old(score) + 1)
    {
      score := score + 1;
    }

    /** `removeObject(object)`: `indexOf` by identity, then `splice(index, 1)`. */
    method RemoveObject(obj: FallingObject)
      requires Valid()
      modifies this`fallingObjects
      ensures Valid()
      ensures fallingObjects == Splice1(old(fallingObjects), IndexOf(old(fallingObjects), obj))
      ensures forall o | o in fallingObjects :: o in old(fallingObjects)
      ensures Abs() == old(Abs()).(items := Splice1(old(Items()), IndexOf(old(fallingObjects), obj)))
    {
      var index := IndexOf(fallingObjects, obj);
      SpliceKeepsDistinct(fallingObjects, index);
      fallingObjects := Splice1(fallingObjects, index);
      SpliceOfValues(old(fallingObjects), index);
    }

    /** `generateObject()`: `xDraw` is the `Math.random()` draw. */
    method GenerateObject(xDraw: real, canvasWidth: real)
      requires Valid() && 0.0 <= xDraw < 1.0
      modifies this`fallingObjects
      ensures Valid()
      ensures Abs() == Spawn(old(Abs()), xDraw, canvasWidth)
      ensures fallingObjects[..|fallingObjects| - 1] == old(fallingObjects)
      ensures fresh(fallingObjects[|fallingObjects| - 1])
    {
      var obj := new FallingObject(xDraw * canvasWidth);
      fallingObjects := fallingObjects + [obj];
    }

    /** `object.y += objectSpeed` on the object at index k. */
    method Fall(obj: FallingObject, k: nat)
      requires Valid() && k < |fallingObjects| && fallingObjects[k] == obj
      modifies obj
      ensures Abs() == Advance(old(Abs()), k)
    {
      obj.y := obj.y + ObjectSpeed;
      AdvancedValues(k);
    }

    /** The catch test of the callback, on the object at index k: a caught
        object is removed and scores, and is then no longer in the array. */
    method CatchObject(obj: FallingObject, k: nat)
      requires Valid() && k < |fallingObjects| && fallingObjects[k] == obj
      modifies this`fallingObjects, this`score
      ensures Valid()
      ensures Abs() == CatchStep(old(Abs()), k, playerY)
      ensures forall o | o in fallingObjects :: o in old(fallingObjects)
      ensures Caught(obj.x, obj.y, playerX, playerY) ==> obj !in fallingObjects
      ensures !Caught(obj.x, obj.y, playerX, playerY) ==> fallingObjects == old(fallingObjects)
    {
      assert old(Abs()).items[k] == obj.Value();
      IndexOfDistinct(fallingObjects, k);
      if Overlaps(obj.x, obj.y, playerX, playerY) {
        if TopAbove(obj.y, playerY) {
          RemoveObject(obj);
          IncreaseScore();
          assert fallingObjects == old(fallingObjects)[..k] + old(fallingObjects)[k + 1..];
        }
      }
    }

    /** The `forEach` callback of `moveObjects`, called with the element at
        index k and k itself. */
    method MoveObject(obj: FallingObject, k: nat, canvasHeight: real)
      requires Valid() && k < |fallingObjects| && fallingObjects[k] == obj
      modifies this`fallingObjects, this`score, obj
      ensures Valid()
      ensures Abs() == Visit(old(Abs()), k, playerY, canvasHeight)
      ensures forall o | o in fallingObjects :: o in old(fallingObjects)
    {
      Fall(obj, k);
      ghost var s1 := Abs();
      assert s1.items[k] == obj.Value();
      ghost var index := if Caught(obj.x, obj.y, playerX, playerY) then -1 else k;
      CatchObject(obj, k);
      ghost var s2 := Abs();
      assert s2 == CatchStep(s1, k, playerY);
      if index == k {
        IndexOfDistinct(fallingObjects, k);
      }
      assert IndexOf(fallingObjects, obj) == index;
      if obj.y - ObjectSize / 2.0 > canvasHeight {
        RemoveObject(obj);
      }
      assert Abs() == ReapStep(s2, s1.items[k], index, canvasHeight);
    }

    /** After `object.y += objectSpeed` on the object at k, the values are the
        old ones with that one object advanced. */
    twostate lemma AdvancedValues(k: nat)
      requires old(Valid()) && k < old(|fallingObjects|)
      requires unchanged(this) && old(fallingObjects[k].y) + ObjectSpeed == fallingObjects[k].y
      requires forall i | 0 <= i < |fallingObjects| && i != k :: unchanged(fallingObjects[i])
      ensures Items() == old(Advance(Abs(), k).items)
    {
      assert fallingObjects == old(fallingObjects);
      forall i | 0 <= i < |fallingObjects|
        ensures Items()[i] == old(Advance(Abs(), k).items)[i]
      {
        if i != k {
          assert fallingObjects[i].Value() == old(fallingObjects[i].Value());
        }
      }
    }

    /** One step of `forEach`: the callback for index k, when the array still
        reaches it. */
    method ForEachStep(k: nat, canvasHeight: real)
      requires Valid()
      modifies this`fallingObjects, this`score, fallingObjects
      ensures Valid()
      ensures forall o | o in fallingObjects :: o in old(fallingObjects)
      ensures Abs() == Visit(old(Abs()), k, playerY, canvasHeight)
    {
      if k < |fallingObjects| {
        MoveObject(fallingObjects[k], k, canvasHeight);
      }
    }

    /** `moveObjects()`: `forEach` over the array while the callbacks splice it.
        The range is fixed to the length at the start; an index the array no
        longer reaches is skipped. */
    method MoveObjects(canvasHeight: real)
      requires Valid()
      modifies this`fallingObjects, this`score, fallingObjects
      ensures Valid()
      ensures Abs() == MoveAll(old(Abs()), playerY, canvasHeight)
      ensures forall o | o in fallingObjects :: o in old(fallingObjects)
    {
      ghost var start := Abs();
      var len := |fallingObjects|;
      var k := 0;
      while k < len
        invariant k <= len
        invariant Valid()
        invariant forall o | o in fallingObjects :: o in old(fallingObjects)
        invariant Sweep(Abs(), k, len, playerY, canvasHeight) == Sweep(start, 0, len, playerY, canvasHeight)
      {
        assert forall i | 0 <= i < |fallingObjects| :: fallingObjects[i] in old(fallingObjects);
        ForEachStep(k, canvasHeight);
        k := k + 1;
      }
    }

    /** `updateGame()` without the drawing and the frame request. */
    method UpdateGame(canvasHeight: real)
      requires Valid()
      modifies this`fallingObjects, this`score, fallingObjects
      ensures Valid()
      ensures Abs() == Update(old(Abs()), playerY, canvasHeight)
    {
      if !isPaused {
        MoveObjects(canvasHeight);
      }
    }

    method TogglePause(canvasHeight: real)
      requires Valid()
      modifies this`isPaused, this`fallingObjects, this`score, fallingObjects
      ensures Valid()
      ensures Abs() == Paused(old(Abs()), playerY, canvasHeight)
    {
      isPaused := !isPaused;
      if !isPaused {
        UpdateGame(canvasHeight);
      }
    }
  }
}
