/** What both versions of the game share: the sizes of the sprites, the
    horizontal move and its clamp to the canvas, the catch test between a
    falling object and the player, the test for an object that has left the
    canvas, and the mapping from a key or a touch to a direction. */
module Arena {

  /** The player sprite is a 50 x 50 box centred on (player.x, player.y). */
  const PlayerWidth: real := 50.0
  const PlayerHeight: real := 50.0
  /** One key press or touch moves the player this far. */
  const PlayerStep: real := 50.0
  /** A falling object is a 40 x 40 box centred on (object.x, object.y). */
  const ObjectSize: real := 40.0

  datatype Option<T> = None | Some(value: T)

  function Max(a: real, b: real): real { if a < b then b else a }
  function Min(a: real, b: real): real { if a < b then a else b }

  /** `Math.max(w/2, Math.min(canvasWidth - w/2, x))`: keep the player's centre
      half a sprite away from both canvas edges. */
  function Clamp(x: real, canvasWidth: real): (r: real)
    ensures r >= PlayerWidth / 2.0
    ensures canvasWidth >= PlayerWidth ==> r <= canvasWidth - PlayerWidth / 2.0
    // inside the allowed band nothing moves; outside, the nearest bound is taken
    ensures PlayerWidth / 2.0 <= x <= canvasWidth - PlayerWidth / 2.0 ==> r == x
    ensures x <= PlayerWidth / 2.0 ==> r == PlayerWidth / 2.0
    ensures canvasWidth >= PlayerWidth && x >= canvasWidth - PlayerWidth / 2.0 ==> r == canvasWidth - PlayerWidth / 2.0
    // a canvas narrower than the player pins it to the left bound
    ensures canvasWidth < PlayerWidth ==> r == PlayerWidth / 2.0
  {
    Max(PlayerWidth / 2.0, Min(canvasWidth - PlayerWidth / 2.0, x))
  }

  /** The signed step a direction name asks for; any other name asks for none. */
  function Displacement(direction: string): real {
    if direction == "left" then -PlayerStep
    else if direction == "right" then PlayerStep
    else 0.0
  }

  /** `movePlayer(direction)`: the new player.x, a step then a clamp. */
  function MovedX(x: real, direction: string, canvasWidth: real): (r: real)
    ensures r >= PlayerWidth / 2.0
    ensures canvasWidth >= PlayerWidth ==> r <= canvasWidth - PlayerWidth / 2.0
    // a full step when it stays on the canvas
    ensures direction == "left" && PlayerWidth / 2.0 <= x - PlayerStep <= canvasWidth - PlayerWidth / 2.0 ==> r == x - PlayerStep
    ensures direction == "right" && PlayerWidth / 2.0 <= x + PlayerStep <= canvasWidth - PlayerWidth / 2.0 ==> r == x + PlayerStep
    // pushing outward from a bound leaves the player where it is
    ensures canvasWidth >= PlayerWidth && x == PlayerWidth / 2.0 && direction == "left" ==> r == x
    ensures canvasWidth >= PlayerWidth && x == canvasWidth - PlayerWidth / 2.0 && direction == "right" ==> r == x
    // any other direction only re-clamps
    ensures direction != "left" && direction != "right" ==> r == Clamp(x, canvasWidth)
  {
    Clamp(x + Displacement(direction), canvasWidth)
  }

  /** The keyboard mapping of `handleKeyDown`: only the two arrow keys move. */
  function KeyDirection(key: string): (d: Option<string>)
    ensures d.Some? <==> key == "ArrowLeft" || key == "ArrowRight"
    ensures d == Some("left") <==> key == "ArrowLeft"
    ensures d == Some("right") <==> key == "ArrowRight"
  {
    if key == "ArrowLeft" then Some("left")
    else if key == "ArrowRight" then Some("right")
    else None
  }

  /** The touch mapping of `handleTouchStart`: the left half of the canvas
      (strictly left of its centre) moves left, everything else moves right. */
  function TouchDirection(touchX: real, canvasWidth: real): (d: string)
    ensures d == "left" || d == "right"
    ensures d == "left" <==> touchX < canvasWidth / 2.0
  {
    if touchX < canvasWidth / 2.0 then "left" else "right"
  }

  /** The first test of `moveObjects`: the two boxes overlap strictly on both axes. */
  predicate Overlaps(ox: real, oy: real, px: real, py: real) {
    oy + ObjectSize / 2.0 > py - PlayerHeight / 2.0 &&
    oy - ObjectSize / 2.0 < py + PlayerHeight / 2.0 &&
    ox + ObjectSize / 2.0 > px - PlayerWidth / 2.0 &&
    ox - ObjectSize / 2.0 < px + PlayerWidth / 2.0
  }

  /** The second test: the object's top edge is strictly above the player's top edge. */
  predicate TopAbove(oy: real, py: real) {
    oy - ObjectSize / 2.0 < py - PlayerHeight / 2.0
  }

  /** A catch: both tests hold. Equivalently, the object's centre is less than
      20 from the player's top edge vertically (its box straddles that edge) and
      less than 45 from the player's centre horizontally. An object whose top
      edge has reached the player's top edge or gone below it is never caught. */
  predicate Caught(ox: real, oy: real, px: real, py: real)
    ensures Caught(ox, oy, px, py) <==>
      py - 45.0 < oy < py - 5.0 && px - 45.0 < ox < px + 45.0
    ensures Caught(ox, oy, px, py) ==>
      oy - ObjectSize / 2.0 < py - PlayerHeight / 2.0 < oy + ObjectSize / 2.0
  {
    Overlaps(ox, oy, px, py) && TopAbove(oy, py)
  }

  /** The height y lies within the box of an object centred at height oy. */
  predicate InObjectBox(y: real, oy: real) {
    oy - ObjectSize / 2.0 <= y <= oy + ObjectSize / 2.0
  }

  /** The object's top edge is below the canvas bottom: it has left the canvas. */
  predicate Reaped(oy: real, canvasHeight: real)
    // gone exactly when every point of the box lies below the canvas bottom
    ensures Reaped(oy, canvasHeight) <==> forall y | InObjectBox(y, oy) :: y > canvasHeight
  {
    assert InObjectBox(oy - ObjectSize / 2.0, oy);
    oy - ObjectSize / 2.0 > canvasHeight
  }

  /** An object that has left the canvas stays gone as it falls further. */
  lemma ReapedStaysReaped(oy: real, drop: real, canvasHeight: real)
    requires drop >= 0.0
    ensures Reaped(oy, canvasHeight) ==> Reaped(oy + drop, canvasHeight)
  {
  }

  /** The player's top edge is on the canvas or above its bottom edge. */
  predicate PlayerTopOnCanvas(py: real, canvasHeight: real) {
    py - PlayerHeight / 2.0 <= canvasHeight
  }

  /** When the player's top edge is on the canvas, no object can be caught and
      past the bottom at once; otherwise some object is both. */
  lemma CaughtExcludesReaped(py: real, canvasHeight: real)
    ensures PlayerTopOnCanvas(py, canvasHeight) ==>
      forall ox, oy, px :: Caught(ox, oy, px, py) ==> !Reaped(oy, canvasHeight)
    ensures !PlayerTopOnCanvas(py, canvasHeight) ==>
      exists oy :: Caught(0.0, oy, 0.0, py) && Reaped(oy, canvasHeight)
  {
    if !PlayerTopOnCanvas(py, canvasHeight) {
      var top := if canvasHeight + 20.0 < py - 45.0 then py - 45.0 else canvasHeight + 20.0;
      var oy := (top + py - 5.0) / 2.0;
      assert Caught(0.0, oy, 0.0, py) && Reaped(oy, canvasHeight);
    }
  }
}
