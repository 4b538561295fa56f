# Trash Panda: a verified model of the game loop

Trash Panda is a browser arcade game. A raccoon moves left and right along the
bottom of a canvas, catching falling trash for points. In the full version it
must also avoid falling hazards, which end the game. This project models the
simulation of two versions of the page script and proves properties of it:

- `script.js`, the full version: collectibles and hazards, a wall-clock spawn
  gate, a difficulty ramp, game over and reset, and the pause and mute flags.
- `trash-panda-main/script.js`, the earlier version: collectibles only, at a
  constant speed, with no reset.

Layout:

- `js_array.dfy` (module `JsArray`): `Array.prototype.indexOf` and
  `Array.prototype.splice(start, 1)`, with JavaScript's rule that a negative
  start counts from the end. The game depends on that rule.
- `arena.dfy` (module `Arena`): what both versions share.
  - the sprite sizes;
  - the move of the player and its clamp to the canvas;
  - the catch test (strict box overlap, plus the object's top edge strictly
    above the player's top edge);
  - the test for an object gone past the canvas bottom;
  - the key and touch mapping.
- `game.dfy` (module `Game`): the full version.
- `early_game.dfy` (module `EarlyGame`): the earlier version.

Each game module has two layers. The first is a `State` datatype with pure
transition functions, one per operation of the script, and the lemmas about
them. The second is a class `Game` whose fields are the script's module-level
globals. Its falling objects are `FallingObject` instances whose `y` is
updated in place, held in a `seq` that the methods splice and append to.
Removal is a real identity `indexOf` followed by `splice`. Every method
ensures that its abstract view `Abs()` equals the pure transition applied to
the old view.

`moveObjects` is modelled as JavaScript's `forEach` over an array that the
callback splices:

- the indices run from 0 up to the length at the start;
- an index the array no longer reaches is skipped;
- so the object after a removed one shifts into the index just visited, and
  is not advanced in that frame;
- after a game over has emptied the array, no later object is processed;
- the bottom test's `removeObject` runs even on an object the catch test just
  removed, or that a reset cleared. It then gets -1 from `indexOf`, and
  `splice(-1, 1)` deletes the last element.

That last effect needs an object that is caught and past the canvas bottom at
once. This is possible only when the player's top edge lies below the canvas
bottom (`Arena.CaughtExcludesReaped`). The frame-wide lemmas assume the player
is on the canvas (`PlayerTopOnCanvas`), and `CaughtAndGoneRemovesLast` states
what happens otherwise.

Three behaviours of the code are easy to miss:

- removal during the iteration does skip the next object;
- a reset keeps the spawn interval, the last spawn time, the player's position
  and the mute flag;
- a resize does not re-clamp the player.

Parameters stand in for the host:

- the canvas width and height, read when each handler runs;
- the clock (`new Date().getTime()`, as an integer number of milliseconds);
- the two `Math.random()` draws of `generateObject`, in the order the code
  makes them;
- the player's fixed `y`. It is computed once from the canvas height at load:
  +350 in `script.js`, -30 in the earlier version.

## Model

| member | source | states |
|---|---|---|
| JsArray.IndexOf | script.js:171 | the first position holding the object, or -1 exactly when it is absent |
| JsArray.SpliceStart | script.js:172 | the start `splice` really uses: a negative start counts from the end |
| JsArray.Splice1 | script.js:172 | a valid index deletes exactly that element and keeps the others in order; -1 deletes the last; at most one element goes |
| JsArray.SpliceKeepsPrefix | script.js:172 | the elements before the start position stay where they were |
| JsArray.SpliceKeepsDistinct | script.js:170-173 | removal adds no element and keeps the objects distinct |
| JsArray.IndexOfDistinct | script.js:171 | in an array without repeats, `indexOf` finds an element at its own index |
| Arena.Clamp | script.js:127 | x is kept at least half a sprite from the left edge and, on a canvas at least a sprite wide, from the right; inside that band x is unchanged, outside it the nearest bound is taken |
| Arena.MovedX | script.js:118-128 | after a move the player is inside the band; a step that stays inside is a full 50; pushing outward from a bound changes nothing; any other direction only re-clamps |
| Arena.KeyDirection | script.js:95-103 | only ArrowLeft moves left and only ArrowRight moves right; every other key is ignored |
| Arena.TouchDirection | script.js:105-116 | a touch strictly left of the canvas centre moves left, any other touch right |
| Arena.Caught | script.js:135-141 | the catch test holds exactly when the object's centre is within 45 of the player's centre horizontally and between 45 and 5 above the player's centre vertically; a caught box straddles the player's top edge |
| Arena.Reaped | script.js:151 | an object is gone exactly when every point of its box lies below the canvas bottom; while any point is still on the canvas it stays |
| Arena.ReapedStaysReaped | script.js:151 | an object that has left the canvas stays gone however much further it falls |
| Arena.CaughtExcludesReaped | script.js:135-153 | with the player's top edge on the canvas, no object is both caught and past the bottom; otherwise some object is |
| Game.Initial | script.js:4-36 | the script starts with the player centred, an empty array, score 0, unpaused, unmuted, speed 4, hazard probability 0.1, interval 1000 and last spawn 0, inside the difficulty bounds |
| Game.KeyDown | script.js:95-103 | while paused or on any other key nothing changes; an arrow key moves the player one step that way and changes nothing else |
| Game.TouchStart | script.js:105-116 | while paused nothing changes; otherwise the player moves towards the touched half and nothing else changes |
| Game.Muted | script.js:62-83 | toggling mute flips the flag and changes nothing else |
| Game.Reset | script.js:255-262 | a reset empties the array and sets score 0, speed 4, probability 0.1 and unpaused; it keeps the interval, the last spawn time, the player's x and the mute flag |
| Game.ReapStep | script.js:151-153 | a gone object is deleted where `indexOf` found it, the others keep their order, and the score and every other field are untouched; an object still on the canvas changes nothing |
| Game.Visit | script.js:131-154 | one callback keeps the player, the mute flag and the spawn timing and never lengthens the array; the score rises by one exactly when the object is a caught collectible; a caught hazard gives the reset state |
| Game.Sweep | script.js:130-155 | a frame keeps the player, the mute flag and the spawn timing, never lengthens the array and leaves an unpaused game unpaused |
| Game.RampProbability | script.js:178-181 | the probability rises by exactly 0.001 while below 0.5 and is unchanged from 0.5 on; it never passes 0.501 |
| Game.RampSpeed | script.js:183-186 | the collectibles' speed rises by exactly 0.005 while below 15 and is unchanged from 15 on; it never passes 15.005 |
| Game.NextInterval | script.js:225 | the new interval is at least 500, never larger than the old, and 20 smaller until it reaches 520 |
| Game.Spawn | script.js:175-195 | exactly one object is appended, at y 0 and x within the canvas; it is a hazard exactly when the draw is below the probability before the ramp; both knobs ramp; nothing else changes |
| Game.SpawnGate | script.js:222 | the gate is strict: closed when exactly the interval has passed since the last spawn, open one millisecond later, and open at every later time |
| Game.Update | script.js:215-228 | paused: nothing moves or spawns; otherwise exactly one frame of `moveObjects` runs, and when strictly more than the interval has passed since the last spawn, `generateObject` follows on the frame's result, the last spawn time becomes now and the interval the next one; otherwise the frame's result is final |
| Game.Paused | script.js:240-247 | pausing only sets the flag; resuming clears it and runs a frame at once |
| Game.VisitOutcomes | script.js:131-154 | hazards fall 6 and collectibles the current speed; then exactly one of: kept in place, game reset, caught and removed with a point, gone and removed, or caught and gone with the last object also removed |
| Game.SweepFromEmpty | script.js:131 | once the array is empty, the rest of the frame changes nothing |
| Game.SweepScore | script.js:130-161 | over a frame the score rises by at most one per object, and only falls when the frame ends in the reset state |
| Game.GameOverEndsFrame | script.js:142-143 | a caught hazard ends the frame in the reset state: no later object is processed |
| Game.VisitKeepsInv | script.js:131-154 | a callback keeps the difficulty knobs in bounds |
| Game.SweepKeepsInv | script.js:130-155 | a frame keeps the difficulty knobs in bounds |
| Game.UpdateKeepsInv | script.js:215-228 | a frame with its spawn keeps the knobs in bounds and never lengthens the interval |
| Game.VisitKeepsPrefix | script.js:131-154 | with the player's top edge on the canvas, a callback at k leaves every object before k where it was, unless it resets the game |
| Game.SweepKeepsPrefix | script.js:130-155 | with the player's top edge on the canvas, the objects a frame has passed are never touched again, unless the game resets |
| Game.ShiftedObjectSkipped | script.js:131-153 | with the player's top edge on the canvas, when a callback removes its object, the next object shifts into that index and ends the frame unadvanced, unless a later hazard resets the game |
| Game.CaughtAndGoneRemovesLast | script.js:135-153 | an object both caught and gone is removed, one point is scored, and the last object of the array is also deleted |
| Game.IntervalAfterSpawns | script.js:222-226 | after n spawns the interval is max(500, 1000 - 20n): non-increasing and never below 500 |
| Game.ProbabilityAfterSpawns | script.js:176-181 | n ramps from the initial value give a probability of 0.1 + 0.001 min(n, 400): non-decreasing and at most 0.5 |
| Game.SpeedAfterSpawns | script.js:183-186 | n ramps from the initial value give a speed of 4 + 0.005 min(n, 2200): non-decreasing and at most 15 |
| Game.SweepKeepsKnobs | script.js:130-155 | a frame leaves the speed and the hazard probability as they were, unless it ends in the reset state |
| Game.UpdateCountsSpawns | script.js:215-228 | if the knobs stand at n ramps, after `updateGame` they stand at the spawns since the last reset: 0 after a frame that ends in the reset state, otherwise n, plus one when a spawn follows; with the two closed forms above this gives the probability and the speed after n spawns since a reset |
| Game.TogglePauseTwice | script.js:240-247 | two toggles restore the pause flag |
| Game.HazardScenario | script.js:130-155 | a hazard that falls into the catch band resets the game with the score back to 0 |
| Game.FallingObject.constructor | script.js:188-192 | a new object keeps its x and kind and starts at y 0 |
| Game.SpliceOfValues | script.js:172 | splicing the objects splices their values the same way |
| Game.Game.constructor | script.js:4-36 | the globals start in the initial state, with the player's y 350 below the canvas as first laid out |
| Game.Game.MuteAudio | script.js:62-64 | sets the mute flag |
| Game.Game.UnmuteAudio | script.js:66-68 | clears the mute flag |
| Game.Game.ToggleMute | script.js:70-83 | flips the mute flag, as Game.Muted |
| Game.Game.MovePlayer | script.js:118-128 | moves the player as Arena.MovedX |
| Game.Game.HandleKeyDown | script.js:95-103 | as Game.KeyDown |
| Game.Game.HandleTouchStart | script.js:105-116 | as Game.TouchStart |
| Game.Game.IncreaseScore | script.js:157-161 | adds one to the score |
| Game.Game.ResetGame | script.js:255-262 | leaves the globals in the state Game.Reset gives, and keeps the objects distinct and the knobs in bounds |
| Game.Game.HandleGameover | script.js:249-253 | as Game.Game.ResetGame |
| Game.Game.RemoveObject | script.js:170-173 | splices the array at the `indexOf` position, keeping the objects distinct and adding none |
| Game.Game.GenerateObject | script.js:175-195 | appends one fresh object and ramps the knobs, as Game.Spawn |
| Game.Game.Fall | script.js:132-133 | moves the object at k down by its speed, as Game.Advance |
| Game.Game.CatchObject | script.js:135-149 | the catch test at k, as Game.CatchStep; a caught object is no longer in the array, and an uncaught one leaves the array as it was |
| Game.Game.MoveObject | script.js:131-154 | the callback at k, as Game.Visit |
| Game.Game.ForEachStep | script.js:131 | runs the callback for index k if the array still reaches it, as Game.Visit |
| Game.Game.MoveObjects | script.js:130-155 | the whole `forEach`, as Game.MoveAll, with the objects distinct and the knobs in bounds throughout |
| Game.Game.SpawnIfDue | script.js:221-226 | spawns, stamps the time and shortens the interval exactly when the gate is open |
| Game.Game.UpdateGame | script.js:215-228 | as Game.Update |
| Game.Game.TogglePause | script.js:240-247 | as Game.Paused |
| EarlyGame.Initial | trash-panda-main/script.js:4-21 | the script starts with the player centred, an empty array, score 0 and unpaused |
| EarlyGame.KeyDown | trash-panda-main/script.js:33-41 | while paused or on any other key nothing changes; an arrow key moves the player one step that way and changes nothing else |
| EarlyGame.TouchStart | trash-panda-main/script.js:43-54 | while paused nothing changes; otherwise the player moves towards the touched half and nothing else changes |
| EarlyGame.ReapStep | trash-panda-main/script.js:83-85 | a gone object is deleted where `indexOf` found it, the others keep their order, and the score and the other fields are untouched; an object still on the canvas changes nothing |
| EarlyGame.Visit | trash-panda-main/script.js:67-86 | one callback keeps the player and the pause flag, never lengthens the array, and adds one point exactly when the object, after falling 4, is caught |
| EarlyGame.Sweep | trash-panda-main/script.js:66-87 | a frame keeps the player and the pause flag |
| EarlyGame.Update | trash-panda-main/script.js:130-136 | paused: nothing moves; otherwise exactly one frame of `moveObjects`; the pause flag and player are kept |
| EarlyGame.Spawn | trash-panda-main/script.js:106-112 | exactly one object is appended, at y 0 and x within the canvas; nothing else changes |
| EarlyGame.Paused | trash-panda-main/script.js:152-160 | the flag flips; pausing changes nothing else; resuming runs a frame at once |
| EarlyGame.VisitOutcomes | trash-panda-main/script.js:67-86 | every visited object falls 4; then exactly one of: kept in place, caught and removed with a point, gone and removed, or caught and gone with the last object also removed |
| EarlyGame.SweepScore | trash-panda-main/script.js:66-92 | over a frame the score never falls, rises by at most one per object, and the array never grows |
| EarlyGame.VisitKeepsPrefix | trash-panda-main/script.js:67-86 | with the player's top edge on the canvas, a callback at k leaves every object before k where it was |
| EarlyGame.SweepKeepsPrefix | trash-panda-main/script.js:66-87 | with the player's top edge on the canvas, the objects a frame has passed are never touched again |
| EarlyGame.ShiftedObjectSkipped | trash-panda-main/script.js:67-86 | with the player's top edge on the canvas, when a callback removes its object, the next object shifts into that index and ends the frame unadvanced |
| EarlyGame.CaughtAndGoneRemovesLast | trash-panda-main/script.js:70-85 | an object both caught and gone is removed, one point is scored, and the last object of the array is also deleted |
| EarlyGame.TogglePauseTwice | trash-panda-main/script.js:152-160 | two toggles restore the pause flag |
| EarlyGame.CatchScenario | trash-panda-main/script.js:66-92 | a collectible that falls into the catch band is removed and scores one point |
| EarlyGame.FallingObject.constructor | trash-panda-main/script.js:107-110 | a new object keeps its x and starts at y 0 |
| EarlyGame.Game.constructor | trash-panda-main/script.js:4-21 | the globals start empty, with score 0, unpaused, and the player's y 30 above the canvas bottom as first laid out |
| EarlyGame.Game.MovePlayer | trash-panda-main/script.js:56-64 | moves the player as Arena.MovedX |
| EarlyGame.Game.HandleKeyDown | trash-panda-main/script.js:33-41 | as EarlyGame.KeyDown |
| EarlyGame.Game.HandleTouchStart | trash-panda-main/script.js:43-54 | as EarlyGame.TouchStart |
| EarlyGame.Game.IncreaseScore | trash-panda-main/script.js:89-92 | adds one to the score |
| EarlyGame.Game.RemoveObject | trash-panda-main/script.js:101-104 | splices the array at the `indexOf` position, keeping the objects distinct and adding none |
| EarlyGame.SpliceOfValues | trash-panda-main/script.js:103 | splicing the objects splices their values the same way |
| EarlyGame.Game.GenerateObject | trash-panda-main/script.js:106-112 | appends one fresh object, as EarlyGame.Spawn |
| EarlyGame.Game.Fall | trash-panda-main/script.js:68 | moves the object at k down by 4, as EarlyGame.Advance |
| EarlyGame.Game.CatchObject | trash-panda-main/script.js:70-81 | the catch test at k, as EarlyGame.CatchStep; a caught object is no longer in the array, and an uncaught one leaves the array as it was |
| EarlyGame.Game.MoveObject | trash-panda-main/script.js:67-86 | the callback at k, as EarlyGame.Visit |
| EarlyGame.Game.ForEachStep | trash-panda-main/script.js:67 | runs the callback for index k if the array still reaches it, as EarlyGame.Visit |
| EarlyGame.Game.MoveObjects | trash-panda-main/script.js:66-87 | the whole `forEach`, as EarlyGame.MoveAll, with the objects distinct throughout |
| EarlyGame.Game.UpdateGame | trash-panda-main/script.js:130-136 | as EarlyGame.Update |
| EarlyGame.Game.TogglePause | trash-panda-main/script.js:152-160 | as EarlyGame.Paused |

## Left out

- Drawing: the canvas drawing, the image loading and the score and button labels in the page are presentation only.
- Sound and messages: the audio playback (movement, collision and caught sounds), the console messages and the blocking game-over alert are side effects outside the simulation. Only the mute flag is modelled.
- Scheduling: `requestAnimationFrame` is modelled as one call of `UpdateGame` per frame. The extra frame chain that starts when pause and resume fall within one frame is not modelled.
- `setInterval(generateObject, 1000)` in the earlier version (trash-panda-main/script.js:141) is a host timer. `GenerateObject` is the call it makes, and since the timer ignores the pause flag, so does `GenerateObject`.
- `init`, the event-listener registration and `setCanvasSize` are host wiring. The canvas width and height are parameters of each method.
- The player's `y` is computed once from the canvas height at load. The model takes that height as a constructor parameter and does not model the resize that follows.
- Floating point: positions, speeds and the ramp steps are exact reals. The IEEE rounding of the 0.001 and 0.005 increments is not modelled, which is why the ramp bounds are stated as below 0.501 and 15.005.
- `const objectSpeed = 4` in `script.js` is declared but never read there, so it has no counterpart in `Game`.
- Game.Sweep, EarlyGame.Sweep: the lemmas about the order of removal and the skipped object assume the player's top edge is on the canvas. Otherwise a caught object can also be past the bottom, which `CaughtAndGoneRemovesLast` covers for a single callback only.
