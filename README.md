# astroscream `simple_game.py` in Dafny

A model of the per-frame game logic of astroscream's `simple_game.py`, a
small pygame game. The player steers a ship with the arrow keys and collects
astronauts. Each astronaut collected is worth 100 points and makes the ship
30 units per second faster. The ship dies when it reaches a one-pixel margin
inside the screen edge. The frame after a death restarts the game.

The project has six modules:

- `Screen` (`screen.dfy`) holds the screen and sprite sizes. It defines the
  clamp `Player.move` applies, the strict `inBounds` test of `Game.update`,
  and box overlap, which stands in for pygame's `colliderect`.
- `Controls` (`controls.dfy`) holds keys, events, directions and the
  `keybinds` table.
- `Decimal` (`decimal.dfy`) is Python's `str` on integers, used by the score
  line, together with a parser that reads it back.
- `GameSpec` (`game_spec.dfy`) is the whole game state as a value. Every step
  is a function on that value: move, update, set angle, randomise position,
  initialise, poll events, update a frame. The lemmas about the game are
  stated over these functions.
- `SimpleGame` (`simple_game.dfy`) has the classes `Text`, `Explosion`,
  `Collectible`, `Player` and `Game`. Their methods update fields in place,
  as the Python methods do. `Text`, `Collectible`, `Player` and `Game` each
  have a ghost `Model()` that reads their fields as a `GameSpec` value.
  `Explosion` has only a position, which `Game.Model()` reads directly. Each
  method is proved to change that value exactly as the matching `GameSpec`
  function says. So every `GameSpec` lemma is a statement about the methods.
- `Wrappers` (`wrappers.dfy`) holds `Option`.

How the model handles what the running game takes from outside:

- Positions, `dt` and `velocity * dt` are exact reals.
- The sprite sizes are the constants the sprites are scaled to: ship 50×50,
  astronaut 25×25.
- Each `random.randint` triple is a `Draw` parameter, constrained only to
  its ranges.
- The clock's `dt` is a parameter.
- The event queue is a sequence of events.

The re-entrant `self.__init__()` of `Game.update` becomes `Game.Reset`. It
gives every entity object the values its constructor gives it.

## Model

| member | source | states |
|---|---|---|
| Screen.Clamp | simple_game.py:99-102 | The `min`/`max` clamp: the result lies in `[0, hi]`. A value already inside is unchanged; below 0 gives 0; above `hi` gives `hi`. |
| Screen.InsetBoundsExactly | simple_game.py:176 | With the 50-pixel sprite, `inBounds` holds exactly when `1 < x < 1229` and `1 < y < 669`. |
| Screen.InsetWithinClampBox | simple_game.py:176 | Every in-bounds position lies inside the clamp box `[0, 1230] × [0, 670]`. |
| Screen.ClampBoxLeavesInset | simple_game.py:176 | The clamp box is strictly wider: x = 0 and x = 1230 are in the box but out of bounds, so a clamped ship can die. |
| Controls.Lookup | simple_game.py:130-135 | Exactly the four arrow keys have a binding, and each binding's angle is its direction's heading. |
| Controls.KeyTable | simple_game.py:130-135 | The table: up → (up, 0), down → (down, 180), left → (left, 270), right → (right, 90). |
| Controls.LookupInjective | simple_game.py:130-135 | Different keys are bound to different directions and different angles. |
| Controls.BindingFacesStep | simple_game.py:130-135 | Turning "up" clockwise by a binding's angle gives the step of its direction, so each key's angle is the way the ship then moves. |
| Decimal.NatToDecimal | simple_game.py:187 | `str` of a natural number is a canonical numeral: only digits, no leading zero, one digit exactly when n < 10, and "0" only for 0. |
| Decimal.NatRoundTrip | simple_game.py:187 | Reading back `str(n)` gives n. |
| Decimal.LongNumeralValue | simple_game.py:187 | A canonical numeral of two or more digits denotes at least 10. |
| Decimal.CanonicalRoundTrip | simple_game.py:187 | Every canonical numeral is `str` of the number it denotes. |
| Decimal.IntToDecimal | simple_game.py:187 | `str` of an integer: non-empty, starts with '-' exactly when it is negative, and canonical when it is not. |
| Decimal.IntRoundTrip | simple_game.py:187 | Reading back `str(n)` gives n for every integer. |
| Decimal.IntToDecimalInjective | simple_game.py:187 | Different scores give different texts. |
| GameSpec.Move | simple_game.py:87-102 | After a move the ship is in the clamp box, and nothing but x and y has changed. |
| GameSpec.MoveBy | simple_game.py:88-102 | The same for a move by any distance. |
| GameSpec.MoveAlongStep | simple_game.py:87-102 | Up subtracts the distance from y, down adds it to y, left subtracts it from x and right adds it to x. The other coordinate is unchanged and the moved one is clamped; a target inside the box is reached exactly. |
| GameSpec.UpdatePlayer | simple_game.py:73-77 | A still ship keeps its position. A moving ship goes where `move` takes it. The box always follows the position, and nothing else changes. |
| GameSpec.SetAngle | simple_game.py:82-85 | The angle becomes the new one. The sprite is turned by old minus new, so angle plus sprite rotation is unchanged. Nothing else changes. |
| GameSpec.TotalRotation | simple_game.py:82-85 | Over any run of `set_angle` calls the total sprite rotation is the first angle minus the last, and the ship ends at the last angle. |
| GameSpec.RandomisePosition | simple_game.py:51-57 | The new astronaut has 50 ≤ x ≤ 1250, 50 ≤ y ≤ 670 and 0 ≤ angle ≤ 360, and its box's origin is (x, y). |
| GameSpec.ScoreLabelReadsBack | simple_game.py:187 | The score line starts with "Score: ", and the rest parses back to the score. |
| GameSpec.InitialState | simple_game.py:108-128 | The initial state satisfies the game invariant. Score is 0; the ship is at (640, 360), speed 200, heading up, angle 0, still and in bounds; the explosion is at (-50, -50); the death text is hidden; the astronaut is where the draw put it. |
| GameSpec.HandleEventsEffect | simple_game.py:156-165 | Handling events: `running` is cleared exactly when a quit event arrives. The last recognised key sets direction, angle and `moving`. The sprite rotation follows the angle. Nothing else changes, and with no recognised key the ship is untouched. |
| GameSpec.PollKey | simple_game.py:156-165 | One key press: a recognised key sets direction and angle from the table and sets `moving`, keeping position and speed. An unknown key, or any key while out of bounds, changes nothing. |
| GameSpec.HandleEventsInvariant | simple_game.py:157-165 | Handling events while in bounds keeps the game invariant. |
| GameSpec.PollEventsInvariant | simple_game.py:156-165 | `poll_events` keeps the game invariant. |
| GameSpec.UpdatePlayerInvariant | simple_game.py:178 | Updating the ship in a live frame keeps the game invariant. |
| GameSpec.CollectInvariant | simple_game.py:181-184 | A collection keeps the invariant, in particular speed = 200 + 30 × score / 100. |
| GameSpec.UpdateInvariant | simple_game.py:167-195 | A frame of `update` keeps the game invariant. |
| GameSpec.ResetFrame | simple_game.py:172-174 | A frame that starts with the death text shown resets first. The ship is at (640, 360), speed 200, heading up, still and in bounds; the explosion is at (-50, -50); the death text is hidden; the score is 0, or 100 if the new astronaut overlaps the ship. |
| GameSpec.CollectFrame | simple_game.py:176-185 | In bounds with overlap: score +100 exactly, speed +30 exactly, and the astronaut is redrawn within its ranges. Without overlap, score, speed and astronaut are unchanged. The ship moves as `Player.update` says. |
| GameSpec.DeathFrame | simple_game.py:190-195 | Out of bounds: the explosion goes to the ship, the death text shows and the ship stops. Position, score, speed and astronaut stay. |
| GameSpec.ScoreNeverDecreases | simple_game.py:181-184 | Within a life, score and speed never go down. Score grows by 0 or 100, and speed grows by 30 for every 100 points. |
| GameSpec.ScoreTextAfterUpdate | simple_game.py:187 | After every frame the score line is "Score: " followed by the decimal score, which reads back as the score. |
| GameSpec.DeathThenReset | simple_game.py:172-195 | The death text shows after exactly the frames that began out of bounds, and the next frame resets the game. |
| GameSpec.EdgeDeath | simple_game.py:99-102 | A ship at x = 2 moving left is clamped to x = 0 while still counted in bounds. The next frame is the death frame and the one after is the reset. |
| GameSpec.FirstMoveUp | simple_game.py:156-165 | From a fresh game, pressing up and running a 0.1 s frame moves the ship from (640, 360) to (640, 340). |
| GameSpec.QueuedKeyAfterReset | simple_game.py:156-174 | Start from the death text shown. The next frame resets. An up key queued during death is polled after the reset. The following frame's dt of at least 2 s (the pause is in it) takes the ship to y = 0 while it is still counted in bounds. The frame after that is a death frame again. |
| SimpleGame.Text.constructor | simple_game.py:7-12 | A text line with the given position, text and visibility. |
| SimpleGame.Text.Init | simple_game.py:7-12 | Re-initialises a text line in place to the constructor's values. |
| SimpleGame.Explosion.constructor | simple_game.py:26-29 | An explosion at the given position. |
| SimpleGame.Explosion.Init | simple_game.py:26-29 | Re-initialises an explosion in place. |
| SimpleGame.Collectible.constructor | simple_game.py:38-42 | A new astronaut: `GameSpec.NewCollectible`. |
| SimpleGame.Collectible.Init | simple_game.py:38-42 | Re-initialises an astronaut in place. |
| SimpleGame.Collectible.RandomisePosition | simple_game.py:51-57 | Changes the astronaut as `GameSpec.RandomisePosition` says. |
| SimpleGame.Player.constructor | simple_game.py:63-71 | A new ship: `GameSpec.NewPlayer`. |
| SimpleGame.Player.Init | simple_game.py:63-71 | Re-initialises the ship in place. |
| SimpleGame.Player.Update | simple_game.py:73-77 | Changes the ship as `GameSpec.UpdatePlayer` says. |
| SimpleGame.Player.SetAngle | simple_game.py:82-85 | Changes the ship as `GameSpec.SetAngle` says. |
| SimpleGame.Player.Move | simple_game.py:87-102 | Changes the ship as `GameSpec.Move` says. |
| SimpleGame.Game.constructor | simple_game.py:108-128 | The new game's state is `GameSpec.Initial`, and its five entity objects are new, so a caller can go on to poll events and run frames on it. |
| SimpleGame.Game.Reset | simple_game.py:172-174 | Resets the same entity objects to `GameSpec.Initial`. |
| SimpleGame.Game.PollEvents | simple_game.py:156-165 | The loop over the events changes the game as `GameSpec.PollEvents` says. |
| SimpleGame.Game.Update | simple_game.py:167-195 | One frame changes the game as `GameSpec.Update` says, keeping the same entity objects. |
| SimpleGame.Game.Collect | simple_game.py:181-184 | The collision response, as `GameSpec.Collect`. |
| SimpleGame.Game.RefreshScore | simple_game.py:187 | The score line becomes `"Score: " + str(score)`. |
| SimpleGame.Game.Die | simple_game.py:190-195 | The death transition, as `GameSpec.Die`. |

The invariant `GameSpec.Invariant` holds in every reachable state (see
`InitialState`, `PollEventsInvariant` and `UpdateInvariant`). It says:

- The ship is in the clamp box.
- The ship's angle is its direction's heading, and its sprite rotation is
  minus its angle.
- Its box is 50×50.
- The score is a non-negative multiple of 100, and the speed is
  200 + 30 × score / 100.
- The astronaut lies in its ranges, and its box sits at its position.
- The death text shows exactly when the last frame found the ship out of
  bounds.
- While the death text shows, the explosion is at the ship and the ship is
  still; otherwise the explosion is at (-50, -50).

## Left out

- Rendering is not modelled: `Text.render`, `Explosion.render`,
  `Player.render`, `Collectible.render` and `Game.render`. This includes the
  astronaut's spin `angle + 5 * dt`, which happens inside
  `Collectible.render`. For that reason the model claims nothing about the
  astronaut's angle beyond what `randomise_position` draws.
- `pygame.init`, `set_mode`, `load_sprites` and `pygame.quit` are I/O through
  pygame. The sprite sizes they set up are constants instead.
- Music and sound effects (loading, volumes, `play`) are left out. They are
  fire-and-forget and change no game state.
- The clock is a parameter. `time.time()` and the `dt` computation become
  the `dt` parameter of `Update`, and `time.sleep(2)` before the reset is
  left out. After an in-frame reset the source's `self.dt` is overwritten
  with the wall-clock time. Only rendering uses that value, because the
  freshly reset ship is still, so the model keeps the frame's `dt`.
- `pygame.event.get`, `Game.run` and the module-level driver are left out.
  The events of one poll are a sequence parameter.
- `SimpleGame.Game.PollEvents` does not model the event queue. While the
  ship is out of bounds, `poll_events` does not call `pygame.event.get` at
  all, so the events stay queued and the first poll after the reset handles
  them. The model's `PollEvents` ignores its events in that case, and it
  models the source only when the caller passes them again to the next poll.
- `SimpleGame.Game.Update`: `__init__` never resets `previous_time`, so the
  first frame after a reset has a `dt` that includes the two-second pause.
  The model takes `dt` as a parameter, so the caller has to supply that
  larger value. `GameSpec.QueuedKeyAfterReset` shows what follows: an up key
  queued during death sends the ship to the edge, where it dies again.
- `random.randint` is a `Draw` parameter constrained only to its ranges. Its
  distribution is not modelled.
- pygame `Rect` is a box of reals. The float-to-int coercion of
  `rect.x = self.x` is not modelled, and neither are the exact edge
  semantics of `colliderect` (`Screen.Collide` is strict overlap).
- `pygame.transform.rotate` is modelled only as the running total
  `spriteRotation`. Every angle in the table is a multiple of 90 degrees, so
  the rotated sprite stays 50×50, which the constant ship size relies on.
- `Text.update` and `Collectible.update` have empty bodies and are not
  modelled.
- `SimpleGame.Game.Reset`: the source builds new `Player`, `Collectible`,
  `Explosion` and `Text` objects through `self.__init__()`, and also
  re-creates the screen, sprites, key table and sounds. The model
  re-initialises the existing entity objects in place instead. The `Game`
  owns them and nothing else refers to them, so the observable state is the
  same.
- `GameSpec.Move` and `SimpleGame.Player.Move`: the model accepts any `dt`.
  The running game's `dt` is a wall-clock difference. It is normally
  non-negative, but it can be negative if the clock steps back. No property
  here depends on its sign.
- The player's box starts at the origin (`sprite.get_rect()`), and only the
  first `Player.update` moves it to the ship. The model keeps that order.
