/**
  The game objects as the program keeps them: objects whose methods update
  their fields in place. Each class has a `Model()` giving its fields as a
  GameSpec value, and each method is proved to change that value exactly as
  the matching GameSpec function says, so the lemmas of GameSpec are
  statements about these methods.
*/
module SimpleGame {
  import opened Screen
  import opened Controls
  import opened Decimal
  import Spec = GameSpec

  /** A line of text; `update` does nothing and rendering is not modelled. */
  class Text {
    var x: int
    var y: int
    var text: string
    var visible: bool

    ghost function Model(): Spec.TextState
      reads this
    {
      Spec.TextState(x, y, text, visible)
    }

    constructor (x: int, y: int, text: string, visible: bool)
      ensures Model() == Spec.TextState(x, y, text, visible)
    {
      new;
      Init(x, y, text, visible);
    }

    /** Give every field the value the constructor gives it. */
    method Init(x: int, y: int, text: string, visible: bool)
      modifies this
      ensures Model() == Spec.TextState(x, y, text, visible)
    {
      this.x := x;
      this.y := y;
      this.text := text;
      this.visible := visible;
    }
  }

  /** The explosion marker: only its position matters. */
  class Explosion {
    var x: real
    var y: real

    constructor (x: real, y: real)
      ensures this.x == x && this.y == y
    {
      new;
      Init(x, y);
    }

    /** Give every field the value the constructor gives it. */
    method Init(x: real, y: real)
      modifies this
      ensures this.x == x && this.y == y
    {
      this.x := x;
      this.y := y;
    }
  }

  /** The astronaut to collect. */
  class Collectible {
    var x: int
    var y: int
    var angle: int
    var rect: Rect

    ghost function Model(): Spec.CollectibleState
      reads this
    {
      Spec.CollectibleState(x, y, angle, rect)
    }

    constructor (x: int, y: int)
      ensures Model() == Spec.NewCollectible(x, y)
    {
      new;
      Init(x, y);
    }

    /** Give every field the value the constructor gives it. */
    method Init(x: int, y: int)
      modifies this
      ensures Model() == Spec.NewCollectible(x, y)
    {
      this.x := x;
      this.y := y;
      angle := 0;
      rect := Rect(0.0, 0.0, ASTRONAUT_SIZE as real, ASTRONAUT_SIZE as real);
    }

    /** `randomise_position`, with the three values drawn passed in as `d`. */
    method RandomisePosition(d: Spec.Draw)
      requires Spec.ValidDraw(d)
      modifies this
      ensures Model() == Spec.RandomisePosition(old(Model()), d)
    {
      x := d.x;
      y := d.y;
      rect := Rect(0.0, 0.0, ASTRONAUT_SIZE as real, ASTRONAUT_SIZE as real);
      rect := rect.(x := x as real, y := y as real);
      angle := d.angle;
    }
  }

  /** The player's ship. */
  class Player {
    var x: real
    var y: real
    var velocity: int
    var direction: Direction
    var angle: int
    /** Total rotation, in degrees counter-clockwise, applied to the sprite so far. */
    var spriteRotation: int
    var moving: bool
    var rect: Rect

    ghost function Model(): Spec.PlayerState
      reads this
    {
      Spec.PlayerState(x, y, velocity, direction, angle, spriteRotation, moving, rect)
    }

    constructor (x: real, y: real)
      ensures Model() == Spec.NewPlayer(x, y)
    {
      new;
      Init(x, y);
    }

    /** Give every field the value the constructor gives it. */
    method Init(x: real, y: real)
      modifies this
      ensures Model() == Spec.NewPlayer(x, y)
    {
      this.x := x;
      this.y := y;
      velocity := 200;
      direction := Up;
      angle := 0;
      spriteRotation := 0;
      moving := false;
      rect := Rect(0.0, 0.0, SHIP_SIZE as real, SHIP_SIZE as real);
    }

    method Update(dt: real)
      modifies this
      ensures Model() == Spec.UpdatePlayer(old(Model()), dt)
    {
      if moving {
        Move(dt);
      }
      rect := rect.(x := x);
      rect := rect.(y := y);
    }

    method SetAngle(newAngle: int)
      modifies this
      ensures Model() == Spec.SetAngle(old(Model()), newAngle)
    {
      var rotation := angle - newAngle;
      angle := newAngle;
      spriteRotation := spriteRotation + rotation;
    }

    method Move(dt: real)
      modifies this
      ensures Model() == Spec.Move(old(Model()), dt)
    {
      var distance := velocity as real * dt;
      match direction {
        case Up => y := y - distance;
        case Down => y := y + distance;
        case Left => x := x - distance;
        case Right => x := x + distance;
      }
      x := Min(MAX_X, x);
      x := Max(0.0, x);
      y := Min(MAX_Y, y);
      y := Max(0.0, y);
    }
  }

  /** The game: its entities, the score and the in-bounds flag. */
  class Game {
    var running: bool
    var score: int
    var player: Player
    var collectible: Collectible
    var explosion: Explosion
    var text: Text
    var deathText: Text
    var inBounds: bool

    /** The two lines of text are different objects. */
    ghost predicate Valid()
      reads this
    {
      text != deathText
    }

    /** The game keeps the same entity objects. */
    twostate predicate SameEntities()
      reads this
    {
      && player == old(player) && collectible == old(collectible) && explosion == old(explosion)
      && text == old(text) && deathText == old(deathText)
    }

    ghost function Model(): Spec.GameState
      reads this, player, collectible, explosion, text, deathText
    {
      Spec.GameState(running, score, player.Model(), collectible.Model(),
                     explosion.x, explosion.y, text.Model(), deathText.Model(), inBounds)
    }

    constructor (d: Spec.Draw)
      requires Spec.ValidDraw(d)
      ensures Valid()
      ensures fresh(player) && fresh(collectible) && fresh(explosion) && fresh(text) && fresh(deathText)
      ensures Model() == Spec.Initial(d)
    {
      running := true;
      score := 0;
      player := new Player(640.0, 360.0);
      collectible := new Collectible(100, 100);
      explosion := new Explosion(-50.0, -50.0);
      text := new Text(10, 10, "", true);
      deathText := new Text(600, 350, "You died!", false);
      inBounds := true;
      new;
      collectible.RandomisePosition(d);
    }

    /**
      The re-initialisation done when the death text was showing: every
      entity gets back the values it is constructed with.
    */
    method Reset(d: Spec.Draw)
      requires Valid()
      requires Spec.ValidDraw(d)
      modifies this, player, collectible, explosion, text, deathText
      ensures Valid() && SameEntities()
      ensures Model() == Spec.Initial(d)
    {
      running := true;
      score := 0;
      player.Init(640.0, 360.0);
      collectible.Init(100, 100);
      collectible.RandomisePosition(d);
      explosion.Init(-50.0, -50.0);
      text.Init(10, 10, "", true);
      deathText.Init(600, 350, "You died!", false);
      inBounds := true;
    }

    /** `poll_events` over the events waiting in the queue. */
    method PollEvents(events: seq<Event>)
      requires Valid()
      modifies this, player, collectible, explosion, text, deathText
      ensures Valid() && SameEntities()
      ensures Model() == Spec.PollEvents(old(Model()), events)
    {
      if inBounds {
        var i := 0;
        while i < |events|
          invariant 0 <= i <= |events|
          invariant Valid() && SameEntities()
          invariant Model() == Spec.HandleEvents(old(Model()), events[..i])
        {
          var event := events[i];
          if event == Quit {
            running := false;
          }
          if event.KeyDown? {
            match Lookup(event.key)
            case Some(b) =>
              player.direction := b.direction;
              player.SetAngle(b.angle);
              player.moving := true;
            case None =>
          }
          assert events[..i + 1][..i] == events[..i];
          i := i + 1;
        }
        assert events[..i] == events;
      }
    }

    /**
      `update`: one frame. `dt` is the time since the previous frame;
      `resetDraw` and `collectDraw` are the values drawn for the astronaut by
      a reset and by a collection in this frame.
    */
    method Update(dt: real, resetDraw: Spec.Draw, collectDraw: Spec.Draw)
      requires Valid()
      requires Spec.ValidDraw(resetDraw) && Spec.ValidDraw(collectDraw)
      modifies this, player, collectible, explosion, text, deathText
      ensures Valid() && SameEntities()
      ensures Model() == Spec.Update(old(Model()), dt, resetDraw, collectDraw)
    {
      if deathText.visible {
        Reset(resetDraw);
      }
      inBounds := player.x > 1.0 && player.y > 1.0
                  && player.x < (SCREEN_WIDTH - 1 - SHIP_SIZE) as real
                  && player.y < (SCREEN_HEIGHT - 1 - SHIP_SIZE) as real;
      if inBounds {
        player.Update(dt);
        Collect(collectDraw);
      }
      RefreshScore();
      if !inBounds {
        Die();
      }
    }

    /** The collision response of `update`. */
    method Collect(d: Spec.Draw)
      requires Spec.ValidDraw(d)
      modifies this, player, collectible
      ensures SameEntities()
      ensures Model() == Spec.Collect(old(Model()), d)
    {
      if Collide(player.rect, collectible.rect) {
        collectible.RandomisePosition(d);
        player.velocity := player.velocity + 30;
        score := score + 100;
      }
    }

    /** The score line of `update`. */
    method RefreshScore()
      requires Valid()
      modifies text
      ensures Model() == old(Model()).(text := old(Model()).text.(text := Spec.ScoreLabel(score)))
    {
      text.text := "Score: " + IntToDecimal(score);
    }

    /** The death transition of `update`. */
    method Die()
      requires Valid()
      modifies player, explosion, deathText
      ensures Model() == Spec.Die(old(Model()))
    {
      explosion.x := player.x;
      explosion.y := player.y;
      deathText.visible := true;
      player.moving := false;
    }
  }
}
