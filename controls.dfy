/**
  Player input: the four arrow keys and the table that turns each one into a
  travel direction and a facing angle for the ship.
*/
module Controls {
  import opened Wrappers

  datatype Direction = Up | Down | Left | Right

  /** A key code: the four arrow keys, or any other key. */
  datatype Key = ArrowUp | ArrowDown | ArrowLeft | ArrowRight | OtherKey(code: int)

  /** One entry of the event queue. */
  datatype Event = Quit | KeyDown(key: Key) | OtherEvent

  /** What a recognised key selects: the travel direction and the facing angle. */
  datatype Binding = Binding(direction: Direction, angle: int)

  /** The key table of the game. */
  const KEYBINDS: map<Key, Binding> := map[
    ArrowUp := Binding(Up, 0),
    ArrowDown := Binding(Down, 180),
    ArrowLeft := Binding(Left, 270),
    ArrowRight := Binding(Right, 90)
  ]

  /**
    The facing of a direction in degrees, turning clockwise from "up" on the
    screen (so right is a quarter turn, left three quarters).
  */
  function Heading(d: Direction): int {
    match d
    case Up => 0
    case Right => 90
    case Down => 180
    case Left => 270
  }

  /** The unit step of a direction in screen coordinates, where y grows downwards. */
  function Step(d: Direction): (int, int) {
    match d
    case Up => (0, -1)
    case Down => (0, 1)
    case Left => (-1, 0)
    case Right => (1, 0)
  }

  /** The screen vector `v` turned clockwise by `quarters` quarter turns. */
  function TurnClockwise(v: (int, int), quarters: nat): (int, int)
    decreases quarters
  {
    if quarters == 0 then v else TurnClockwise((-v.1, v.0), quarters - 1)
  }

  /** The vector a sprite facing `angle` degrees (clockwise from up) points along. */
  function Facing(angle: nat): (int, int) {
    TurnClockwise((0, -1), angle / 90)
  }

  /**
    Look a key up in the table: exactly the arrow keys are recognised, and the
    angle a key selects is the heading of the direction it selects.
  */
  function Lookup(k: Key): (r: Option<Binding>)
    ensures r.Some? <==> !k.OtherKey?
    ensures r.Some? ==> r.value.angle == Heading(r.value.direction)
  {
    if k in KEYBINDS then Some(KEYBINDS[k]) else None
  }

  /** The table's four entries. */
  lemma KeyTable()
    ensures Lookup(ArrowUp) == Some(Binding(Up, 0))
    ensures Lookup(ArrowDown) == Some(Binding(Down, 180))
    ensures Lookup(ArrowLeft) == Some(Binding(Left, 270))
    ensures Lookup(ArrowRight) == Some(Binding(Right, 90))
  {
  }

  /** Different arrow keys select different directions and different angles. */
  lemma LookupInjective(k1: Key, k2: Key)
    requires Lookup(k1).Some? && Lookup(k2).Some?
    ensures Lookup(k1).value.direction == Lookup(k2).value.direction ==> k1 == k2
    ensures Lookup(k1).value.angle == Lookup(k2).value.angle ==> k1 == k2
  {
  }

  /**
    The ship moves where it points: for every key in the table, the sprite
    turned to the selected angle faces along the step of the selected direction.
  */
  lemma BindingFacesStep(k: Key)
    requires Lookup(k).Some?
    ensures Lookup(k).value.angle >= 0
    ensures Facing(Lookup(k).value.angle) == Step(Lookup(k).value.direction)
  {
  }
}
