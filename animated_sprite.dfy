/**
 * The eight-direction sprite (AnimatedSprite.jsx): a rotation counter stepped
 * by an interval timer and the direction shown, computed from the
 * `direction` prop, the `autoRotate` prop and the counter. The bobbing
 * animation is not part of this model.
 *
 * The facing rule is stated once over any list of direction names
 * (`CurrentIn`) and applied to the component's list; its properties are
 * proved for every list of eight distinct names and then for the list itself.
 */
module AnimatedSprite {
  import opened JsValues

  const South: string := "south"
  const SouthEast: string := "south-east"
  const East: string := "east"
  const NorthEast: string := "north-east"
  const North: string := "north"
  const NorthWest: string := "north-west"
  const West: string := "west"
  const SouthWest: string := "south-west"

  /** `directionOrder`, clockwise from south. */
  const DirectionOrder: seq<string> :=
    [South, SouthEast, East, NorthEast, North, NorthWest, West, SouthWest]

  const SpritePath: string := "/A_small_kid_wearing_flipflops_and_a_white_singlet/rotations/"

  /**
   * `spriteRotations[key]`: the image of each of the eight directions, and
   * `undefined` for any other key.
   */
  function SpriteRotation(key: string): Option<string> {
    if key == "south" then Some(SpritePath + "south.png")
    else if key == "south-east" then Some(SpritePath + "south-east.png")
    else if key == "east" then Some(SpritePath + "east.png")
    else if key == "north-east" then Some(SpritePath + "north-east.png")
    else if key == "north" then Some(SpritePath + "north.png")
    else if key == "north-west" then Some(SpritePath + "north-west.png")
    else if key == "west" then Some(SpritePath + "west.png")
    else if key == "south-west" then Some(SpritePath + "south-west.png")
    else None
  }

  /** The image shown for a current direction; `undefined` when there is no current direction. */
  function SpriteImage(d: Option<string>): Option<string> {
    if d.Some? then SpriteRotation(d.value) else None
  }

  /** `xs.indexOf(x)`: a position holding `x`, or -1 when there is none (the first such position, by `IndexOfFirst`). */
  function IndexOf(xs: seq<string>, x: string): (r: int)
    ensures -1 <= r < |xs|
    ensures r >= 0 ==> xs[r] == x
    ensures r == -1 <==> x !in xs
  {
    if xs == [] then -1
    else if xs[0] == x then 0
    else
      var r := IndexOf(xs[1..], x);
      assert x in xs <==> x in xs[1..];
      if r == -1 then -1 else r + 1
  }

  /** The `currentDirection` memo over the list `order`; None stands for `undefined`. */
  function CurrentIn(order: seq<string>, autoRotate: bool, direction: string, tick: int): Option<string>
    requires order != []
  {
    if autoRotate then
      var i := JsRem(IndexOf(order, direction) + tick, |order|);
      if 0 <= i < |order| then Some(order[i]) else None
    else Some(direction)
  }

  /** The `currentDirection` memo of the component. */
  function CurrentDirection(autoRotate: bool, direction: string, tick: int): Option<string> {
    CurrentIn(DirectionOrder, autoRotate, direction, tick)
  }

  /** The interval callback's update `(prev + 1) % directionOrder.length`. */
  function NextTick(tick: int): int {
    JsRem(tick + 1, |DirectionOrder|)
  }

  /** The counter after `n` interval callbacks. */
  function Ticks(n: nat): int {
    if n == 0 then 0 else NextTick(Ticks(n - 1))
  }

  /** The name that follows `d` in `order`, wrapping around from the last to the first. */
  function Successor(order: seq<string>, d: string): string
    requires d in order
  {
    order[(IndexOf(order, d) + 1) % |order|]
  }

  predicate Distinct(order: seq<string>) {
    forall a, b :: 0 <= a < b < |order| ==> order[a] != order[b]
  }

  // ---------------------------------------------------------------------------
  // Properties of any list of directions

  /** `indexOf` finds the first occurrence. */
  lemma {:induction false} IndexOfFirst(xs: seq<string>, x: string, j: int)
    requires 0 <= j < |xs| && xs[j] == x
    ensures 0 <= IndexOf(xs, x) <= j
  {
    if xs[0] != x {
      IndexOfFirst(xs[1..], x, j - 1);
    }
  }

  /** In a list without repeats each name's index is its position. */
  lemma IndexOfDistinct(order: seq<string>, k: int)
    requires Distinct(order) && 0 <= k < |order|
    ensures IndexOf(order, order[k]) == k
  {
    IndexOfFirst(order, order[k], k);
  }

  /** Without auto-rotation the sprite faces the `direction` prop, whatever the counter. */
  lemma ManualDirectionIn(order: seq<string>, direction: string, tick: int)
    requires order != []
    ensures CurrentIn(order, false, direction, tick) == Some(direction)
  {
  }

  /** With auto-rotation and a listed direction, the counter is added to the direction's index modulo 8. */
  lemma CurrentOfKnown(order: seq<string>, direction: string, tick: int)
    requires |order| == 8 && direction in order && 0 <= tick < 8
    ensures CurrentIn(order, true, direction, tick) == Some(order[(IndexOf(order, direction) + tick) % 8])
  {
  }

  lemma StepMod8(i: int, t: int)
    requires 0 <= i < 8 && 0 <= t < 8
    ensures 0 <= (i + t) % 8 < 8 && 0 <= ((i + t) % 8 + 1) % 8 < 8
    ensures (i + (t + 1) % 8) % 8 == ((i + t) % 8 + 1) % 8
    ensures (i + 0) % 8 == i
  {
  }

  /** With auto-rotation and a listed direction, counter 0 shows that direction. */
  lemma StartsAtGivenDirectionIn(order: seq<string>, direction: string)
    requires |order| == 8 && direction in order
    ensures CurrentIn(order, true, direction, 0) == Some(direction)
  {
    CurrentOfKnown(order, direction, 0);
    StepMod8(IndexOf(order, direction), 0);
  }

  /** One step of the counter moves the shown name of a listed direction one place on along the list. */
  lemma AdvanceIn(order: seq<string>, direction: string, tick: int)
    requires |order| == 8 && Distinct(order) && direction in order && 0 <= tick < 8
    ensures CurrentIn(order, true, direction, tick).Some?
    ensures Successor(order, CurrentIn(order, true, direction, tick).value)
         == CurrentIn(order, true, direction, (tick + 1) % 8).value
  {
    var i := IndexOf(order, direction);
    var k := (i + tick) % 8;
    StepMod8(i, tick);
    CurrentOfKnown(order, direction, tick);
    CurrentOfKnown(order, direction, (tick + 1) % 8);
    IndexOfDistinct(order, k);
    assert CurrentIn(order, true, direction, tick).value == order[k];
    assert Successor(order, order[k]) == order[(k + 1) % 8];
  }

  /**
   * A direction outside the list has index -1: at counter 0 the remainder is
   * -1 and nothing is shown; at counter t in 1..7 the sprite shows entry t-1.
   */
  lemma UnknownDirectionIn(order: seq<string>, direction: string, tick: int)
    requires |order| == 8 && direction !in order && 0 <= tick < 8
    ensures tick == 0 ==> CurrentIn(order, true, direction, tick) == None
    ensures tick > 0 ==> CurrentIn(order, true, direction, tick) == Some(order[tick - 1])
  {
  }

  // ---------------------------------------------------------------------------
  // Properties of the component

  /** No direction appears twice in the order, and there are eight. */
  lemma DirectionsDistinct()
    ensures |DirectionOrder| == 8 && Distinct(DirectionOrder)
  {
    var d := DirectionOrder;
    assert d[0][0] == 's' && d[1][0] == 's' && d[2][0] == 'e' && d[3][0] == 'n';
    assert d[4][0] == 'n' && d[5][0] == 'n' && d[6][0] == 'w' && d[7][0] == 's';
    assert |d[0]| == 5 && |d[1]| == 10 && |d[2]| == 4 && |d[3]| == 10;
    assert |d[4]| == 5 && |d[5]| == 10 && |d[6]| == 4 && |d[7]| == 10;
    assert d[1][6] == 'e' && d[7][6] == 'w' && d[3][6] == 'e' && d[5][6] == 'w';
  }

  /** One callback on a non-negative counter is `(t + 1) % 8`. */
  lemma NextTickValue(t: int)
    requires 0 <= t
    ensures NextTick(t) == (t + 1) % 8
  {
    assert |DirectionOrder| == 8;
  }

  /** The counter starts at 0 and after n callbacks equals n mod 8, so it stays in 0..7 and repeats every eight. */
  lemma TicksCycle(n: nat)
    ensures 0 <= Ticks(n) < |DirectionOrder|
    ensures Ticks(n) == n % |DirectionOrder|
    ensures Ticks(n + |DirectionOrder|) == Ticks(n)
  {
    assert |DirectionOrder| == 8;
    TicksMod(n);
    TicksMod(n + 8);
    assert (n + 8) % 8 == n % 8;
  }

  lemma {:induction false} TicksMod(n: nat)
    ensures Ticks(n) == n % 8
  {
    if n > 0 {
      TicksMod(n - 1);
      NextTickValue(Ticks(n - 1));
      ModStep(n - 1);
    }
  }

  lemma ModStep(m: nat)
    ensures ((m % 8) + 1) % 8 == (m + 1) % 8
  {
  }

  /** Without auto-rotation the sprite faces the `direction` prop, whatever the counter. */
  lemma ManualDirection(direction: string, tick: int)
    ensures CurrentDirection(false, direction, tick) == Some(direction)
  {
    ManualDirectionIn(DirectionOrder, direction, tick);
  }

  /** With auto-rotation and a known direction, counter 0 shows that direction. */
  lemma StartsAtGivenDirection(direction: string)
    requires direction in DirectionOrder
    ensures CurrentDirection(true, direction, 0) == Some(direction)
  {
    DirectionsDistinct();
    StartsAtGivenDirectionIn(DirectionOrder, direction);
  }

  /**
   * With the props' defaults (`direction = 'south'`, `autoRotate = true`) the
   * sprite first faces south and turns south-east at the first callback.
   */
  lemma DefaultPropsStartSouth()
    ensures CurrentDirection(true, South, Ticks(0)) == Some(South)
    ensures CurrentDirection(true, South, Ticks(1)) == Some(SouthEast)
  {
    StartsAtGivenDirection(South);
    NextTickValue(0);
    assert IndexOf(DirectionOrder, South) == 0;
  }

  /** Each callback turns a known direction exactly one step on along the order. */
  lemma EachTickAdvancesOne(direction: string, tick: int)
    requires direction in DirectionOrder && 0 <= tick < |DirectionOrder|
    ensures CurrentDirection(true, direction, tick).Some?
    ensures Successor(DirectionOrder, CurrentDirection(true, direction, tick).value)
         == CurrentDirection(true, direction, NextTick(tick)).value
  {
    DirectionsDistinct();
    assert NextTick(tick) == (tick + 1) % 8;
    AdvanceIn(DirectionOrder, direction, tick);
  }

  /** The order wraps from south-west round to south. */
  lemma SuccessorWraps()
    ensures Successor(DirectionOrder, "south-west") == "south"
  {
    DirectionsDistinct();
    IndexOfDistinct(DirectionOrder, 7);
    assert DirectionOrder[7] == "south-west";
  }

  /** After eight callbacks from the start the sprite faces its starting direction again. */
  lemma FullTurnReturns(autoRotate: bool, direction: string, n: nat)
    ensures CurrentDirection(autoRotate, direction, Ticks(n + |DirectionOrder|))
         == CurrentDirection(autoRotate, direction, Ticks(n))
  {
    TicksCycle(n);
  }

  /**
   * A direction outside the list has index -1: at counter 0 the remainder is
   * -1 and nothing is shown; at counter t in 1..7 the sprite shows entry t-1.
   */
  lemma UnknownDirection(direction: string, tick: int)
    requires direction !in DirectionOrder && 0 <= tick < |DirectionOrder|
    ensures tick == 0 ==> CurrentDirection(true, direction, tick) == None
    ensures tick > 0 ==> CurrentDirection(true, direction, tick) == Some(DirectionOrder[tick - 1])
  {
    DirectionsDistinct();
    UnknownDirectionIn(DirectionOrder, direction, tick);
  }

  /** Every direction in the order is a key of the image table, and no other key is. */
  lemma EveryDirectionHasSprite(key: string)
    ensures SpriteRotation(key).Some? <==> key in DirectionOrder
  {
    var d := DirectionOrder;
    assert d[0] == "south" && d[1] == "south-east" && d[2] == "east" && d[3] == "north-east";
    assert d[4] == "north" && d[5] == "north-west" && d[6] == "west" && d[7] == "south-west";
  }

  /**
   * An image is shown for a known direction at every counter value; for an
   * unknown one it is missing without auto-rotation, and at counter 0 with it.
   */
  lemma ImageShown(autoRotate: bool, direction: string, tick: int)
    requires 0 <= tick < |DirectionOrder|
    ensures direction in DirectionOrder ==> SpriteImage(CurrentDirection(autoRotate, direction, tick)).Some?
    ensures direction !in DirectionOrder && (!autoRotate || tick == 0) ==>
      SpriteImage(CurrentDirection(autoRotate, direction, tick)) == None
  {
    DirectionsDistinct();
    var c := CurrentDirection(autoRotate, direction, tick);
    if direction in DirectionOrder && autoRotate {
      CurrentOfKnown(DirectionOrder, direction, tick);
      StepMod8(IndexOf(DirectionOrder, direction), tick);
      EveryDirectionHasSprite(c.value);
    } else if autoRotate && tick == 0 {
      UnknownDirectionIn(DirectionOrder, direction, tick);
    } else {
      EveryDirectionHasSprite(direction);
    }
  }

  // ---------------------------------------------------------------------------
  // The component's counter

  class Sprite {
    var rotationTick: int

    ghost predicate Valid()
      reads this
    {
      0 <= rotationTick < |DirectionOrder|
    }

    constructor ()
      ensures rotationTick == Ticks(0) && Valid()
    {
      rotationTick := 0;
    }

    /** The interval callback. */
    method Tick()
      requires Valid()
      modifies this
      ensures Valid() && rotationTick == NextTick(old(rotationTick))
      ensures rotationTick == (old(rotationTick) + 1) % |DirectionOrder|
    {
      rotationTick := (rotationTick + 1) % |DirectionOrder|;
    }

    /** The direction shown for the given props. */
    function Facing(autoRotate: bool, direction: string): Option<string>
      reads this
    {
      CurrentDirection(autoRotate, direction, rotationTick)
    }
  }
}
