/**
 * The LightSystem state the modelled operations touch: the ambient colour with its
 * per-channel interpolation carries, and the collider point setters.
 */
module LightSystems {
  import opened Geometry
  import opened Colors
  import opened Lights

  /** An sf::Vector3f: one carry per colour channel. */
  datatype Vec3 = Vec3(x: real, y: real, z: real)

  /** One colour channel under interpolation: its value and its fractional carry. */
  datatype Channel = Channel(value: Byte, carry: real)

  /**
   * One interpolation step of one channel (Light.cpp:876-886): the carry gains the
   * distance to the target divided by the strength; passing +1 or -1 moves the value one
   * unit (with 8-bit wrap-around) and takes the unit back out of the carry.
   */
  function ChannelStep(c: Channel, target: Byte, strength: real): (r: Channel)
    requires strength != 0.0
    ensures r.value == c.value || r.value == Increment(c.value) || r.value == Decrement(c.value)
  {
    var carry := c.carry + (target - c.value) as real / strength;
    if carry > 1.0 then Channel(Increment(c.value), carry - 1.0)
    else if carry < -1.0 then Channel(Decrement(c.value), carry + 1.0)
    else Channel(c.value, carry)
  }

  function Abs(x: int): nat {
    if x < 0 then -x else x
  }

  /** The distance of a channel to its target. */
  function Distance(c: Channel, target: Byte): nat {
    Abs(target - c.value)
  }

  /** `value` lies between `from` and `to`, in either order. */
  predicate Between(from: int, value: int, to: int) {
    (from <= value <= to) || (to <= value <= from)
  }

  /** A distance no larger than the strength adds at most one unit to the carry, with its sign. */
  lemma RatioBounds(d: int, strength: real)
    requires 0.0 < strength && Abs(d) as real <= strength
    ensures -1.0 <= d as real / strength <= 1.0
    ensures d > 0 ==> d as real / strength > 0.0
    ensures d < 0 ==> d as real / strength < 0.0
    ensures d == 0 ==> d as real / strength == 0.0
  {
    var q := d as real / strength;
    assert q * strength == d as real;
  }

  /**
   * While the strength is at least the distance to the target, one step keeps the carry in
   * [-1, 1], moves the value only toward the target and never past it (so no 8-bit wrap),
   * leaves a channel at its target unchanged, and moves exactly when the carry passes
   * +1 or -1, then bringing the distance down by exactly one.
   */
  lemma ChannelStepApproaches(c: Channel, target: Byte, strength: real)
    requires 0.0 < strength && Distance(c, target) as real <= strength
    requires -1.0 <= c.carry <= 1.0
    ensures var r := ChannelStep(c, target, strength);
      var passed := c.carry + (target - c.value) as real / strength;
      && -1.0 <= r.carry <= 1.0
      && Between(c.value, r.value, target)
      && (c.value == target ==> r == c)
      && (r.value != c.value <==> passed > 1.0 || passed < -1.0)
      && (r.value != c.value ==> Distance(r, target) == Distance(c, target) - 1)
  {
    RatioBounds(target - c.value, strength);
  }

  /** `n` calls with the same target and strength. */
  function ChannelRun(c: Channel, target: Byte, strength: real, n: nat): Channel
    requires strength != 0.0
    decreases n
  {
    if n == 0 then c else ChannelRun(ChannelStep(c, target, strength), target, strength, n - 1)
  }

  /**
   * Repeated interpolation is a smooth approach: with the strength at least the starting
   * distance, every later value lies between the start and the target, the distance never
   * grows and the carry stays in [-1, 1].
   */
  lemma {:induction false} ChannelRunApproaches(c: Channel, target: Byte, strength: real, n: nat)
    requires 0.0 < strength && Distance(c, target) as real <= strength
    requires -1.0 <= c.carry <= 1.0
    ensures var r := ChannelRun(c, target, strength, n);
      && Between(c.value, r.value, target)
      && Distance(r, target) <= Distance(c, target)
      && -1.0 <= r.carry <= 1.0
    decreases n
  {
    if n > 0 {
      var next := ChannelStep(c, target, strength);
      ChannelStepApproaches(c, target, strength);
      ChannelRunApproaches(next, target, strength, n - 1);
    }
  }

  /** LightSystem (Light.h:276-376), reduced to the ambient colour state. */
  class LightSystem {
    var ambient: Color
    var colorShift: Vec3

    /** Light.cpp:727: white ambient light and no carry. */
    constructor ()
      ensures ambient == White && colorShift == Vec3(0.0, 0.0, 0.0)
    {
      ambient := White;
      colorShift := Vec3(0.0, 0.0, 0.0);
    }

    /** Light.cpp:868-871. */
    method SetAmbientColor(color: Color)
      modifies this
      ensures ambient == color && colorShift == old(colorShift)
    {
      ambient := color;
    }

    /**
     * LightSystem::interpolateAmbientLight (Light.cpp:873-909): each of red, green and
     * blue takes one channel step toward `color` with its own carry; alpha is untouched.
     */
    method InterpolateAmbientLight(color: Color, strength: real)
      requires strength != 0.0
      modifies this
      ensures Channel(ambient.r, colorShift.x) == ChannelStep(Channel(old(ambient.r), old(colorShift.x)), color.r, strength)
      ensures Channel(ambient.g, colorShift.y) == ChannelStep(Channel(old(ambient.g), old(colorShift.y)), color.g, strength)
      ensures Channel(ambient.b, colorShift.z) == ChannelStep(Channel(old(ambient.b), old(colorShift.z)), color.b, strength)
      ensures ambient.a == old(ambient.a)
    {
      colorShift := colorShift.(x := colorShift.x + (color.r - ambient.r) as real / strength);
      if colorShift.x > 1.0 {
        colorShift := colorShift.(x := colorShift.x - 1.0);
        ambient := ambient.(r := Increment(ambient.r));
      } else if colorShift.x < -1.0 {
        colorShift := colorShift.(x := colorShift.x + 1.0);
        ambient := ambient.(r := Decrement(ambient.r));
      }
      colorShift := colorShift.(y := colorShift.y + (color.g - ambient.g) as real / strength);
      if colorShift.y > 1.0 {
        colorShift := colorShift.(y := colorShift.y - 1.0);
        ambient := ambient.(g := Increment(ambient.g));
      } else if colorShift.y < -1.0 {
        colorShift := colorShift.(y := colorShift.y + 1.0);
        ambient := ambient.(g := Decrement(ambient.g));
      }
      colorShift := colorShift.(z := colorShift.z + (color.b - ambient.b) as real / strength);
      if colorShift.z > 1.0 {
        colorShift := colorShift.(z := colorShift.z - 1.0);
        ambient := ambient.(b := Increment(ambient.b));
      } else if colorShift.z < -1.0 {
        colorShift := colorShift.(z := colorShift.z + 1.0);
        ambient := ambient.(b := Decrement(ambient.b));
      }
    }

    /** LightSystem::setPoint (Light.cpp:951-955) on the entity's collider. */
    method SetPoint(collider: LightCollider, point: Vec, i: nat)
      requires i < |collider.points|
      modifies collider
      ensures collider.points == old(collider.points)[i := point]
      ensures collider.lightOverShape == old(collider.lightOverShape) && collider.color == old(collider.color)
    {
      collider.SetPoint(i, point);
    }

    /**
     * LightSystem::setPoints (Light.cpp:964-970): resizes the collider to the new count and
     * writes every point, so the collider then holds exactly `points`.
     */
    method SetPoints(collider: LightCollider, points: seq<Vec>)
      modifies collider
      ensures collider.points == points
      ensures collider.lightOverShape == old(collider.lightOverShape) && collider.color == old(collider.color)
    {
      collider.SetPointCount(|points|);
      var i := 0;
      while i < |points|
        invariant 0 <= i <= |points|
        invariant |collider.points| == |points|
        invariant collider.points[..i] == points[..i]
        invariant collider.lightOverShape == old(collider.lightOverShape) && collider.color == old(collider.color)
      {
        collider.SetPoint(i, points[i]);
        i := i + 1;
      }
      assert collider.points == collider.points[..i];
    }
  }
}
