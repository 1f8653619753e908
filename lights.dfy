/**
 * The devices of the light system: the active flag every light and collider carries,
 * the convex collider with its point store, and the point light's mutable scale.
 * C++ inheritance from BaseLight is modelled by composition: each device owns one.
 */
module Lights {
  import opened Geometry
  import opened Colors

  /** BaseLight: the enable/disable state shared by lights and colliders. */
  class BaseLight {
    var active: bool

    /** Devices start active. */
    constructor ()
      ensures active
    {
      active := true;
    }

    method SetActive(b: bool)
      modifies this
      ensures active == b
    {
      active := b;
    }

    method IsActive() returns (b: bool)
      ensures b == active
    {
      b := active;
    }

    /** Flips the flag, so two toggles restore it. */
    method ToggleActive()
      modifies this
      ensures active == !old(active)
    {
      active := !active;
    }
  }

  /**
   * LightCollider: a convex polygon that blocks light. Its sf::ConvexShape is modelled
   * by the point list and the fill colour; transform and bounding box are left out.
   */
  class LightCollider {
    const base: BaseLight
    var points: seq<Vec>
    var lightOverShape: bool
    var color: Color

    /** Both C++ constructors: the default one is `numPoints == 0`. */
    constructor (numPoints: nat)
      ensures fresh(base) && base.active
      ensures points == seq(numPoints, _ => Vec(0.0, 0.0))
      ensures !lightOverShape && color == Black
    {
      base := new BaseLight();
      points := seq(numPoints, _ => Vec(0.0, 0.0));
      lightOverShape := false;
      color := Black;
    }

    /**
     * sf::ConvexShape::setPointCount resizes the point vector: points below the new
     * count are kept, new ones are (0, 0).
     */
    method SetPointCount(numPoints: nat)
      modifies this
      ensures |points| == numPoints
      ensures forall i :: 0 <= i < numPoints && i < |old(points)| ==> points[i] == old(points)[i]
      ensures forall i :: |old(points)| <= i < numPoints ==> points[i] == Vec(0.0, 0.0)
      ensures lightOverShape == old(lightOverShape) && color == old(color)
    {
      if numPoints <= |points| {
        points := points[..numPoints];
      } else {
        points := points + seq(numPoints - |points|, _ => Vec(0.0, 0.0));
      }
    }

    method GetPointCount() returns (n: nat)
      ensures n == |points|
    {
      n := |points|;
    }

    /** Overwrites one point; the index must be below the point count (unchecked in SFML). */
    method SetPoint(index: nat, point: Vec)
      requires index < |points|
      modifies this
      ensures points == old(points)[index := point]
      ensures lightOverShape == old(lightOverShape) && color == old(color)
    {
      points := points[index := point];
    }

    method GetPoint(index: nat) returns (p: Vec)
      requires index < |points|
      ensures p == points[index]
    {
      p := points[index];
    }

    method GetLightOverShape() returns (los: bool)
      ensures los == lightOverShape
    {
      los := lightOverShape;
    }

    method SetLightOverShape(los: bool)
      modifies this
      ensures lightOverShape == los
      ensures points == old(points) && color == old(color)
    {
      lightOverShape := los;
    }

    method SetColor(c: Color)
      modifies this
      ensures color == c
      ensures points == old(points) && lightOverShape == old(lightOverShape)
    {
      color := c;
    }
  }

  /**
   * PointLight: only the state the modelled operations touch, the sprite scale that
   * the flicker affectors change in place.
   */
  class PointLight {
    const base: BaseLight
    var scale: Vec

    /** An sf::Sprite starts at scale (1, 1). */
    constructor ()
      ensures fresh(base) && base.active
      ensures scale == Vec(1.0, 1.0)
    {
      base := new BaseLight();
      scale := Vec(1.0, 1.0);
    }
  }
}
