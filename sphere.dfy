/** Sphere meshes: the segment-count level of detail chosen from a planet's
    radius, and the cache that shares one geometry per (radius, segments). */
module Sphere {

  datatype Segments = Segments(w: nat, h: nat)

  /** sphereSegmentsForRadius: four tiers, split at radii 10, 12 and 14. */
  function SphereSegmentsForRadius(r: real): (s: Segments)
    ensures 56 <= s.w <= 96 && 40 <= s.h <= 64 && s.h < s.w
  {
    if r <= 10.0 then Segments(56, 40)
    else if r <= 12.0 then Segments(72, 52)
    else if r <= 14.0 then Segments(88, 60)
    else Segments(96, 64)
  }

  /** A larger sphere never gets fewer segments in either direction. */
  lemma SegmentsMonotone(r1: real, r2: real)
    requires r1 <= r2
    ensures SphereSegmentsForRadius(r1).w <= SphereSegmentsForRadius(r2).w
    ensures SphereSegmentsForRadius(r1).h <= SphereSegmentsForRadius(r2).h
  {
  }

  /** A sphere mesh; its construction parameters never change. */
  class Geometry {
    const radius: real
    const widthSegments: int
    const heightSegments: int

    constructor (radius: real, w: int, h: int)
      ensures this.radius == radius && widthSegments == w && heightSegments == h
    {
      this.radius := radius;
      widthSegments := w;
      heightSegments := h;
    }
  }

  /** The cache key `${radius}|${w}|${h}`. */
  datatype Key = Key(radius: real, w: int, h: int)

  /** The module-level Map from key to geometry. */
  class SphereGeometryCache {
    var cache: map<Key, Geometry>

    /** Every cached geometry was built from its own key. */
    ghost predicate Valid()
      reads this
    {
      forall k :: k in cache ==>
        cache[k].radius == k.radius && cache[k].widthSegments == k.w && cache[k].heightSegments == k.h
    }

    constructor ()
      ensures Valid() && cache == map[]
    {
      cache := map[];
    }

    /** getSphereGeometry: the cached geometry for the key when there is one,
        otherwise a new geometry that is stored under the key. Either way the
        result has the requested radius and segment counts, and later calls
        with the same key return the same object. */
    method GetSphereGeometry(radius: real, w: int, h: int) returns (g: Geometry)
      requires Valid()
      modifies this
      ensures Valid()
      ensures g.radius == radius && g.widthSegments == w && g.heightSegments == h
      ensures Key(radius, w, h) in old(cache) ==> g == old(cache)[Key(radius, w, h)] && cache == old(cache)
      ensures Key(radius, w, h) !in old(cache) ==> fresh(g) && cache == old(cache)[Key(radius, w, h) := g]
      ensures Key(radius, w, h) in cache && cache[Key(radius, w, h)] == g
    {
      var key := Key(radius, w, h);
      if key in cache {
        g := cache[key];
      } else {
        g := new Geometry(radius, w, h);
        cache := cache[key := g];
      }
    }
  }
}
