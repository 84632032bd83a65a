/** Pointer handling over a moon with link pills: the sprite's on-screen
    rectangle, the mapping of the pointer into overlay canvas pixels, the
    padded pill hit-test shared by click and hover, the link a click opens
    and the cursor shown. Projection to the screen stays abstract: the
    projected centre, right and up points of the sprite are inputs. */
module Pointer {
  import opened Numeric
  import opened Wrappers
  import opened Overlay

  /** The sprite's screen rectangle in canvas-relative pixels. */
  datatype Rect = Rect(left: real, top: real, width: real, height: real)

  /** The rectangle from the projected centre (cx, cy), the projected
      right-edge x and the projected top-edge y: half sizes are the absolute
      offsets from the centre. */
  function SpriteRect(cx: real, cy: real, rightX: real, upY: real): (r: Rect)
    ensures r.width >= 0.0 && r.height >= 0.0
    ensures r.left + r.width / 2.0 == cx && r.top + r.height / 2.0 == cy
  {
    var hw, hh := Abs(rightX - cx), Abs(upY - cy);
    Rect(cx - hw, cy - hh, hw * 2.0, hh * 2.0)
  }

  /** The pointer (px, py) is on the rectangle, edges included. */
  predicate InRect(r: Rect, px: real, py: real)
  {
    !(px < r.left || px > r.left + r.width || py < r.top || py > r.top + r.height)
  }

  /** The pointer's x mapped into the overlay canvas: its fraction of the
      rectangle's width (read as at least 1) times canvasSize. */
  function CanvasX(r: Rect, px: real, canvasSize: real): real
  {
    (px - r.left) / Max(1.0, r.width) * canvasSize
  }

  /** The pointer's y mapped into the overlay canvas, likewise. */
  function CanvasY(r: Rect, py: real, canvasSize: real): real
  {
    (py - r.top) / Max(1.0, r.height) * canvasSize
  }

  /** The hit slop around each pill: max(2, round(canvasSize * 0.012)). */
  function Pad(canvasSize: real): (p: int)
    ensures p >= 2
    ensures canvasSize <= 208.0 ==> p == 2
  {
    if Round(canvasSize * 0.012) >= 2 then Round(canvasSize * 0.012) else 2
  }

  /** The canvas point is on pill h widened by pad on every side. */
  predicate HitsPill(h: Hotspot, pad: int, cx: real, cy: real)
  {
    && cx >= (h.x - pad) as real && cx <= (h.x + h.w + pad) as real
    && cy >= (h.y - pad) as real && cy <= (h.y + h.h + pad) as real
  }

  /** The first pill at index i or later that the canvas point hits. */
  function FirstHitFrom(hs: seq<Hotspot>, pad: int, cx: real, cy: real, i: nat): Option<nat>
    decreases |hs| - i
  {
    if i >= |hs| then None
    else if HitsPill(hs[i], pad, cx, cy) then Some(i)
    else FirstHitFrom(hs, pad, cx, cy, i + 1)
  }

  /** FirstHitFrom finds the earliest pill hit from i on, and None exactly
      when no pill from i on is hit. */
  lemma {:induction false} FirstHitFromFinds(hs: seq<Hotspot>, pad: int, cx: real, cy: real, i: nat)
    ensures var hit := FirstHitFrom(hs, pad, cx, cy, i);
      && (hit.Some? ==> i <= hit.value < |hs| && HitsPill(hs[hit.value], pad, cx, cy)
                        && forall j :: i <= j < hit.value ==> !HitsPill(hs[j], pad, cx, cy))
      && (hit.None? <==> forall j :: i <= j < |hs| ==> !HitsPill(hs[j], pad, cx, cy))
    decreases |hs| - i
  {
    if i < |hs| && !HitsPill(hs[i], pad, cx, cy) {
      FirstHitFromFinds(hs, pad, cx, cy, i + 1);
    }
  }

  /** The hit-test loop over the hotspots, stopping at the first pill hit. */
  method FirstHit(hs: seq<Hotspot>, pad: int, cx: real, cy: real) returns (hit: Option<nat>)
    ensures hit == FirstHitFrom(hs, pad, cx, cy, 0)
  {
    var i := 0;
    while i < |hs|
      invariant 0 <= i <= |hs|
      invariant FirstHitFrom(hs, pad, cx, cy, 0) == FirstHitFrom(hs, pad, cx, cy, i)
    {
      if HitsPill(hs[i], pad, cx, cy) {
        return Some(i);
      }
      i := i + 1;
    }
    return None;
  }

  /** The pill hit by the pointer: none when the pointer is off the
      sprite's rectangle, otherwise the first pill hit in canvas pixels. */
  function PillUnder(hs: seq<Hotspot>, canvasSize: real, r: Rect, px: real, py: real): Option<nat>
  {
    if !InRect(r, px, py) then None
    else
      FirstHitFrom(hs, Pad(canvasSize), CanvasX(r, px, canvasSize), CanvasY(r, py, canvasSize), 0)
  }

  /** The link of a pill hit: its href, with a missing or empty href read as none. */
  function LinkOf(hs: seq<Hotspot>, hit: Option<nat>): Option<string>
  {
    if hit.Some? && hit.value < |hs| && hs[hit.value].href.Some? && hs[hit.value].href.value != "" then hs[hit.value].href
    else None
  }

  /** openHotspotLinkIfAny: null off the rectangle; otherwise the href of
      the first pill hit (null when it is empty or missing), null when none is hit. */
  method HotspotLink(hs: seq<Hotspot>, canvasSize: real, r: Rect, px: real, py: real) returns (link: Option<string>)
    ensures link == LinkOf(hs, PillUnder(hs, canvasSize, r, px, py))
  {
    if !InRect(r, px, py) {
      return None;
    }
    var cx, cy := CanvasX(r, px, canvasSize), CanvasY(r, py, canvasSize);
    var hit := FirstHit(hs, Pad(canvasSize), cx, cy);
    assert hit == PillUnder(hs, canvasSize, r, px, py);
    FirstHitFromFinds(hs, Pad(canvasSize), cx, cy, 0);
    if hit.Some? && hs[hit.value].href.Some? && hs[hit.value].href.value != "" {
      link := hs[hit.value].href;
    } else {
      link := None;
    }
  }

  /** The hover pass: pillHoverIndex, -1 or the index of the pill under the pointer. */
  method PillHoverIndex(hs: seq<Hotspot>, canvasSize: real, r: Rect, px: real, py: real) returns (idx: int)
    ensures idx == (var hit := PillUnder(hs, canvasSize, r, px, py); if hit.Some? then hit.value as int else -1)
  {
    idx := -1;
    if InRect(r, px, py) {
      var cx, cy := CanvasX(r, px, canvasSize), CanvasY(r, py, canvasSize);
      var hit := FirstHit(hs, Pad(canvasSize), cx, cy);
      if hit.Some? {
        idx := hit.value;
      }
    }
  }

  /** The pill under the pointer is on the rectangle, is hit with the
      padded test in canvas pixels, and no earlier pill is; there is none
      exactly when the pointer is off the rectangle or misses every pill. */
  lemma PillUnderIsFirstHit(hs: seq<Hotspot>, canvasSize: real, r: Rect, px: real, py: real)
    ensures var hit := PillUnder(hs, canvasSize, r, px, py);
      var cx, cy := CanvasX(r, px, canvasSize), CanvasY(r, py, canvasSize);
      var pad := Pad(canvasSize);
      && (hit.Some? ==> InRect(r, px, py) && hit.value < |hs| && HitsPill(hs[hit.value], pad, cx, cy)
                        && forall j :: 0 <= j < hit.value ==> !HitsPill(hs[j], pad, cx, cy))
      && (hit.None? <==> !InRect(r, px, py) || forall j :: 0 <= j < |hs| ==> !HitsPill(hs[j], pad, cx, cy))
  {
    var cx, cy := CanvasX(r, px, canvasSize), CanvasY(r, py, canvasSize);
    FirstHitFromFinds(hs, Pad(canvasSize), cx, cy, 0);
  }

  /** Click and hover agree: a link the click opens is the non-empty href
      of the pill the hover pass highlights, and a pointer off every pill
      opens nothing and highlights nothing. */
  lemma ClickAgreesWithHover(hs: seq<Hotspot>, canvasSize: real, r: Rect, px: real, py: real)
    ensures var hit := PillUnder(hs, canvasSize, r, px, py);
      var link := LinkOf(hs, hit);
      && (link.Some? ==> hit.Some? && hit.value < |hs| && hs[hit.value].href == link && link.value != "")
      && (hit.None? ==> link.None?)
  {
  }

  /** What the sprite under a click holds: its pill hotspots, the overlay
      canvas size when it is a number, and its own default href. */
  datatype Target = Target(hotspots: seq<Hotspot>, canvasSize: Option<real>, href: Option<string>)

  /** What a click does. */
  datatype ClickAction = OpenLink(url: string) | NoAction

  /** The click handler once the ray has hit a sprite: with pills and a
      positive canvas size, the link of the pill under the pointer if any;
      otherwise the sprite's own href, but only for a sprite with no pills
      (pills disable the default link). */
  method Click(t: Target, r: Rect, px: real, py: real) returns (a: ClickAction)
    ensures t.hotspots != [] ==>
      var pill := if t.canvasSize.Some? && t.canvasSize.value > 0.0
                  then LinkOf(t.hotspots, PillUnder(t.hotspots, t.canvasSize.value, r, px, py)) else None;
      a == (if pill.Some? then OpenLink(pill.value) else NoAction)
    ensures t.hotspots == [] ==>
      a == (if t.href.Some? && t.href.value != "" then OpenLink(t.href.value) else NoAction)
  {
    if t.hotspots != [] && t.canvasSize.Some? && t.canvasSize.value > 0.0 {
      var link := HotspotLink(t.hotspots, t.canvasSize.value, r, px, py);
      if link.Some? {
        return OpenLink(link.value);
      }
    }
    if t.hotspots == [] && t.href.Some? && t.href.value != "" {
      return OpenLink(t.href.value);
    }
    return NoAction;
  }

  /** A click on a sprite with pills opens only a non-empty pill link, and
      opens nothing when the pointer is off the sprite's rectangle or the
      canvas size is not positive. */
  lemma ClickWithPills(t: Target, r: Rect, px: real, py: real, a: ClickAction)
    requires t.hotspots != []
    requires a == (var pill := if t.canvasSize.Some? && t.canvasSize.value > 0.0
                  then LinkOf(t.hotspots, PillUnder(t.hotspots, t.canvasSize.value, r, px, py)) else None;
                  if pill.Some? then OpenLink(pill.value) else NoAction)
    ensures a.OpenLink? ==> a.url != "" && exists i :: 0 <= i < |t.hotspots| && t.hotspots[i].href == Some(a.url)
    ensures !InRect(r, px, py) || t.canvasSize.None? || t.canvasSize.value <= 0.0 ==> a == NoAction
  {
    if a.OpenLink? {
      var hit := PillUnder(t.hotspots, t.canvasSize.value, r, px, py);
      assert t.hotspots[hit.value].href == Some(a.url);
    }
  }

  datatype Cursor = PointerCursor | DefaultCursor

  /** The cursor: over a sprite with pills, the hand only on a pill; over
      a sprite without pills, the hand; over nothing, the default. */
  function CursorFor(hovered: Option<Target>, pillHover: int): (c: Cursor)
    ensures hovered.None? ==> c == DefaultCursor
    ensures hovered.Some? && hovered.value.hotspots == [] ==> c == PointerCursor
    ensures hovered.Some? && hovered.value.hotspots != [] ==> (c == PointerCursor <==> pillHover >= 0)
  {
    var hasPills := hovered.Some? && hovered.value.hotspots != [];
    if hasPills then (if pillHover >= 0 then PointerCursor else DefaultCursor)
    else if hovered.Some? then PointerCursor else DefaultCursor
  }

}
