/**
 * Moving, rotating and scaling a prop on the photo, and the drag session
 * that turns cursor positions into incremental moves.
 */
module DraggableProp {
  import opened Types

  /** `Math.max(0, Math.min(v, hi))`. */
  function Clamp(v: real, hi: real): real
  {
    Max(0.0, Min(v, hi))
  }

  /**
   * The prop after the cursor moved by (`dx`, `dy`): the new top-left
   * corner is clamped so the prop's box stays inside the container, as far
   * as the container is large enough to hold it.
   */
  function Move(p: PhotoProp, dx: real, dy: real, containerWidth: real, containerHeight: real,
                propWidth: real, propHeight: real): (r: PhotoProp)
    ensures r == p.(position := p.position.(x := r.position.x, y := r.position.y))
    ensures r.position.x >= 0.0 && r.position.y >= 0.0
    ensures containerWidth - propWidth >= 0.0 ==> r.position.x <= containerWidth - propWidth
    ensures containerHeight - propHeight >= 0.0 ==> r.position.y <= containerHeight - propHeight
    ensures 0.0 <= p.position.x + dx <= containerWidth - propWidth ==> r.position.x == p.position.x + dx
    ensures 0.0 <= p.position.y + dy <= containerHeight - propHeight ==> r.position.y == p.position.y + dy
    ensures p.position.x + dx < 0.0 ==> r.position.x == 0.0
    ensures p.position.y + dy < 0.0 ==> r.position.y == 0.0
    ensures p.position.x + dx > containerWidth - propWidth ==> r.position.x == Max(0.0, containerWidth - propWidth)
    ensures p.position.y + dy > containerHeight - propHeight ==> r.position.y == Max(0.0, containerHeight - propHeight)
  {
    p.(position := p.position.(x := Clamp(p.position.x + dx, containerWidth - propWidth),
                               y := Clamp(p.position.y + dy, containerHeight - propHeight)))
  }

  /** JavaScript's `Math.trunc` on a real. */
  function Trunc(x: real): int
  {
    if x >= 0.0 then x.Floor else -((-x).Floor)
  }

  /** JavaScript's `Math.trunc` bounds: truncation moves toward zero by less than one. */
  lemma TruncBounds(x: real)
    ensures x >= 0.0 ==> Trunc(x) as real <= x < Trunc(x) as real + 1.0
    ensures x < 0.0 ==> Trunc(x) as real - 1.0 < x <= Trunc(x) as real
  {
  }

  /**
   * JavaScript's `a % 360`: the remainder of truncating division, which
   * keeps the sign of `a`, so it lies in [0, 360) for a non-negative `a`
   * and in (-360, 0] for a negative one, and differs from `a` by whole turns.
   */
  function Rem360(a: real): (r: real)
    ensures a >= 0.0 ==> 0.0 <= r < 360.0
    ensures a < 0.0 ==> -360.0 < r <= 0.0
    ensures (a - r) / 360.0 == ((a - r) / 360.0).Floor as real
  {
    var turns := Trunc(a / 360.0);
    RemWholeTurns(a);
    var r := a - 360.0 * turns as real;
    assert (a - r) / 360.0 == turns as real;
    assert (turns as real).Floor == turns;
    r
  }

  lemma RemWholeTurns(a: real)
    ensures var r := a - 360.0 * Trunc(a / 360.0) as real;
            && (a >= 0.0 ==> 0.0 <= r < 360.0)
            && (a < 0.0 ==> -360.0 < r <= 0.0)
            && (a - r) / 360.0 == Trunc(a / 360.0) as real
  {
    TruncBounds(a / 360.0);
    assert a == 360.0 * (a / 360.0);
  }

  /** `handleRotate(delta)`: only the rotation changes, to `(rotation + delta) % 360`. */
  function Rotate(p: PhotoProp, delta: real): (r: PhotoProp)
    ensures r == p.(position := p.position.(rotation := r.position.rotation))
    ensures r.position.rotation == Rem360(p.position.rotation + delta)
  {
    p.(position := p.position.(rotation := Rem360(p.position.rotation + delta)))
  }

  /** `handleScale(delta)`: only the scale changes, clamped to [0.5, 2]. */
  function Scale(p: PhotoProp, delta: real): (r: PhotoProp)
    ensures r == p.(position := p.position.(scale := r.position.scale))
    ensures 0.5 <= r.position.scale <= 2.0
    ensures 0.5 <= p.position.scale + delta <= 2.0 ==> r.position.scale == p.position.scale + delta
    ensures p.position.scale + delta < 0.5 ==> r.position.scale == 0.5
    ensures p.position.scale + delta > 2.0 ==> r.position.scale == 2.0
  {
    p.(position := p.position.(scale := Max(0.5, Min(2.0, p.position.scale + delta))))
  }

  /** The prop after `n` presses of the rotate button (+90). */
  function RotatePresses(p: PhotoProp, n: nat): PhotoProp
  {
    if n == 0 then p else Rotate(RotatePresses(p, n - 1), 90.0)
  }

  /** One press turns each quarter position into the next, and 270 back to 0. */
  lemma QuarterTurn(p: PhotoProp, k: nat)
    requires k < 4 && p.position.rotation == 90.0 * k as real
    ensures Rotate(p, 90.0).position.rotation == 90.0 * ((k + 1) % 4) as real
  {
    var a := p.position.rotation + 90.0;
    assert a / 360.0 == (k + 1) as real / 4.0;
    if k < 3 {
      assert Trunc(a / 360.0) == 0;
    } else {
      assert Trunc(a / 360.0) == 1;
    }
  }

  /** Starting from 0, the rotate button only ever reaches 0, 90, 180 and 270 degrees, in that cycle. */
  lemma {:induction false} RotatePressesCycle(p: PhotoProp, n: nat)
    requires p.position.rotation == 0.0
    ensures RotatePresses(p, n).position.rotation == 90.0 * (n % 4) as real
  {
    if n > 0 {
      var before := RotatePresses(p, n - 1);
      var k := (n - 1) % 4;
      RotatePressesCycle(p, n - 1);
      QuarterTurn(before, k);
      assert (k + 1) % 4 == n % 4 by { NextQuarter(n - 1); }
    }
  }

  lemma NextQuarter(m: nat)
    ensures (m % 4 + 1) % 4 == (m + 1) % 4
  {
    var q := m / 4;
    assert m == 4 * q + m % 4;
    if m % 4 == 3 {
      assert m + 1 == 4 * (q + 1);
    } else {
      assert m + 1 == 4 * q + (m % 4 + 1);
    }
  }

  /**
   * Two incremental moves that stay inside the bounds land where one move by
   * the summed delta lands.
   */
  lemma IncrementalMoves(p: PhotoProp, dx1: real, dy1: real, dx2: real, dy2: real,
                         cw: real, ch: real, pw: real, ph: real)
    requires 0.0 <= p.position.x + dx1 <= cw - pw && 0.0 <= p.position.y + dy1 <= ch - ph
    requires 0.0 <= p.position.x + dx1 + dx2 <= cw - pw && 0.0 <= p.position.y + dy1 + dy2 <= ch - ph
    ensures Move(Move(p, dx1, dy1, cw, ch, pw, ph), dx2, dy2, cw, ch, pw, ph) == Move(p, dx1 + dx2, dy1 + dy2, cw, ch, pw, ph)
  {
  }

  /** A clamped position is a fixed point: a zero move leaves it where it is. */
  lemma MoveSettles(p: PhotoProp, dx: real, dy: real, cw: real, ch: real, pw: real, ph: real)
    requires cw - pw >= 0.0 && ch - ph >= 0.0
    ensures var q := Move(p, dx, dy, cw, ch, pw, ph); Move(q, 0.0, 0.0, cw, ch, pw, ph) == q
  {
  }

  /**
   * The drag state of one prop: whether a drag is in progress and the last
   * cursor position seen (`dragStart`).
   */
  class DragSession {
    var isDragging: bool
    var startX: real
    var startY: real

    constructor ()
      ensures !isDragging && startX == 0.0 && startY == 0.0
    {
      isDragging, startX, startY := false, 0.0, 0.0;
    }

    /** `handleMouseDown`: begins a drag at the cursor. */
    method MouseDown(clientX: real, clientY: real)
      modifies this
      ensures isDragging && startX == clientX && startY == clientY
    {
      isDragging := true;
      startX, startY := clientX, clientY;
    }

    /**
     * `handleMouseMove`: ignored unless a drag is in progress and both the
     * container and the prop are mounted; otherwise emits the moved prop
     * and makes the cursor the new origin, so deltas are incremental.
     */
    method MouseMove(prop: PhotoProp, clientX: real, clientY: real, containerWidth: real, containerHeight: real,
                     propWidth: real, propHeight: real, mounted: bool) returns (changed: Option<PhotoProp>)
      modifies this
      ensures isDragging == old(isDragging)
      ensures !(old(isDragging) && mounted) ==> changed == None && startX == old(startX) && startY == old(startY)
      ensures old(isDragging) && mounted ==>
                changed == Some(Move(prop, clientX - old(startX), clientY - old(startY),
                                     containerWidth, containerHeight, propWidth, propHeight))
                && startX == clientX && startY == clientY
    {
      if !isDragging || !mounted {
        return None;
      }
      changed := Some(Move(prop, clientX - startX, clientY - startY, containerWidth, containerHeight, propWidth, propHeight));
      startX, startY := clientX, clientY;
    }

    /** `handleMouseUp`: ends the drag. */
    method MouseUp()
      modifies this
      ensures !isDragging && startX == old(startX) && startY == old(startY)
    {
      isDragging := false;
    }
  }
}
