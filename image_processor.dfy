/**
 * Thumbnail sizing, the "cover" placement of a photo under an overlay and
 * the left-to-right fold over the enabled overlays.  Canvas drawing and
 * JPEG encoding are not modelled: a drawn canvas is an `Image` whose
 * content records what was drawn where.
 */
module ImageProcessor {
  import opened Types

  const DefaultMaxWidth := 400
  const DefaultMaxHeight := 600

  function Abs(n: int): nat { if n < 0 then -n else n }

  /**
   * `Math.round(n / d)` for a non-negative quotient: the nearest integer,
   * halves rounded up.
   */
  function RoundDiv(n: int, d: int): (r: int)
    requires n >= 0 && d > 0
    ensures r >= 0
    ensures 2 * d * r <= 2 * n + d < 2 * d * r + 2 * d
    ensures 2 * Abs(r * d - n) <= d
  {
    var q := (2 * n + d) / (2 * d);
    assert 2 * d * q <= 2 * n + d < 2 * d * q + 2 * d;
    q
  }

  /**
   * The canvas size `createThumbnail` computes: only the longer axis (width
   * when strictly wider than tall, height otherwise) is clamped to its bound,
   * and the other axis is scaled by the same factor and rounded.
   */
  method ThumbnailSize(w: int, h: int, maxWidth: nat, maxHeight: nat) returns (width: int, height: int)
    requires w > 0 && h > 0
    ensures w > h && w > maxWidth ==> width == maxWidth && height == RoundDiv(h * maxWidth, w)
    ensures w <= h && h > maxHeight ==> height == maxHeight && width == RoundDiv(w * maxHeight, h)
    ensures (w > h && w <= maxWidth) || (w <= h && h <= maxHeight) ==> width == w && height == h
    ensures 0 <= width <= w && 0 <= height <= h
    ensures w > h ==> width <= maxWidth
    ensures w <= h ==> height <= maxHeight
    ensures 2 * Abs(width * h - height * w) <= (if w > h then w else h)
  {
    width, height := w, h;
    if width > height {
      if width > maxWidth {
        height := RoundDiv(height * maxWidth, width);
        width := maxWidth;
        ShrinkBound(h, maxWidth, w);
      }
    } else {
      if height > maxHeight {
        width := RoundDiv(width * maxHeight, height);
        height := maxHeight;
        ShrinkBound(w, maxHeight, h);
      }
    }
  }

  /** Scaling `a` by `m / d` with `m < d` and rounding never exceeds `a`. */
  lemma ShrinkBound(a: int, m: nat, d: int)
    requires a > 0 && d > 0 && m < d
    ensures a * m >= 0 && RoundDiv(a * m, d) <= a
  {
    var n := a * m;
    assert n >= 0 by { MulNonNegative(a, m); }
    var r := RoundDiv(n, d);
    var ad := a * d;
    assert n + a <= ad by {
      MulMonotoneInt(a, m + 1, d);
      OneMore(a, m);
    }
    if r > a {
      var bound := 2 * d * r;
      assert bound <= 2 * n + d;
      assert 2 * ad + 2 * d <= bound by {
        MulMonotoneInt(2 * d, a + 1, r);
        TwiceOneMore(d, a);
      }
      assert false;
    }
  }

  lemma OneMore(a: int, m: int)
    ensures a * (m + 1) == a * m + a
  {
  }

  lemma TwiceOneMore(d: int, a: int)
    ensures 2 * d * (a + 1) == 2 * (a * d) + 2 * d
  {
  }

  lemma MulNonNegative(a: int, b: int)
    requires a >= 0 && b >= 0
    ensures a * b >= 0
  {
  }

  lemma MulMonotoneInt(a: int, b: int, c: int)
    requires a > 0 && b <= c
    ensures a * b <= a * c
  {
  }

  /**
   * `t` is `img` redrawn at the size `createThumbnail` computes for the
   * bounds: the longer axis clamped to its bound and the other scaled by the
   * same factor and rounded, or the original size when it is within bounds.
   */
  predicate ThumbnailOf(img: Image, t: Image, maxWidth: nat, maxHeight: nat)
  {
    && img.width > 0 && img.height > 0
    && t.content == Resized(img.content)
    && 0 <= t.width <= img.width && 0 <= t.height <= img.height
    && (img.width > img.height ==> t.width <= maxWidth)
    && (img.width <= img.height ==> t.height <= maxHeight)
    && (img.width > img.height && img.width > maxWidth ==>
          t.width == maxWidth && t.height == RoundDiv(img.height * maxWidth, img.width))
    && (img.width <= img.height && img.height > maxHeight ==>
          t.height == maxHeight && t.width == RoundDiv(img.width * maxHeight, img.height))
    && ((img.width > img.height && img.width <= maxWidth) || (img.width <= img.height && img.height <= maxHeight) ==>
          t.width == img.width && t.height == img.height)
    && 2 * Abs(t.width * img.height - t.height * img.width) <= (if img.width > img.height then img.width else img.height)
  }

  /**
   * `createThumbnail`: rejects when the image does not load or no 2D canvas
   * context is available, and otherwise resolves with the image redrawn at
   * the size `ThumbnailSize` computes.
   */
  method CreateThumbnail(img: Image, maxWidth: nat, maxHeight: nat, canvasOk: bool) returns (r: Outcome<Image>)
    ensures r.Ok? <==> Loads(img) && canvasOk
    ensures !Loads(img) ==> r == Err("Failed to load image")
    ensures Loads(img) && !canvasOk ==> r == Err("Failed to get canvas context")
    ensures r.Ok? ==> ThumbnailOf(img, r.value, maxWidth, maxHeight)
  {
    if !Loads(img) {
      return Err("Failed to load image");
    }
    var width, height := ThumbnailSize(img.width, img.height, maxWidth, maxHeight);
    if !canvasOk {
      return Err("Failed to get canvas context");
    }
    r := Ok(Image(Resized(img.content), width, height));
  }

  /**
   * Where `processImage` draws a `iw`×`ih` photo on a `cw`×`ch` canvas: the
   * smallest uniform scale that covers the canvas, centred.
   */
  function CoverFit(cw: real, ch: real, iw: real, ih: real): (p: Placement)
    requires cw > 0.0 && ch > 0.0 && iw > 0.0 && ih > 0.0
    ensures p.width >= cw && p.height >= ch
    ensures p.width == cw || p.height == ch
    ensures p.width * ih == p.height * iw
    ensures p.x <= 0.0 && p.y <= 0.0
    ensures p.x + p.width / 2.0 == cw / 2.0 && p.y + p.height / 2.0 == ch / 2.0
  {
    var scale := Max(cw / iw, ch / ih);
    assert iw * (cw / iw) == cw && ih * (ch / ih) == ch;
    assert scale >= cw / iw && scale >= ch / ih;
    assert iw * scale >= cw by { MulMonotone(iw, cw / iw, scale); }
    assert ih * scale >= ch by { MulMonotone(ih, ch / ih, scale); }
    var sw, sh := iw * scale, ih * scale;
    Placement((cw - sw) / 2.0, (ch - sh) / 2.0, sw, sh)
  }

  lemma MulMonotone(a: real, b: real, c: real)
    requires a > 0.0 && b <= c
    ensures a * b <= a * c
  {
  }

  /**
   * `processImage`: loads the working image and the overlay asset, makes a
   * canvas of the overlay's size, draws the photo with `CoverFit` and the
   * overlay over the whole canvas.  Assets the loader cannot resolve are
   * those missing from `assets`.
   */
  function ProcessImage(base: Image, overlayUrl: string, assets: map<string, Image>, canvasOk: bool): (r: Outcome<Image>)
    ensures r.Ok? <==> Loads(base) && overlayUrl in assets && Loads(assets[overlayUrl]) && canvasOk
    ensures !Loads(base) ==> r == Err("Failed to load original image")
    ensures r.Ok? ==> Loads(r.value)
    ensures r.Ok? ==> r.value.width == assets[overlayUrl].width && r.value.height == assets[overlayUrl].height
    ensures r.Ok? ==> r.value.content.Composite? && r.value.content.base == base.content
                      && r.value.content.overlay == assets[overlayUrl].content
  {
    if !Loads(base) then Err("Failed to load original image")
    else if overlayUrl !in assets || !Loads(assets[overlayUrl]) then Err("Failed to load overlay image")
    else if !canvasOk then Err("Failed to get canvas context")
    else
      var overlay := assets[overlayUrl];
      var placement := CoverFit(overlay.width as real, overlay.height as real, base.width as real, base.height as real);
      Ok(Image(Composite(base.content, overlay.content, placement), overlay.width, overlay.height))
  }

  /** The overlays with `enabled` set, in list order. */
  function Enabled(overlays: seq<Overlay>): (r: seq<Overlay>)
    ensures |r| <= |overlays|
    ensures forall o :: o in r <==> o in overlays && o.enabled
    ensures (forall i :: 0 <= i < |overlays| ==> overlays[i].enabled) ==> r == overlays
  {
    if overlays == [] then []
    else
      assert overlays == [overlays[0]] + overlays[1..];
      (if overlays[0].enabled then [overlays[0]] else []) + Enabled(overlays[1..])
  }

  /** Filtering keeps list order and multiplicity: it distributes over concatenation. */
  lemma {:induction false} EnabledAppend(a: seq<Overlay>, b: seq<Overlay>)
    ensures Enabled(a + b) == Enabled(a) + Enabled(b)
  {
    if a == [] {
      assert a + b == b;
    } else {
      assert (a + b)[0] == a[0] && (a + b)[1..] == a[1..] + b;
      EnabledAppend(a[1..], b);
    }
  }

  /** One step of the fold: the composite if it succeeds, the working image otherwise. */
  function ApplyOverlay(img: Image, overlay: Overlay, assets: map<string, Image>, canvasOk: bool): Image
  {
    match ProcessImage(img, overlay.url, assets, canvasOk)
    case Ok(next) => next
    case Err(_) => img
  }

  /** Each overlay applied to the result of the previous ones. */
  function ApplyAll(img: Image, overlays: seq<Overlay>, assets: map<string, Image>, canvasOk: bool): Image
    decreases |overlays|
  {
    if overlays == [] then img
    else ApplyAll(ApplyOverlay(img, overlays[0], assets, canvasOk), overlays[1..], assets, canvasOk)
  }

  /**
   * `processImageWithOverlays`: folds `processImage` over the enabled
   * overlays, skipping any that fails.  The outer fallback to the original
   * image cannot fire here, because filtering a list of overlay records
   * does not throw.
   */
  method ProcessImageWithOverlays(original: Image, overlays: seq<Overlay>, assets: map<string, Image>, canvasOk: bool)
    returns (processed: Image)
    ensures processed == ApplyAll(original, Enabled(overlays), assets, canvasOk)
  {
    processed := original;
    var enabled := Enabled(overlays);
    var i := 0;
    while i < |enabled|
      invariant 0 <= i <= |enabled|
      invariant ApplyAll(processed, enabled[i..], assets, canvasOk) == ApplyAll(original, enabled, assets, canvasOk)
    {
      assert enabled[i..][0] == enabled[i] && enabled[i..][1..] == enabled[i + 1..];
      var step := ProcessImage(processed, enabled[i].url, assets, canvasOk);
      if step.Ok? {
        processed := step.value;
      }
      i := i + 1;
    }
  }

  /** The fold runs left to right: a split list is the second part applied to the first part's result. */
  lemma {:induction false} ApplyAllAppend(img: Image, a: seq<Overlay>, b: seq<Overlay>, assets: map<string, Image>, canvasOk: bool)
    ensures ApplyAll(img, a + b, assets, canvasOk) == ApplyAll(ApplyAll(img, a, assets, canvasOk), b, assets, canvasOk)
    decreases |a|
  {
    if a == [] {
      assert a + b == b;
    } else {
      assert (a + b)[0] == a[0] && (a + b)[1..] == a[1..] + b;
      ApplyAllAppend(ApplyOverlay(img, a[0], assets, canvasOk), a[1..], b, assets, canvasOk);
    }
  }

  /** With no overlay enabled the original image comes back unchanged. */
  lemma {:induction false} NoEnabledOverlays(img: Image, overlays: seq<Overlay>, assets: map<string, Image>, canvasOk: bool)
    requires forall i :: 0 <= i < |overlays| ==> !overlays[i].enabled
    ensures ApplyAll(img, Enabled(overlays), assets, canvasOk) == img
  {
    if overlays != [] {
      NoEnabledOverlays(img, overlays[1..], assets, canvasOk);
    }
  }

  /** Overlays that fail are skipped: when every one fails, the image carries through unchanged. */
  lemma {:induction false} AllFailing(img: Image, overlays: seq<Overlay>, assets: map<string, Image>, canvasOk: bool)
    requires forall i :: 0 <= i < |overlays| ==> ProcessImage(img, overlays[i].url, assets, canvasOk).Err?
    ensures ApplyAll(img, overlays, assets, canvasOk) == img
    decreases |overlays|
  {
    if overlays != [] {
      AllFailing(img, overlays[1..], assets, canvasOk);
    }
  }

  /** The fold never turns a loadable image into one that does not load. */
  lemma {:induction false} ApplyAllLoads(img: Image, overlays: seq<Overlay>, assets: map<string, Image>, canvasOk: bool)
    requires Loads(img)
    ensures Loads(ApplyAll(img, overlays, assets, canvasOk))
    decreases |overlays|
  {
    if overlays != [] {
      ApplyAllLoads(ApplyOverlay(img, overlays[0], assets, canvasOk), overlays[1..], assets, canvasOk);
    }
  }

  /**
   * Unless every overlay was skipped, the result has the size of the asset
   * of the last overlay that was applied.
   */
  lemma {:induction false} ApplyAllSize(img: Image, overlays: seq<Overlay>, assets: map<string, Image>, canvasOk: bool)
    ensures var r := ApplyAll(img, overlays, assets, canvasOk);
            r == img ||
            exists i :: 0 <= i < |overlays| && overlays[i].url in assets &&
                        r.width == assets[overlays[i].url].width && r.height == assets[overlays[i].url].height
    decreases |overlays|
  {
    if overlays != [] {
      var next := ApplyOverlay(img, overlays[0], assets, canvasOk);
      ApplyAllSize(next, overlays[1..], assets, canvasOk);
      var r := ApplyAll(img, overlays, assets, canvasOk);
      if r != img {
        if r == next {
          assert overlays[0].url in assets;
        } else {
          var i :| 0 <= i < |overlays[1..]| && overlays[1..][i].url in assets &&
                   r.width == assets[overlays[1..][i].url].width && r.height == assets[overlays[1..][i].url].height;
          assert overlays[i + 1] == overlays[1..][i];
        }
      }
    }
  }
}
