/**
 * The capture screen.  Its timers are modelled as events that the
 * environment fires: a countdown interval tick, the capture deadline five
 * seconds after the start, the moment the capture has finished, and the
 * preview interval tick.  Everything the capture needs from outside (the
 * webcam, the lights, the screenshot, the admin settings at the time of the
 * capture, the canvas, the clock) arrives in one `CaptureEnv`.
 */
module Camera {
  import opened Types
  import ImageProcessor
  import PhotoStore

  /** How long a countdown starts at, in seconds, and how long a preview stays up. */
  const CountdownStart := 5
  const PreviewSeconds := 20

  /** The preview's thumbnail bound. */
  const PreviewMaxWidth := 800
  const PreviewMaxHeight := 1200

  datatype LightCall = Activate | Deactivate

  datatype Preview = Preview(id: string, url: Image, thumbnailUrl: Image)

  /** What the world provides when the capture deadline fires. */
  datatype CaptureEnv = CaptureEnv(
    webcamPresent: bool,              // `webcamRef.current` is set
    lightsActivate: bool,             // `activateLights()` resolves
    screenshot: Option<Image>,        // `getScreenshot()`, `None` for a null result
    overlays: Option<seq<Overlay>>,   // `settings.processing.overlays`, `None` when undefined
    assets: map<string, Image>,       // what each overlay url loads to
    canvasOk: bool,                   // a 2D canvas context is available
    id: string,                       // `Date.now().toString()`
    timestamp: int)                   // `Date.now()`

  /** `prev => prev === null || prev <= 1 ? null : prev - 1`, the countdown interval's update. */
  function CountdownStep(prev: Option<int>): (r: Option<int>)
    ensures r.Some? <==> prev.Some? && prev.value > 1
    ensures r.Some? ==> r.value == prev.value - 1
  {
    if prev.None? || prev.value <= 1 then None else Some(prev.value - 1)
  }

  function CountdownAfter(prev: Option<int>, ticks: nat): Option<int>
  {
    if ticks == 0 then prev else CountdownStep(CountdownAfter(prev, ticks - 1))
  }

  /** From 5 the countdown shows 5, 4, 3, 2, 1 and is gone on the fifth tick. */
  lemma {:induction false} CountdownFromStart(ticks: nat)
    ensures ticks < CountdownStart ==> CountdownAfter(Some(CountdownStart), ticks) == Some(CountdownStart - ticks)
    ensures ticks >= CountdownStart ==> CountdownAfter(Some(CountdownStart), ticks) == None
  {
    if ticks > 0 {
      CountdownFromStart(ticks - 1);
    }
  }

  /** `overlays.some(o => o.enabled)` on a defined list. */
  function AnyEnabled(overlays: seq<Overlay>): (r: bool)
    ensures r <==> exists i :: 0 <= i < |overlays| && overlays[i].enabled
  {
    if overlays == [] then false
    else
      assert forall i :: 1 <= i < |overlays| ==> overlays[i] == overlays[1..][i - 1];
      overlays[0].enabled || AnyEnabled(overlays[1..])
  }

  /** `hasOverlays`: the overlay list is defined and some overlay in it is enabled. */
  function HasOverlays(overlays: Option<seq<Overlay>>): (r: bool)
    ensures r <==> overlays.Some? && exists i :: 0 <= i < |overlays.value| && overlays.value[i].enabled
  {
    overlays.Some? && AnyEnabled(overlays.value)
  }

  /** The image that is stored: the screenshot with the enabled overlays applied in order, if there are any. */
  function ProcessedImage(env: CaptureEnv): Image
    requires env.screenshot.Some?
  {
    if HasOverlays(env.overlays)
    then ImageProcessor.ApplyAll(env.screenshot.value, ImageProcessor.Enabled(env.overlays.value), env.assets, env.canvasOk)
    else env.screenshot.value
  }

  /** A capture stores a photo exactly when every step up to the preview thumbnail succeeds. */
  predicate CaptureSucceeds(env: CaptureEnv)
  {
    && env.webcamPresent && env.lightsActivate && env.screenshot.Some?
    && Loads(ProcessedImage(env)) && env.canvasOk
  }

  /** The record handed to `addPhoto`: identity filters, no thumbnail, and `processed` set by `hasOverlays`. */
  function CapturedPhoto(env: CaptureEnv): Photo
    requires env.screenshot.Some?
  {
    Photo(env.id, ProcessedImage(env), None, env.timestamp, IdentityFilters, None, HasOverlays(env.overlays))
  }

  /**
   * Failing overlays never stop a capture: with a readable screenshot, the
   * lights and a canvas, a photo is stored whatever the overlays do.
   */
  lemma OverlayFailuresDoNotBlockCapture(env: CaptureEnv)
    requires env.webcamPresent && env.lightsActivate && env.screenshot.Some? && Loads(env.screenshot.value) && env.canvasOk
    ensures CaptureSucceeds(env)
  {
    if HasOverlays(env.overlays) {
      ImageProcessor.ApplyAllLoads(env.screenshot.value, ImageProcessor.Enabled(env.overlays.value), env.assets, env.canvasOk);
    }
  }

  /**
   * `processed` records that enabled overlays were configured, not that one
   * was drawn: when none of their images loads, the stored image is the
   * bare screenshot and the photo is still marked processed.
   */
  lemma ProcessedWithoutOverlayDrawn(env: CaptureEnv)
    requires env.screenshot.Some? && HasOverlays(env.overlays)
    requires forall i :: 0 <= i < |env.overlays.value| ==> env.overlays.value[i].url !in env.assets
    ensures ProcessedImage(env) == env.screenshot.value
    ensures CapturedPhoto(env).processed
  {
    var enabled := ImageProcessor.Enabled(env.overlays.value);
    forall i | 0 <= i < |enabled|
      ensures ImageProcessor.ProcessImage(env.screenshot.value, enabled[i].url, env.assets, env.canvasOk).Err?
    {
      assert enabled[i] in env.overlays.value;
    }
    ImageProcessor.AllFailing(env.screenshot.value, enabled, env.assets, env.canvasOk);
  }

  /** Without an enabled overlay the screenshot is stored as it is and not marked processed. */
  lemma NoOverlaysUnprocessed(env: CaptureEnv)
    requires env.screenshot.Some? && !HasOverlays(env.overlays)
    ensures ProcessedImage(env) == env.screenshot.value
    ensures !CapturedPhoto(env).processed
  {
  }

  /** A list holding only a disabled overlay counts as no overlays. */
  lemma DisabledOverlayOnly(env: CaptureEnv, o: Overlay)
    requires env.screenshot.Some? && env.overlays == Some([o]) && !o.enabled
    ensures !CapturedPhoto(env).processed && ProcessedImage(env) == env.screenshot.value
  {
    assert !HasOverlays(env.overlays);
  }

  /** Every activation of the lights is followed by a deactivation before the next one. */
  predicate Balanced(lights: seq<LightCall>)
  {
    |lights| % 2 == 0 &&
    forall i :: 0 <= i < |lights| ==> lights[i] == (if i % 2 == 0 then Activate else Deactivate)
  }

  lemma BalancedPair(lights: seq<LightCall>)
    requires Balanced(lights)
    ensures Balanced(lights + [Activate, Deactivate])
  {
  }

  datatype Shot = Shot(photo: Photo, preview: Preview)

  /**
   * The body of `capturePhoto` between the lights going on and off: the
   * screenshot, the overlays when some are enabled, and the preview
   * thumbnail.  Overlay failures are absorbed by the processing; any other
   * failure (lights, no screenshot, no thumbnail) yields no shot.
   */
  method TakePicture(env: CaptureEnv) returns (shot: Option<Shot>)
    ensures shot.Some? <==> env.lightsActivate && env.screenshot.Some? && Loads(ProcessedImage(env)) && env.canvasOk
    ensures shot.Some? ==> shot.value.photo == CapturedPhoto(env)
    ensures shot.Some? ==> shot.value.preview.id == env.id && shot.value.preview.url == ProcessedImage(env)
    ensures shot.Some? ==> ImageProcessor.ThumbnailOf(ProcessedImage(env), shot.value.preview.thumbnailUrl, PreviewMaxWidth, PreviewMaxHeight)
  {
    if !env.lightsActivate || env.screenshot.None? {
      return None;
    }
    var imageSrc := env.screenshot.value;
    var hasOverlays := HasOverlays(env.overlays);
    var processedImageSrc := imageSrc;
    if hasOverlays {
      processedImageSrc := ImageProcessor.ProcessImageWithOverlays(imageSrc, env.overlays.value, env.assets, env.canvasOk);
    }
    var thumbnail := ImageProcessor.CreateThumbnail(processedImageSrc, PreviewMaxWidth, PreviewMaxHeight, env.canvasOk);
    if thumbnail.Err? {
      return None;
    }
    var photo := Photo(env.id, processedImageSrc, None, env.timestamp, IdentityFilters, None, hasOverlays);
    return Some(Shot(photo, Preview(env.id, processedImageSrc, thumbnail.value)));
  }

  class CameraScreen {
    const store: PhotoStore.Store
    var isCapturing: bool
    var countdown: Option<int>
    var countdownTimers: nat          // live countdown intervals
    var captureScheduled: bool        // the five-second capture timeout is pending
    var previewPhoto: Option<Preview>
    var previewTimeLeft: int
    var lights: seq<LightCall>        // calls made to the light controller, in order

    /**
     * The countdown only shows 1 to 5 while an interval is live to take it
     * down; a scheduled capture belongs to a running capture; the preview
     * only shows with time left; the lights are never left on.
     */
    predicate Valid()
      reads this
    {
      && (captureScheduled ==> isCapturing)
      && (countdown.Some? ==> 1 <= countdown.value <= CountdownStart && countdownTimers > 0)
      && 0 <= previewTimeLeft <= PreviewSeconds
      && (previewPhoto.Some? ==> previewTimeLeft > 0)
      && Balanced(lights)
    }

    /** Countdown work still outstanding: the number shown plus the live intervals. */
    function CountdownWork(): nat
      reads this
      requires Valid()
    {
      (if countdown.Some? then countdown.value else 0) + countdownTimers
    }

    constructor (store: PhotoStore.Store)
      ensures Valid() && this.store == store
      ensures !isCapturing && countdown == None && countdownTimers == 0 && !captureScheduled
      ensures previewPhoto == None && previewTimeLeft == PreviewSeconds && lights == []
    {
      this.store := store;
      isCapturing, countdown, countdownTimers, captureScheduled := false, None, 0, false;
      previewPhoto, previewTimeLeft := None, PreviewSeconds;
      lights := [];
    }

    /**
     * `startCountdown`: ignored while a capture runs; otherwise shows 5,
     * starts an interval and schedules the capture.
     */
    method StartCountdown()
      requires Valid()
      modifies this
      ensures Valid()
      ensures old(isCapturing) ==>
                countdown == old(countdown) && countdownTimers == old(countdownTimers) && captureScheduled == old(captureScheduled)
      ensures !old(isCapturing) ==>
                countdown == Some(CountdownStart) && countdownTimers == old(countdownTimers) + 1 && captureScheduled
      ensures isCapturing
      ensures previewPhoto == old(previewPhoto) && previewTimeLeft == old(previewTimeLeft) && lights == old(lights)
    {
      if isCapturing {
        return;
      }
      isCapturing := true;
      countdown := Some(CountdownStart);
      countdownTimers := countdownTimers + 1;
      captureScheduled := true;
    }

    /**
     * One countdown interval fires: the number goes down by one, and an
     * interval that finds it at 1 or gone clears it and stops.  Each tick
     * lowers the outstanding countdown work, so the intervals run out.
     */
    method CountdownTick()
      requires Valid() && countdownTimers > 0
      modifies this
      ensures Valid()
      ensures countdown == CountdownStep(old(countdown))
      ensures countdownTimers == (if countdown.None? then old(countdownTimers) - 1 else old(countdownTimers))
      ensures CountdownWork() < old(CountdownWork())
      ensures isCapturing == old(isCapturing) && captureScheduled == old(captureScheduled)
      ensures previewPhoto == old(previewPhoto) && previewTimeLeft == old(previewTimeLeft) && lights == old(lights)
    {
      countdown := CountdownStep(countdown);
      if countdown.None? {
        countdownTimers := countdownTimers - 1;
      }
    }

    /**
     * The capture timeout fires and runs `capturePhoto` to its end.  With a
     * webcam the lights go on and, whatever happens next, off again.  The
     * photo is stored and previewed only when every step succeeds; a failed
     * preview thumbnail discards the capture.  `isCapturing` stays set until
     * `CaptureFinished`.
     */
    method CaptureDeadline(env: CaptureEnv)
      requires Valid() && captureScheduled
      modifies this, store
      ensures Valid()
      ensures !captureScheduled && isCapturing
      ensures countdown == old(countdown) && countdownTimers == old(countdownTimers)
      ensures lights == old(lights) + (if env.webcamPresent then [Activate, Deactivate] else [])
      ensures CaptureSucceeds(env) ==>
                && |store.photos| == |old(store.photos)| + 1 && store.photos[1..] == old(store.photos)
                && store.photos[0] == CapturedPhoto(env).(thumbnailUrl := store.photos[0].thumbnailUrl)
                && store.photos[0].thumbnailUrl.Some?
                && ImageProcessor.ThumbnailOf(ProcessedImage(env), store.photos[0].thumbnailUrl.value,
                                              ImageProcessor.DefaultMaxWidth, ImageProcessor.DefaultMaxHeight)
                && previewPhoto.Some? && previewPhoto.value.id == env.id
                && previewPhoto.value.url == ProcessedImage(env)
                && ImageProcessor.ThumbnailOf(ProcessedImage(env), previewPhoto.value.thumbnailUrl, PreviewMaxWidth, PreviewMaxHeight)
                && previewTimeLeft == PreviewSeconds
      ensures !CaptureSucceeds(env) ==>
                store.photos == old(store.photos) && previewPhoto == old(previewPhoto) && previewTimeLeft == old(previewTimeLeft)
    {
      captureScheduled := false;
      if !env.webcamPresent {
        return;
      }
      lights := lights + [Activate];
      var shot := TakePicture(env);
      if shot.Some? {
        store.AddPhoto(shot.value.photo, env.canvasOk);
        previewPhoto := Some(shot.value.preview);
        previewTimeLeft := PreviewSeconds;
      }
      lights := lights + [Deactivate];
      BalancedPair(old(lights));
    }

    /** The awaited capture has settled: the capture button is live again. */
    method CaptureFinished()
      requires Valid() && isCapturing && !captureScheduled
      modifies this
      ensures Valid() && !isCapturing
      ensures countdown == old(countdown) && countdownTimers == old(countdownTimers) && !captureScheduled
      ensures previewPhoto == old(previewPhoto) && previewTimeLeft == old(previewTimeLeft) && lights == old(lights)
    {
      isCapturing := false;
    }

    /** One preview interval tick: a second less, and the preview closes when none is left. */
    method PreviewTick()
      requires Valid() && previewPhoto.Some?
      modifies this
      ensures Valid()
      ensures previewTimeLeft == old(previewTimeLeft) - 1
      ensures previewPhoto == (if previewTimeLeft == 0 then None else old(previewPhoto))
      ensures isCapturing == old(isCapturing) && countdown == old(countdown) && countdownTimers == old(countdownTimers)
      ensures captureScheduled == old(captureScheduled) && lights == old(lights)
    {
      previewTimeLeft := previewTimeLeft - 1;
      if previewTimeLeft == 0 {
        previewPhoto := None;
      }
    }

    /** `handleRetake`: closes the preview, resets its timer and asks for a new countdown. */
    method Retake()
      requires Valid()
      modifies this
      ensures Valid()
      ensures previewPhoto == None && previewTimeLeft == PreviewSeconds && isCapturing
      ensures !old(isCapturing) ==> countdown == Some(CountdownStart) && captureScheduled
      ensures old(isCapturing) ==> countdown == old(countdown) && captureScheduled == old(captureScheduled)
      ensures lights == old(lights)
    {
      previewPhoto := None;
      previewTimeLeft := PreviewSeconds;
      StartCountdown();
    }

    /** The cancel button closes the preview and leaves its timer where it was. */
    method Cancel()
      requires Valid()
      modifies this
      ensures Valid() && previewPhoto == None && previewTimeLeft == old(previewTimeLeft)
      ensures isCapturing == old(isCapturing) && countdown == old(countdown) && countdownTimers == old(countdownTimers)
      ensures captureScheduled == old(captureScheduled) && lights == old(lights)
    {
      previewPhoto := None;
    }
  }
}
