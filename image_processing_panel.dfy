/**
 * The image-processing admin panel: the overlay list, the processing
 * switches and default dimensions, and the processed/unprocessed photo
 * filter.  Each handler rebuilds the whole `processing` section from the
 * current one and hands it to `updateSettings`; `ProcessingView` is the
 * section as the panel reads it.
 */
module ImageProcessingPanel {
  import opened Types
  import IdLists
  import opened AdminStore

  datatype Dimensions = Dimensions(width: int, height: int)

  datatype ProcessingSettings = ProcessingSettings(
    defaultDimensions: Dimensions,
    overlays: seq<Overlay>,
    preserveOriginal: bool,
    autoProcess: bool)

  /** What the panel uses when the settings have no processing section. */
  const DefaultProcessing := ProcessingSettings(Dimensions(1200, 1800), [], true, false)

  function EncodeOverlay(o: Overlay): Json
  {
    Obj(map["id" := Str(o.id), "name" := Str(o.name), "url" := Str(o.url), "enabled" := Bool(o.enabled)])
  }

  function DecodeOverlay(j: Json): (r: Option<Overlay>)
    ensures r.Some? ==> EncodeOverlay(r.value) == j
  {
    if j.Obj? && j.obj.Keys == {"id", "name", "url", "enabled"}
       && j.obj["id"].Str? && j.obj["name"].Str? && j.obj["url"].Str? && j.obj["enabled"].Bool?
    then Some(Overlay(j.obj["id"].s, j.obj["name"].s, j.obj["url"].s, j.obj["enabled"].b))
    else None
  }

  function EncodeOverlays(os: seq<Overlay>): (r: seq<Json>)
    ensures |r| == |os|
  {
    if os == [] then [] else [EncodeOverlay(os[0])] + EncodeOverlays(os[1..])
  }

  function DecodeOverlays(items: seq<Json>): (r: Option<seq<Overlay>>)
    ensures r.Some? ==> EncodeOverlays(r.value) == items
  {
    if items == [] then Some([])
    else match (DecodeOverlay(items[0]), DecodeOverlays(items[1..]))
      case (Some(o), Some(rest)) =>
        assert ([o] + rest)[1..] == rest;
        assert items == [items[0]] + items[1..];
        Some([o] + rest)
      case _ => None
  }

  /** A whole JavaScript number, as `parseInt` leaves it. */
  function DecodeInt(j: Json): (r: Option<int>)
    ensures r.Some? ==> j == Num(r.value as real)
  {
    if j.Num? && j.n == j.n.Floor as real then Some(j.n.Floor) else None
  }

  function EncodeDimensions(d: Dimensions): Json
  {
    Obj(map["width" := Num(d.width as real), "height" := Num(d.height as real)])
  }

  function DecodeDimensions(j: Json): (r: Option<Dimensions>)
    ensures r.Some? ==> EncodeDimensions(r.value) == j
  {
    if j.Obj? && j.obj.Keys == {"width", "height"}
    then match (DecodeInt(j.obj["width"]), DecodeInt(j.obj["height"]))
      case (Some(w), Some(h)) => Some(Dimensions(w, h))
      case _ => None
    else None
  }

  /** The four keys of a processing section. */
  const ProcessingKeys: set<string> := {"defaultDimensions", "overlays", "preserveOriginal", "autoProcess"}

  function EncodeProcessing(p: ProcessingSettings): (j: Json)
    ensures j.Obj? && j.obj.Keys == ProcessingKeys
  {
    Obj(map[
      "defaultDimensions" := EncodeDimensions(p.defaultDimensions),
      "overlays" := Arr(EncodeOverlays(p.overlays)),
      "preserveOriginal" := Bool(p.preserveOriginal),
      "autoProcess" := Bool(p.autoProcess)])
  }

  /** An object with the four keys holding `p`'s encoded fields is `p`'s encoding. */
  lemma EncodedFields(j: Json, p: ProcessingSettings)
    requires j.Obj? && j.obj.Keys == ProcessingKeys
    requires j.obj["defaultDimensions"] == EncodeDimensions(p.defaultDimensions)
    requires j.obj["overlays"] == Arr(EncodeOverlays(p.overlays))
    requires j.obj["preserveOriginal"] == Bool(p.preserveOriginal)
    requires j.obj["autoProcess"] == Bool(p.autoProcess)
    ensures EncodeProcessing(p) == j
  {
    var e := EncodeProcessing(p);
    forall k | k in ProcessingKeys ensures e.obj[k] == j.obj[k] {
    }
    assert e.obj == j.obj;
  }

  /** A processing section of exactly the typed shape; anything else is not read. */
  function DecodeProcessing(j: Json): (r: Option<ProcessingSettings>)
    ensures r.Some? ==> EncodeProcessing(r.value) == j
  {
    if j.Obj? && j.obj.Keys == ProcessingKeys
       && j.obj["overlays"].Arr? && j.obj["preserveOriginal"].Bool? && j.obj["autoProcess"].Bool?
    then match (DecodeDimensions(j.obj["defaultDimensions"]), DecodeOverlays(j.obj["overlays"].items))
      case (Some(d), Some(os)) =>
        var p := ProcessingSettings(d, os, j.obj["preserveOriginal"].b, j.obj["autoProcess"].b);
        EncodedFields(j, p);
        Some(p)
      case _ => None
    else None
  }

  lemma OverlayRoundTrip(o: Overlay)
    ensures DecodeOverlay(EncodeOverlay(o)) == Some(o)
  {
    assert EncodeOverlay(o).obj.Keys == {"id", "name", "url", "enabled"};
  }

  lemma {:induction false} OverlaysRoundTrip(os: seq<Overlay>)
    ensures DecodeOverlays(EncodeOverlays(os)) == Some(os)
  {
    if os != [] {
      var items := EncodeOverlays(os);
      assert items == [EncodeOverlay(os[0])] + EncodeOverlays(os[1..]);
      assert items[1..] == EncodeOverlays(os[1..]);
      OverlayRoundTrip(os[0]);
      OverlaysRoundTrip(os[1..]);
      assert os == [os[0]] + os[1..];
    }
  }

  lemma DimensionsRoundTrip(d: Dimensions)
    ensures DecodeDimensions(EncodeDimensions(d)) == Some(d)
  {
    var j := EncodeDimensions(d);
    assert j.obj.Keys == {"width", "height"};
    assert DecodeInt(j.obj["width"]) == Some(d.width);
    assert DecodeInt(j.obj["height"]) == Some(d.height);
  }

  /** Every processing section the panel writes reads back as itself. */
  lemma ProcessingRoundTrip(p: ProcessingSettings)
    ensures DecodeProcessing(EncodeProcessing(p)) == Some(p)
  {
    OverlaysRoundTrip(p.overlays);
    DimensionsRoundTrip(p.defaultDimensions);
    var j := EncodeProcessing(p);
    assert j.obj["defaultDimensions"] == EncodeDimensions(p.defaultDimensions);
    assert j.obj["overlays"] == Arr(EncodeOverlays(p.overlays));
  }

  /** `settings?.processing ?? defaults`, read as a typed section. */
  function ProcessingView(settings: Json): Option<ProcessingSettings>
  {
    var j := Get(settings, "processing");
    if j == Undef || j == Null then Some(DefaultProcessing) else DecodeProcessing(j)
  }

  /** `updateSettings({ processing: p })`'s argument. */
  function ProcessingPatch(p: ProcessingSettings): Json
  {
    Obj(map["processing" := EncodeProcessing(p)])
  }

  /** A dimensions object written over another: the same two keys, neither an object. */
  lemma DimensionsCover(current: Dimensions, d: Dimensions)
    ensures Covers(EncodeDimensions(current), EncodeDimensions(d))
  {
    var after := EncodeDimensions(d);
    assert Entries(EncodeDimensions(current)).Keys == after.obj.Keys;
    assert !after.obj["width"].Obj? && !after.obj["height"].Obj?;
  }

  /** A section written over another covers it, so merging it in leaves nothing of the old. */
  lemma ProcessingCovers(current: ProcessingSettings, p: ProcessingSettings)
    ensures Covers(EncodeProcessing(current), EncodeProcessing(p))
  {
    var before, section := EncodeProcessing(current), EncodeProcessing(p);
    var dims := "defaultDimensions";
    assert Get(before, dims) == EncodeDimensions(current.defaultDimensions);
    assert section.obj[dims] == EncodeDimensions(p.defaultDimensions);
    DimensionsCover(current.defaultDimensions, p.defaultDimensions);
    assert !section.obj["overlays"].Obj? && !section.obj["preserveOriginal"].Obj? && !section.obj["autoProcess"].Obj?;
  }

  /**
   * Writing a whole section over a readable one installs exactly that
   * section and leaves the other sections of the settings alone.
   */
  lemma InstallProcessing(settings: Json, p: ProcessingSettings)
    requires settings.Obj? && ProcessingView(settings).Some?
    ensures ProcessingView(Merge(settings, ProcessingPatch(p))) == Some(p)
    ensures forall k :: k in settings.obj && k != "processing" ==>
              Get(Merge(settings, ProcessingPatch(p)), k) == settings.obj[k]
  {
    var before := Get(settings, "processing");
    if before != Undef && before != Null {
      ProcessingCovers(DecodeProcessing(before).value, p);
    }
    SectionUpdate(settings, "processing", EncodeProcessing(p));
    ProcessingRoundTrip(p);
  }

  /** The defaults the panel falls back on are the store's own default section. */
  lemma DefaultsAgree()
    ensures EncodeProcessing(DefaultProcessing) == Get(DefaultSettings(), "processing")
    ensures ProcessingView(DefaultSettings()) == Some(DefaultProcessing)
  {
    ProcessingRoundTrip(DefaultProcessing);
  }

  /** `overlays.map(o => o.id === id ? { ...o, enabled: !o.enabled } : o)`. */
  function ToggleOverlays(overlays: seq<Overlay>, id: string): (r: seq<Overlay>)
    ensures |r| == |overlays|
    ensures forall i :: 0 <= i < |r| ==> r[i].(enabled := overlays[i].enabled) == overlays[i]
    ensures forall i :: 0 <= i < |r| ==> r[i].enabled == (if overlays[i].id == id then !overlays[i].enabled else overlays[i].enabled)
  {
    seq(|overlays|, i requires 0 <= i < |overlays| =>
      if overlays[i].id == id then overlays[i].(enabled := !overlays[i].enabled) else overlays[i])
  }

  /** Toggling the same overlay twice restores the list. */
  lemma ToggleTwice(overlays: seq<Overlay>, id: string)
    ensures ToggleOverlays(ToggleOverlays(overlays, id), id) == overlays
  {
    var once := ToggleOverlays(overlays, id);
    var twice := ToggleOverlays(once, id);
    forall i | 0 <= i < |overlays| ensures twice[i] == overlays[i] {
      assert once[i].(enabled := overlays[i].enabled) == overlays[i];
      assert twice[i].(enabled := once[i].enabled) == once[i];
    }
  }

  predicate Shown(photo: Photo, showProcessed: bool, showUnprocessed: bool)
  {
    (showProcessed && photo.processed) || (showUnprocessed && !photo.processed)
  }

  /** `filteredPhotos`: the photos the two check boxes let through, in order. */
  function FilteredPhotos(photos: seq<Photo>, showProcessed: bool, showUnprocessed: bool): (r: seq<Photo>)
    ensures |r| <= |photos|
    ensures forall p :: p in r <==> p in photos && Shown(p, showProcessed, showUnprocessed)
  {
    if photos == [] then []
    else
      var rest := FilteredPhotos(photos[1..], showProcessed, showUnprocessed);
      assert forall p :: p in photos <==> p == photos[0] || p in photos[1..];
      if Shown(photos[0], showProcessed, showUnprocessed) then [photos[0]] + rest else rest
  }

  /** Both boxes ticked shows every photo, in order. */
  lemma {:induction false} ShowAll(photos: seq<Photo>)
    ensures FilteredPhotos(photos, true, true) == photos
  {
    if photos != [] {
      ShowAll(photos[1..]);
      assert photos == [photos[0]] + photos[1..];
    }
  }

  /** The processed-only and unprocessed-only lists split the photos between them. */
  lemma {:induction false} ShowSplit(photos: seq<Photo>)
    ensures |FilteredPhotos(photos, true, false)| + |FilteredPhotos(photos, false, true)| == |photos|
  {
    if photos != [] {
      ShowSplit(photos[1..]);
    }
  }

  class Panel {
    const admin: AdminStore.Store
    var showProcessed: bool
    var showUnprocessed: bool

    constructor (admin: AdminStore.Store)
      ensures this.admin == admin && showProcessed && showUnprocessed
    {
      this.admin := admin;
      showProcessed, showUnprocessed := true, true;
    }

    /** The photos listed under the current check boxes. */
    function Listed(photos: seq<Photo>): seq<Photo>
      reads this
    {
      FilteredPhotos(photos, showProcessed, showUnprocessed)
    }

    method SetShowProcessed(checked: bool)
      modifies this
      ensures showProcessed == checked && showUnprocessed == old(showUnprocessed)
    {
      showProcessed := checked;
    }

    method SetShowUnprocessed(checked: bool)
      modifies this
      ensures showUnprocessed == checked && showProcessed == old(showProcessed)
    {
      showUnprocessed := checked;
    }

    /** Hands a whole section to `updateSettings`. */
    method Install(p: ProcessingSettings)
      requires admin.settings.Obj? && ProcessingView(admin.settings).Some?
      modifies admin
      ensures admin.settings.Obj? && ProcessingView(admin.settings) == Some(p)
      ensures OtherSectionsKept(old(admin.settings), admin.settings, "processing")
      ensures admin.isAuthenticated == old(admin.isAuthenticated)
    {
      InstallProcessing(admin.settings, p);
      MergeKeys(admin.settings, ProcessingPatch(p));
      admin.UpdateSettings(ProcessingPatch(p));
    }

    /**
     * `handleOverlayUpload`: with a file chosen, a new enabled overlay named
     * after the file goes at the end of the list; without one nothing happens.
     */
    method UploadOverlay(fileName: Option<string>, dataUrl: string, id: string)
      requires admin.settings.Obj? && ProcessingView(admin.settings).Some?
      modifies admin
      ensures admin.settings.Obj?
      ensures OtherSectionsKept(old(admin.settings), admin.settings, "processing")
      ensures admin.isAuthenticated == old(admin.isAuthenticated)
      ensures fileName.None? ==> admin.settings == old(admin.settings)
      ensures fileName.Some? ==>
                var p := ProcessingView(old(admin.settings)).value;
                ProcessingView(admin.settings) == Some(p.(overlays := p.overlays + [Overlay(id, fileName.value, dataUrl, true)]))
    {
      if fileName.Some? {
        var p := ProcessingView(admin.settings).value;
        Install(p.(overlays := p.overlays + [Overlay(id, fileName.value, dataUrl, true)]));
      }
    }

    /** `handleOverlayDelete`: the overlays with that id go, the rest keep their order. */
    method DeleteOverlay(id: string)
      requires admin.settings.Obj? && ProcessingView(admin.settings).Some?
      modifies admin
      ensures admin.settings.Obj?
      ensures OtherSectionsKept(old(admin.settings), admin.settings, "processing")
      ensures admin.isAuthenticated == old(admin.isAuthenticated)
      ensures var p := ProcessingView(old(admin.settings)).value;
              ProcessingView(admin.settings) == Some(p.(overlays := IdLists.Remove(p.overlays, OverlayKey, id)))
    {
      var p := ProcessingView(admin.settings).value;
      Install(p.(overlays := IdLists.Remove(p.overlays, OverlayKey, id)));
    }

    /** `handleOverlayToggle`: flips `enabled` on the overlays with that id. */
    method ToggleOverlay(id: string)
      requires admin.settings.Obj? && ProcessingView(admin.settings).Some?
      modifies admin
      ensures admin.settings.Obj?
      ensures OtherSectionsKept(old(admin.settings), admin.settings, "processing")
      ensures admin.isAuthenticated == old(admin.isAuthenticated)
      ensures var p := ProcessingView(old(admin.settings)).value;
              ProcessingView(admin.settings) == Some(p.(overlays := ToggleOverlays(p.overlays, id)))
    {
      var p := ProcessingView(admin.settings).value;
      Install(p.(overlays := ToggleOverlays(p.overlays, id)));
    }

    /** The auto-process check box. */
    method SetAutoProcess(checked: bool)
      requires admin.settings.Obj? && ProcessingView(admin.settings).Some?
      modifies admin
      ensures admin.settings.Obj?
      ensures OtherSectionsKept(old(admin.settings), admin.settings, "processing")
      ensures admin.isAuthenticated == old(admin.isAuthenticated)
      ensures ProcessingView(admin.settings) == Some(ProcessingView(old(admin.settings)).value.(autoProcess := checked))
    {
      var p := ProcessingView(admin.settings).value;
      Install(p.(autoProcess := checked));
    }

    /** The preserve-original check box. */
    method SetPreserveOriginal(checked: bool)
      requires admin.settings.Obj? && ProcessingView(admin.settings).Some?
      modifies admin
      ensures admin.settings.Obj?
      ensures OtherSectionsKept(old(admin.settings), admin.settings, "processing")
      ensures admin.isAuthenticated == old(admin.isAuthenticated)
      ensures ProcessingView(admin.settings) == Some(ProcessingView(old(admin.settings)).value.(preserveOriginal := checked))
    {
      var p := ProcessingView(admin.settings).value;
      Install(p.(preserveOriginal := checked));
    }

    /** The default-width field, after `parseInt`. */
    method SetWidth(width: int)
      requires admin.settings.Obj? && ProcessingView(admin.settings).Some?
      modifies admin
      ensures admin.settings.Obj?
      ensures OtherSectionsKept(old(admin.settings), admin.settings, "processing")
      ensures admin.isAuthenticated == old(admin.isAuthenticated)
      ensures var p := ProcessingView(old(admin.settings)).value;
              ProcessingView(admin.settings) == Some(p.(defaultDimensions := p.defaultDimensions.(width := width)))
    {
      var p := ProcessingView(admin.settings).value;
      Install(p.(defaultDimensions := p.defaultDimensions.(width := width)));
    }

    /** The default-height field, after `parseInt`. */
    method SetHeight(height: int)
      requires admin.settings.Obj? && ProcessingView(admin.settings).Some?
      modifies admin
      ensures admin.settings.Obj?
      ensures OtherSectionsKept(old(admin.settings), admin.settings, "processing")
      ensures admin.isAuthenticated == old(admin.isAuthenticated)
      ensures var p := ProcessingView(old(admin.settings)).value;
              ProcessingView(admin.settings) == Some(p.(defaultDimensions := p.defaultDimensions.(height := height)))
    {
      var p := ProcessingView(admin.settings).value;
      Install(p.(defaultDimensions := p.defaultDimensions.(height := height)));
    }
  }
}
