/**
 * The admin settings store: an authentication flag and a settings tree
 * that updates are deep-merged into.  The settings are a JavaScript value
 * tree: objects are maps from key to value, and `Undef` is `undefined`.
 */
module AdminStore {
  datatype Json =
    | Undef
    | Null
    | Bool(b: bool)
    | Num(n: real)
    | Str(s: string)
    | Arr(items: seq<Json>)
    | Obj(obj: map<string, Json>)

  /** JavaScript truthiness: `undefined`, `null`, `false`, `0` and `""` are falsy. */
  predicate Truthy(j: Json)
  {
    match j
    case Undef | Null => false
    case Bool(b) => b
    case Num(n) => n != 0.0
    case Str(s) => s != ""
    case Arr(_) | Obj(_) => true
  }

  /** The own enumerable entries: what `{ ...j }` copies and what `Object.keys(j)` lists. */
  function Entries(j: Json): map<string, Json>
  {
    if j.Obj? then j.obj else map[]
  }

  /** `j[key]`: the value at `key`, `undefined` when there is none. */
  function Get(j: Json, key: string): Json
  {
    if j.Obj? && key in j.obj then j.obj[key] else Undef
  }

  /**
   * `deepMerge(target, source)`: a falsy source leaves the target as it is;
   * otherwise a copy of the target's entries with each source entry merged in.
   */
  function Merge(target: Json, source: Json): Json
    decreases source, 1
  {
    if !Truthy(source) then target
    else
      var t, s := Entries(target), Entries(source);
      Obj(map k | k in t.Keys + s.Keys :: if k in s then MergeEntry(target, source, k) else t[k])
  }

  /**
   * What a source entry becomes: an object merges into a truthy target value
   * and is copied in otherwise; anything else (an array, a primitive, a falsy
   * value) replaces the target's value.
   */
  function MergeEntry(target: Json, source: Json, key: string): Json
    requires key in Entries(source)
    decreases source, 0
  {
    var v := source.obj[key];
    if v.Obj? && Truthy(Get(target, key)) then Merge(Get(target, key), v) else v
  }

  /**
   * The copy `deepMerge` is filling, once the keys in `done` are merged in:
   * those hold their merged entries and every other key still holds the
   * target's value.
   */
  ghost predicate PartlyMerged(target: Json, source: Json, done: set<string>, result: map<string, Json>)
  {
    && done <= Entries(source).Keys
    && result.Keys == Entries(target).Keys + done
    && (forall k :: k in done ==> result[k] == MergeEntry(target, source, k))
    && (forall k :: k in result && k !in done ==> result[k] == Entries(target)[k])
  }

  /** Merging one more source key extends the partly merged copy. */
  lemma MergeStep(target: Json, source: Json, done: set<string>, result: map<string, Json>, key: string)
    requires PartlyMerged(target, source, done, result)
    requires key in Entries(source) && key !in done
    ensures PartlyMerged(target, source, done + {key}, result[key := MergeEntry(target, source, key)])
  {
  }

  /** Once every source key is merged, the copy is the merge. */
  lemma MergeComplete(target: Json, source: Json, result: map<string, Json>)
    requires Truthy(source) && PartlyMerged(target, source, Entries(source).Keys, result)
    ensures Obj(result) == Merge(target, source)
  {
    var merged := Merge(target, source).obj;
    assert result.Keys == merged.Keys;
    assert forall k :: k in result ==> result[k] == merged[k];
  }

  /** `deepMerge`, filling a copy of the target key by key and recursing on the source. */
  method DeepMerge(target: Json, source: Json) returns (r: Json)
    ensures r == Merge(target, source)
    decreases source
  {
    if !Truthy(source) {
      return target;
    }
    var result := Entries(target);
    var keys := Entries(source).Keys;
    ghost var done: set<string> := {};
    while keys != {}
      invariant keys + done == Entries(source).Keys && keys !! done
      invariant PartlyMerged(target, source, done, result)
      decreases keys
    {
      var key :| key in keys;
      var v := source.obj[key];
      var value := v;
      if v.Obj? && Truthy(Get(target, key)) {
        value := DeepMerge(Get(target, key), v);
      }
      assert value == MergeEntry(target, source, key);
      MergeStep(target, source, done, result, key);
      result := result[key := value];
      keys := keys - {key};
      done := done + {key};
    }
    MergeComplete(target, source, result);
    r := Obj(result);
  }

  /** Target keys the source does not name keep their values. */
  lemma MergeKeepsTarget(target: Json, source: Json, key: string)
    requires Truthy(source) && key in Entries(target) && key !in Entries(source)
    ensures Get(Merge(target, source), key) == Entries(target)[key]
  {
  }

  /** The merge never drops a key of an object target, and adds exactly the source's keys. */
  lemma MergeKeys(target: Json, source: Json)
    requires Truthy(source)
    ensures Merge(target, source).Obj?
    ensures Entries(Merge(target, source)).Keys == Entries(target).Keys + Entries(source).Keys
  {
  }

  /** An array in the source replaces the target's value outright; lists are never merged element-wise. */
  lemma MergeReplacesArrays(target: Json, source: Json, key: string)
    requires key in Entries(source) && Entries(source)[key].Arr?
    ensures Get(Merge(target, source), key) == Entries(source)[key]
  {
  }

  /** Merging an object into itself changes nothing. */
  lemma {:induction false} MergeSelf(x: Json)
    requires x.Obj?
    ensures Merge(x, x) == x
    decreases x
  {
    var m := Merge(x, x);
    forall k | k in x.obj
      ensures m.obj[k] == x.obj[k]
    {
      if x.obj[k].Obj? {
        MergeSelf(x.obj[k]);
      }
    }
  }

  /** Applying the same update twice is applying it once. */
  lemma {:induction false} MergeIdempotent(target: Json, source: Json)
    ensures Merge(Merge(target, source), source) == Merge(target, source)
    decreases source
  {
    if Truthy(source) {
      var once := Merge(target, source);
      var twice := Merge(once, source);
      forall k | k in Entries(source)
        ensures twice.obj[k] == once.obj[k]
      {
        var v := source.obj[k];
        assert once.obj[k] == MergeEntry(target, source, k);
        assert twice.obj[k] == MergeEntry(once, source, k);
        assert Get(once, k) == once.obj[k];
        if v.Obj? {
          if Truthy(Get(target, k)) {
            MergeIdempotent(Get(target, k), v);
            assert once.obj[k] == Merge(Get(target, k), v);
            assert once.obj[k].Obj?;
          } else {
            MergeSelf(v);
          }
        }
      }
    }
  }

  /**
   * A source covers a target when it is an object naming every key of the
   * target, and covers in turn every truthy target value it merges into.
   */
  predicate Covers(target: Json, source: Json)
    decreases source
  {
    && source.Obj?
    && Entries(target).Keys <= source.obj.Keys
    && forall k :: k in source.obj && source.obj[k].Obj? && Truthy(Get(target, k)) ==>
         Covers(Get(target, k), source.obj[k])
  }

  /** A covering update is installed exactly as given: nothing of the old value survives. */
  lemma {:induction false} CoveringMerge(target: Json, source: Json)
    requires Covers(target, source)
    ensures Merge(target, source) == source
    decreases source
  {
    var m := Merge(target, source);
    forall k | k in source.obj
      ensures m.obj[k] == source.obj[k]
    {
      var v := source.obj[k];
      if v.Obj? && Truthy(Get(target, k)) {
        CoveringMerge(Get(target, k), v);
      }
    }
  }

  /** Every top-level section of `before` other than `section` holds the same value in `after`. */
  predicate OtherSectionsKept(before: Json, after: Json, section: string)
  {
    forall k :: k in Entries(before) && k != section ==> Get(after, k) == Entries(before)[k]
  }

  /**
   * An update that replaces one section with a covering value leaves every
   * other top-level section of an object as it was and installs the section.
   */
  lemma SectionUpdate(settings: Json, section: string, value: Json)
    requires settings.Obj? && Covers(Get(settings, section), value)
    ensures Get(Merge(settings, Obj(map[section := value])), section) == value
    ensures forall k :: k in settings.obj && k != section ==> Get(Merge(settings, Obj(map[section := value])), k) == settings.obj[k]
  {
    var patch := Obj(map[section := value]);
    assert section in Entries(patch);
    if Truthy(Get(settings, section)) {
      CoveringMerge(Get(settings, section), value);
    }
  }

  /** `DEFAULT_SETTINGS`. */
  function DefaultSettings(): (d: Json)
    ensures d.Obj? && d.obj.Keys == {"uiux", "camera", "props", "sharing", "processing"}
    ensures Get(d, "props") == Obj(map["enabled" := Bool(false), "items" := Arr([])])
    ensures Get(d, "processing") == Obj(map[
              "defaultDimensions" := Obj(map["width" := Num(1200.0), "height" := Num(1800.0)]),
              "overlays" := Arr([]),
              "preserveOriginal" := Bool(true),
              "autoProcess" := Bool(false)])
  {
    Obj(map[
      "uiux" := Obj(map[
        "overlayText" := Str("WebBooth"),
        "overlayTextColor" := Str("#ffffff"),
        "overlayTextSize" := Num(24.0),
        "overlayPosition" := Str("bottom-right"),
        "showLivePreview" := Bool(true),
        "mirrorPreview" := Bool(false),
        "inactivityTimeout" := Obj(map["enabled" := Bool(true), "duration" := Num(60.0)]),
        "welcomeScreen" := Obj(map[
          "heading" := Str("Welcome to WebBooth"),
          "subheading" := Str("Capture your perfect moment with our professional photo booth")])]),
      "camera" := Obj(map[
        "source" := Str("webcam"),
        "webcam" := Obj(map[
          "deviceId" := Str(""),
          "resolution" := Obj(map["width" := Num(1280.0), "height" := Num(720.0)]),
          "facingMode" := Str("user")]),
        "dslr" := Obj(map[
          "enabled" := Bool(false),
          "model" := Str(""),
          "port" := Str(""),
          "autoFocus" := Bool(true),
          "iso" := Num(400.0),
          "shutterSpeed" := Str("1/125"),
          "aperture" := Str("f/5.6"),
          "capturePreview" := Bool(true)]),
        "picamera" := Obj(map[
          "enabled" := Bool(false),
          "resolution" := Obj(map["width" := Num(2592.0), "height" := Num(1944.0)]),
          "framerate" := Num(30.0),
          "exposure" := Str("auto"),
          "awb" := Str("auto"),
          "rotation" := Num(0.0),
          "hflip" := Bool(false),
          "vflip" := Bool(false),
          "brightness" := Num(50.0),
          "contrast" := Num(0.0),
          "saturation" := Num(0.0),
          "sharpness" := Num(0.0)])]),
      "props" := Obj(map["enabled" := Bool(false), "items" := Arr([])]),
      "sharing" := Obj(map[
        "enableEmail" := Bool(true),
        "enablePrinting" := Bool(true),
        "enableSocialSharing" := Bool(true),
        "enableQRCode" := Bool(true),
        "emailjs" := Obj(map[
          "serviceId" := Str(""),
          "templateId" := Str(""),
          "publicKey" := Str(""),
          "defaultSubject" := Str("Your Photo from WebBooth")]),
        "emailTemplate" := Str("Here is your photo from WebBooth!"),
        "social" := Obj(map[
          "defaultMessage" := Str("Check out my photo from WebBooth!"),
          "buttonStyle" := Str("round"),
          "buttonSize" := Str("medium"),
          "platforms" := Obj(map[
            "facebook" := Bool(true), "twitter" := Bool(true),
            "linkedin" := Bool(true), "whatsapp" := Bool(true)])]),
        "qrCode" := Obj(map[
          "size" := Num(256.0),
          "foregroundColor" := Str("#000000"),
          "backgroundColor" := Str("#ffffff"),
          "includeMargin" := Bool(true)]),
        "analytics" := Obj(map[
          "enableTracking" := Bool(true),
          "trackSocialShares" := Bool(true),
          "trackQRScans" := Bool(true)])]),
      "processing" := Obj(map[
        "defaultDimensions" := Obj(map["width" := Num(1200.0), "height" := Num(1800.0)]),
        "overlays" := Arr([]),
        "preserveOriginal" := Bool(true),
        "autoProcess" := Bool(false)])])
  }

  /** The password that unlocks the admin screens. */
  const AdminPassword := "admin"

  class Store {
    var isAuthenticated: bool
    var settings: Json

    constructor ()
      ensures !isAuthenticated && settings == DefaultSettings()
    {
      isAuthenticated := false;
      settings := DefaultSettings();
    }

    /** `login`: succeeds and authenticates exactly for the admin password; a wrong one changes nothing. */
    method Login(password: string) returns (ok: bool)
      modifies this
      ensures ok <==> password == AdminPassword
      ensures isAuthenticated == (ok || old(isAuthenticated))
      ensures settings == old(settings)
    {
      if password == AdminPassword {
        isAuthenticated := true;
        return true;
      }
      return false;
    }

    method Logout()
      modifies this
      ensures !isAuthenticated && settings == old(settings)
    {
      isAuthenticated := false;
    }

    /** `updateSettings`: the update is deep-merged into the current settings. */
    method UpdateSettings(update: Json)
      modifies this
      ensures settings == Merge(old(settings), update)
      ensures isAuthenticated == old(isAuthenticated)
    {
      settings := DeepMerge(settings, update);
    }
  }
}
