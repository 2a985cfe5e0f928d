/**
 * The records shared by the photo-booth core: photos, their filter
 * parameters and props, the prop library items and the capture-time
 * overlays.  Images are opaque values that only carry a size and a
 * description of how they were produced; pixels are not modelled.
 */
module Types {

  datatype Option<+T> = None | Some(value: T)

  /** A settled promise: resolved with a value or rejected with a message. */
  datatype Outcome<+T> = Ok(value: T) | Err(message: string)

  /** Where the drawn image sits on a canvas (the arguments of `drawImage`). */
  datatype Placement = Placement(x: real, y: real, width: real, height: real)

  /** How an image came to be; stands in for its pixels. */
  datatype Content =
    | Screenshot(shot: nat)
    | Asset(name: string)
    | Unreadable
    | Composite(base: Content, overlay: Content, placement: Placement)
    | Resized(source: Content)

  datatype Image = Image(content: Content, width: int, height: int)

  /**
   * An image element fires `onload` for it.  A zero-sized image is treated
   * as one that does not load, so that the geometry below never divides by 0.
   */
  predicate Loads(img: Image)
  {
    img.content != Unreadable && img.width > 0 && img.height > 0
  }

  /** The six filter parameters and the optional preset tag. */
  datatype Filters = Filters(
    brightness: real,
    contrast: real,
    saturation: real,
    sepia: real,
    grayscale: real,
    blur: real,
    preset: Option<string>)

  /** The identity filters: multiplicative fields 1, additive fields 0, no preset. */
  const IdentityFilters := Filters(1.0, 1.0, 1.0, 0.0, 0.0, 0.0, None)

  datatype Position = Position(x: real, y: real, scale: real, rotation: real)

  /** A prop placed on a photo while editing. */
  datatype PhotoProp = PhotoProp(id: string, propId: string, url: string, position: Position)

  /** A photo record of the collection store. */
  datatype Photo = Photo(
    id: string,
    url: Image,
    thumbnailUrl: Option<Image>,
    timestamp: int,
    filters: Filters,
    props: Option<seq<PhotoProp>>,
    processed: bool)

  /** An entry of the prop library. */
  datatype PropItem = PropItem(id: string, name: string, url: string, category: string)

  /** A capture-time overlay; `url` names its image asset. */
  datatype Overlay = Overlay(id: string, name: string, url: string, enabled: bool)

  function PhotoKey(p: Photo): string { p.id }
  function PropKey(p: PhotoProp): string { p.id }
  function ItemKey(item: PropItem): string { item.id }
  function OverlayKey(o: Overlay): string { o.id }

  function Max(a: real, b: real): real { if a >= b then a else b }
  function Min(a: real, b: real): real { if a <= b then a else b }
}

/**
 * Removing every element with a given id from a list, keeping the order of
 * the rest (`list.filter(x => x.id !== id)`), shared by the photo store, the
 * editor's props, the overlay list and the prop library.
 */
module IdLists {

  function Remove<T>(s: seq<T>, key: T -> string, id: string): (r: seq<T>)
    ensures |r| <= |s|
    ensures forall i :: 0 <= i < |r| ==> key(r[i]) != id
  {
    if s == [] then []
    else (if key(s[0]) == id then [] else [s[0]]) + Remove(s[1..], key, id)
  }

  /** An element survives exactly when it was there and has a different id. */
  lemma {:induction false} RemoveMembers<T>(s: seq<T>, key: T -> string, id: string, x: T)
    ensures x in Remove(s, key, id) <==> x in s && key(x) != id
  {
    if s != [] {
      RemoveMembers(s[1..], key, id, x);
      assert s == [s[0]] + s[1..];
    }
  }

  /** Removal works element by element from the left, so the survivors keep their order. */
  lemma {:induction false} RemoveAppend<T>(a: seq<T>, b: seq<T>, key: T -> string, id: string)
    ensures Remove(a + b, key, id) == Remove(a, key, id) + Remove(b, key, id)
  {
    if a == [] {
      assert a + b == b;
    } else {
      assert (a + b)[1..] == a[1..] + b;
      RemoveAppend(a[1..], b, key, id);
    }
  }

  /** Removing an id nobody carries changes nothing. */
  lemma {:induction false} RemoveAbsent<T>(s: seq<T>, key: T -> string, id: string)
    requires forall i :: 0 <= i < |s| ==> key(s[i]) != id
    ensures Remove(s, key, id) == s
  {
    if s != [] {
      RemoveAbsent(s[1..], key, id);
    }
  }

  /** Removing the same id twice is the same as removing it once. */
  lemma RemoveIdempotent<T>(s: seq<T>, key: T -> string, id: string)
    ensures Remove(Remove(s, key, id), key, id) == Remove(s, key, id)
  {
    RemoveAbsent(Remove(s, key, id), key, id);
  }
}
