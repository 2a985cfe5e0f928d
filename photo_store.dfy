/**
 * The photo collection: most recent first.  Each action replaces the list
 * by a prepended, filtered or mapped copy of it.
 */
module PhotoStore {
  import opened Types
  import IdLists
  import ImageProcessor

  /** `DEFAULT_FILTERS`: the identity filters. */
  const DefaultFilters: Filters := IdentityFilters

  /**
   * `updatePhotoFilters`' map: the photos carrying `id` get `filters`,
   * every other field and every other photo stays as it was.
   */
  function WithFilters(photos: seq<Photo>, id: string, filters: Filters): (r: seq<Photo>)
    ensures |r| == |photos|
    ensures forall i :: 0 <= i < |r| ==>
              r[i].(filters := photos[i].filters) == photos[i] &&
              r[i].filters == (if photos[i].id == id then filters else photos[i].filters)
  {
    seq(|photos|, i requires 0 <= i < |photos| =>
      if photos[i].id == id then photos[i].(filters := filters) else photos[i])
  }

  /** Updating the filters of an id no photo carries changes nothing. */
  lemma WithFiltersAbsent(photos: seq<Photo>, id: string, filters: Filters)
    requires forall i :: 0 <= i < |photos| ==> photos[i].id != id
    ensures WithFilters(photos, id, filters) == photos
  {
    var r := WithFilters(photos, id, filters);
    forall i | 0 <= i < |photos| ensures r[i] == photos[i] {
      assert r[i].(filters := photos[i].filters) == photos[i];
    }
  }

  /** A second update of the same id wins over the first. */
  lemma WithFiltersOverwrite(photos: seq<Photo>, id: string, f1: Filters, f2: Filters)
    ensures WithFilters(WithFilters(photos, id, f1), id, f2) == WithFilters(photos, id, f2)
  {
    var a, b := WithFilters(WithFilters(photos, id, f1), id, f2), WithFilters(photos, id, f2);
    forall i | 0 <= i < |photos| ensures a[i] == b[i] {
      var m := WithFilters(photos, id, f1);
      assert m[i].(filters := photos[i].filters) == photos[i];
      assert a[i].(filters := m[i].filters) == m[i];
      assert b[i].(filters := photos[i].filters) == photos[i];
    }
  }

  class Store {
    var photos: seq<Photo>

    constructor ()
      ensures photos == []
    {
      photos := [];
    }

    /**
     * `addPhoto`: makes its own 400×600 thumbnail and stores the photo first,
     * with its filters reset to `DefaultFilters` on both paths; when the
     * thumbnail fails the photo keeps the thumbnail it came with.
     */
    method AddPhoto(photo: Photo, canvasOk: bool)
      modifies this
      ensures |photos| == |old(photos)| + 1 && photos[1..] == old(photos)
      ensures photos[0] == photo.(filters := DefaultFilters, thumbnailUrl := photos[0].thumbnailUrl)
      ensures Loads(photo.url) && canvasOk ==>
                photos[0].thumbnailUrl.Some? &&
                ImageProcessor.ThumbnailOf(photo.url, photos[0].thumbnailUrl.value,
                                           ImageProcessor.DefaultMaxWidth, ImageProcessor.DefaultMaxHeight)
      ensures !(Loads(photo.url) && canvasOk) ==> photos[0].thumbnailUrl == photo.thumbnailUrl
    {
      var thumbnail := ImageProcessor.CreateThumbnail(photo.url, ImageProcessor.DefaultMaxWidth,
                                                      ImageProcessor.DefaultMaxHeight, canvasOk);
      match thumbnail
      case Ok(t) =>
        photos := [photo.(thumbnailUrl := Some(t), filters := DefaultFilters)] + photos;
      case Err(_) =>
        photos := [photo.(filters := DefaultFilters)] + photos;
    }

    /** `deletePhoto`: every photo with that id goes, the rest keep their order. */
    method DeletePhoto(id: string)
      modifies this
      ensures photos == IdLists.Remove(old(photos), PhotoKey, id)
    {
      photos := IdLists.Remove(photos, PhotoKey, id);
    }

    /** `updatePhotoFilters`: replaces the filters of the photos with that id. */
    method UpdatePhotoFilters(id: string, filters: Filters)
      modifies this
      ensures photos == WithFilters(old(photos), id, filters)
    {
      photos := WithFilters(photos, id, filters);
    }
  }

  /** Deleting the id of the photo just added takes it out again, and every older copy of that id with it. */
  lemma DeleteAfterAdd(p: Photo, photos: seq<Photo>)
    ensures IdLists.Remove([p] + photos, PhotoKey, p.id) == IdLists.Remove(photos, PhotoKey, p.id)
  {
    IdLists.RemoveAppend([p], photos, PhotoKey, p.id);
    assert IdLists.Remove([p], PhotoKey, p.id) == [];
  }
}
