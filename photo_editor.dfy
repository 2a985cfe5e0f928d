/**
 * The photo editor's working state: the filters being edited, the props
 * placed on the photo and whether the prop picker is open.  Filter edits
 * are written through to the photo store at once; props live only here
 * until they are saved into an updated photo record.
 */
module PhotoEditor {
  import opened Types
  import IdLists
  import PhotoStore

  /** A prop picked from the catalogue, placed at (50, 50), unscaled and unrotated. */
  function NewProp(item: PropItem, id: string): (r: PhotoProp)
    ensures r.id == id && r.propId == item.id && r.url == item.url
    ensures r.position == Position(50.0, 50.0, 1.0, 0.0)
  {
    PhotoProp(id, item.id, item.url, Position(50.0, 50.0, 1.0, 0.0))
  }

  /** `props.map(p => p.id === updated.id ? updated : p)`. */
  function ReplaceProp(props: seq<PhotoProp>, updated: PhotoProp): (r: seq<PhotoProp>)
    ensures |r| == |props|
    ensures forall i :: 0 <= i < |r| ==> r[i].id == props[i].id
    ensures forall i :: 0 <= i < |r| ==> r[i] == props[i] || r[i] == updated
    ensures forall i :: 0 <= i < |r| && props[i].id == updated.id ==> r[i] == updated
  {
    seq(|props|, i requires 0 <= i < |props| => if props[i].id == updated.id then updated else props[i])
  }

  /** Replacing a prop whose id is not on the photo changes nothing. */
  lemma ReplaceAbsent(props: seq<PhotoProp>, updated: PhotoProp)
    requires forall i :: 0 <= i < |props| ==> props[i].id != updated.id
    ensures ReplaceProp(props, updated) == props
  {
    var r := ReplaceProp(props, updated);
    forall i | 0 <= i < |props| ensures r[i] == props[i] {
      assert props[i].id != updated.id;
    }
  }

  /** Replacing twice with the same prop is replacing once. */
  lemma ReplaceIdempotent(props: seq<PhotoProp>, updated: PhotoProp)
    ensures ReplaceProp(ReplaceProp(props, updated), updated) == ReplaceProp(props, updated)
  {
  }

  /** A replaced prop is removed by its id just as the original would have been. */
  lemma {:induction false} ReplaceThenRemove(props: seq<PhotoProp>, updated: PhotoProp)
    ensures IdLists.Remove(ReplaceProp(props, updated), PropKey, updated.id) == IdLists.Remove(props, PropKey, updated.id)
  {
    if props != [] {
      ReplaceThenRemove(props[1..], updated);
      assert ReplaceProp(props, updated)[1..] == ReplaceProp(props[1..], updated);
    }
  }

  /** Adding a prop with a fresh id and removing that id again restores the props. */
  lemma AddThenRemove(props: seq<PhotoProp>, item: PropItem, id: string)
    requires forall i :: 0 <= i < |props| ==> props[i].id != id
    ensures IdLists.Remove(props + [NewProp(item, id)], PropKey, id) == props
  {
    IdLists.RemoveAppend(props, [NewProp(item, id)], PropKey, id);
    IdLists.RemoveAbsent(props, PropKey, id);
    assert IdLists.Remove([NewProp(item, id)], PropKey, id) == [];
  }

  class Editor {
    const photo: Photo
    const store: PhotoStore.Store
    var filters: Filters
    var props: seq<PhotoProp>
    var showPropSelector: bool

    /** The editor opens on the photo's filters and props (none if it has no prop list). */
    constructor (photo: Photo, store: PhotoStore.Store)
      ensures this.photo == photo && this.store == store
      ensures filters == photo.filters
      ensures props == (if photo.props.Some? then photo.props.value else [])
      ensures !showPropSelector
    {
      this.photo := photo;
      this.store := store;
      filters := photo.filters;
      props := if photo.props.Some? then photo.props.value else [];
      showPropSelector := false;
    }

    /**
     * `handleFilterChange`: the editor shows the new filters and every stored
     * photo with this photo's id now carries them.
     */
    method HandleFilterChange(newFilters: Filters)
      modifies this, store
      ensures filters == newFilters && props == old(props) && showPropSelector == old(showPropSelector)
      ensures store.photos == PhotoStore.WithFilters(old(store.photos), photo.id, newFilters)
      ensures forall i :: 0 <= i < |store.photos| && store.photos[i].id == photo.id ==> store.photos[i].filters == filters
    {
      filters := newFilters;
      store.UpdatePhotoFilters(photo.id, newFilters);
    }

    /** `handleAddProp`: the new prop goes last and the picker closes. */
    method HandleAddProp(item: PropItem, newId: string)
      modifies this
      ensures props == old(props) + [NewProp(item, newId)]
      ensures !showPropSelector && filters == old(filters)
    {
      props := props + [NewProp(item, newId)];
      showPropSelector := false;
    }

    /** `handlePropChange`: the props with the updated prop's id are replaced by it. */
    method HandlePropChange(updated: PhotoProp)
      modifies this
      ensures props == ReplaceProp(old(props), updated)
      ensures filters == old(filters) && showPropSelector == old(showPropSelector)
    {
      props := ReplaceProp(props, updated);
    }

    /** `handlePropRemove`: the props with that id go, the rest keep their order. */
    method HandlePropRemove(propId: string)
      modifies this
      ensures props == IdLists.Remove(old(props), PropKey, propId)
      ensures filters == old(filters) && showPropSelector == old(showPropSelector)
    {
      props := IdLists.Remove(props, PropKey, propId);
    }

    /**
     * The picker button: it is only shown when props are enabled in the
     * settings, and each press flips the picker.
     */
    method TogglePropSelector(propsEnabled: bool)
      modifies this
      ensures showPropSelector == (if propsEnabled then !old(showPropSelector) else old(showPropSelector))
      ensures filters == old(filters) && props == old(props)
    {
      if propsEnabled {
        showPropSelector := !showPropSelector;
      }
    }

    /**
     * `handleSave`: the photo record with the editor's props and filters.
     * The record is only built; the store is not changed.
     */
    method HandleSave() returns (saved: Photo)
      ensures saved.id == photo.id && saved.url == photo.url && saved.timestamp == photo.timestamp
      ensures saved.thumbnailUrl == photo.thumbnailUrl && saved.processed == photo.processed
      ensures saved.props == Some(props) && saved.filters == filters
    {
      saved := photo.(props := Some(props), filters := filters);
    }
  }
}
