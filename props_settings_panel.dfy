/**
 * The virtual-props admin panel: the enable switch and the catalogue of
 * uploaded props.  Every handler writes `{ ...settings.props, <field> }`,
 * so the section it writes keeps whatever fields the current one has and
 * may lack a field the current one lacks.
 */
module PropsSettingsPanel {
  import opened Types
  import IdLists
  import opened AdminStore

  /** The props section; a field the section does not have is `None`. */
  datatype PropsSection = PropsSection(enabled: Option<bool>, items: Option<seq<PropItem>>)

  function EncodeItem(item: PropItem): Json
  {
    Obj(map["id" := Str(item.id), "name" := Str(item.name), "url" := Str(item.url), "category" := Str(item.category)])
  }

  function DecodeItem(j: Json): (r: Option<PropItem>)
    ensures r.Some? ==> EncodeItem(r.value) == j
  {
    if j.Obj? && j.obj.Keys == {"id", "name", "url", "category"}
       && j.obj["id"].Str? && j.obj["name"].Str? && j.obj["url"].Str? && j.obj["category"].Str?
    then Some(PropItem(j.obj["id"].s, j.obj["name"].s, j.obj["url"].s, j.obj["category"].s))
    else None
  }

  function EncodeItems(items: seq<PropItem>): (r: seq<Json>)
    ensures |r| == |items|
  {
    if items == [] then [] else [EncodeItem(items[0])] + EncodeItems(items[1..])
  }

  function DecodeItems(js: seq<Json>): (r: Option<seq<PropItem>>)
    ensures r.Some? ==> EncodeItems(r.value) == js
  {
    if js == [] then Some([])
    else match (DecodeItem(js[0]), DecodeItems(js[1..]))
      case (Some(item), Some(rest)) =>
        assert ([item] + rest)[1..] == rest;
        assert js == [js[0]] + js[1..];
        Some([item] + rest)
      case _ => None
  }

  lemma ItemRoundTrip(item: PropItem)
    ensures DecodeItem(EncodeItem(item)) == Some(item)
  {
    assert EncodeItem(item).obj.Keys == {"id", "name", "url", "category"};
  }

  lemma {:induction false} ItemsRoundTrip(items: seq<PropItem>)
    ensures DecodeItems(EncodeItems(items)) == Some(items)
  {
    if items != [] {
      var js := EncodeItems(items);
      assert js == [EncodeItem(items[0])] + EncodeItems(items[1..]);
      assert js[1..] == EncodeItems(items[1..]);
      ItemRoundTrip(items[0]);
      ItemsRoundTrip(items[1..]);
      assert items == [items[0]] + items[1..];
    }
  }

  function EncodeSection(p: PropsSection): (j: Json)
    ensures j.Obj? && j.obj.Keys == (if p.enabled.Some? then {"enabled"} else {}) + (if p.items.Some? then {"items"} else {})
  {
    var withEnabled := if p.enabled.Some? then map["enabled" := Bool(p.enabled.value)] else map[];
    Obj(if p.items.Some? then withEnabled["items" := Arr(EncodeItems(p.items.value))] else withEnabled)
  }

  /** A props section with no fields but `enabled` and `items`, each of its type. */
  function DecodeSection(j: Json): (r: Option<PropsSection>)
    ensures r.Some? ==> EncodeSection(r.value) == j
  {
    if j.Obj? && j.obj.Keys <= {"enabled", "items"}
       && ("enabled" in j.obj ==> j.obj["enabled"].Bool?)
       && ("items" in j.obj ==> j.obj["items"].Arr?)
    then
      var enabled := if "enabled" in j.obj then Some(j.obj["enabled"].b) else None;
      if "items" in j.obj then
        match DecodeItems(j.obj["items"].items)
        case Some(items) => Some(PropsSection(enabled, Some(items)))
        case None => None
      else Some(PropsSection(enabled, None))
    else None
  }

  lemma SectionRoundTrip(p: PropsSection)
    ensures DecodeSection(EncodeSection(p)) == Some(p)
  {
    if p.items.Some? {
      ItemsRoundTrip(p.items.value);
      assert EncodeSection(p).obj["items"] == Arr(EncodeItems(p.items.value));
    }
  }

  /** The settings have no props section: `settings.props` is undefined or null. */
  predicate SectionAbsent(settings: Json)
  {
    Get(settings, "props") == Undef || Get(settings, "props") == Null
  }

  /** `settings.props` as the panel spreads it: a missing section spreads no fields. */
  function PropsView(settings: Json): Option<PropsSection>
  {
    var j := Get(settings, "props");
    if j == Undef || j == Null then Some(PropsSection(None, None)) else DecodeSection(j)
  }

  /** `settings.props?.enabled ?? false`: the check box, and whether the catalogue is shown. */
  function PropsEnabled(settings: Json): (b: bool)
    requires PropsView(settings).Some?
    ensures b <==> PropsView(settings).value.enabled == Some(true)
  {
    var view := PropsView(settings).value;
    view.enabled.Some? && view.enabled.value
  }

  function PropsPatch(p: PropsSection): Json
  {
    Obj(map["props" := EncodeSection(p)])
  }

  /**
   * A section that keeps every field of the current one is installed as
   * given, and the other sections of the settings stay as they were.
   */
  lemma InstallProps(settings: Json, p: PropsSection)
    requires settings.Obj? && PropsView(settings).Some?
    requires PropsView(settings).value.enabled.Some? ==> p.enabled.Some?
    requires PropsView(settings).value.items.Some? ==> p.items.Some?
    ensures PropsView(Merge(settings, PropsPatch(p))) == Some(p)
    ensures forall k :: k in settings.obj && k != "props" ==>
              Get(Merge(settings, PropsPatch(p)), k) == settings.obj[k]
  {
    var before := Get(settings, "props");
    var section := EncodeSection(p);
    if before != Undef && before != Null {
      assert EncodeSection(PropsView(settings).value) == before;
    }
    assert Covers(before, section);
    SectionUpdate(settings, "props", section);
    SectionRoundTrip(p);
  }

  /** The default settings have props switched off and an empty catalogue. */
  lemma DefaultProps()
    ensures PropsView(DefaultSettings()) == Some(PropsSection(Some(false), Some([])))
    ensures !PropsEnabled(DefaultSettings())
  {
    SectionRoundTrip(PropsSection(Some(false), Some([])));
  }

  /** There is an extension at `i`: the last dot, with at least one character after it and no slash. */
  predicate ExtensionAt(name: string, i: int)
  {
    0 <= i < |name| - 1 && name[i] == '.' && forall j :: i < j < |name| ==> name[j] != '.' && name[j] != '/'
  }

  /** The start of the extension among the first `k` characters, given that the rest has no dot or slash. */
  function ExtensionStart(name: string, k: nat): (r: Option<nat>)
    requires k <= |name|
    requires forall j :: k <= j < |name| ==> name[j] != '.' && name[j] != '/'
    ensures r.Some? ==> ExtensionAt(name, r.value)
    ensures r.None? ==> forall i :: !ExtensionAt(name, i)
  {
    if k == 0 then None
    else if name[k - 1] == '.' then
      if k < |name| then Some(k - 1) else None
    else if name[k - 1] == '/' then None
    else ExtensionStart(name, k - 1)
  }

  /** `name.replace(/\.[^/.]+$/, "")`: drops the extension when there is one. */
  function StripExtension(name: string): (r: string)
    ensures forall i :: ExtensionAt(name, i) ==> r == name[..i]
    ensures (forall i :: !ExtensionAt(name, i)) ==> r == name
  {
    match ExtensionStart(name, |name|)
    case Some(i) =>
      ExtensionUnique(name, i);
      name[..i]
    case None => name
  }

  /** At most one position starts an extension. */
  lemma ExtensionUnique(name: string, i: int)
    requires ExtensionAt(name, i)
    ensures forall j :: ExtensionAt(name, j) ==> j == i
  {
  }

  /** Only the last extension goes; a trailing dot or a dot before a slash is kept. */
  lemma StripExamples()
    ensures StripExtension("hat.v2.png") == "hat.v2"
    ensures StripExtension("crown") == "crown"
    ensures StripExtension("glasses.") == "glasses."
    ensures StripExtension("a.b/c") == "a.b/c"
  {
    assert ExtensionAt("hat.v2.png", 6);
    assert "hat.v2.png"[..6] == "hat.v2";
    assert forall i :: !ExtensionAt("crown", i) by {
      forall i | 0 <= i < 4 ensures "crown"[i] != '.' {
      }
    }
    assert "glasses."[7] == '.';
    assert "a.b/c"[3] == '/';
  }

  /** The prop an uploaded file becomes. */
  function UploadedItem(fileName: string, dataUrl: string, id: string): (item: PropItem)
    ensures item.id == id && item.url == dataUrl && item.category == "custom"
    ensures item.name == StripExtension(fileName)
  {
    PropItem(id, StripExtension(fileName), dataUrl, "custom")
  }

  class Panel {
    const admin: AdminStore.Store

    constructor (admin: AdminStore.Store)
      ensures this.admin == admin
    {
      this.admin := admin;
    }

    /** Hands a section that keeps the current fields to `updateSettings`. */
    method Install(p: PropsSection)
      requires admin.settings.Obj? && PropsView(admin.settings).Some?
      requires PropsView(admin.settings).value.enabled.Some? ==> p.enabled.Some?
      requires PropsView(admin.settings).value.items.Some? ==> p.items.Some?
      modifies admin
      ensures admin.settings.Obj? && PropsView(admin.settings) == Some(p)
      ensures OtherSectionsKept(old(admin.settings), admin.settings, "props")
      ensures admin.isAuthenticated == old(admin.isAuthenticated)
    {
      InstallProps(admin.settings, p);
      MergeKeys(admin.settings, PropsPatch(p));
      admin.UpdateSettings(PropsPatch(p));
    }

    /**
     * `handleFileUpload`: with a file chosen, the new custom prop goes at the
     * end of the catalogue (a missing catalogue counts as empty); without
     * one nothing happens.
     */
    method UploadProp(fileName: Option<string>, dataUrl: string, id: string)
      requires admin.settings.Obj? && PropsView(admin.settings).Some?
      modifies admin
      ensures admin.settings.Obj?
      ensures OtherSectionsKept(old(admin.settings), admin.settings, "props")
      ensures admin.isAuthenticated == old(admin.isAuthenticated)
      ensures fileName.None? ==> admin.settings == old(admin.settings)
      ensures fileName.Some? ==>
                var p := PropsView(old(admin.settings)).value;
                var items := if p.items.Some? then p.items.value else [];
                PropsView(admin.settings) == Some(p.(items := Some(items + [UploadedItem(fileName.value, dataUrl, id)])))
    {
      if fileName.Some? {
        var p := PropsView(admin.settings).value;
        var items := if p.items.Some? then p.items.value else [];
        Install(p.(items := Some(items + [UploadedItem(fileName.value, dataUrl, id)])));
      }
    }

    /**
     * `handleDeleteProp`: the props with that id leave the catalogue and the
     * rest keep their order; with no props section at all the catalogue
     * becomes empty.  A section without a catalogue makes the source's
     * `items.filter` throw, so it is excluded.
     */
    method DeleteProp(id: string)
      requires admin.settings.Obj? && PropsView(admin.settings).Some?
      requires PropsView(admin.settings).value.items.Some? || SectionAbsent(admin.settings)
      modifies admin
      ensures admin.settings.Obj?
      ensures OtherSectionsKept(old(admin.settings), admin.settings, "props")
      ensures admin.isAuthenticated == old(admin.isAuthenticated)
      ensures var p := PropsView(old(admin.settings)).value;
              PropsView(admin.settings) == Some(p.(items := Some(if p.items.Some? then IdLists.Remove(p.items.value, ItemKey, id) else [])))
    {
      var p := PropsView(admin.settings).value;
      Install(p.(items := Some(if p.items.Some? then IdLists.Remove(p.items.value, ItemKey, id) else [])));
    }

    /** The enable check box; afterwards the props switch reads as the box. */
    method SetEnabled(checked: bool)
      requires admin.settings.Obj? && PropsView(admin.settings).Some?
      modifies admin
      ensures admin.settings.Obj?
      ensures OtherSectionsKept(old(admin.settings), admin.settings, "props")
      ensures admin.isAuthenticated == old(admin.isAuthenticated)
      ensures PropsView(admin.settings) == Some(PropsView(old(admin.settings)).value.(enabled := Some(checked)))
      ensures PropsEnabled(admin.settings) == checked
    {
      var p := PropsView(admin.settings).value;
      Install(p.(enabled := Some(checked)));
    }
  }
}
