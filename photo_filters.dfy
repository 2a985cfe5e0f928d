/**
 * The filter panel of the editor: editing one slider, choosing a preset,
 * and which preset button shows as active.  Neither handler keeps state;
 * each computes the filters it passes to `onChange`.
 */
module FilterPanel {
  import opened Types
  import FilterPresets

  datatype Field = Brightness | Contrast | Saturation | Sepia | Grayscale | Blur

  function Get(f: Filters, k: Field): real
  {
    match k
    case Brightness => f.brightness
    case Contrast => f.contrast
    case Saturation => f.saturation
    case Sepia => f.sepia
    case Grayscale => f.grayscale
    case Blur => f.blur
  }

  /** The upper end of each slider; every slider starts at 0. */
  function SliderMax(k: Field): real
  {
    match k
    case Brightness | Contrast | Saturation => 2.0
    case Sepia | Grayscale => 1.0
    case Blur => 10.0
  }

  predicate InSliderRange(f: Filters)
  {
    forall k: Field :: 0.0 <= Get(f, k) <= SliderMax(k)
  }

  /** `handleFilterChange(key, value)`: the filters passed on set `key` and drop the preset tag. */
  function HandleFilterChange(f: Filters, k: Field, value: real): (r: Filters)
    ensures Get(r, k) == value
    ensures forall k' :: k' != k ==> Get(r, k') == Get(f, k')
    ensures r.preset == None
  {
    match k
    case Brightness => f.(brightness := value, preset := None)
    case Contrast => f.(contrast := value, preset := None)
    case Saturation => f.(saturation := value, preset := None)
    case Sepia => f.(sepia := value, preset := None)
    case Grayscale => f.(grayscale := value, preset := None)
    case Blur => f.(blur := value, preset := None)
  }

  /** `filterPresets.find(p => p.name === name)`: the first entry with that name. */
  function FindPreset(table: seq<FilterPresets.FilterPreset>, name: string): (r: Option<FilterPresets.FilterPreset>)
    ensures r.None? <==> forall i :: 0 <= i < |table| ==> table[i].name != name
    ensures r.Some? ==> exists i :: 0 <= i < |table| && table[i] == r.value && table[i].name == name &&
                                    forall j :: 0 <= j < i ==> table[j].name != name
  {
    if table == [] then None
    else if table[0].name == name then Some(table[0])
    else
      var r := FindPreset(table[1..], name);
      assert r.Some? ==> exists i :: 0 <= i < |table[1..]| && table[1..][i] == r.value && table[1..][i].name == name &&
                                     forall j :: 0 <= j < i ==> table[1..][j].name != name;
      assert forall i :: 0 < i < |table| ==> table[i] == table[1..][i - 1];
      r
  }

  /**
   * `handlePresetChange(name)`: the preset's six values tagged with its name,
   * or no call to `onChange` at all (`None`) for a name not in the table.
   */
  function HandlePresetChange(name: string): (r: Option<Filters>)
    ensures r.None? <==> forall i :: 0 <= i < |FilterPresets.Table()| ==> FilterPresets.Table()[i].name != name
    ensures r.Some? ==> r.value.preset == Some(name)
  {
    match FindPreset(FilterPresets.Table(), name)
    case None => None
    case Some(p) => Some(p.filters.(preset := Some(name)))
  }

  /** The preset button drawn as selected. */
  predicate IsActive(f: Filters, p: FilterPresets.FilterPreset)
  {
    f.preset == Some(p.name)
  }

  predicate DistinctNames(table: seq<FilterPresets.FilterPreset>)
  {
    forall i, j :: 0 <= i < j < |table| ==> table[i].name != table[j].name
  }

  /** In a table with distinct names the lookup finds the one entry carrying the name. */
  lemma {:induction false} FindDistinct(table: seq<FilterPresets.FilterPreset>, name: string, i: nat)
    requires DistinctNames(table)
    requires i < |table| && table[i].name == name
    ensures FindPreset(table, name) == Some(table[i])
  {
    if i > 0 {
      assert table[0].name != table[i].name;
      assert table[1..][i - 1] == table[i];
      FindDistinct(table[1..], name, i - 1);
    }
  }

  /** The lookup of a known name finds its entry: the table's names are distinct. */
  lemma PresetFound(name: string, i: nat)
    requires i < |FilterPresets.Table()| && FilterPresets.Table()[i].name == name
    ensures FindPreset(FilterPresets.Table(), name) == Some(FilterPresets.Table()[i])
  {
    FindDistinct(FilterPresets.Table(), name, i);
  }

  /** A known preset sets all six values from its table entry. */
  lemma PresetValues(name: string, i: nat)
    requires i < |FilterPresets.Table()| && FilterPresets.Table()[i].name == name
    ensures HandlePresetChange(name) == Some(FilterPresets.Table()[i].filters.(preset := Some(name)))
    ensures forall k :: Get(HandlePresetChange(name).value, k) == Get(FilterPresets.Table()[i].filters, k)
  {
    PresetFound(name, i);
    Retagged(FilterPresets.Table()[i].filters, Some(name));
  }

  /** The preset tag is not one of the six values. */
  lemma Retagged(f: Filters, tag: Option<string>)
    ensures forall k :: Get(f.(preset := tag), k) == Get(f, k)
  {
  }

  /** After choosing a known preset exactly its button is active. */
  lemma PresetActiveExactly(name: string, i: nat)
    requires i < |FilterPresets.Table()| && FilterPresets.Table()[i].name == name
    ensures HandlePresetChange(name).Some?
    ensures forall j :: 0 <= j < |FilterPresets.Table()| ==>
              (IsActive(HandlePresetChange(name).value, FilterPresets.Table()[j]) <==> j == i)
  {
    PresetValues(name, i);
  }

  /** A manual edit leaves no preset button active. */
  lemma ManualEditDeactivates(f: Filters, k: Field, value: real, p: FilterPresets.FilterPreset)
    ensures !IsActive(HandleFilterChange(f, k, value), p)
  {
  }

  /** Every preset keeps every value within its slider's range. */
  lemma PresetsWithinSliders(name: string)
    requires HandlePresetChange(name).Some?
    ensures InSliderRange(HandlePresetChange(name).value)
  {
    var t := FilterPresets.Table();
    var i :| 0 <= i < |t| && t[i].name == name;
    PresetValues(name, i);
    SliderBounds(t[i].filters.(preset := Some(name)));
  }

  lemma SliderBounds(f: Filters)
    requires 0.0 <= f.brightness <= 2.0 && 0.0 <= f.contrast <= 2.0 && 0.0 <= f.saturation <= 2.0
    requires 0.0 <= f.sepia <= 1.0 && 0.0 <= f.grayscale <= 1.0 && 0.0 <= f.blur <= 10.0
    ensures InSliderRange(f)
  {
  }

  /** A slider value within its range keeps the filters within range. */
  lemma FilterChangeWithinSliders(f: Filters, k: Field, value: real)
    requires InSliderRange(f) && 0.0 <= value <= SliderMax(k)
    ensures InSliderRange(HandleFilterChange(f, k, value))
  {
    var r := HandleFilterChange(f, k, value);
    forall k' ensures 0.0 <= Get(r, k') <= SliderMax(k') {
      if k' != k {
        assert Get(r, k') == Get(f, k');
      }
    }
  }
}
