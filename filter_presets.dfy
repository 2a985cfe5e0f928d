/** The named filter presets offered in the editor. */
module FilterPresets {
  import opened Types

  datatype FilterPreset = FilterPreset(name: string, icon: string, filters: Filters)

  function Values(brightness: real, contrast: real, saturation: real, sepia: real, grayscale: real, blur: real): Filters
  {
    Filters(brightness, contrast, saturation, sepia, grayscale, blur, None)
  }

  /**
   * The preset table, in display order.  Names are pairwise distinct, every
   * value lies within its slider's range, "Normal" is the identity and
   * "Soft" is the only preset that blurs.
   */
  function Table(): (t: seq<FilterPreset>)
    ensures |t| == 8
    ensures forall i, j :: 0 <= i < j < |t| ==> t[i].name != t[j].name
    ensures t[0].name == "Normal" && t[0].filters == IdentityFilters
    ensures t[2].name == "B&W" && t[2].filters.saturation == 0.0 && t[2].filters.grayscale == 1.0
    ensures forall i :: 0 <= i < |t| ==>
              var f := t[i].filters;
              && 0.0 <= f.brightness <= 2.0 && 0.0 <= f.contrast <= 2.0 && 0.0 <= f.saturation <= 2.0
              && 0.0 <= f.sepia <= 1.0 && 0.0 <= f.grayscale <= 1.0 && 0.0 <= f.blur <= 10.0
              && f.preset == None
    ensures forall i :: 0 <= i < |t| ==> (t[i].filters.blur != 0.0 <==> t[i].name == "Soft")
    ensures t[6].name == "Soft" && t[6].filters.blur == 1.5
  {
    [ FilterPreset("Normal", "\U{1F31F}", Values(1.0, 1.0, 1.0, 0.0, 0.0, 0.0)),
      FilterPreset("Vintage", "\U{1F4F7}", Values(1.1, 0.9, 0.8, 0.3, 0.1, 0.0)),
      FilterPreset("B&W", "\U{26AB}", Values(1.0, 1.2, 0.0, 0.0, 1.0, 0.0)),
      FilterPreset("Warm", "\U{1F305}", Values(1.1, 1.1, 1.2, 0.2, 0.0, 0.0)),
      FilterPreset("Cool", "\U{2744}\U{FE0F}", Values(1.0, 1.1, 0.9, 0.0, 0.1, 0.0)),
      FilterPreset("Sharp", "\U{2728}", Values(1.1, 1.3, 1.1, 0.0, 0.0, 0.0)),
      FilterPreset("Soft", "\U{1F338}", Values(1.1, 0.9, 0.9, 0.1, 0.0, 1.5)),
      FilterPreset("Drama", "\U{1F3AD}", Values(1.1, 1.4, 1.2, 0.0, 0.1, 0.0)) ]
  }
}
