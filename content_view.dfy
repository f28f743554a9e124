/**
  The main window (RAWExif/ContentView.swift): the lens-override picker,
  its reconciliation with the catalog, and `downloadRAW(for:)`, which
  exports one asset's RAW resource and, with an override chosen, rewrites
  its lens tags with ExifTool.
*/
module ContentView {
  import opened Wrappers
  import opened Interpolation
  import opened Bytes
  import opened Uuids
  import opened Lenses
  import opened Resources
  import Preferences

  /** `SelectedLens`: keep the camera's lens tags, or overwrite them with a preset. */
  datatype SelectedLens = Same | Custom(lens: Lens)

  /** `SelectedLens.id`. */
  function Id(s: SelectedLens): string {
    match s
    case Same => "same"
    case Custom(lens) => UuidString(lens.id)
  }

  /**
    The id tells selections apart: it is shared by `.same` alone, and by
    two overrides exactly when their lenses carry the same UUID.
  */
  lemma IdIdentifies(a: SelectedLens, b: SelectedLens)
    ensures Id(a) == Id(b) <==>
      (a.Same? && b.Same?) || (a.Custom? && b.Custom? && a.lens.id == b.lens.id)
  {
    if a.Custom? && b.Custom? && Id(a) == Id(b) {
      UuidStringInjective(a.lens.id, b.lens.id);
    }
    if a.Same? && b.Custom? {
      assert |Id(a)| != |Id(b)|;
    }
    if a.Custom? && b.Same? {
      assert |Id(a)| != |Id(b)|;
    }
  }

  /**
    The selection after the catalog changes: an override whose lens is no
    longer in the catalog falls back to `.same`; any other selection stays.
  */
  function Reconciled(s: SelectedLens, lenses: seq<Lens>): (r: SelectedLens)
    ensures r == s || r == Same
    ensures r.Custom? ==> r.lens in lenses
    ensures s.Custom? && s.lens in lenses ==> r == s
  {
    match s
    case Same => Same
    case Custom(lens) => if lens in lenses then s else Same
  }

  /** Deleting the overriding lens from the preferences resets the override to `.same`. */
  lemma DeleteResetsOverride(s: SelectedLens, lenses: seq<Lens>, id: Uuid)
    requires s.Custom? && s.lens.id == id
    ensures Reconciled(s, Preferences.RemoveAllWithId(lenses, id)) == Same
  {
    var rest := Preferences.RemoveAllWithId(lenses, id);
    assert multiset(rest)[s.lens] == 0;
  }

  /** Deleting some other lens keeps an override that was in the catalog. */
  lemma DeleteKeepsOtherOverride(s: SelectedLens, lenses: seq<Lens>, id: Uuid)
    requires s.Custom? && s.lens in lenses && s.lens.id != id
    ensures Reconciled(s, Preferences.RemoveAllWithId(lenses, id)) == s
  {
    var rest := Preferences.RemoveAllWithId(lenses, id);
    assert multiset(lenses)[s.lens] > 0;
    assert multiset(rest)[s.lens] > 0;
  }

  /** Saving a lens never disturbs a selection that fits the catalog. */
  lemma SaveKeepsSelection(s: SelectedLens, lenses: seq<Lens>, added: Lens)
    requires Reconciled(s, lenses) == s
    ensures Reconciled(s, lenses + [added]) == s
  {
    if s.Custom? {
      assert s.lens in lenses + [added];
    }
  }

  /** The ExifTool tags an override writes. */
  const LensTagKeys: set<string> := {
    "LensInfo", "LensMake", "LensModel", "FocalLength", "MinFocalLength",
    "MaxFocalLength", "FocalLengthIn35mmFormat", "FNumber" }

  /**
    The tag dictionary built for an override. `focalLength35` is the value
    given to `FocalLengthIn35mmFormat`; the source supplies no scale factor
    for it, so the model leaves it open.
  */
  function LensTags(lens: Lens, showReal: real -> string, focalLength35: string): (m: map<string, string>)
    ensures m.Keys == LensTagKeys
    ensures m["LensInfo"] == ExifInfoString(lens, showReal)
    ensures m["LensMake"] == lens.make && m["LensModel"] == lens.model
    ensures m["FocalLength"] == ExifFocalLengthString(lens)
    ensures m["MinFocalLength"] == IntString(lens.focalLengthMin)
    ensures m["MaxFocalLength"] == IntString(lens.focalLengthMax)
    ensures m["FocalLengthIn35mmFormat"] == focalLength35
    ensures m["FNumber"] == FStopString(lens, showReal)
  {
    map[
      "LensInfo" := ExifInfoString(lens, showReal),
      "LensMake" := lens.make,
      "LensModel" := lens.model,
      "FocalLength" := ExifFocalLengthString(lens),
      "MinFocalLength" := IntString(lens.focalLengthMin),
      "MaxFocalLength" := IntString(lens.focalLengthMax),
      "FocalLengthIn35mmFormat" := focalLength35,
      "FNumber" := FStopString(lens, showReal)]
  }

  /** An override writes exactly eight tags. */
  lemma LensTagCount(lens: Lens, showReal: real -> string, focalLength35: string)
    ensures |LensTags(lens, showReal, focalLength35)| == 8
  {
    assert |LensTagKeys| == 8;
  }

  /**
    The lens is recoverable from the tags it writes: make, model, the
    nominal focal length and both ends of the range, the range also from
    the `LensInfo` composite.
  */
  lemma LensTagsReadBack(lens: Lens, showReal: real -> string, focalLength35: string)
    requires lens.focalLengthMin >= 0
    ensures var m := LensTags(lens, showReal, focalLength35);
      && m["LensMake"] == lens.make && m["LensModel"] == lens.model
      && ParseInt(m["FocalLength"][..|m["FocalLength"]| - 5]) == Some(lens.focalLength)
      && ParseInt(m["MinFocalLength"]) == Some(lens.focalLengthMin)
      && ParseInt(m["MaxFocalLength"]) == Some(lens.focalLengthMax)
      && ParseFocalRange(FirstWord(m["LensInfo"])) == Some((lens.focalLengthMin, lens.focalLengthMax))
  {
    IntStringRoundTrip(lens.focalLengthMin);
    IntStringRoundTrip(lens.focalLengthMax);
    LensInfoReadsBack(lens, showReal);
  }

  /** The tag dictionary of `downloadRAW`, filled one key at a time. */
  method NewExifData(lens: Lens, showReal: real -> string, focalLength35: string)
    returns (newExifData: map<string, string>)
    ensures newExifData == LensTags(lens, showReal, focalLength35)
  {
    newExifData := map[];
    newExifData := newExifData["LensInfo" := ExifInfoString(lens, showReal)];
    newExifData := newExifData["LensMake" := lens.make];
    newExifData := newExifData["LensModel" := lens.model];
    newExifData := newExifData["FocalLength" := ExifFocalLengthString(lens)];
    newExifData := newExifData["MinFocalLength" := IntString(lens.focalLengthMin)];
    newExifData := newExifData["MaxFocalLength" := IntString(lens.focalLengthMax)];
    newExifData := newExifData["FocalLengthIn35mmFormat" := focalLength35];
    newExifData := newExifData["FNumber" := FStopString(lens, showReal)];
  }

  class ContentView {
    var lenses: seq<Lens>
    var selectedLens: SelectedLens

    /** The window as it opens on the stored catalog, with no override. */
    constructor (stored: seq<Lens>)
      ensures lenses == stored && selectedLens == Same
    {
      lenses := stored;
      selectedLens := Same;
    }

    /**
      The shared catalog becomes `newValue` and the `onChange(of: lenses)`
      handler runs: the override stays only while its lens is in the catalog.
    */
    method LensesChanged(newValue: seq<Lens>)
      modifies this
      ensures lenses == newValue
      ensures selectedLens == Reconciled(old(selectedLens), newValue)
    {
      lenses := newValue;
      match selectedLens
      case Same =>
        return;
      case Custom(lens) =>
        if lens !in lenses {
          selectedLens := Same;
        }
    }

    /**
      `downloadRAW(for:)` for an asset with the given resources. Without a
      RAW candidate nothing happens. Otherwise the resource is requested,
      and whatever arrived is written to `<home>/<originalFilename>` even
      if the download failed (the error is only logged); with an override,
      ExifTool then reads the file and updates it with the lens tags.
      `home` is `NSHomeDirectory()`.
    */
    method DownloadRaw(
      resources: seq<Resource>, home: string, response: DownloadResponse,
      showReal: real -> string, focalLength35: string)
      returns (effects: seq<Effect>)
      ensures effects == [] <==> SelectRawResource(resources).None?
      ensures SelectRawResource(resources).Some? ==>
        var resource := SelectRawResource(resources).value;
        var path := home + "/" + resource.originalFilename;
        effects == [RequestData(resource), WriteFile(path, Concat(response.chunks))]
          + (match selectedLens
             case Same => []
             case Custom(lens) => [ReadTags(path), UpdateTags(path, LensTags(lens, showReal, focalLength35))])
      ensures selectedLens.Same? ==> forall e :: e in effects ==> !e.ReadTags? && !e.UpdateTags?
    {
      var found := SelectRawResource(resources);
      if found.None? {
        return [];
      }
      var resource := found.value;
      effects := [RequestData(resource)];
      var data := Accumulate(response.chunks);
      var path := home + "/" + resource.originalFilename;
      effects := effects + [WriteFile(path, data)];
      match selectedLens
      case Same =>
        return;
      case Custom(lens) =>
        var newExifData := NewExifData(lens, showReal, focalLength35);
        effects := effects + [ReadTags(path), UpdateTags(path, newExifData)];
    }
  }
}
