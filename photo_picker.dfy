/**
  The library list's own export button (RAWExif/Picker/PhotoPicker.swift,
  `AuthorizedPhotoPicker.exportSelectedRAW()`): it exports the RAW resource
  of one selected asset to a fixed file name, and only when the download
  succeeded.
*/
module PhotoPicker {
  import opened Wrappers
  import opened Bytes
  import opened Resources
  import Collections

  /** The fixed name the export is written under, in the home directory. */
  const OutputFileName := "output.raw"

  class AuthorizedPhotoPicker {
    /** The fetched library, newest first. */
    const allPhotos: seq<Asset>
    /** The selected ids, in the iteration order of the `Set<String>` that holds them. */
    var selectedPhotos: seq<string>

    constructor (fetched: seq<Asset>)
      ensures allPhotos == fetched && selectedPhotos == []
    {
      allPhotos := fetched;
      selectedPhotos := [];
    }

    /**
      The asset exported: the first asset of the library whose id is the
      first selected id; none with no selection or no such asset.
    */
    function ChosenAsset(): (r: Option<Asset>)
      reads this
      ensures selectedPhotos == [] ==> r.None?
      ensures selectedPhotos != [] ==>
        (r.None? <==> forall i :: 0 <= i < |allPhotos| ==> allPhotos[i].id != selectedPhotos[0])
      ensures r.Some? ==> selectedPhotos != []
      ensures r.Some? ==>
        exists i :: 0 <= i < |allPhotos| && allPhotos[i] == r.value && r.value.id == selectedPhotos[0]
          && forall j :: 0 <= j < i ==> allPhotos[j].id != selectedPhotos[0]
    {
      if selectedPhotos == [] then None
      else
        var first := selectedPhotos[0];
        var k := Collections.FirstIndexWhere(allPhotos, (a: Asset) => a.id == first);
        if k.None? then None else Some(allPhotos[k.value])
    }

    /**
      `exportSelectedRAW()`. Nothing happens without a chosen asset or
      without a RAW candidate among its resources. Otherwise the resource
      is requested; a download error ends the export there, and on success
      the bytes are written to `<home>/output.raw`.
    */
    method ExportSelectedRaw(home: string, response: DownloadResponse) returns (effects: seq<Effect>)
      ensures ChosenAsset().None? ==> effects == []
      ensures ChosenAsset().Some? && SelectRawResource(ChosenAsset().value.resources).None? ==> effects == []
      ensures ChosenAsset().Some? && SelectRawResource(ChosenAsset().value.resources).Some? ==>
        var resource := SelectRawResource(ChosenAsset().value.resources).value;
        effects == [RequestData(resource)]
          + (if response.error.Some? then [] else [WriteFile(home + "/" + OutputFileName, Concat(response.chunks))])
    {
      if selectedPhotos == [] {
        return [];
      }
      var first := selectedPhotos[0];
      var asset := Collections.FirstWhere(allPhotos, (a: Asset) => a.id == first);
      if asset.None? {
        return [];
      }
      var resource := SelectRawResource(asset.value.resources);
      if resource.None? {
        return [];
      }
      effects := [RequestData(resource.value)];
      var data := Accumulate(response.chunks);
      if response.error.Some? {
        return;
      }
      var path := home + "/" + OutputFileName;
      effects := effects + [WriteFile(path, data)];
    }
  }
}
