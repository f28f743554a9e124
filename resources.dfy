/**
  What the export code sees of a photo-library asset: its resources, each
  with a role, the parsed uniform type (if `UTType(_:)` accepts the
  identifier) and an original file name; the rule that picks the RAW one
  (RAWExif/ContentView.swift and RAWExif/Picker/PhotoPicker.swift carry the
  same closure); and the effects an export asks of the host.
*/
module Resources {
  import opened Wrappers
  import opened Bytes
  import Collections

  /** The six image families whose conformance the code asks about. */
  datatype ImageKind = RawImage | Jpeg | Png | Tiff | Heic | Heif

  /** A parsed `UTType`, reduced to which of the six families it conforms to. */
  datatype UtType = UtType(conformsTo: set<ImageKind>)

  /** `PHAssetResourceType`, with the cases the code does not name folded together. */
  datatype ResourceRole = Photo | AlternatePhoto | FullSizePhoto | OtherRole

  datatype Resource = Resource(role: ResourceRole, utType: Option<UtType>, originalFilename: string)

  /** A `PHAsset`: its `id` (the `localIdentifier`) and `assetResources(for:)`. */
  datatype Asset = Asset(id: string, resources: seq<Resource>)

  /** The `first(where:)` closure: the alternate photo, or a type that parses and conforms to RAW. */
  predicate IsRawCandidate(r: Resource) {
    if r.role == AlternatePhoto then true
    else if r.utType.None? then false
    else RawImage in r.utType.value.conformsTo
  }

  /**
    The resource exported: the first one in list order that is a RAW
    candidate; none when no resource qualifies.
  */
  function SelectRawResource(resources: seq<Resource>): (r: Option<Resource>)
    ensures r.None? <==> forall i :: 0 <= i < |resources| ==> !IsRawCandidate(resources[i])
    ensures r.Some? ==>
      exists k :: 0 <= k < |resources| && resources[k] == r.value && IsRawCandidate(resources[k])
        && forall j :: 0 <= j < k ==> !IsRawCandidate(resources[j])
  {
    var k := Collections.FirstIndexWhere(resources, IsRawCandidate);
    if k.None? then None else Some(resources[k.value])
  }

  /**
    The alternate-photo role does not outrank the type: a RAW-typed
    resource listed before the alternate photo is the one selected.
  */
  lemma EarlierRawTypeWins(resources: seq<Resource>, i: nat, j: nat)
    requires i < j < |resources|
    requires resources[i].role != AlternatePhoto
    requires resources[i].utType.Some? && RawImage in resources[i].utType.value.conformsTo
    requires resources[j].role == AlternatePhoto
    requires forall k :: 0 <= k < i ==> !IsRawCandidate(resources[k])
    ensures SelectRawResource(resources) == Some(resources[i])
  {
    var r := Collections.FirstIndexWhere(resources, IsRawCandidate);
    assert IsRawCandidate(resources[i]);
    assert r.Some? && !(r.value < i) && !(r.value > i);
  }

  /** How a `requestData` call ends: the chunks delivered and the completion error, if any. */
  datatype DownloadResponse = DownloadResponse(chunks: seq<seq<byte>>, error: Option<string>)

  /** What an export asks of the photo library, the file system and ExifTool, in order. */
  datatype Effect =
    | RequestData(resource: Resource)
    | WriteFile(path: string, data: seq<byte>)
    | ReadTags(path: string)
    | UpdateTags(path: string, tags: map<string, string>)
}
