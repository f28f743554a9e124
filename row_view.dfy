/**
  The resource-type summary of a row in the photo list
  (RAWExif/Picker/PhotoPickerListRowView.swift, `assetTypes()`): one label
  per resource whose type is known, in resource order, joined by `", "`,
  or `"Unknown"` when no resource has a label.
*/
module PhotoPickerListRow {
  import opened Wrappers
  import opened Resources

  /** The order in which conformance is tested. */
  const Priority: seq<ImageKind> := [RawImage, Jpeg, Png, Tiff, Heic, Heif]

  function KindLabel(k: ImageKind): string {
    match k
    case RawImage => "RAW"
    case Jpeg => "JPEG"
    case Png => "PNG"
    case Tiff => "TIFF"
    case Heic => "HEIC"
    case Heif => "HEIF"
  }

  /**
    The `compactMap` closure: no label for a type that does not parse;
    otherwise the label of the first family, in priority order, the type
    conforms to, and none if it conforms to none of them.
  */
  function Label(r: Resource): (result: Option<string>)
    ensures result.None? <==> r.utType.None? || r.utType.value.conformsTo == {}
    ensures result.Some? ==>
      exists p :: 0 <= p < |Priority| && result.value == KindLabel(Priority[p])
        && Priority[p] in r.utType.value.conformsTo
        && forall q :: 0 <= q < p ==> Priority[q] !in r.utType.value.conformsTo
  {
    if r.utType.None? then None
    else
      var uti := r.utType.value.conformsTo;
      assert Priority == [RawImage, Jpeg, Png, Tiff, Heic, Heif];
      if RawImage in uti then assert KindLabel(Priority[0]) == "RAW"; Some("RAW")
      else if Jpeg in uti then assert KindLabel(Priority[1]) == "JPEG"; Some("JPEG")
      else if Png in uti then assert KindLabel(Priority[2]) == "PNG"; Some("PNG")
      else if Tiff in uti then assert KindLabel(Priority[3]) == "TIFF"; Some("TIFF")
      else if Heic in uti then assert KindLabel(Priority[4]) == "HEIC"; Some("HEIC")
      else if Heif in uti then assert KindLabel(Priority[5]) == "HEIF"; Some("HEIF")
      else
        assert forall k: ImageKind :: k in uti ==> k.RawImage? || k.Jpeg? || k.Png? || k.Tiff? || k.Heic? || k.Heif?;
        assert uti == {};
        None
  }

  predicate IsKindLabel(s: string) {
    s in {"RAW", "JPEG", "PNG", "TIFF", "HEIC", "HEIF"}
  }

  /** `resources.compactMap(...)`: the labels, in resource order. */
  function Labels(resources: seq<Resource>): (labels: seq<string>)
    ensures |labels| <= |resources|
    ensures forall i :: 0 <= i < |labels| ==> IsKindLabel(labels[i])
    ensures labels == [] <==> forall i :: 0 <= i < |resources| ==> Label(resources[i]).None?
  {
    if resources == [] then []
    else
      var rest := Labels(resources[1..]);
      assert forall i :: 1 <= i < |resources| ==> resources[i] == resources[1..][i - 1];
      match Label(resources[0])
      case None => rest
      case Some(l) => [l] + rest
  }

  /** A resource contributes its own label, if it has one. */
  lemma LabelsOfOne(r: Resource)
    ensures Labels([r]) == if Label(r).Some? then [Label(r).value] else []
  {
    assert [r][1..] == [];
  }

  /**
    The labels of two runs of resources are the labels of the first run
    followed by those of the second: with `LabelsOfOne`, the labels are
    the resources' own labels in resource order.
  */
  lemma {:induction false} LabelsAppend(a: seq<Resource>, b: seq<Resource>)
    ensures Labels(a + b) == Labels(a) + Labels(b)
  {
    if a == [] {
      assert a + b == b;
    } else {
      assert (a + b)[0] == a[0];
      assert (a + b)[1..] == a[1..] + b;
      LabelsAppend(a[1..], b);
    }
  }

  /** `parts.joined(separator: sep)`. */
  function Join(parts: seq<string>, sep: string): string {
    if parts == [] then ""
    else if |parts| == 1 then parts[0]
    else parts[0] + sep + Join(parts[1..], sep)
  }

  /** `assetTypes()`. */
  function AssetTypes(resources: seq<Resource>): string {
    var labels := Labels(resources);
    if |labels| < 1 then "Unknown" else Join(labels, ", ")
  }

  lemma {:induction false} JoinStartsWithFirst(parts: seq<string>, sep: string)
    requires parts != [] && parts[0] != ""
    ensures Join(parts, sep) != "" && Join(parts, sep)[0] == parts[0][0]
  {
  }

  /**
    The summary is never empty, and it reads `"Unknown"` exactly when no
    resource contributes a label.
  */
  lemma AssetTypesUnknownIff(resources: seq<Resource>)
    ensures AssetTypes(resources) != ""
    ensures AssetTypes(resources) == "Unknown" <==> Labels(resources) == []
  {
    var labels := Labels(resources);
    if labels != [] {
      assert IsKindLabel(labels[0]);
      JoinStartsWithFirst(labels, ", ");
      assert AssetTypes(resources)[0] != 'U';
    }
  }

  // ---------------------------------------------------------------------
  // Splitting the summary back into its labels

  /** The pieces of `s` between occurrences of `", "`. */
  function Fields(s: string): (f: seq<string>)
    ensures f != []
  {
    if s == [] then [""]
    else if |s| >= 2 && s[..2] == ", " then [""] + Fields(s[2..])
    else
      var rest := Fields(s[1..]);
      [[s[0]] + rest[0]] + rest[1..]
  }

  lemma {:induction false} FieldsOfPrefix(w: string, t: string)
    requires forall i :: 0 <= i < |w| ==> w[i] != ','
    ensures Fields(w + t) == [w + Fields(t)[0]] + Fields(t)[1..]
  {
    if w != [] {
      var s := w + t;
      assert s[1..] == w[1..] + t;
      assert s[0] == w[0] && s[0] != ',';
      assert !(|s| >= 2 && s[..2] == ", ") by {
        if |s| >= 2 { assert s[..2][0] == s[0]; }
      }
      FieldsOfPrefix(w[1..], t);
      assert [s[0]] + (w[1..] + Fields(t)[0]) == w + Fields(t)[0];
    } else {
      assert w + t == t;
      assert w + Fields(t)[0] == Fields(t)[0];
      assert Fields(t) == [Fields(t)[0]] + Fields(t)[1..];
    }
  }

  lemma {:induction false} FieldsOfJoin(parts: seq<string>)
    requires parts != []
    requires forall i, j :: 0 <= i < |parts| && 0 <= j < |parts[i]| ==> parts[i][j] != ','
    ensures Fields(Join(parts, ", ")) == parts
  {
    if |parts| == 1 {
      FieldsOfPrefix(parts[0], "");
      assert parts[0] + "" == parts[0] && Fields("") == [""];
      assert Fields(parts[0]) == [parts[0] + ""] + [];
      assert parts == [parts[0]];
      assert Join(parts, ", ") == parts[0];
    } else {
      var tail := Join(parts[1..], ", ");
      FieldsOfJoin(parts[1..]);
      FieldsOfPrefix(parts[0], ", " + tail);
      assert (", " + tail)[..2] == ", " && (", " + tail)[2..] == tail;
      assert Fields(", " + tail) == [""] + parts[1..];
      assert Join(parts, ", ") == parts[0] + (", " + tail);
      assert parts[0] + Fields(", " + tail)[0] == parts[0];
      assert Fields(", " + tail)[1..] == parts[1..];
      assert parts == [parts[0]] + parts[1..];
    }
  }

  /**
    A summary that is not `"Unknown"` splits at `", "` into exactly the
    labels of the resources, in resource order.
  */
  lemma AssetTypesSplitsIntoLabels(resources: seq<Resource>)
    requires Labels(resources) != []
    ensures Fields(AssetTypes(resources)) == Labels(resources)
  {
    var labels := Labels(resources);
    forall i, j | 0 <= i < |labels| && 0 <= j < |labels[i]|
      ensures labels[i][j] != ','
    {
      assert IsKindLabel(labels[i]);
    }
    FieldsOfJoin(labels);
  }
}
