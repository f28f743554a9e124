/**
  The `Lens` preset (RAWExif/Preferences/Lens.swift): the eight values the
  user enters, an identifier, and the strings derived from them for display
  and for the EXIF tags.

  Swift prints a `Double` with its shortest round-tripping description; that
  printer is not modelled and is the parameter `showReal` of every string
  built from an f-stop.
*/
module Lenses {
  import opened Wrappers
  import opened Interpolation
  import opened Uuids
  import Collections

  datatype Lens = Lens(
    make: string,
    model: string,
    focalLength: int,
    focalLengthMin: int,
    focalLengthMax: int,
    fStop: real,
    fStopMin: real,
    fStopMax: real,
    id: Uuid)

  /** `imageFocalLengthString`: the focal length in decimal, then `mm`. */
  function ImageFocalLengthString(l: Lens): (r: string)
    ensures |r| >= 3 && r[|r| - 2..] == "mm"
    ensures ParseInt(r[..|r| - 2]) == Some(l.focalLength)
  {
    var n := IntString(l.focalLength);
    IntStringRoundTrip(l.focalLength);
    assert (n + "mm")[..|n|] == n;
    n + "mm"
  }

  /** `exifFocalLengthString`: the focal length in decimal, then `.0 mm`. */
  function ExifFocalLengthString(l: Lens): (r: string)
    ensures |r| >= 6 && r[|r| - 5..] == ".0 mm"
    ensures ParseInt(r[..|r| - 5]) == Some(l.focalLength)
  {
    var n := IntString(l.focalLength);
    IntStringRoundTrip(l.focalLength);
    assert (n + ".0 mm")[..|n|] == n;
    n + ".0 mm"
  }

  /** What `exifFocalLength35String` hands back: a string, and whether it hit `assertionFailure()`. */
  datatype Guarded = Guarded(value: string, assertionFailed: bool)

  /** `Double(focalLength) * scaleFactor`, taken exactly. */
  function Scaled(focalLength: int, factor: real): real {
    focalLength as real * factor
  }

  /**
    `exifFocalLength35String(scaleFactor:)`. `parseDouble` stands for
    `Double(_:)` on strings; the product of the focal length and the scale
    factor is taken exactly and written by `%.1f` (`OneDecimal`).
    A scale factor that does not parse trips the assertion and yields `""`.
  */
  function ExifFocalLength35String(
    l: Lens, scaleFactor: string, parseDouble: string -> Option<real>): (r: Guarded)
    ensures r.assertionFailed <==> parseDouble(scaleFactor).None?
    ensures r.assertionFailed ==> r.value == ""
    ensures !r.assertionFailed ==>
      r.value == OneDecimal(Scaled(l.focalLength, parseDouble(scaleFactor).value)) + " mm"
  {
    var factor := parseDouble(scaleFactor);
    if factor.None? then Guarded("", true)
    else Guarded(OneDecimal(Scaled(l.focalLength, factor.value)) + " mm", false)
  }

  /**
    With the scale factor `"1"` the 35 mm equivalent is the nominal focal
    length, written as `exifFocalLengthString` writes it, provided `"1"`
    parses as one.
  */
  lemma UnitScaleFocalLength35(l: Lens, parseDouble: string -> Option<real>)
    requires parseDouble("1") == Some(1.0)
    ensures ExifFocalLength35String(l, "1", parseDouble) == Guarded(ExifFocalLengthString(l), false)
  {
    assert Scaled(l.focalLength, 1.0) == l.focalLength as real;
    OneDecimalOfWhole(l.focalLength);
  }

  /** `fullFocalLengthString`: `<min>mm` for a prime lens, `<min>-<max>mm` for a zoom. */
  function FullFocalLengthString(l: Lens): (r: string)
    ensures |r| >= 3 && r[|r| - 2..] == "mm"
    ensures l.focalLengthMin == l.focalLengthMax <==> r == IntString(l.focalLengthMin) + "mm"
  {
    if l.focalLengthMin == l.focalLengthMax then IntString(l.focalLengthMin) + "mm"
    else IntString(l.focalLengthMin) + "-" + IntString(l.focalLengthMax) + "mm"
  }

  /** `exifFStopString`: `f/<min>` when both f-stops agree, `f/<min>-<max>` otherwise. */
  function ExifFStopString(l: Lens, showReal: real -> string): (r: string)
    ensures |r| >= 2 && r[..2] == "f/"
    ensures l.fStopMin == l.fStopMax <==> r == "f/" + showReal(l.fStopMin)
  {
    if l.fStopMin == l.fStopMax then "f/" + showReal(l.fStopMin)
    else "f/" + showReal(l.fStopMin) + "-" + showReal(l.fStopMax)
  }

  /** `fStopString`: the nominal f-stop as Swift prints a `Double` (the `FNumber` tag). */
  function FStopString(l: Lens, showReal: real -> string): string {
    showReal(l.fStop)
  }

  /** `fStopRangeString`: always the two-value form `f/<min> - f/<max>`. */
  function FStopRangeString(l: Lens, showReal: real -> string): string {
    "f/" + showReal(l.fStopMin) + " - f/" + showReal(l.fStopMax)
  }

  /** `exifInfoString`, the `LensInfo` tag: the focal range, a space, the f-stop range. */
  function ExifInfoString(l: Lens, showReal: real -> string): string {
    FullFocalLengthString(l) + " " + ExifFStopString(l, showReal)
  }

  /** `displayString`, the label of the lens in the override picker. */
  function DisplayString(l: Lens, showReal: real -> string): string {
    l.make + " " + l.model + " " + FullFocalLengthString(l) + " " + ExifFStopString(l, showReal)
  }

  // ---------------------------------------------------------------------
  // Reading the focal range back

  predicate IsDash(c: char) { c == '-' }

  predicate IsSpace(c: char) { c == ' ' }

  /** Inverse of `FullFocalLengthString`: the pair (min, max) a range string names. */
  function ParseFocalRange(s: string): Option<(int, int)> {
    if |s| < 2 || s[|s| - 2..] != "mm" then None
    else
      var body := s[..|s| - 2];
      match Collections.FirstIndexWhere(body, IsDash)
      case None =>
        (match ParseInt(body)
         case Some(n) => Some((n, n))
         case None => None)
      case Some(k) =>
        (match (ParseInt(body[..k]), ParseInt(body[k + 1..]))
         case (Some(lo), Some(hi)) => Some((lo, hi))
         case _ => None)
  }

  /** The text before the first space (all of `s` when it has none). */
  function FirstWord(s: string): string {
    match Collections.FirstIndexWhere(s, IsSpace)
    case None => s
    case Some(k) => s[..k]
  }

  /**
    The focal range string names its lens's range: from it both ends are
    recovered (for a prime lens, the one length twice). The lower end must
    not be negative, as the add form guarantees; a leading minus sign would
    read as the separator.
  */
  lemma FocalRangeRoundTrip(l: Lens)
    requires l.focalLengthMin >= 0
    ensures ParseFocalRange(FullFocalLengthString(l)) == Some((l.focalLengthMin, l.focalLengthMax))
  {
    var s := FullFocalLengthString(l);
    var body := s[..|s| - 2];
    var lo := IntString(l.focalLengthMin);
    IntStringRoundTrip(l.focalLengthMin);
    IntStringRoundTrip(l.focalLengthMax);
    assert AllDigits(lo);
    if l.focalLengthMin == l.focalLengthMax {
      assert body == lo;
      assert Collections.FirstIndexWhere(body, IsDash).None? by {
        assert forall j :: 0 <= j < |body| ==> !IsDash(body[j]);
      }
    } else {
      var hi := IntString(l.focalLengthMax);
      assert body == lo + "-" + hi;
      var k := |lo|;
      assert IsDash(body[k]);
      var r := Collections.FirstIndexWhere(body, IsDash);
      assert r == Some(k) by {
        assert forall j :: 0 <= j < k ==> !IsDash(body[j]);
        assert r.Some?;
        assert !(r.value < k);
        assert !(r.value > k);
      }
      assert body[..k] == lo && body[k + 1..] == hi;
    }
  }

  /** Two lenses whose focal range strings agree have the same range. */
  lemma FocalRangeDetermines(a: Lens, b: Lens)
    requires a.focalLengthMin >= 0 && b.focalLengthMin >= 0
    requires FullFocalLengthString(a) == FullFocalLengthString(b)
    ensures a.focalLengthMin == b.focalLengthMin && a.focalLengthMax == b.focalLengthMax
  {
    FocalRangeRoundTrip(a);
    FocalRangeRoundTrip(b);
  }

  /**
    The `LensInfo` composite starts with the focal range, up to the first
    space, and the range can be read back from it.
  */
  lemma LensInfoReadsBack(l: Lens, showReal: real -> string)
    requires l.focalLengthMin >= 0
    ensures FirstWord(ExifInfoString(l, showReal)) == FullFocalLengthString(l)
    ensures ParseFocalRange(FirstWord(ExifInfoString(l, showReal)))
         == Some((l.focalLengthMin, l.focalLengthMax))
  {
    var f := FullFocalLengthString(l);
    var s := ExifInfoString(l, showReal);
    IntStringShape(l.focalLengthMin);
    IntStringShape(l.focalLengthMax);
    assert forall j :: 0 <= j < |f| ==> !IsSpace(f[j]);
    var k := |f|;
    assert s[..k] == f && IsSpace(s[k]);
    var r := Collections.FirstIndexWhere(s, IsSpace);
    assert r == Some(k) by {
      assert r.Some?;
      assert !(r.value < k);
      assert !(r.value > k);
    }
    FocalRangeRoundTrip(l);
  }

  /** The picker label is the make, the model and the `LensInfo` composite, separated by spaces. */
  lemma DisplayStringExtendsInfo(l: Lens, showReal: real -> string)
    ensures DisplayString(l, showReal) == l.make + " " + l.model + " " + ExifInfoString(l, showReal)
  {
  }

  /**
    The table's f-stop range names both f-stops, also when they agree:
    provided the printer tells the lower f-stops apart and the upper ones
    apart, and prints no space in a lower f-stop, two lenses with the same
    range string have the same f-stops.
  */
  lemma FStopRangeDetermines(a: Lens, b: Lens, showReal: real -> string)
    requires showReal(a.fStopMin) == showReal(b.fStopMin) ==> a.fStopMin == b.fStopMin
    requires showReal(a.fStopMax) == showReal(b.fStopMax) ==> a.fStopMax == b.fStopMax
    requires forall i :: 0 <= i < |showReal(a.fStopMin)| ==> showReal(a.fStopMin)[i] != ' '
    requires forall i :: 0 <= i < |showReal(b.fStopMin)| ==> showReal(b.fStopMin)[i] != ' '
    requires FStopRangeString(a, showReal) == FStopRangeString(b, showReal)
    ensures a.fStopMin == b.fStopMin && a.fStopMax == b.fStopMax
  {
    var p, q := showReal(a.fStopMin), showReal(b.fStopMin);
    var s := FStopRangeString(a, showReal);
    assert s == FStopRangeString(b, showReal);
    var t := s[2..];
    var r := Collections.FirstIndexWhere(t, IsSpace);
    assert r == Some(|p|) by {
      assert IsSpace(t[|p|]) && r.Some?;
      assert !(r.value < |p|) && !(r.value > |p|);
    }
    assert r == Some(|q|) by {
      assert t == q + " - f/" + showReal(b.fStopMax);
      assert IsSpace(t[|q|]) && r.Some?;
      assert !(r.value < |q|) && !(r.value > |q|);
    }
    assert s[2..2 + |p|] == p && s[2..2 + |q|] == q;
    assert s[2 + |p| + 5..] == showReal(a.fStopMax);
    assert s[2 + |q| + 5..] == showReal(b.fStopMax);
  }

  // ---------------------------------------------------------------------
  // Reading the f-stops back

  /** Inverse of `ExifFStopString`: the printed f-stops after `f/`, split at the first dash. */
  function ParseFStopPair(s: string): Option<(string, string)> {
    if |s| < 2 || s[..2] != "f/" then None
    else
      var body := s[2..];
      match Collections.FirstIndexWhere(body, IsDash)
      case None => Some((body, body))
      case Some(k) => Some((body[..k], body[k + 1..]))
  }

  /**
    The EXIF f-stop string names both f-stops: the single form for equal
    f-stops and `f/<min>-<max>` otherwise read back as the printed lower
    and upper f-stop, provided the lower one prints without a dash (as Swift
    prints positive values from 0.0001 up; smaller ones print in exponent
    form such as `1e-05`).
  */
  lemma ExifFStopReadsBack(l: Lens, showReal: real -> string)
    requires forall i :: 0 <= i < |showReal(l.fStopMin)| ==> showReal(l.fStopMin)[i] != '-'
    ensures ParseFStopPair(ExifFStopString(l, showReal))
         == Some((showReal(l.fStopMin), showReal(l.fStopMax)))
  {
    var p, q := showReal(l.fStopMin), showReal(l.fStopMax);
    var s := ExifFStopString(l, showReal);
    var body := s[2..];
    if l.fStopMin == l.fStopMax {
      assert body == p;
      assert Collections.FirstIndexWhere(body, IsDash).None? by {
        assert forall j :: 0 <= j < |body| ==> !IsDash(body[j]);
      }
    } else {
      assert body == p + "-" + q;
      var k := |p|;
      assert IsDash(body[k]);
      var r := Collections.FirstIndexWhere(body, IsDash);
      assert r == Some(k) by {
        assert forall j :: 0 <= j < k ==> !IsDash(body[j]);
        assert r.Some?;
        assert !(r.value < k);
        assert !(r.value > k);
      }
      assert body[..k] == p && body[k + 1..] == q;
    }
  }

  /**
    Two lenses with the same EXIF f-stop string have the same f-stops,
    provided the printer tells their lower f-stops apart and their upper
    ones apart, and prints the lower ones without a dash.
  */
  lemma ExifFStopDetermines(a: Lens, b: Lens, showReal: real -> string)
    requires showReal(a.fStopMin) == showReal(b.fStopMin) ==> a.fStopMin == b.fStopMin
    requires showReal(a.fStopMax) == showReal(b.fStopMax) ==> a.fStopMax == b.fStopMax
    requires forall i :: 0 <= i < |showReal(a.fStopMin)| ==> showReal(a.fStopMin)[i] != '-'
    requires forall i :: 0 <= i < |showReal(b.fStopMin)| ==> showReal(b.fStopMin)[i] != '-'
    requires ExifFStopString(a, showReal) == ExifFStopString(b, showReal)
    ensures a.fStopMin == b.fStopMin && a.fStopMax == b.fStopMax
  {
    ExifFStopReadsBack(a, showReal);
    ExifFStopReadsBack(b, showReal);
  }

  /**
    After the focal range and its space, the `LensInfo` composite holds the
    EXIF f-stop string, from which both f-stops read back.
  */
  lemma LensInfoFStopsReadBack(l: Lens, showReal: real -> string)
    requires forall i :: 0 <= i < |showReal(l.fStopMin)| ==> showReal(l.fStopMin)[i] != '-'
    ensures var s, k := ExifInfoString(l, showReal), |FullFocalLengthString(l)|;
      k < |s| && ParseFStopPair(s[k + 1..]) == Some((showReal(l.fStopMin), showReal(l.fStopMax)))
  {
    var s, k := ExifInfoString(l, showReal), |FullFocalLengthString(l)|;
    assert s[k + 1..] == ExifFStopString(l, showReal);
    ExifFStopReadsBack(l, showReal);
  }
}
