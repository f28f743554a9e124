/**
  The "Add lens" form (RAWExif/Preferences/AddLensView.swift): its eight
  state fields, the condition that enables the Add button and the `Lens`
  handed to `save` when it is pressed.
*/
module AddLens {
  import opened Wrappers
  import opened Lenses
  import opened Uuids

  datatype LensForm = LensForm(
    make: string,
    model: string,
    focalLength: int,
    focalLengthMin: int,
    focalLengthMax: int,
    fStop: real,
    fStopMin: real,
    fStopMax: real)

  /** The form as it opens: empty strings and zeros. */
  const InitialForm := LensForm("", "", 0, 0, 0, 0.0, 0.0, 0.0)

  /**
    Membership in Foundation's `CharacterSet.whitespacesAndNewlines`: the
    Unicode space separators, the line and paragraph separators, tab,
    U+000A to U+000D and U+0085.
  */
  predicate IsWhitespaceOrNewline(c: char) {
    var u := c as int;
    || u == 0x09 || (0x0A <= u <= 0x0D) || u == 0x20 || u == 0x85 || u == 0xA0
    || u == 0x1680 || (0x2000 <= u <= 0x200A) || u == 0x2028 || u == 0x2029
    || u == 0x202F || u == 0x205F || u == 0x3000
  }

  predicate Blank(s: string) {
    forall i :: 0 <= i < |s| ==> IsWhitespaceOrNewline(s[i])
  }

  function TrimLeading(s: string): (r: string)
    ensures |r| <= |s| && r == s[|s| - |r|..]
    ensures r == [] || !IsWhitespaceOrNewline(r[0])
    ensures Blank(s[..|s| - |r|])
  {
    if s == [] || !IsWhitespaceOrNewline(s[0]) then s
    else
      var r := TrimLeading(s[1..]);
      assert s[..|s| - |r|] == [s[0]] + s[1..][..|s| - 1 - |r|];
      r
  }

  function TrimTrailing(s: string): (r: string)
    ensures |r| <= |s| && r == s[..|r|]
    ensures r == [] || !IsWhitespaceOrNewline(r[|r| - 1])
    ensures Blank(s[|r|..])
  {
    if s == [] || !IsWhitespaceOrNewline(s[|s| - 1]) then s
    else
      var r := TrimTrailing(s[..|s| - 1]);
      assert s[|r|..] == s[..|s| - 1][|r|..] + [s[|s| - 1]];
      r
  }

  /** `s.trimmingCharacters(in: .whitespacesAndNewlines)`, one Unicode scalar at a time. */
  function Trim(s: string): string {
    TrimTrailing(TrimLeading(s))
  }

  lemma {:induction false} BlankTrimsAway(s: string)
    requires Blank(s)
    ensures TrimLeading(s) == []
  {
    if s != [] {
      assert Blank(s[1..]) by {
        assert forall i :: 0 <= i < |s| - 1 ==> s[1..][i] == s[i + 1];
      }
      BlankTrimsAway(s[1..]);
    }
  }

  /** A string trims to nothing exactly when every character of it is whitespace or a newline. */
  lemma TrimEmptyIff(s: string)
    ensures Trim(s) == [] <==> Blank(s)
  {
    var l := TrimLeading(s);
    if Trim(s) == [] {
      assert Blank(l[0..]);
      assert s == s[..|s| - |l|] + l;
    }
    if Blank(s) {
      BlankTrimsAway(s);
    }
  }

  /** A string that starts with a visible character does not trim to nothing. */
  lemma VisibleStartSurvivesTrim(s: string)
    requires s != [] && !IsWhitespaceOrNewline(s[0])
    ensures Trim(s) != []
  {
    TrimEmptyIff(s);
  }

  /** The Add button is enabled: the negation of the `.disabled(...)` condition. */
  predicate AddEnabled(f: LensForm) {
    !(|| Trim(f.make) == [] || Trim(f.model) == []
      || f.focalLength <= 0 || f.focalLengthMin <= 0 || f.focalLengthMax <= 0
      || f.fStop <= 0.0 || f.fStopMin <= 0.0 || f.fStopMax <= 0.0)
  }

  /**
    Add is enabled exactly when make and model each hold a visible
    character and all six numbers are strictly positive.
  */
  lemma AddEnabledIff(f: LensForm)
    ensures AddEnabled(f) <==>
      && (exists i :: 0 <= i < |f.make| && !IsWhitespaceOrNewline(f.make[i]))
      && (exists i :: 0 <= i < |f.model| && !IsWhitespaceOrNewline(f.model[i]))
      && f.focalLength > 0 && f.focalLengthMin > 0 && f.focalLengthMax > 0
      && f.fStop > 0.0 && f.fStopMin > 0.0 && f.fStopMax > 0.0
  {
    TrimEmptyIff(f.make);
    TrimEmptyIff(f.model);
  }

  /** In the state the form opens in, Add is disabled. */
  lemma InitialFormDisabled()
    ensures !AddEnabled(InitialForm)
  {
    assert Trim(InitialForm.make) == [];
  }

  /** The `Lens` built from the form when Add is pressed; `id` is the fresh `UUID()`. */
  function LensFromForm(f: LensForm, id: Uuid): (l: Lens)
    ensures l.make == f.make && l.model == f.model
    ensures l.focalLength == f.focalLength
    ensures l.focalLengthMin == f.focalLengthMin && l.focalLengthMax == f.focalLengthMax
    ensures l.fStop == f.fStop && l.fStopMin == f.fStopMin && l.fStopMax == f.fStopMax
    ensures l.id == id
  {
    Lens(f.make, f.model, f.focalLength, f.focalLengthMin, f.focalLengthMax,
         f.fStop, f.fStopMin, f.fStopMax, id)
  }

  /**
    A lens added through the form has a focal range string from which its
    range can be read back.
  */
  lemma AddedLensRangeReadsBack(f: LensForm, id: Uuid)
    requires AddEnabled(f)
    ensures ParseFocalRange(FullFocalLengthString(LensFromForm(f, id)))
         == Some((f.focalLengthMin, f.focalLengthMax))
  {
    FocalRangeRoundTrip(LensFromForm(f, id));
  }
}
