/**
  The lens catalog of the preferences window
  (RAWExif/Preferences/PreferencesView.swift): an ordered list of presets
  with a table selection, extended by the add form and shrunk by Delete.
  Its persistence in the user defaults is not modelled.
*/
module Preferences {
  import opened Wrappers
  import opened Lenses
  import opened Uuids
  import Collections
  import AddLens

  /** The placeholder row the table shows while the catalog is empty. */
  function ExampleLens(id: Uuid): Lens {
    Lens("Example", "None", 50, 20, 75, 2.6, 2.4, 5.4, id)
  }

  /** The add form filled in with the placeholder's values. */
  const ExampleForm := AddLens.LensForm("Example", "None", 50, 20, 75, 2.6, 2.4, 5.4)

  lemma ExampleFormEnabled()
    ensures AddLens.AddEnabled(ExampleForm)
  {
    AddLens.VisibleStartSurvivesTrim(ExampleForm.make);
    AddLens.VisibleStartSurvivesTrim(ExampleForm.model);
  }

  /**
    The placeholder is a lens the add form could have produced: some form
    with Add enabled builds exactly it, and its focal range reads back as
    the zoom range 20 to 75 mm.
  */
  lemma ExampleLensIsAddable(id: Uuid)
    ensures exists f :: AddLens.AddEnabled(f) && AddLens.LensFromForm(f, id) == ExampleLens(id)
    ensures ParseFocalRange(FullFocalLengthString(ExampleLens(id))) == Some((20, 75))
  {
    ExampleFormEnabled();
    assert AddLens.LensFromForm(ExampleForm, id) == ExampleLens(id);
    FocalRangeRoundTrip(ExampleLens(id));
  }

  /**
    `lenses.removeAll { $0.id == id }`: every lens with that id is gone,
    every other lens stays, as often as it occurred and in the same order.
  */
  function RemoveAllWithId(lenses: seq<Lens>, id: Uuid): (r: seq<Lens>)
    ensures forall l :: multiset(r)[l] == if l.id == id then 0 else multiset(lenses)[l]
    ensures Collections.IsSubsequence(r, lenses)
  {
    if lenses == [] then []
    else
      var rest := RemoveAllWithId(lenses[1..], id);
      assert lenses == [lenses[0]] + lenses[1..];
      if lenses[0].id == id then rest else [lenses[0]] + rest
  }

  /** Removing an id that no lens carries changes nothing. */
  lemma {:induction false} RemoveAbsentId(lenses: seq<Lens>, id: Uuid)
    requires forall l :: l in lenses ==> l.id != id
    ensures RemoveAllWithId(lenses, id) == lenses
  {
    if lenses != [] {
      assert lenses[0] in lenses;
      RemoveAbsentId(lenses[1..], id);
      assert lenses == [lenses[0]] + lenses[1..];
    }
  }

  /**
    Deleting the lens just saved restores the catalog, provided its fresh
    UUID differs from every earlier lens's.
  */
  lemma {:induction false} SaveThenDeleteRestores(lenses: seq<Lens>, added: Lens)
    requires forall l :: l in lenses ==> l.id != added.id
    ensures RemoveAllWithId(lenses + [added], added.id) == lenses
  {
    if lenses == [] {
      assert [added][1..] == [];
    } else {
      assert (lenses + [added])[1..] == lenses[1..] + [added];
      assert lenses[0] in lenses;
      SaveThenDeleteRestores(lenses[1..], added);
      assert lenses == [lenses[0]] + lenses[1..];
    }
  }

  class PreferencesView {
    var lenses: seq<Lens>
    var selection: Option<Uuid>
    const defaultLens: seq<Lens>

    ghost predicate Valid()
      reads this
    {
      |defaultLens| == 1
    }

    /** The window as it opens on the stored catalog; `exampleId` is the placeholder's `UUID()`. */
    constructor (stored: seq<Lens>, exampleId: Uuid)
      ensures Valid()
      ensures lenses == stored && selection == None && defaultLens == [ExampleLens(exampleId)]
    {
      lenses := stored;
      selection := None;
      defaultLens := [ExampleLens(exampleId)];
    }

    /** The Delete button's `.disabled` condition. */
    predicate DeleteDisabled()
      reads this
    {
      selection == None || lenses == []
    }

    /** The rows the table shows: the placeholder while the catalog is empty, the catalog otherwise. */
    function TableLenses(): (r: seq<Lens>)
      reads this
      ensures lenses != [] ==> r == lenses
      ensures lenses == [] ==> r == defaultLens
      ensures Valid() ==> r != []
    {
      if lenses != [] then lenses else defaultLens
    }

    /** `save(lens:)`, the add form's callback: the lens goes to the end. */
    method Save(lens: Lens)
      requires Valid()
      modifies this
      ensures Valid()
      ensures lenses == old(lenses) + [lens]
      ensures selection == old(selection)
    {
      lenses := lenses + [lens];
    }

    /**
      `delete()`: with no selection or an empty catalog, nothing happens
      (exactly when the button is disabled); otherwise every lens with the
      selected id is removed and the selection is cleared.
    */
    method Delete()
      requires Valid()
      modifies this
      ensures Valid()
      ensures old(DeleteDisabled()) ==> lenses == old(lenses) && selection == old(selection)
      ensures !old(DeleteDisabled()) ==>
        lenses == RemoveAllWithId(old(lenses), old(selection).value) && selection == None
    {
      if selection.None? || lenses == [] {
        return;
      }
      lenses := RemoveAllWithId(lenses, selection.value);
      selection := None;
    }
  }
}
