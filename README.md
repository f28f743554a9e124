# RAWExif lens presets and RAW export, modelled in Dafny

RAWExif is a macOS tool that lists the photo library, exports the RAW
resource of chosen photos and can overwrite their lens EXIF tags with a
preset the user keeps in a small catalog. This project models the logic
inside its SwiftUI views:

- the `Lens` preset and the strings derived from it (`lens.dfy`), with
  Swift's integer interpolation modelled exactly (`interpolation.dfy`) and
  `UUID.uuidString` as upper-case hexadecimal (`uuid.dfy`);
- the add form's validity rule and the lens it builds (`add_lens.dfy`);
- the preferences catalog, a class whose `Save` appends and whose `Delete`
  removes every lens with the selected id (`preferences.dfy`);
- the main window: the override selection and its id, the reconciliation
  when the catalog changes, the EXIF tag dictionary and `downloadRAW`
  (`content_view.dfy`), over the shared resource model and RAW selection
  rule (`resources.dfy`, `bytes.dfy`, `collections.dfy`);
- the row summary of resource types (`row_view.dfy`);
- the list's own export button (`photo_picker.dfy`).

The photo library, ExifTool and the file system are not called: an export
returns the sequence of requests it would make (`Resources.Effect`), the
resource list of an asset and the outcome of a download are inputs.

Facts about the code that the model keeps:

- The RAW resource is the first match in list order. The alternate-photo
  role does not outrank an earlier RAW-typed resource
  (`Resources.EarlierRawTypeWins`).
- In `downloadRAW` a download error is only logged. Whatever bytes arrived
  are still written, and the tags are still rewritten. A write error is also
  only logged. The list's own export button, by contrast, skips the write
  after a download error.
- The tag dictionary has exactly the eight keys the code writes.

## Model

| member | source | states |
|---|---|---|
| `Interpolation.IntStringRoundTrip` | RAWExif/ContentView.swift:166-167 | the decimal text written for an `Int` parses back to that integer, so distinct integers print differently |
| `Uuids.UuidString` | RAWExif/ContentView.swift:31-32 | `uuidString` is 36 characters with dashes at positions 8, 13, 18 and 23 |
| `Uuids.UuidStringInjective` | RAWExif/ContentView.swift:31-32 | two UUIDs with the same `uuidString` are the same UUID |
| `Bytes.Accumulate` | RAWExif/ContentView.swift:125-130 | appending each delivered chunk to `data` yields the chunks concatenated in delivery order |
| `Bytes.ConcatSplit` | RAWExif/Picker/PhotoPicker.swift:85-87 | accumulating two batches of chunks equals accumulating each batch and joining the results |
| `Bytes.ConcatContainsChunk` | RAWExif/Picker/PhotoPicker.swift:85-87 | every delivered chunk appears unchanged in the data, at the offset of the bytes delivered before it |
| `Lenses.ImageFocalLengthString` | RAWExif/Preferences/Lens.swift:21-23 | the string ends in `mm` and what precedes it parses back to `focalLength` |
| `Lenses.ExifFocalLengthString` | RAWExif/Preferences/Lens.swift:25-27 | the string ends in `.0 mm` and what precedes it parses back to `focalLength` |
| `Lenses.ExifFocalLength35String` | RAWExif/Preferences/Lens.swift:29-37 | the assertion fires, with result `""`, exactly when the scale factor does not parse; otherwise the result is the `%.1f` rendering (`Interpolation.OneDecimal`) of focal length times scale factor, then ` mm` |
| `Interpolation.OneDecimalOfWhole` | RAWExif/Preferences/Lens.swift:36 | `%.1f` writes a whole number as its decimal integer text followed by `.0` |
| `Lenses.UnitScaleFocalLength35` | RAWExif/Preferences/Lens.swift:25-37 | with scale factor `"1"`, when it parses as one, the 35 mm string equals `exifFocalLengthString` and no assertion fires |
| `Lenses.FullFocalLengthString` | RAWExif/Preferences/Lens.swift:39-41 | ends in `mm`; it is the single-value form `<min>mm` if and only if min equals max |
| `Lenses.FocalRangeRoundTrip` | RAWExif/Preferences/Lens.swift:39-41 | parsing the focal range string gives back (min, max): both ends of a zoom, the one length twice for a prime |
| `Lenses.FocalRangeDetermines` | RAWExif/Preferences/Lens.swift:39-41 | lenses with equal focal range strings have equal minimum and maximum focal lengths |
| `Lenses.ExifFStopString` | RAWExif/Preferences/Lens.swift:44-46 | starts with `f/`; it is the single-value form `f/<min>` if and only if both f-stops are equal |
| `Lenses.ExifFStopReadsBack` | RAWExif/Preferences/Lens.swift:44-46 | splitting after `f/` at the first dash gives back the printed lower and upper f-stop, for the single form and for `f/<min>-<max>` alike |
| `Lenses.ExifFStopDetermines` | RAWExif/Preferences/Lens.swift:44-46 | lenses with equal EXIF f-stop strings have equal minimum and maximum f-stops, when the printer tells these values apart |
| `Lenses.FStopRangeDetermines` | RAWExif/Preferences/Lens.swift:52-54 | the table's range string always carries both f-stops: equal strings mean equal minimum and maximum, when the printer tells these values apart |
| `Lenses.LensInfoReadsBack` | RAWExif/Preferences/Lens.swift:56-58 | the `exifInfoString` composite begins, up to its first space, with the focal range string, from which (min, max) is read back |
| `Lenses.LensInfoFStopsReadBack` | RAWExif/Preferences/Lens.swift:56-58 | after the focal range and a space, the `exifInfoString` composite holds the f-stop string, which reads back as both printed f-stops |
| `Lenses.DisplayStringExtendsInfo` | RAWExif/Preferences/Lens.swift:56-62 | `displayString` is make, model and `exifInfoString`, separated by single spaces |
| `AddLens.TrimEmptyIff` | RAWExif/Preferences/AddLensView.swift:60 | trimming whitespace and newlines leaves nothing exactly when every character is whitespace or a newline |
| `AddLens.VisibleStartSurvivesTrim` | RAWExif/Preferences/AddLensView.swift:60 | a string that starts with a visible character does not trim to nothing |
| `AddLens.AddEnabledIff` | RAWExif/Preferences/AddLensView.swift:60 | Add is enabled if and only if make and model each contain a visible character and all six numeric fields are strictly positive |
| `AddLens.InitialFormDisabled` | RAWExif/Preferences/AddLensView.swift:15-22 | in the form's initial state (empty strings, zeros) Add is disabled |
| `AddLens.LensFromForm` | RAWExif/Preferences/AddLensView.swift:56 | the saved lens carries exactly the eight form values and the fresh id |
| `AddLens.AddedLensRangeReadsBack` | RAWExif/Preferences/AddLensView.swift:56-60 | a lens the enabled form saves has a focal range string that reads back as its range |
| `Preferences.ExampleFormEnabled` | RAWExif/Preferences/PreferencesView.swift:16 | the add form filled with the placeholder's values has Add enabled |
| `Preferences.ExampleLensIsAddable` | RAWExif/Preferences/PreferencesView.swift:16 | the placeholder is a lens an enabled add form builds, and its focal range reads back as 20 to 75 mm |
| `Preferences.RemoveAllWithId` | RAWExif/Preferences/PreferencesView.swift:42-44 | no lens with the id remains; every other lens keeps its multiplicity and the result is in the original relative order |
| `Preferences.RemoveAbsentId` | RAWExif/Preferences/PreferencesView.swift:42-44 | removing an id no lens carries leaves the catalog unchanged |
| `Preferences.SaveThenDeleteRestores` | RAWExif/Preferences/PreferencesView.swift:33-44 | deleting the lens just saved, under a fresh UUID, restores the earlier catalog |
| `Preferences.PreferencesView.constructor` | RAWExif/Preferences/PreferencesView.swift:12-16 | the window opens on the stored catalog with no selection and the one-lens placeholder list |
| `Preferences.PreferencesView.TableLenses` | RAWExif/Preferences/PreferencesView.swift:20 | the table shows the placeholder when the catalog is empty and the catalog otherwise, so it is never empty |
| `Preferences.PreferencesView.Save` | RAWExif/Preferences/PreferencesView.swift:33-35 | the new lens is appended at the end, earlier entries and the selection unchanged, and the placeholder invariant `Valid()` is kept |
| `Preferences.PreferencesView.Delete` | RAWExif/Preferences/PreferencesView.swift:37-46 | when the Delete button would be disabled (no selection or empty catalog) nothing changes; otherwise every lens with the selected id is removed and the selection becomes nil; `Valid()` is kept either way |
| `Resources.SelectRawResource` | RAWExif/ContentView.swift:107-119 | the result is the first resource in list order that is the alternate photo or has a parsable type conforming to RAW; none exactly when no resource qualifies |
| `Resources.EarlierRawTypeWins` | RAWExif/ContentView.swift:107-117 | a RAW-typed resource listed before the alternate photo is the one chosen: the role has no precedence |
| `ContentView.IdIdentifies` | RAWExif/ContentView.swift:27-34 | `.same` has id `same`; two selections share an id exactly when both are `.same` or both override with lenses of the same UUID |
| `ContentView.Reconciled` | RAWExif/ContentView.swift:60-72 | the selection either stays or becomes `.same`; an override that stays has its lens in the catalog; one whose lens is in the catalog stays |
| `ContentView.DeleteResetsOverride` | RAWExif/ContentView.swift:60-72 | deleting the overriding lens in the preferences resets the override to `.same` |
| `ContentView.DeleteKeepsOtherOverride` | RAWExif/ContentView.swift:60-72 | deleting a lens with another id keeps an override whose lens was in the catalog |
| `ContentView.SaveKeepsSelection` | RAWExif/ContentView.swift:60-72 | saving a lens never disturbs a selection that fits the catalog |
| `ContentView.LensTags` | RAWExif/ContentView.swift:159-170 | the dictionary has exactly the eight keys, LensInfo = `exifInfoString`, LensMake, LensModel, FocalLength = `exifFocalLengthString`, Min/MaxFocalLength the decimal integers, FNumber = `fStopString` |
| `ContentView.LensTagCount` | RAWExif/ContentView.swift:159-170 | an override writes eight tags |
| `ContentView.LensTagsReadBack` | RAWExif/ContentView.swift:159-170 | make, model, focal length and both ends of the range are recovered from the tags written |
| `ContentView.NewExifData` | RAWExif/ContentView.swift:159-170 | the dictionary filled one insert at a time is the tag dictionary of the override lens |
| `ContentView.ContentView.constructor` | RAWExif/ContentView.swift:17-46 | the window opens on the stored catalog with override `.same` |
| `ContentView.ContentView.LensesChanged` | RAWExif/ContentView.swift:60-72 | the catalog becomes the new value and the selection is the one reconciled against it |
| `ContentView.ContentView.DownloadRaw` | RAWExif/ContentView.swift:104-175 | no effect without a RAW candidate; otherwise request, then write of the delivered bytes to `<home>/<originalFilename>` whatever the download outcome, then ExifTool read and update only for an override; with `.same` no tag read or update |
| `PhotoPickerListRow.Label` | RAWExif/Picker/PhotoPickerListRowView.swift:63-82 | no label exactly when the type does not parse or conforms to none of the six; otherwise the label of the first family in the order RAW, JPEG, PNG, TIFF, HEIC, HEIF that the type conforms to |
| `PhotoPickerListRow.Labels` | RAWExif/Picker/PhotoPickerListRowView.swift:62-83 | at most one label per resource, each one of the six names; no labels exactly when no resource has one |
| `PhotoPickerListRow.LabelsOfOne` | RAWExif/Picker/PhotoPickerListRowView.swift:62-83 | a single resource contributes exactly its own label, or nothing |
| `PhotoPickerListRow.LabelsAppend` | RAWExif/Picker/PhotoPickerListRowView.swift:62-83 | the labels of two runs of resources are the first run's labels followed by the second's, so the labels keep resource order |
| `PhotoPickerListRow.AssetTypesUnknownIff` | RAWExif/Picker/PhotoPickerListRowView.swift:85-89 | the summary is never empty and is `Unknown` exactly when no resource has a label |
| `PhotoPickerListRow.AssetTypesSplitsIntoLabels` | RAWExif/Picker/PhotoPickerListRowView.swift:89 | otherwise splitting the summary at `, ` gives back the labels in resource order |
| `PhotoPicker.AuthorizedPhotoPicker.constructor` | RAWExif/Picker/PhotoPicker.swift:36-45 | the picker holds the fetched assets with nothing selected |
| `PhotoPicker.AuthorizedPhotoPicker.ChosenAsset` | RAWExif/Picker/PhotoPicker.swift:56-64 | none for an empty selection; otherwise the first library asset whose id is the first selected id, none when no asset has it |
| `PhotoPicker.AuthorizedPhotoPicker.ExportSelectedRaw` | RAWExif/Picker/PhotoPicker.swift:55-105 | no effect without a chosen asset or a RAW candidate; otherwise a request, and only when the download succeeds a write of the bytes to `<home>/output.raw` |

## Left out

- Photos framework calls (`requestAuthorization`, `fetchAssets`, `assetResources`, `requestImage`, `requestData`) are not modelled. An asset's resources and a download's chunks and error are inputs.
- The ExifTool subprocess (`ExifTool.read`, `update`, `configureExifTool` in RAWExif/ExifTool/ExifTool.swift) is not modelled. A tag read or update is an `Effect` value.
- File writes are `WriteFile` effects. Whether a write succeeds is not modelled, because in both exports a write error is only printed and changes nothing that follows.
- `URL(fileURLWithPath:)` is modelled as string concatenation of the home directory, `/` and the file name, without path normalisation. `NSHomeDirectory()` is a parameter.
- `exportSelected`, the task group, the unused `ExportCount` actor and the `exportCount` progress counter (RAWExif/ContentView.swift:12-14, 83-101) are concurrency and progress display, so they are left out.
- Logging with `print` is left out.
- Floating point is not modelled. F-stops are `real`. Swift's printing of a `Double` is the parameter `showReal`. `Double(_:)` on the scale factor is `parseDouble`. The focal length times scale factor (RAWExif/Preferences/Lens.swift:36) is an exact product, without rounding, and `%.1f` rounds that exact value to tenths with ties to even. Equality of f-stops is real equality, so NaN is not covered.
- `Int` fields are unbounded integers. Apart from the `Double` product above, the code does no arithmetic on them, only printing, so 64-bit width does not matter.
- UTType parsing and conformance are not modelled. Each resource carries the parse result as the set of the six image families it conforms to.
- UUID generation is not modelled. A fresh id is a parameter.
- `FocalLengthIn35mmFormat`: RAWExif/ContentView.swift:168 assigns `exifFocalLength35String` with no scale-factor argument, which does not match its signature at RAWExif/Preferences/Lens.swift:29. The tag's value is therefore a parameter, `focalLength35`, left unconstrained.
- `SelectedLens`'s custom `hash(into:)`, the `Download`/`Download and Update` button title and its enablement, and the picker and table layout are UI, so they are left out.
- The persistence of the catalog in `@AppStorage` and `Codable` are left out. The window classes start from a stored list.
- RAWExif/RAWExifApp.swift, RAWExif/Picker/PhotoPickerState.swift and `fetchContent` are UI wiring, so they are left out. RAWExif/Extensions/PHAsset.swift (`id` is `localIdentifier`) is folded into `Resources.Asset.id`.
- `selectedPhotos.first` on a Swift `Set` picks an element in unspecified iteration order. The selection is modelled as a sequence in that order, and its head is taken.
- FocalRangeRoundTrip: holds only when the lower focal length is not negative, because a leading minus sign would read as the range separator. The add form only admits positive values.
- FStopRangeDetermines: assumes the `Double` printer tells the two lenses' lower f-stops apart and their upper f-stops apart, and prints their lower f-stops without a space. These hold for Swift's description of finite values, but that printer is not modelled.
- ExifFStopDetermines, ExifFStopReadsBack and LensInfoFStopsReadBack: assume the printed lower f-stop contains no dash. Swift prints positive values from 0.0001 up without one, but smaller ones in exponent form such as `1e-05`, and the add form accepts any f-stop above zero, so these lemmas do not cover a lens with a lower f-stop below 0.0001.
- UnitScaleFocalLength35: assumes `Double("1")` is one, because string-to-`Double` parsing is not modelled.
