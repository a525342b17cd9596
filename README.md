# PILLziy medication store and intake, in Dafny

A model of the part of the PILLziy iOS app that holds state: the local
medication repository (`MedicationStore`) with its single persisted storage
slot, the `Medication` record, and the intake path that feeds it. That path
covers the camera controller's capture gate, the assembly of recognised text,
the name prefill and fallback rules of both `MedicationFormView`s, and the
dashboard's choice of which medication card to show.

Files and modules:

- `Medication.dfy`: `Wrappers` (Option) and `MedicationModel` (the record, its initializer, id-only equality and hashing).
- `Codec.dfy`: `Codec`, the stored form of the list, with decode-after-encode proved in both directions.
- `MedicationStore.dfy`: `Store`, which has the storage (`Defaults`), the `MedicationStore` class and its lemmas.
- `TextLines.dfy`: `TextLines`, which covers newline splitting, joining and whitespace trimming, with split/join round trips.
- `Intake.dfy`: `Intake`, the prefill rule and the record a save commits. Both forms use it.
- `MedicationForm.dfy`: `MedicationForm`, the confirmation sheet of the current app (`PILLziy/Views/MedicationFormView.swift`).
- `EntryForm.dfy`: `EntryForm`, the older entry form (`Pillzy/Views/MedicationFormView.swift`).
- `Scanner.dfy`: `Scanner`, which has the camera controller, the text assembly and the scanner screen.
- `Dashboard.dfy`: `Dashboard`, the card choice and the root view's scanner/dashboard switch.

Points where the code may surprise a reader:

- The prefill filter tests the untrimmed line length (`line.count > 3 && line.count < 50`) and trims afterwards. It does not filter on the trimmed length. `Intake.BlankLineHidesName` shows the consequence.
- `updateMedication` copies the caller's whole record, `createdAt` included. Nothing keeps the old `id`/`createdAt` except that the match is by id.
- `removeMedication` and every successful `updateMedication` rewrite the slot. `addMedication` does too. A remove of an absent id still rewrites it.
- The capture gate reopens when the photo delegate finishes. For an image with pixels that is before text recognition completes, so a second capture can start while recognition is pending (`Scanner.SecondTapDuringRecognition`). For an image without pixels the empty-text `onCapture` is posted first, while the gate is still closed.

## Model

| member | source | states |
|---|---|---|
| `MedicationModel.NewMedication` | PILLziy/Models/Medication.swift:18-25 | `init` stores id, name, dosage, frequency and image data exactly as given, the image defaulting to nil; `createdAt` is the clock's reading, not a parameter |
| `MedicationModel.InitWithoutImage` | PILLziy/Models/Medication.swift:18 | an `init` call that leaves the image out gives a record with nil label image data |
| `MedicationModel.Edited` | PILLziy/Models/Medication.swift:11-16 | every `var` field can be reassigned while the `let` id stays, so the edited record is still `==` to the original |
| `MedicationModel.SameIsEquivalence` | PILLziy/Models/Medication.swift:28 | `==` (`Same`, id equality) is reflexive, symmetric and transitive |
| `MedicationModel.SameIgnoresOtherFields` | PILLziy/Models/Medication.swift:28 | `==` holds exactly when the ids are equal; giving a record another's other fields does not change that |
| `MedicationModel.HashConsistent` | PILLziy/Models/Medication.swift:27-28 | `Hash` (`hash(into:)`) agrees with `==`: equal records hash alike under any hasher seed, because only the id is hashed |
| `MedicationModel.SameIdSameRecord` | PILLziy/Models/Medication.swift:18-28 | two records initialised with one id are equal whatever their other fields and stamps |
| `Codec.Encode` | PILLziy/Managers/MedicationStore.swift:45 | encoding the list succeeds exactly when every stamp is a finite number |
| `Codec.Decode` | PILLziy/Managers/MedicationStore.swift:22 | a blob that decodes yields records whose stamps are all finite, as many as the blob holds |
| `Codec.DecodeEncode` | PILLziy/Managers/MedicationStore.swift:45 | decoding the encoding of a list gives back that list |
| `Codec.EncodeDecode` | PILLziy/Managers/MedicationStore.swift:22 | a blob that decodes is exactly the encoding of what it decodes to; this holds because the field-token codec is canonical, and would not hold of JSON text, where other whitespace or key order decodes to the same list |
| `Store.Defaults.constructor` | PILLziy/Managers/MedicationStore.swift:21 | the `UserDefaults.standard` storage holds exactly the entries it is given |
| `Store.Slot` | PILLziy/Managers/MedicationStore.swift:21 | the slot is present exactly when the "SavedMedications" key is, and holds that key's blob |
| `Store.Loaded` | PILLziy/Managers/MedicationStore.swift:20-25 | the starting list is the decoded slot if the slot exists and decodes, otherwise empty |
| `Store.AfterSave` | PILLziy/Managers/MedicationStore.swift:44-48 | after a save the slot holds the list's encoding when encoding succeeds; on failure storage is untouched; other keys never change |
| `Store.RemovingId` | PILLziy/Managers/MedicationStore.swift:33 | removal never grows the list and leaves no record with the removed id |
| `Store.FirstIndexOf` | PILLziy/Managers/MedicationStore.swift:38 | the index found holds the id and no earlier index does; None means no record holds it |
| `Store.FirstIndexOfIs` | PILLziy/Managers/MedicationStore.swift:38 | an index holding the id with none before it is the one `firstIndex` finds |
| `Store.Updated` | PILLziy/Managers/MedicationStore.swift:38-39 | update keeps the length, puts the caller's record (its `createdAt` too) at the first match only, leaves every other position, and is the identity with no match |
| `Store.MedicationStore.constructor` | PILLziy/Managers/MedicationStore.swift:16-18 | a new store lists the loaded slot (or nothing) and leaves storage untouched |
| `Store.MedicationStore.LoadMedications` | PILLziy/Managers/MedicationStore.swift:20-25 | the list is replaced only when the slot exists and decodes |
| `Store.MedicationStore.SaveMedications` | PILLziy/Managers/MedicationStore.swift:44-48 | storage becomes `AfterSave` of the current list |
| `Store.MedicationStore.AddMedication` | PILLziy/Managers/MedicationStore.swift:27-30 | the list becomes `old + [m]` with no duplicate check, then it is saved |
| `Store.MedicationStore.RemoveMedication` | PILLziy/Managers/MedicationStore.swift:32-35 | the list loses every record with the id, keeps the rest in order, and is saved |
| `Store.MedicationStore.UpdateMedication` | PILLziy/Managers/MedicationStore.swift:37-42 | the first record with the id is replaced and saved; with no match neither list nor storage changes |
| `Store.RemovingIdMembers` | PILLziy/Managers/MedicationStore.swift:33 | a record is kept exactly when it was present and has another id |
| `Store.RemovingIdConcat` | PILLziy/Managers/MedicationStore.swift:33 | removal distributes over concatenation, so kept records keep their relative order |
| `Store.RemovingAbsentId` | PILLziy/Managers/MedicationStore.swift:33 | removing an id no record has leaves the list unchanged |
| `Store.UpdatedKeepsIds` | PILLziy/Managers/MedicationStore.swift:38-39 | update never changes which id sits at which position, updating twice with one record is updating once, and a list without the id is unchanged |
| `Store.ChangesKeepEncodable` | PILLziy/Managers/MedicationStore.swift:33-45 | removing records from a savable list, or updating it with a record made by `init`, leaves it savable |
| `Store.ReloadAfterSave` | PILLziy/Managers/MedicationStore.swift:44-47 | after a successful save, loading the slot gives exactly the saved list |
| `Store.LoadedAllFinite` | PILLziy/Managers/MedicationStore.swift:20-25 | every list a store can load has only finite stamps, so it can be saved again |
| `Store.LoadedIsEncodable` | PILLziy/Managers/MedicationStore.swift:45 | a loaded list, and one extended by an `init`-made record, always encodes |
| `Store.RestartAfterAdd` | PILLziy/Managers/MedicationStore.swift:16-30 | a store created after another store's add lists exactly what that store held |
| `Store.RestartAfterRemove` | PILLziy/Managers/MedicationStore.swift:16-35 | a store created after another store's remove lists what that store held, with no record of the removed id |
| `Store.RestartAfterUpdate` | PILLziy/Managers/MedicationStore.swift:16-42 | a store created after another store's update lists the updated list, whether or not a record matched |
| `TextLines.NewlineCount` | PILLziy/Views/MedicationFormView.swift:229 | counts the newline characters; zero exactly when the text holds none |
| `TextLines.SplitLines` | PILLziy/Views/MedicationFormView.swift:229 | splitting yields at least one piece and no piece holds a newline character |
| `TextLines.SplitLinesCount` | PILLziy/Views/MedicationFormView.swift:229 | n newline characters give n + 1 pieces, so "\r\n" leaves an empty piece between |
| `TextLines.JoinLines` | PILLziy/Views/PrescriptionScannerView.swift:362 | the joined text is as long as the lines plus one separator between each pair, starts with the first line and has "\n" right after it |
| `TextLines.TrimStart` | PILLziy/Views/MedicationFormView.swift:232 | drops only leading blanks, and what is left does not start with one |
| `TextLines.TrimEnd` | PILLziy/Views/MedicationFormView.swift:232 | drops only trailing blanks, and what is left does not end with one |
| `TextLines.Trim` | PILLziy/Views/MedicationFormView.swift:232 | trimming never lengthens, leaves no blank at either end, and adds no newline |
| `TextLines.TrimEmptyIffBlank` | PILLziy/Views/MedicationFormView.swift:232 | a line trims to "" exactly when it is all blanks |
| `TextLines.TrimIdempotent` | PILLziy/Views/MedicationFormView.swift:232 | trimming twice equals trimming once |
| `TextLines.JoinSplit` | PILLziy/Views/MedicationFormView.swift:229 | joining the split lines with "\n" restores text whose newlines are line feeds |
| `TextLines.SplitJoin` | PILLziy/Views/PrescriptionScannerView.swift:362 | splitting text joined from newline-free lines gives those lines back |
| `Intake.FirstQualifying` | PILLziy/Views/MedicationFormView.swift:230-231 | finds the first line that `Qualifies` (3 < untrimmed length < 50, line 231), with none before it; None means none qualifies |
| `Intake.FirstQualifyingIs` | PILLziy/Views/MedicationFormView.swift:230-233 | a qualifying line with none qualifying before it is the one chosen |
| `Intake.PrefilledName` | PILLziy/Views/MedicationFormView.swift:228-236 | a typed name or empty text leaves the name; a prefilled name is under 50 characters, holds no newline and has no blank at either end |
| `Intake.DeriveName` | PILLziy/Views/MedicationFormView.swift:228-236 | the loop with `break` yields the prefilled name |
| `Intake.PrefillOnlyIntoEmptyName` | PILLziy/Views/MedicationFormView.swift:228 | a typed name, or empty text, leaves the name as it is |
| `Intake.PrefillTakesFirstQualifying` | PILLziy/Views/MedicationFormView.swift:229-233 | with an empty name and some text, the name is the first qualifying line, trimmed; later lines are ignored |
| `Intake.PrefillNoneQualifies` | PILLziy/Views/MedicationFormView.swift:228-236 | when no line qualifies the name stays empty |
| `Intake.PrefillFromRecognizedLines` | PILLziy/Views/MedicationFormView.swift:229-233 | on text joined from recognised lines, the name is the first qualifying recognised line, trimmed, or empty |
| `Intake.ShortLinesPassedOver` | PILLziy/Views/MedicationFormView.swift:231-232 | in "AB\n<line>\nX" the short lines are skipped and the middle line, trimmed, becomes the name |
| `Intake.BlankLineHidesName` | PILLziy/Views/MedicationFormView.swift:231-232 | a first line of 4 to 49 blanks qualifies and trims to "", hiding the name on the next line (as in "    \nADVIL 200") |
| `Intake.NonEmptyOr` | PILLziy/Views/MedicationFormView.swift:250-251 | the result is never empty: the value if non-empty, else the fallback |
| `Intake.LabelImageData` | PILLziy/Views/MedicationFormView.swift:244-247 | no scanned image gives nil data; otherwise the JPEG encoder's result |
| `Intake.Draft` | PILLziy/Views/MedicationFormView.swift:249-254 | the committed record has a non-empty name and dosage ("TYLENOL 500" / "500mg" when empty), the given frequency, image data, id and stamp |
| `MedicationForm.MedicationFormView.constructor` | PILLziy/Views/MedicationFormView.swift:91-99 | the sheet starts with an empty name and is not dismissed |
| `MedicationForm.MedicationFormView.OnAppear` | PILLziy/Views/MedicationFormView.swift:227-236 | the name becomes the prefilled name |
| `MedicationForm.MedicationFormView.EditName` | PILLziy/Views/MedicationFormView.swift:111 | the text field sets the name |
| `MedicationForm.MedicationFormView.ConfirmTapped` | PILLziy/Views/MedicationFormView.swift:163-190 | Confirm is enabled (`ConfirmEnabled`) exactly when the name is non-empty and does nothing otherwise; when enabled exactly one record is appended carrying the typed name, "500mg" and "1 Pill Daily", storage becomes `AfterSave` of the new list, and the sheet is dismissed |
| `MedicationForm.MedicationFormView.SaveMedication` | PILLziy/Views/MedicationFormView.swift:243-258 | one `addMedication` of the draft record, storage saved, sheet dismissed |
| `MedicationForm.MedicationFormView.CancelTapped` | PILLziy/Views/MedicationFormView.swift:192 | Cancel dismisses without touching the store |
| `EntryForm.EntryFormView.constructor` | Pillzy/Views/MedicationFormView.swift:16-18 | empty name and dosage, frequency "1 Pill Daily" |
| `EntryForm.EntryFormView.OnAppear` | Pillzy/Views/MedicationFormView.swift:58-69 | the same prefill rule as the confirmation sheet |
| `EntryForm.EntryFormView.EditName` | Pillzy/Views/MedicationFormView.swift:24 | the name field sets the name |
| `EntryForm.EntryFormView.EditDosage` | Pillzy/Views/MedicationFormView.swift:25 | the dosage field sets the dosage |
| `EntryForm.EntryFormView.SelectFrequency` | Pillzy/Views/MedicationFormView.swift:26-31 | the picker sets one of its four tags, so the frequency stays a preset |
| `EntryForm.EntryFormView.SaveTapped` | Pillzy/Views/MedicationFormView.swift:50-55 | Save is enabled (`SaveEnabled`, line 54) exactly when the name is non-empty and does nothing otherwise; when enabled exactly one record with the typed name and a preset frequency is appended, storage becomes `AfterSave` of the new list, and the form is dismissed |
| `EntryForm.EntryFormView.SaveMedication` | Pillzy/Views/MedicationFormView.swift:72-87 | one `addMedication` of the draft record with fallbacks, storage saved, form dismissed |
| `EntryForm.EntryFormView.CancelTapped` | Pillzy/Views/MedicationFormView.swift:46-48 | Cancel dismisses without touching the store |
| `Scanner.TopCandidates` | PILLziy/Views/PrescriptionScannerView.swift:362 | no more lines than observations |
| `Scanner.TopCandidatesMembers` | PILLziy/Views/PrescriptionScannerView.swift:362 | a line is kept exactly when some observation had it as top candidate |
| `Scanner.TopCandidatesConcat` | PILLziy/Views/PrescriptionScannerView.swift:362 | candidates keep the observations' order |
| `Scanner.TopCandidatesAllPresent` | PILLziy/Views/PrescriptionScannerView.swift:362 | when every observation has a candidate, nothing is skipped and positions match |
| `Scanner.JoinLinesEmpty` | PILLziy/Views/PrescriptionScannerView.swift:362 | the joined text is empty exactly for no line or a single empty line |
| `Scanner.RecognizedTextEmpty` | PILLziy/Views/PrescriptionScannerView.swift:353-382 | `RecognizedText` is "" exactly on a failure path (no image pixels, non-text results, `perform` threw) or when the candidates join to nothing |
| `Scanner.RecognizedLinesRecovered` | PILLziy/Views/PrescriptionScannerView.swift:362 | splitting `RecognizedText` gives back the newline-free candidates |
| `Scanner.CameraScanViewController.constructor` | PILLziy/Views/PrescriptionScannerView.swift:255-261 | the gate starts open, with nothing in flight and no callbacks |
| `Scanner.CameraScanViewController.CaptureTapped` | PILLziy/Views/PrescriptionScannerView.swift:345-351 | a tap is taken exactly when not capturing and a photo output exists; it closes the gate, disables the button and requests one photo |
| `Scanner.CameraScanViewController.CancelTapped` | PILLziy/Views/PrescriptionScannerView.swift:341-343 | Cancel calls `onCancel` |
| `Scanner.CameraScanViewController.Release` | PILLziy/Views/PrescriptionScannerView.swift:196-204 | dismissing the sheet releases the controller; afterwards its `[weak self]` blocks call nothing |
| `Scanner.CameraScanViewController.PhotoFinished` | PILLziy/Views/PrescriptionScannerView.swift:386-402 | the gate reopens on every outcome; failures call `onCancel` (line 396, only while the controller exists) and never `onCapture`; an image starts recognition |
| `Scanner.CameraScanViewController.RecognitionFinished` | PILLziy/Views/PrescriptionScannerView.swift:399-401 | while the controller exists, `onCapture` receives the pending image and its recognised text, "" included; after release nothing is called |
| `Scanner.CancelDuringRecognition` | PILLziy/Views/PrescriptionScannerView.swift:341-401 | a Cancel while recognition is pending is the only callback the owner sees: the late recognition finds the controller released |
| `Scanner.SecondTapDuringRecognition` | PILLziy/Views/PrescriptionScannerView.swift:387-392 | after the photo arrives, a second tap is accepted while the first image is still being recognised |
| `Scanner.CaptureThenRecognize` | PILLziy/Views/PrescriptionScannerView.swift:345-401 | a tap, a decoded photo and its recognition deliver exactly one `onCapture` with that image and its text, and nothing stays pending |
| `Scanner.CaptureOutcome` | PILLziy/Views/PrescriptionScannerView.swift:386-401 | a failed photo calls `onCancel` once and starts no recognition; a decoded one calls nothing yet and leaves one recognition pending; the button is enabled again either way |
| `Scanner.SecondTapBeforePhoto` | PILLziy/Views/PrescriptionScannerView.swift:346 | a second tap before the photo arrives is ignored, so only one photo is requested |
| `Scanner.PrescriptionScannerView.constructor` | PILLziy/Views/PrescriptionScannerView.swift:28-31 | no image, no text, no sheet shown |
| `Scanner.PrescriptionScannerView.ScanTapped` | PILLziy/Views/PrescriptionScannerView.swift:51-53 | the scan button shows the scanner sheet |
| `Scanner.PrescriptionScannerView.Deliver` | PILLziy/Views/PrescriptionScannerView.swift:196-204 | a capture sets both the image and the text; a cancel sets neither; the sheet is dismissed either way |
| `Scanner.PrescriptionScannerView.AddMedicationTapped` | PILLziy/Views/PrescriptionScannerView.swift:79-117 | the form opens exactly when "Add Medication" is shown (`AddMedicationVisible`), that is when the extracted text is non-empty |
| `Scanner.ScanThenAdd` | PILLziy/Views/PrescriptionScannerView.swift:79-117 | after a scan, "Add Medication" is shown exactly when the recognised text is non-empty, never after a failed recognition, and a tap opens the form exactly when it is shown |
| `Scanner.FailedRecognitionHidesEntry` | PILLziy/Views/PrescriptionScannerView.swift:79 | a failed recognition gives "" text, so no "Add Medication" entry and no prefill |
| `Dashboard.DisplayedCard` | PILLziy/Views/DashboardView.swift:66 | the card is the selection if set, else the store's first record; none ("No medications added") exactly when both are missing |
| `Dashboard.FirstLaunchRouting` | PILLziy/ContentView.swift:17-27 | `ShowsScanner`: on a first launch the root screen is the scanner, and after the first add it is the dashboard |
| `Dashboard.SelectionOnAppear` | PILLziy/Views/DashboardView.swift:123-125 | an existing selection is never overwritten; an empty one becomes the first record if there is one |
| `Dashboard.OnAppearPinsCard` | PILLziy/Views/DashboardView.swift:121-126 | `onAppear` leaves the shown card as it was, and afterwards (store non-empty or selection set) no store change moves it |
| `Dashboard.SelectionWins` | PILLziy/Views/DashboardView.swift:66 | once a selection exists the card is that selection whatever the store holds |
| `Dashboard.DashboardView.Card` | PILLziy/Views/DashboardView.swift:66 | the shown card is the selection when set, otherwise the store's first record, and none exactly when both are missing |
| `Dashboard.DashboardView.constructor` | PILLziy/Views/DashboardView.swift:34-36 | nothing selected, video playing |
| `Dashboard.DashboardView.OnAppear` | PILLziy/Views/DashboardView.swift:121-126 | the video restarts, the selection follows `SelectionOnAppear`, and the shown card does not change |

## Left out

- The Foundation JSON coders and `UserDefaults` are replaced by the field-token codec in `Codec` and the `Defaults` map. The model proves the codec's round trip and does not model the JSON text.
- Encoding failure is modelled by one cause: a `Date` that is not a finite number. The default date strategy writes a `Date` as a Double, and the encoder's default non-conforming float strategy (`.throw`) rejects NaN and the infinities. Swift `Date` doubles are otherwise kept as whole seconds.
- Fresh UUIDs, `Date()` and the JPEG encoder are parameters: `id`, `now` and `jpeg`.
- The Vision request and `normalizedImageForOCR` are not modelled. The recognizer is an input: a failure case, or per observation an optional top candidate. So are the camera session, preview layer, button layout and every `DispatchQueue` hop or delay. Callbacks are discrete events applied in order.
- `Scanner.CameraScanViewController.PhotoFinished`: the `onCancel` call and the gate reset are applied together. In the app both are posted to the main queue in that order. For a decoded image without pixels the app likewise posts `onCapture(image, "")` before the gate reset; the model instead puts every decoded image into `recognizing`, so that `onCapture` comes from a later `RecognitionFinished` with `NoPixels`, after the gate has reopened.
- The capture button is assumed to exist, as it does once `viewDidLoad` has run.
- `extractDominantColor`, the pill colour and the pain slider are left out because they are floating-point pixel and geometry code.
- The video views, the other decorative views and app bootstrap have no logic this model needs.
- The older VisionKit scanner (`Pillzy/Views/PrescriptionScannerView.swift`) is not part of this model. Its newline join of top candidates is the same as in `Scanner.RecognizedText`, but it has no "" fallback: an image without a `cgImage`, results that are not text observations, and a `perform` that throws (swallowed by `try?`) all leave `extractedText` as it was.
- `Scanner.CameraScanViewController.Release` is an explicit event; the model does not decide when the sheet's controller is deallocated. A released controller's gate is still reset, which no one can observe. A released controller has no view, so `CaptureTapped` and `CancelTapped` require that it is not released.
- The model counts Unicode scalars where Swift counts grapheme clusters, so a line's length is its number of scalars. Newline and whitespace are the `CharacterSet.newlines` and `.whitespaces` members listed in `TextLines`.
- Observer notification (`@Published`) is not modelled. Observers re-read the store's `medications` field.
