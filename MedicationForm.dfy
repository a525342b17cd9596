/**
 * The confirmation sheet of the current app (PILLziy `MedicationFormView`):
 * the name is prefilled from the recognised text and can be edited; dosage
 * and frequency keep their initial values because the sheet has no field for
 * them; Confirm commits one record to the store.
 */
module MedicationForm {
  import opened Wrappers
  import opened MedicationModel
  import opened Codec
  import opened Store
  import opened Intake

  class MedicationFormView {
    const scannedImage: Option<Image>
    const extractedText: string
    const medicationStore: MedicationStore
    var medicationName: string
    /** Never assigned after initialisation: the sheet has no control for them. */
    const dosage: string := ""
    const frequency: string := DefaultFrequency
    var dismissed: bool

    constructor(scannedImage: Option<Image>, extractedText: string, medicationStore: MedicationStore)
      ensures this.scannedImage == scannedImage && this.extractedText == extractedText
      ensures this.medicationStore == medicationStore
      ensures medicationName == "" && !dismissed
    {
      this.scannedImage := scannedImage;
      this.extractedText := extractedText;
      this.medicationStore := medicationStore;
      medicationName := "";
      dismissed := false;
    }

    /** `onAppear`: prefill the name from the text (the pill colour is not modelled). */
    method OnAppear()
      modifies this`medicationName
      ensures medicationName == PrefilledName(old(medicationName), extractedText)
    {
      medicationName := DeriveName(medicationName, extractedText);
    }

    /** Typing into the name field. */
    method EditName(name: string)
      modifies this`medicationName
      ensures medicationName == name
    {
      medicationName := name;
    }

    /** The Confirm button is disabled while the name is empty. */
    predicate ConfirmEnabled()
      reads this
    {
      medicationName != ""
    }

    /**
     * A tap on Confirm: ignored while the button is disabled; otherwise one
     * record, carrying the typed name, "500mg" and "1 Pill Daily", is appended.
     */
    method ConfirmTapped(id: Uuid, now: int, jpeg: Image -> Option<Bytes>) returns (saved: bool)
      modifies medicationStore, medicationStore.defaults, this`dismissed
      ensures saved == (medicationName != "")
      ensures saved ==> medicationStore.medications == old(medicationStore.medications)
                          + [Draft(id, medicationName, dosage, frequency, LabelImageData(scannedImage, jpeg), now)]
      ensures saved ==> var m := medicationStore.medications[|medicationStore.medications| - 1];
                          m.name == medicationName && m.dosage == FallbackDosage && m.frequency == DefaultFrequency
      ensures saved ==> medicationStore.defaults.entries
                          == AfterSave(old(medicationStore.defaults.entries), medicationStore.medications)
                        && dismissed
      ensures !saved ==> medicationStore.medications == old(medicationStore.medications)
                           && medicationStore.defaults.entries == old(medicationStore.defaults.entries)
                           && dismissed == old(dismissed)
    {
      saved := ConfirmEnabled();
      if saved {
        SaveMedication(id, now, jpeg);
      }
    }

    /**
     * `saveMedication()`: builds the record with the fallbacks for an empty name
     * or dosage, appends it with exactly one `addMedication`, and dismisses.
     */
    method SaveMedication(id: Uuid, now: int, jpeg: Image -> Option<Bytes>)
      modifies medicationStore, medicationStore.defaults, this`dismissed
      ensures medicationStore.medications == old(medicationStore.medications)
                + [Draft(id, medicationName, dosage, frequency, LabelImageData(scannedImage, jpeg), now)]
      ensures medicationStore.defaults.entries
                == AfterSave(old(medicationStore.defaults.entries), medicationStore.medications)
      ensures dismissed
    {
      var imageData: Option<Bytes> := None;
      if scannedImage.Some? {
        imageData := jpeg(scannedImage.value);
      }
      var medication := Draft(id, medicationName, dosage, frequency, imageData, now);
      medicationStore.AddMedication(medication);
      dismissed := true;
    }

    /** The Cancel button. */
    method CancelTapped()
      modifies this`dismissed
      ensures dismissed
    {
      dismissed := true;
    }
  }
}
