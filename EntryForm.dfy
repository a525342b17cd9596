/**
 * The earlier entry form (Pillzy `MedicationFormView`): name and dosage are
 * text fields, frequency is a picker over four presets, and Save commits one
 * record to the store.
 */
module EntryForm {
  import opened Wrappers
  import opened MedicationModel
  import opened Codec
  import opened Store
  import opened Intake

  /** The picker's tags. */
  const FrequencyPresets: seq<string> := ["1 Pill Daily", "2 Pills Daily", "3 Pills Daily", "As Needed"]

  class EntryFormView {
    const scannedImage: Option<Image>
    const extractedText: string
    const medicationStore: MedicationStore
    var medicationName: string
    var dosage: string
    var frequency: string
    var dismissed: bool

    /** The frequency is always one of the picker's tags. */
    predicate Valid()
      reads this
    {
      frequency in FrequencyPresets
    }

    constructor(scannedImage: Option<Image>, extractedText: string, medicationStore: MedicationStore)
      ensures Valid()
      ensures this.scannedImage == scannedImage && this.extractedText == extractedText
      ensures this.medicationStore == medicationStore
      ensures medicationName == "" && dosage == "" && frequency == DefaultFrequency && !dismissed
    {
      this.scannedImage := scannedImage;
      this.extractedText := extractedText;
      this.medicationStore := medicationStore;
      medicationName := "";
      dosage := "";
      frequency := DefaultFrequency;
      dismissed := false;
    }

    /** `onAppear`: the same prefill rule as the confirmation sheet. */
    method OnAppear()
      requires Valid()
      modifies this`medicationName
      ensures Valid()
      ensures medicationName == PrefilledName(old(medicationName), extractedText)
    {
      medicationName := DeriveName(medicationName, extractedText);
    }

    method EditName(name: string)
      requires Valid()
      modifies this`medicationName
      ensures Valid() && medicationName == name
    {
      medicationName := name;
    }

    method EditDosage(value: string)
      requires Valid()
      modifies this`dosage
      ensures Valid() && dosage == value
    {
      dosage := value;
    }

    /** The picker can only produce one of its tags. */
    method SelectFrequency(tag: string)
      requires tag in FrequencyPresets
      modifies this`frequency
      ensures Valid() && frequency == tag
    {
      frequency := tag;
    }

    /** The Save button is disabled while the name is empty. */
    predicate SaveEnabled()
      reads this
    {
      medicationName != ""
    }

    /** A tap on Save: ignored while disabled, otherwise `saveMedication()`. */
    method SaveTapped(id: Uuid, now: int, jpeg: Image -> Option<Bytes>) returns (saved: bool)
      requires Valid()
      modifies medicationStore, medicationStore.defaults, this`dismissed
      ensures Valid()
      ensures saved == (medicationName != "")
      ensures saved ==> medicationStore.medications == old(medicationStore.medications)
                          + [Draft(id, medicationName, dosage, frequency, LabelImageData(scannedImage, jpeg), now)]
      ensures saved ==> var m := medicationStore.medications[|medicationStore.medications| - 1];
                          m.name == medicationName && m.frequency in FrequencyPresets
      ensures saved ==> medicationStore.defaults.entries
                          == AfterSave(old(medicationStore.defaults.entries), medicationStore.medications)
                        && dismissed
      ensures !saved ==> medicationStore.medications == old(medicationStore.medications)
                           && medicationStore.defaults.entries == old(medicationStore.defaults.entries)
                           && dismissed == old(dismissed)
    {
      saved := SaveEnabled();
      if saved {
        SaveMedication(id, now, jpeg);
      }
    }

    /**
     * `saveMedication()`: fallbacks for an empty name or dosage, the chosen
     * frequency, the label image if any; one `addMedication`, then dismiss.
     */
    method SaveMedication(id: Uuid, now: int, jpeg: Image -> Option<Bytes>)
      requires Valid()
      modifies medicationStore, medicationStore.defaults, this`dismissed
      ensures Valid()
      ensures medicationStore.medications == old(medicationStore.medications)
                + [Draft(id, medicationName, dosage, frequency, LabelImageData(scannedImage, jpeg), now)]
      ensures medicationStore.defaults.entries
                == AfterSave(old(medicationStore.defaults.entries), medicationStore.medications)
      ensures dismissed
    {
      var imageData: Option<Bytes> := None;
      if scannedImage.Some? {
        imageData := jpeg(scannedImage.value);
      }
      var medication := Draft(id, medicationName, dosage, frequency, imageData, now);
      medicationStore.AddMedication(medication);
      dismissed := true;
    }

    method CancelTapped()
      requires Valid()
      modifies this`dismissed
      ensures Valid() && dismissed
    {
      dismissed := true;
    }
  }
}
