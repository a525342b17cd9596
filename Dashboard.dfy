/**
 * The dashboard's choice of medication card (PILLziy `DashboardView`), and the
 * root view's choice between the scanner and the dashboard.
 */
module Dashboard {
  import opened Wrappers
  import opened MedicationModel
  import opened Store

  /** `selectedMedication ?? medications.first`: None means "No medications added". */
  function DisplayedCard(selected: Option<Medication>, medications: seq<Medication>): (card: Option<Medication>)
    ensures selected.Some? ==> card == selected
    ensures selected.None? && |medications| > 0 ==> card == Some(medications[0])
    ensures card.None? <==> selected.None? && medications == []
  {
    if selected.Some? then selected
    else if |medications| > 0 then Some(medications[0])
    else None
  }

  /** `ContentView`: the scanner is the root screen exactly while the store is empty. */
  predicate ShowsScanner(medications: seq<Medication>)
  {
    |medications| == 0
  }

  /**
   * On a first launch (nothing saved yet) the root screen is the scanner, and
   * once the first record is added it is the dashboard.
   */
  method FirstLaunchRouting(defaults: Defaults, m: Medication) returns (scannerBefore: bool, scannerAfter: bool)
    requires MedicationsKey !in defaults.entries
    modifies defaults
    ensures scannerBefore && !scannerAfter
  {
    var store := new MedicationStore(defaults);
    scannerBefore := ShowsScanner(store.medications);
    store.AddMedication(m);
    scannerAfter := ShowsScanner(store.medications);
  }

  /**
   * The selection after `onAppear`: the store's first record when nothing was
   * selected and the store has one; otherwise the selection as it was.
   */
  function SelectionOnAppear(selected: Option<Medication>, medications: seq<Medication>): (s: Option<Medication>)
    ensures selected.Some? ==> s == selected
    ensures selected.None? && medications == [] ==> s.None?
    ensures selected.None? && medications != [] ==> s == Some(medications[0])
  {
    if selected.None? && |medications| > 0 then Some(medications[0]) else selected
  }

  /**
   * `onAppear` does not change which card is shown; what it changes is that
   * the card is pinned: afterwards no change to the store moves it, unless
   * the store was empty.
   */
  lemma OnAppearPinsCard(selected: Option<Medication>, medications: seq<Medication>, later: seq<Medication>)
    ensures DisplayedCard(SelectionOnAppear(selected, medications), medications) == DisplayedCard(selected, medications)
    ensures medications != [] || selected.Some? ==>
              DisplayedCard(SelectionOnAppear(selected, medications), later) == DisplayedCard(selected, medications)
  {
  }

  /** A selection, once made, is what the card shows whatever the store holds. */
  lemma SelectionWins(m: Medication, medications: seq<Medication>, later: seq<Medication>)
    ensures DisplayedCard(Some(m), medications) == DisplayedCard(Some(m), later) == Some(m)
  {
  }

  class DashboardView {
    const medicationStore: MedicationStore
    var selectedMedication: Option<Medication>
    var isPillVideoPlaying: bool

    constructor(medicationStore: MedicationStore)
      ensures this.medicationStore == medicationStore
      ensures selectedMedication.None? && isPillVideoPlaying
    {
      this.medicationStore := medicationStore;
      selectedMedication := None;
      isPillVideoPlaying := true;
    }

    /** The card the view shows now. */
    function Card(): (card: Option<Medication>)
      reads this, medicationStore
      ensures selectedMedication.Some? ==> card == selectedMedication
      ensures card.None? <==> selectedMedication.None? && medicationStore.medications == []
      ensures card.Some? ==> card == selectedMedication || card.value == medicationStore.medications[0]
    {
      DisplayedCard(selectedMedication, medicationStore.medications)
    }

    /** `onAppear`: restart the video and select the first record if nothing is selected. */
    method OnAppear()
      modifies this
      ensures isPillVideoPlaying
      ensures selectedMedication == SelectionOnAppear(old(selectedMedication), medicationStore.medications)
      ensures Card() == old(Card())
    {
      isPillVideoPlaying := true;
      if selectedMedication.None? && |medicationStore.medications| > 0 {
        selectedMedication := Some(medicationStore.medications[0]);
      }
    }
  }
}
