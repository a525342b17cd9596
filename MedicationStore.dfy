/**
 * The medication repository (`class MedicationStore`): an ordered, in-memory
 * list of records that is written in full to one storage slot after every
 * change and read back from that slot when a store is created.
 */
module Store {
  import opened Wrappers
  import opened MedicationModel
  import opened Codec

  /** The key of the single slot the list is stored under. */
  const MedicationsKey: string := "SavedMedications"

  /**
   * The device-wide key-value storage (`UserDefaults.standard`). It outlives
   * any one store, so a store created later sees what an earlier one saved.
   */
  class Defaults {
    var entries: map<string, Blob>

    constructor(entries: map<string, Blob>)
      ensures this.entries == entries
    {
      this.entries := entries;
    }
  }

  /** `data(forKey:)`: the blob under the store's key, if any. */
  function Slot(entries: map<string, Blob>): (slot: Option<Blob>)
    ensures slot.Some? <==> MedicationsKey in entries
    ensures slot.Some? ==> slot.value == entries[MedicationsKey]
  {
    if MedicationsKey in entries then Some(entries[MedicationsKey]) else None
  }

  /**
   * The list a new store starts with: the decoded slot when there is one and
   * it decodes, and the empty list otherwise.
   */
  function Loaded(slot: Option<Blob>): (ms: seq<Medication>)
    ensures slot.Some? && Decode(slot.value).Some? ==> ms == Decode(slot.value).value
    ensures slot.None? || Decode(slot.value).None? ==> ms == []
  {
    match slot
    case None => []
    case Some(b) => match Decode(b) case Some(decoded) => decoded case None => []
  }

  /**
   * The storage after `saveMedications()` with the list `ms`: the slot holds
   * the encoding of `ms` when encoding succeeds; otherwise nothing is written.
   * No other key is touched in either case.
   */
  function AfterSave(entries: map<string, Blob>, ms: seq<Medication>): (e: map<string, Blob>)
    ensures AllFinite(ms) ==> Slot(e) == Encode(ms)
    ensures !AllFinite(ms) ==> e == entries
    ensures forall k :: k in entries && k != MedicationsKey ==> k in e && e[k] == entries[k]
    ensures forall k :: k in e && k != MedicationsKey ==> k in entries
  {
    match Encode(ms)
    case Some(b) => entries[MedicationsKey := b]
    case None => entries
  }

  /** `removeAll { $0.id == id }`: keeps, in order, the records with another id. */
  function RemovingId(ms: seq<Medication>, id: Uuid): (r: seq<Medication>)
    ensures |r| <= |ms|
    ensures forall k :: 0 <= k < |r| ==> r[k].id != id
  {
    if ms == [] then []
    else (if ms[0].id == id then [] else [ms[0]]) + RemovingId(ms[1..], id)
  }

  /** `firstIndex(where: { $0.id == id })`. */
  function FirstIndexOf(ms: seq<Medication>, id: Uuid): (r: Option<nat>)
    ensures r.Some? ==> r.value < |ms| && ms[r.value].id == id
    ensures r.Some? ==> forall j :: 0 <= j < r.value ==> ms[j].id != id
    ensures r.None? ==> forall j :: 0 <= j < |ms| ==> ms[j].id != id
  {
    if ms == [] then None
    else if ms[0].id == id then Some(0)
    else match FirstIndexOf(ms[1..], id)
      case Some(i) => Some(i + 1)
      case None => None
  }

  /**
   * The list after `updateMedication(m)`: the first record with `m`'s id is
   * overwritten by the whole of `m` (its `createdAt` included); every other
   * position and the length stay.
   */
  function Updated(ms: seq<Medication>, m: Medication): (r: seq<Medication>)
    ensures |r| == |ms|
    ensures FirstIndexOf(ms, m.id).Some? ==>
              var i := FirstIndexOf(ms, m.id).value;
              r[i] == m && r[i].createdAt == m.createdAt
              && (forall j :: 0 <= j < |ms| && j != i ==> r[j] == ms[j])
    ensures FirstIndexOf(ms, m.id).None? ==> r == ms
  {
    match FirstIndexOf(ms, m.id)
    case Some(i) => ms[i := m]
    case None => ms
  }

  class MedicationStore {
    var medications: seq<Medication>
    const defaults: Defaults

    /** `init()`: starts empty, then loads the slot. */
    constructor(defaults: Defaults)
      ensures this.defaults == defaults
      ensures defaults.entries == old(defaults.entries)
      ensures medications == Loaded(Slot(defaults.entries))
    {
      this.defaults := defaults;
      medications := [];
      new;
      LoadMedications();
    }

    /** `loadMedications()`: replaces the list only when the slot decodes. */
    method LoadMedications()
      modifies this`medications
      ensures var slot := Slot(defaults.entries);
        if slot.Some? && Decode(slot.value).Some? then medications == Decode(slot.value).value
        else medications == old(medications)
    {
      var slot := Slot(defaults.entries);
      if slot.Some? {
        var decoded := Decode(slot.value);
        if decoded.Some? {
          medications := decoded.value;
        }
      }
    }

    /** `saveMedications()`: writes the whole list, unless encoding throws. */
    method SaveMedications()
      modifies defaults
      ensures defaults.entries == AfterSave(old(defaults.entries), medications)
    {
      var encoded := Encode(medications);
      if encoded.Some? {
        defaults.entries := defaults.entries[MedicationsKey := encoded.value];
      }
    }

    /** `addMedication(_:)`: appends, with no check for a duplicate id, then saves. */
    method AddMedication(m: Medication)
      modifies this`medications, defaults
      ensures medications == old(medications) + [m]
      ensures defaults.entries == AfterSave(old(defaults.entries), medications)
    {
      medications := medications + [m];
      SaveMedications();
    }

    /** `removeMedication(_:)`: drops every record with `m`'s id, then saves. */
    method RemoveMedication(m: Medication)
      modifies this`medications, defaults
      ensures medications == RemovingId(old(medications), m.id)
      ensures defaults.entries == AfterSave(old(defaults.entries), medications)
    {
      medications := RemovingId(medications, m.id);
      SaveMedications();
    }

    /**
     * `updateMedication(_:)`: overwrites the first record with `m`'s id by the
     * whole of `m` and saves; with no such record nothing happens at all.
     */
    method UpdateMedication(m: Medication)
      modifies this`medications, defaults
      ensures medications == Updated(old(medications), m)
      ensures FirstIndexOf(old(medications), m.id).Some? ==>
                defaults.entries == AfterSave(old(defaults.entries), medications)
      ensures FirstIndexOf(old(medications), m.id).None? ==>
                medications == old(medications) && defaults.entries == old(defaults.entries)
    {
      var index := FirstIndexOf(medications, m.id);
      if index.Some? {
        medications := medications[index.value := m];
        SaveMedications();
      }
    }
  }

  /** A record survives removal exactly when it is in the list with another id. */
  lemma {:induction false} RemovingIdMembers(ms: seq<Medication>, id: Uuid, x: Medication)
    ensures x in RemovingId(ms, id) <==> x in ms && x.id != id
  {
    if ms != [] {
      RemovingIdMembers(ms[1..], id, x);
      assert ms == [ms[0]] + ms[1..];
    }
  }

  /** Removal keeps relative order: it works piecewise on a concatenation. */
  lemma {:induction false} RemovingIdConcat(a: seq<Medication>, b: seq<Medication>, id: Uuid)
    ensures RemovingId(a + b, id) == RemovingId(a, id) + RemovingId(b, id)
  {
    if a != [] {
      RemovingIdConcat(a[1..], b, id);
      assert (a + b)[1..] == a[1..] + b;
    } else {
      assert a + b == b;
    }
  }

  /** Removing an id nobody has leaves the list as it was. */
  lemma {:induction false} RemovingAbsentId(ms: seq<Medication>, id: Uuid)
    requires forall k :: 0 <= k < |ms| ==> ms[k].id != id
    ensures RemovingId(ms, id) == ms
  {
    if ms != [] {
      RemovingAbsentId(ms[1..], id);
      assert ms == [ms[0]] + ms[1..];
    }
  }

  /**
   * Update never changes which id sits where, so updating again with the same
   * record changes nothing, and a list without the id is left as it is.
   */
  lemma UpdatedKeepsIds(ms: seq<Medication>, m: Medication)
    ensures forall j :: 0 <= j < |ms| ==> Updated(ms, m)[j].id == ms[j].id
    ensures Updated(Updated(ms, m), m) == Updated(ms, m)
    ensures (forall k :: 0 <= k < |ms| ==> ms[k].id != m.id) ==> Updated(ms, m) == ms
  {
    var r := Updated(ms, m);
    var first := FirstIndexOf(ms, m.id);
    if first.Some? {
      var i := first.value;
      assert forall j :: 0 <= j < i ==> r[j].id != m.id;
      assert FirstIndexOf(r, m.id) == Some(i) by {
        FirstIndexOfIs(r, m.id, i);
      }
      assert Updated(r, m) == r[i := m];
    }
  }

  /** An index holding the id with none before it is the one found. */
  lemma {:induction false} FirstIndexOfIs(ms: seq<Medication>, id: Uuid, i: nat)
    requires i < |ms| && ms[i].id == id
    requires forall j :: 0 <= j < i ==> ms[j].id != id
    ensures FirstIndexOf(ms, id) == Some(i)
  {
    if i > 0 {
      FirstIndexOfIs(ms[1..], id, i - 1);
    }
  }

  /** Removal and update keep a list savable (update, with a record made by `init`). */
  lemma ChangesKeepEncodable(ms: seq<Medication>, m: Medication)
    requires AllFinite(ms)
    ensures AllFinite(RemovingId(ms, m.id))
    ensures m.createdAt.Finite? ==> AllFinite(Updated(ms, m))
  {
    var r := RemovingId(ms, m.id);
    forall k | 0 <= k < |r| ensures r[k].createdAt.Finite? {
      RemovingIdMembers(ms, m.id, r[k]);
    }
  }

  /**
   * Persistence round trip: after a successful save of `ms`, a store created
   * over the same storage lists exactly `ms`.
   */
  lemma ReloadAfterSave(entries: map<string, Blob>, ms: seq<Medication>)
    requires AllFinite(ms)
    ensures Loaded(Slot(AfterSave(entries, ms))) == ms
  {
    DecodeEncode(ms);
  }

  /** A list that was loaded can always be saved again. */
  lemma LoadedAllFinite(slot: Option<Blob>)
    ensures AllFinite(Loaded(slot))
  {
  }

  /** A record made by `init` never stops a loaded list from being saved. */
  lemma LoadedIsEncodable(slot: Option<Blob>, m: Medication)
    requires m.createdAt.Finite?
    ensures AllFinite(Loaded(slot)) && AllFinite(Loaded(slot) + [m])
  {
  }

  /**
   * A relaunch: a store adds a record made by `init`, and a second store
   * created over the same storage afterwards lists exactly what the first held.
   */
  method RestartAfterAdd(defaults: Defaults, m: Medication) returns (before: seq<Medication>, after: seq<Medication>)
    requires m.createdAt.Finite?
    modifies defaults
    ensures before == Loaded(Slot(old(defaults.entries))) + [m]
    ensures after == before
  {
    var store := new MedicationStore(defaults);
    store.AddMedication(m);
    before := store.medications;
    LoadedIsEncodable(Slot(old(defaults.entries)), m);
    ReloadAfterSave(old(defaults.entries), before);
    var relaunched := new MedicationStore(defaults);
    after := relaunched.medications;
  }

  /**
   * A relaunch after a removal: a second store lists what the first held
   * after removing every record with `m`'s id, none of which is left.
   */
  method RestartAfterRemove(defaults: Defaults, m: Medication) returns (before: seq<Medication>, after: seq<Medication>)
    modifies defaults
    ensures before == RemovingId(Loaded(Slot(old(defaults.entries))), m.id)
    ensures after == before
    ensures forall k :: 0 <= k < |after| ==> after[k].id != m.id
  {
    var store := new MedicationStore(defaults);
    var loaded := store.medications;
    store.RemoveMedication(m);
    before := store.medications;
    LoadedAllFinite(Slot(old(defaults.entries)));
    ChangesKeepEncodable(loaded, m);
    ReloadAfterSave(old(defaults.entries), before);
    var relaunched := new MedicationStore(defaults);
    after := relaunched.medications;
  }

  /**
   * A relaunch after an update with a record made by `init`: a second store
   * lists the updated list; with no match the slot was never rewritten.
   */
  method RestartAfterUpdate(defaults: Defaults, m: Medication) returns (before: seq<Medication>, after: seq<Medication>)
    requires m.createdAt.Finite?
    modifies defaults
    ensures before == Updated(Loaded(Slot(old(defaults.entries))), m)
    ensures after == before
  {
    var store := new MedicationStore(defaults);
    var loaded := store.medications;
    store.UpdateMedication(m);
    before := store.medications;
    LoadedIsEncodable(Slot(old(defaults.entries)), m);
    ChangesKeepEncodable(loaded, m);
    if FirstIndexOf(loaded, m.id).Some? {
      ReloadAfterSave(old(defaults.entries), before);
    }
    var relaunched := new MedicationStore(defaults);
    after := relaunched.medications;
  }
}
