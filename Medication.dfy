/** Optional values, as Swift's `T?`. */
module Wrappers {
  datatype Option<+T> = None | Some(value: T)
}

/**
 * The medication record (`struct Medication`): an identifier that never changes,
 * editable name, dosage, frequency and label image, and a creation stamp.
 * Equality and hashing look at the identifier alone.
 */
module MedicationModel {
  import opened Wrappers

  /** A UUID, as an opaque number; fresh ones come from outside the model. */
  type Uuid = nat

  /** Binary image data (`Data`). */
  type Bytes = seq<bv8>

  /**
   * A `Date` is a Double count of seconds, which the default JSON date
   * strategy writes as a number. The encoder's default non-conforming float
   * strategy throws on NaN and the infinities, so they are kept apart here.
   */
  datatype Date = Finite(seconds: int) | NonFinite

  datatype Medication = Medication(
    id: Uuid,
    name: string,
    dosage: string,
    frequency: string,
    labelImageData: Option<Bytes>,
    createdAt: Date)

  /**
   * `Medication.init`: the caller chooses the id (a fresh UUID by default) and
   * the image, which is nil when the caller leaves it out; the stamp is the
   * clock's reading `now`, never a parameter of the initializer.
   */
  function NewMedication(id: Uuid, name: string, dosage: string, frequency: string, now: int,
                         labelImageData: Option<Bytes> := None): (m: Medication)
    ensures m.id == id
    ensures m.name == name && m.dosage == dosage && m.frequency == frequency
    ensures m.labelImageData == labelImageData
    ensures m.createdAt == Finite(now)
  {
    Medication(id, name, dosage, frequency, labelImageData, Finite(now))
  }

  /** Leaving the image out of `init` gives a record without label image data. */
  lemma InitWithoutImage(id: Uuid, name: string, dosage: string, frequency: string, now: int)
    ensures NewMedication(id, name, dosage, frequency, now).labelImageData.None?
    ensures NewMedication(id, name, dosage, frequency, now) == NewMedication(id, name, dosage, frequency, now, None)
  {
  }

  /** `==`: two records are equal exactly when their ids are. */
  predicate Same(a: Medication, b: Medication)
  {
    a.id == b.id
  }

  /**
   * `hash(into:)` feeds the id, and only the id, to the hasher; the hasher
   * (randomly seeded per process) is a parameter.
   */
  function Hash(m: Medication, hasher: Uuid -> int): int
  {
    hasher(m.id)
  }

  /**
   * Assigning to the `var` fields: every field may change except `id`, which
   * is a `let`. The edited record is still `==` to the original.
   */
  function Edited(m: Medication, name: string, dosage: string, frequency: string,
                  labelImageData: Option<Bytes>, createdAt: Date): (r: Medication)
    ensures r.id == m.id && Same(r, m)
    ensures r.name == name && r.dosage == dosage && r.frequency == frequency
    ensures r.labelImageData == labelImageData && r.createdAt == createdAt
  {
    m.(name := name, dosage := dosage, frequency := frequency,
       labelImageData := labelImageData, createdAt := createdAt)
  }

  /** Equality ignores every field but the id, in both directions. */
  lemma SameIgnoresOtherFields(a: Medication, b: Medication)
    ensures Same(a, b) <==> a.id == b.id
    ensures Same(a, b) ==> Same(Edited(a, b.name, b.dosage, b.frequency, b.labelImageData, b.createdAt), b)
  {
  }

  /** `==` is an equivalence, as `Equatable` requires. */
  lemma SameIsEquivalence(a: Medication, b: Medication, c: Medication)
    ensures Same(a, a)
    ensures Same(a, b) ==> Same(b, a)
    ensures Same(a, b) && Same(b, c) ==> Same(a, c)
  {
  }

  /** Hashing is consistent with `==`, whatever the hasher's seed. */
  lemma HashConsistent(a: Medication, b: Medication, hasher: Uuid -> int)
    requires Same(a, b)
    ensures Hash(a, hasher) == Hash(b, hasher)
  {
  }

  /** Two records built by `init` with one id are equal, whatever else differs. */
  lemma SameIdSameRecord(id: Uuid, n1: string, d1: string, f1: string, t1: int, i1: Option<Bytes>,
                         n2: string, d2: string, f2: string, t2: int, i2: Option<Bytes>)
    ensures Same(NewMedication(id, n1, d1, f1, t1, i1), NewMedication(id, n2, d2, f2, t2, i2))
  {
  }
}
