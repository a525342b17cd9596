/**
 * The stored form of the medication list. The app writes `[Medication]` with
 * the Foundation JSON coders; here the blob is an ordered sequence of typed
 * fields, six per record, in declaration order. What matters to the store is
 * that decoding inverts encoding and that arbitrary blobs may fail to decode.
 */
module Codec {
  import opened Wrappers
  import opened MedicationModel

  datatype Field =
    | IdField(uuid: Uuid)
    | TextField(text: string)
    | DataField(data: Option<Bytes>)
    | DateField(seconds: int)

  type Blob = seq<Field>

  predicate AllFinite(ms: seq<Medication>)
  {
    forall k :: 0 <= k < |ms| ==> ms[k].createdAt.Finite?
  }

  /** The six fields of one record whose stamp is finite. */
  function Fields(m: Medication): (b: Blob)
    requires m.createdAt.Finite?
    ensures |b| == 6
  {
    [IdField(m.id), TextField(m.name), TextField(m.dosage), TextField(m.frequency),
     DataField(m.labelImageData), DateField(m.createdAt.seconds)]
  }

  /**
   * `JSONEncoder().encode(medications)`: fails (None) exactly when some stamp
   * is not a finite number.
   */
  function Encode(ms: seq<Medication>): (r: Option<Blob>)
    ensures r.Some? <==> AllFinite(ms)
    ensures r.Some? ==> |r.value| == 6 * |ms|
  {
    if ms == [] then Some([])
    else if ms[0].createdAt.NonFinite? then None
    else
      match Encode(ms[1..])
      case None => None
      case Some(rest) => Some(Fields(ms[0]) + rest)
  }

  predicate RecordShape(b: Blob)
    requires |b| >= 6
  {
    b[0].IdField? && b[1].TextField? && b[2].TextField? && b[3].TextField?
    && b[4].DataField? && b[5].DateField?
  }

  /**
   * `JSONDecoder().decode([Medication].self, from:)`: None for any blob that is
   * not a whole number of well-formed records.
   */
  function Decode(b: Blob): (r: Option<seq<Medication>>)
    ensures r.Some? ==> AllFinite(r.value) && 6 * |r.value| == |b|
  {
    if |b| == 0 then Some([])
    else if |b| < 6 || !RecordShape(b) then None
    else
      match Decode(b[6..])
      case None => None
      case Some(rest) =>
        Some([Medication(b[0].uuid, b[1].text, b[2].text, b[3].text, b[4].data, Finite(b[5].seconds))] + rest)
  }

  /** Round trip: whatever encodes decodes back to itself. */
  lemma {:induction false} DecodeEncode(ms: seq<Medication>)
    requires Encode(ms).Some?
    ensures Decode(Encode(ms).value) == Some(ms)
  {
    if ms != [] {
      var rest := Encode(ms[1..]).value;
      assert Encode(ms) == Some(Fields(ms[0]) + rest);
      DecodeEncode(ms[1..]);
      var b := Encode(ms).value;
      assert b[..6] == Fields(ms[0]) && b[6..] == rest;
      assert |b| >= 6 && RecordShape(b);
      var head := Medication(b[0].uuid, b[1].text, b[2].text, b[3].text, b[4].data, Finite(b[5].seconds));
      assert head == ms[0];
      assert Decode(b) == Some([head] + ms[1..]);
      assert [ms[0]] + ms[1..] == ms;
    }
  }

  /** The other direction: a blob that decodes is the encoding of its list. */
  lemma {:induction false} EncodeDecode(b: Blob)
    requires Decode(b).Some?
    ensures Encode(Decode(b).value) == Some(b)
  {
    if |b| != 0 {
      EncodeDecode(b[6..]);
      var ms := Decode(b).value;
      assert ms[1..] == Decode(b[6..]).value;
      assert Fields(ms[0]) == b[..6];
      assert b == b[..6] + b[6..];
    }
  }
}
