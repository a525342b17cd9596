/**
 * The rules both medication forms share: deriving a candidate name from the
 * recognised text when the form appears, and building the record that is
 * committed on save, with its fallback literals.
 */
module Intake {
  import opened Wrappers
  import opened MedicationModel
  import opened TextLines

  /** A decoded still image (`UIImage`); its pixels are opaque here. */
  datatype Image = Image(pixels: Bytes)

  /** Literals the save step falls back on; they read like sample data. */
  const FallbackName: string := "TYLENOL 500"
  const FallbackDosage: string := "500mg"

  /** The frequency every form starts with. */
  const DefaultFrequency: string := "1 Pill Daily"

  /** A line may become the name when its untrimmed length is strictly between 3 and 50. */
  predicate Qualifies(line: string)
  {
    3 < |line| < 50
  }

  /** The index of the first qualifying line, if any. */
  function FirstQualifying(lines: seq<string>): (r: Option<nat>)
    ensures r.Some? ==> r.value < |lines| && Qualifies(lines[r.value])
    ensures r.Some? ==> forall j :: 0 <= j < r.value ==> !Qualifies(lines[j])
    ensures r.None? ==> forall j :: 0 <= j < |lines| ==> !Qualifies(lines[j])
  {
    if lines == [] then None
    else if Qualifies(lines[0]) then Some(0)
    else match FirstQualifying(lines[1..])
      case Some(i) => Some(i + 1)
      case None => None
  }

  /** A qualifying line with no qualifying line before it is the first one. */
  lemma FirstQualifyingIs(lines: seq<string>, i: nat)
    requires i < |lines| && Qualifies(lines[i])
    requires forall j :: 0 <= j < i ==> !Qualifies(lines[j])
    ensures FirstQualifying(lines) == Some(i)
  {
  }

  /**
   * The name field after the form appears: untouched unless it is empty and
   * there is text; then the first qualifying line, trimmed, if there is one.
   */
  function PrefilledName(current: string, text: string): (name: string)
    ensures current != "" || text == "" ==> name == current
    ensures current == "" ==> |name| < 50 && NoNewline(name)
    ensures current == "" && name != "" ==> !IsWhitespace(name[0]) && !IsWhitespace(name[|name| - 1])
  {
    if current == "" && text != "" then
      match FirstQualifying(SplitLines(text))
      case Some(i) => Trim(SplitLines(text)[i])
      case None => current
    else current
  }

  /** The `onAppear` loop: scan the lines in order and stop at the first that qualifies. */
  method DeriveName(current: string, text: string) returns (name: string)
    ensures name == PrefilledName(current, text)
  {
    name := current;
    if |current| == 0 && |text| > 0 {
      var lines := SplitLines(text);
      var i := 0;
      while i < |lines|
        invariant 0 <= i <= |lines|
        invariant forall j :: 0 <= j < i ==> !Qualifies(lines[j])
        invariant name == current
      {
        if |lines[i]| > 3 && |lines[i]| < 50 {
          name := Trim(lines[i]);
          FirstQualifyingIs(lines, i);
          break;
        }
        i := i + 1;
      }
    }
  }

  /** A name already typed, or no text at all, leaves the field as it is. */
  lemma PrefillOnlyIntoEmptyName(current: string, text: string)
    requires current != "" || text == ""
    ensures PrefilledName(current, text) == current
  {
  }

  /**
   * With an empty field and some text, the name is the first line whose
   * untrimmed length is strictly between 3 and 50, trimmed; later lines are
   * never looked at.
   */
  lemma PrefillTakesFirstQualifying(text: string, i: nat)
    requires text != ""
    requires i < |SplitLines(text)| && Qualifies(SplitLines(text)[i])
    requires forall j :: 0 <= j < i ==> !Qualifies(SplitLines(text)[j])
    ensures PrefilledName("", text) == Trim(SplitLines(text)[i])
  {
    FirstQualifyingIs(SplitLines(text), i);
  }

  /** When no line qualifies the name stays empty. */
  lemma PrefillNoneQualifies(text: string)
    requires forall j :: 0 <= j < |SplitLines(text)| ==> !Qualifies(SplitLines(text)[j])
    ensures PrefilledName("", text) == ""
  {
  }

  /**
   * Text made of recognised lines (none holding a newline) yields the first
   * of those lines that qualifies, trimmed, or nothing.
   */
  lemma PrefillFromRecognizedLines(lines: seq<string>)
    requires |lines| >= 1 && JoinLines(lines) != ""
    requires forall k :: 0 <= k < |lines| ==> NoNewline(lines[k])
    ensures FirstQualifying(lines).Some? ==>
              PrefilledName("", JoinLines(lines)) == Trim(lines[FirstQualifying(lines).value])
    ensures FirstQualifying(lines).None? ==> PrefilledName("", JoinLines(lines)) == ""
  {
    SplitJoin(lines);
  }

  /**
   * The worked example, for any label line: a two-letter first line and a
   * one-letter last line are passed over, and the line between becomes the
   * name (as in "AB\nTYLENOL 500 MG TABLET\nX").
   */
  lemma ShortLinesPassedOver(labelLine: string)
    requires Qualifies(labelLine) && NoNewline(labelLine)
    ensures PrefilledName("", "AB\n" + labelLine + "\nX") == Trim(labelLine)
  {
    var lines := ["AB", labelLine, "X"];
    assert JoinLines(lines) == "AB\n" + labelLine + "\nX" by {
      assert lines[1..][1..] == ["X"];
      assert JoinLines(lines[1..]) == labelLine + "\n" + "X";
    }
    PrefillFromRecognizedLines(lines);
    FirstQualifyingIs(lines, 1);
  }

  /**
   * The length test comes before trimming: a first line of four to 49 blanks
   * qualifies, trims to "", and hides whatever name follows it (as in
   * "    \nADVIL 200").
   */
  lemma BlankLineHidesName(blank: string, next: string)
    requires Qualifies(blank) && forall k :: 0 <= k < |blank| ==> IsWhitespace(blank[k])
    requires NoNewline(next)
    ensures PrefilledName("", blank + "\n" + next) == ""
  {
    var lines := [blank, next];
    assert JoinLines(lines) == blank + "\n" + next by {
      assert lines[1..] == [next];
    }
    PrefillFromRecognizedLines(lines);
    FirstQualifyingIs(lines, 0);
    TrimEmptyIffBlank(blank);
  }

  /** `value.isEmpty ? fallback : value`. */
  function NonEmptyOr(value: string, fallback: string): (r: string)
    requires fallback != ""
    ensures r != ""
    ensures value != "" ==> r == value
    ensures value == "" ==> r == fallback
  {
    if value == "" then fallback else value
  }

  /** `image.jpegData(compressionQuality: 0.8)` when there is a scanned image. */
  function LabelImageData(scanned: Option<Image>, jpeg: Image -> Option<Bytes>): (d: Option<Bytes>)
    ensures scanned.None? ==> d.None?
    ensures scanned.Some? ==> d == jpeg(scanned.value)
  {
    match scanned
    case Some(image) => jpeg(image)
    case None => None
  }

  /**
   * The record `saveMedication()` commits: empty name and dosage replaced by
   * the fallbacks, frequency and image data passed through, a fresh id and the
   * clock's reading as stamp.
   */
  function Draft(id: Uuid, name: string, dosage: string, frequency: string,
                 imageData: Option<Bytes>, now: int): (m: Medication)
    ensures m.id == id && m.frequency == frequency && m.labelImageData == imageData
    ensures m.createdAt == Finite(now)
    ensures m.name != "" && m.dosage != ""
    ensures name != "" ==> m.name == name
    ensures name == "" ==> m.name == FallbackName
    ensures dosage != "" ==> m.dosage == dosage
    ensures dosage == "" ==> m.dosage == FallbackDosage
  {
    NewMedication(id, NonEmptyOr(name, FallbackName), NonEmptyOr(dosage, FallbackDosage),
                  frequency, now, imageData)
  }
}
