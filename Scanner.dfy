/**
 * The newer prescription scanner (PILLziy `PrescriptionScannerView.swift`):
 * the camera controller's capture gate, the assembly of recognised text with
 * its empty-string fallbacks, and the scanner screen that shows the
 * "Add Medication" entry once there is text. Main-queue hops and the
 * recognizer's completion are modelled as separate, sequential events.
 */
module Scanner {
  import opened Wrappers
  import opened TextLines
  import opened Intake

  /** What the recognizer reports for one captured image. */
  datatype Recognition =
    | NoPixels                                  // neither the upright redraw nor the image has a CGImage
    | PerformThrew                              // the request handler's `perform` threw
    | NotTextResults                            // the results are not text observations
    | Observations(tops: seq<Option<string>>)   // per observation, its top candidate if it has one

  /** `compactMap { $0.topCandidates(1).first?.string }`: the present candidates, in order. */
  function TopCandidates(tops: seq<Option<string>>): (lines: seq<string>)
    ensures |lines| <= |tops|
  {
    if tops == [] then []
    else (if tops[0].Some? then [tops[0].value] else []) + TopCandidates(tops[1..])
  }

  /** The text handed to `completion`: candidates joined by "\n", or "" on every failure path. */
  function RecognizedText(r: Recognition): string
  {
    match r
    case Observations(tops) => JoinLines(TopCandidates(tops))
    case _ => ""
  }

  /** A candidate is kept exactly when some observation had it as top candidate. */
  lemma {:induction false} TopCandidatesMembers(tops: seq<Option<string>>, s: string)
    ensures s in TopCandidates(tops) <==> Some(s) in tops
  {
    if tops != [] {
      TopCandidatesMembers(tops[1..], s);
      assert tops == [tops[0]] + tops[1..];
    }
  }

  /** Candidates keep the observations' order: the map works piecewise. */
  lemma {:induction false} TopCandidatesConcat(a: seq<Option<string>>, b: seq<Option<string>>)
    ensures TopCandidates(a + b) == TopCandidates(a) + TopCandidates(b)
  {
    if a != [] {
      TopCandidatesConcat(a[1..], b);
      assert (a + b)[1..] == a[1..] + b;
    } else {
      assert a + b == b;
    }
  }

  /** When every observation has a candidate, nothing is skipped. */
  lemma {:induction false} TopCandidatesAllPresent(tops: seq<Option<string>>)
    requires forall k :: 0 <= k < |tops| ==> tops[k].Some?
    ensures |TopCandidates(tops)| == |tops|
    ensures forall k :: 0 <= k < |tops| ==> TopCandidates(tops)[k] == tops[k].value
  {
    if tops != [] {
      TopCandidatesAllPresent(tops[1..]);
    }
  }

  /** Joined lines are empty exactly when there is no line or one empty line. */
  lemma JoinLinesEmpty(lines: seq<string>)
    ensures JoinLines(lines) == "" <==> |lines| == 0 || (|lines| == 1 && lines[0] == "")
  {
    if |lines| >= 2 {
      assert |JoinLines(lines)| >= 1;
    }
  }

  /**
   * The recognised text is empty exactly on a failure path, when no
   * observation had a candidate, or when the only candidate was empty.
   */
  lemma RecognizedTextEmpty(r: Recognition)
    ensures RecognizedText(r) == "" <==>
      !r.Observations? || |TopCandidates(r.tops)| == 0
      || (|TopCandidates(r.tops)| == 1 && TopCandidates(r.tops)[0] == "")
  {
    if r.Observations? {
      JoinLinesEmpty(TopCandidates(r.tops));
    }
  }

  /**
   * Splitting the recognised text recovers the candidates when none of them
   * holds a newline, so the form's prefill sees the recognizer's lines.
   */
  lemma RecognizedLinesRecovered(tops: seq<Option<string>>)
    requires |TopCandidates(tops)| >= 1
    requires forall k :: 0 <= k < |TopCandidates(tops)| ==> NoNewline(TopCandidates(tops)[k])
    ensures SplitLines(RecognizedText(Observations(tops))) == TopCandidates(tops)
  {
    SplitJoin(TopCandidates(tops));
  }

  /** How the photo delegate's checks come out. */
  datatype PhotoResult =
    | PhotoError             // the delegate received an error
    | NoFileData             // `fileDataRepresentation()` was nil
    | Undecodable            // `UIImage(data:)` was nil
    | Photo(image: Image)

  /** The controller's calls into its owner. */
  datatype Callback = Captured(image: Image, text: string) | Cancelled

  /** `CameraScanViewController`, after `viewDidLoad` has made the capture button. */
  class CameraScanViewController {
    /** Whether `setupCamera` got as far as attaching a photo output. */
    const hasPhotoOutput: bool
    var isCapturing: bool
    var captureButtonEnabled: bool
    /** Photos requested whose delegate call has not arrived. */
    var photosInFlight: nat
    /** Images whose text recognition has started and not completed. */
    var recognizing: seq<Image>
    /** `onCapture` / `onCancel` calls, in the order made. */
    var callbacks: seq<Callback>
    /**
     * Whether the sheet holding the controller has been dismissed and the
     * controller released: from then on the `[weak self]` blocks posted to
     * the main queue find no controller and call nothing.
     */
    var released: bool

    /** The gate: at most one photo in flight, and the button shows whether a tap is taken. */
    predicate Valid()
      reads this
    {
      captureButtonEnabled == !isCapturing
      && photosInFlight == (if isCapturing then 1 else 0)
    }

    constructor(hasPhotoOutput: bool)
      ensures Valid()
      ensures this.hasPhotoOutput == hasPhotoOutput
      ensures !isCapturing && recognizing == [] && callbacks == [] && !released
    {
      this.hasPhotoOutput := hasPhotoOutput;
      isCapturing := false;
      captureButtonEnabled := true;
      photosInFlight := 0;
      recognizing := [];
      callbacks := [];
      released := false;
    }

    /**
     * `captureTapped()`: ignored while a capture is in flight or without a
     * photo output; otherwise closes the gate and requests one photo.
     */
    method CaptureTapped() returns (accepted: bool)
      requires Valid() && !released
      modifies this`isCapturing, this`captureButtonEnabled, this`photosInFlight
      ensures Valid()
      ensures accepted == (!old(isCapturing) && hasPhotoOutput)
      ensures accepted ==> isCapturing && !captureButtonEnabled && photosInFlight == 1
      ensures !accepted ==> isCapturing == old(isCapturing) && photosInFlight == old(photosInFlight)
      ensures recognizing == old(recognizing) && callbacks == old(callbacks)
    {
      if isCapturing || !hasPhotoOutput {
        return false;
      }
      isCapturing := true;
      captureButtonEnabled := false;
      photosInFlight := photosInFlight + 1;
      accepted := true;
    }

    /** `cancelTapped()`. */
    method CancelTapped()
      requires Valid() && !released
      modifies this`callbacks
      ensures Valid()
      ensures callbacks == old(callbacks) + [Cancelled]
    {
      callbacks := callbacks + [Cancelled];
    }

    /**
     * The sheet is dismissed (after Cancel or a delivered capture) and the
     * controller is released while work it started may still be pending.
     */
    method Release()
      modifies this`released
      ensures released
    {
      released := true;
    }

    /**
     * `photoOutput(_:didFinishProcessingPhoto:error:)`: whatever the outcome
     * the gate reopens; a failure calls `onCancel` unless the controller has
     * been released, an image starts text recognition and never calls
     * `onCancel`. (The gate of a released controller is never looked at again.)
     */
    method PhotoFinished(result: PhotoResult)
      requires Valid() && photosInFlight > 0
      modifies this`recognizing, this`callbacks, this`isCapturing, this`captureButtonEnabled, this`photosInFlight
      ensures Valid()
      ensures !isCapturing && captureButtonEnabled && photosInFlight == 0
      ensures !result.Photo? && !released ==> callbacks == old(callbacks) + [Cancelled]
      ensures !result.Photo? && released ==> callbacks == old(callbacks)
      ensures !result.Photo? ==> recognizing == old(recognizing)
      ensures result.Photo? ==> callbacks == old(callbacks) && recognizing == old(recognizing) + [result.image]
    {
      if result.Photo? {
        recognizing := recognizing + [result.image];
      } else if !released {
        callbacks := callbacks + [Cancelled];
      }
      isCapturing := false;
      captureButtonEnabled := true;
      photosInFlight := photosInFlight - 1;
    }

    /**
     * The recognizer's completion for the `k`-th pending image: `onCapture`
     * with that image and the recognised text, "" included, unless the
     * controller has been released, in which case nothing is called.
     */
    method RecognitionFinished(k: nat, r: Recognition)
      requires Valid() && k < |recognizing|
      modifies this`recognizing, this`callbacks
      ensures Valid()
      ensures !released ==> callbacks == old(callbacks) + [Captured(old(recognizing)[k], RecognizedText(r))]
      ensures released ==> callbacks == old(callbacks)
      ensures recognizing == old(recognizing)[..k] + old(recognizing)[k + 1..]
    {
      if !released {
        callbacks := callbacks + [Captured(recognizing[k], RecognizedText(r))];
      }
      recognizing := recognizing[..k] + recognizing[k + 1..];
    }
  }

  /**
   * The gate covers the photo only: once the photo has arrived, a second tap
   * is accepted while the first image's text is still being recognised.
   */
  method SecondTapDuringRecognition(image: Image) returns (accepted: bool, pending: nat)
    ensures accepted && pending == 1
  {
    var controller := new CameraScanViewController(true);
    var first := controller.CaptureTapped();
    controller.PhotoFinished(Photo(image));
    accepted := controller.CaptureTapped();
    pending := |controller.recognizing|;
  }

  /**
   * Cancel while the first image is still being recognised: the sheet goes
   * away with the controller, and the late recognition calls nothing, so the
   * owner sees only the cancel.
   */
  method CancelDuringRecognition(image: Image, r: Recognition) returns (delivered: seq<Callback>, pending: nat)
    ensures delivered == [Cancelled] && pending == 0
  {
    var controller := new CameraScanViewController(true);
    var accepted := controller.CaptureTapped();
    controller.PhotoFinished(Photo(image));
    controller.CancelTapped();
    controller.Release();
    controller.RecognitionFinished(0, r);
    delivered := controller.callbacks;
    pending := |controller.recognizing|;
  }

  /**
   * The whole path of one capture: the image is recognised and `onCapture`
   * receives it with its text.
   */
  method CaptureThenRecognize(image: Image, r: Recognition) returns (delivered: seq<Callback>, pending: nat)
    ensures delivered == [Captured(image, RecognizedText(r))] && pending == 0
  {
    var controller := new CameraScanViewController(true);
    var accepted := controller.CaptureTapped();
    controller.PhotoFinished(Photo(image));
    controller.RecognitionFinished(0, r);
    delivered := controller.callbacks;
    pending := |controller.recognizing|;
  }

  /**
   * A photo that fails (an error, no file data, or data that is not an image)
   * calls `onCancel` once and starts no recognition; a photo that decodes
   * calls nothing yet and leaves one recognition pending.
   */
  method CaptureOutcome(result: PhotoResult) returns (delivered: seq<Callback>, pending: nat, reopened: bool)
    ensures !result.Photo? ==> delivered == [Cancelled] && pending == 0
    ensures result.Photo? ==> delivered == [] && pending == 1
    ensures reopened
  {
    var controller := new CameraScanViewController(true);
    var accepted := controller.CaptureTapped();
    controller.PhotoFinished(result);
    delivered := controller.callbacks;
    pending := |controller.recognizing|;
    reopened := controller.captureButtonEnabled;
  }

  /** A second tap before the photo arrives is ignored. */
  method SecondTapBeforePhoto() returns (first: bool, second: bool, requested: nat)
    ensures first && !second && requested == 1
  {
    var controller := new CameraScanViewController(true);
    first := controller.CaptureTapped();
    second := controller.CaptureTapped();
    requested := controller.photosInFlight;
  }

  /** The scanner screen's state (`PrescriptionScannerView` and its sheet). */
  class PrescriptionScannerView {
    var showScanner: bool
    var scannedImage: Option<Image>
    var showMedicationForm: bool
    var extractedText: string

    constructor()
      ensures !showScanner && scannedImage.None? && !showMedicationForm && extractedText == ""
    {
      showScanner := false;
      scannedImage := None;
      showMedicationForm := false;
      extractedText := "";
    }

    /** "Add Medication" is shown only once there is extracted text. */
    predicate AddMedicationVisible()
      reads this
    {
      extractedText != ""
    }

    method ScanTapped()
      modifies this`showScanner
      ensures showScanner
    {
      showScanner := true;
    }

    /**
     * The sheet's `onCapture` / `onCancel`: a capture sets both the image and
     * the text; either way the sheet is dismissed.
     */
    method Deliver(callback: Callback)
      modifies this`showScanner, this`scannedImage, this`extractedText
      ensures !showScanner
      ensures callback.Captured? ==> scannedImage == Some(callback.image) && extractedText == callback.text
      ensures callback.Cancelled? ==> scannedImage == old(scannedImage) && extractedText == old(extractedText)
    {
      if callback.Captured? {
        scannedImage := Some(callback.image);
        extractedText := callback.text;
      }
      showScanner := false;
    }

    /** A tap on "Add Medication" opens the form; without text there is no button to tap. */
    method AddMedicationTapped() returns (presented: bool)
      modifies this`showMedicationForm
      ensures presented == (extractedText != "")
      ensures showMedicationForm == (old(showMedicationForm) || presented)
    {
      presented := AddMedicationVisible();
      if presented {
        showMedicationForm := true;
      }
    }
  }

  /**
   * From capture to the form's entry: a failed recognition delivers an empty
   * text, so the "Add Medication" entry stays hidden.
   */
  lemma FailedRecognitionHidesEntry(r: Recognition, name: string)
    requires !r.Observations?
    ensures RecognizedText(r) == "" && PrefilledName(name, RecognizedText(r)) == name
  {
  }

  /**
   * The whole path on one screen: a scan whose recognition fails still
   * delivers the image, but "Add Medication" stays hidden and a tap on where
   * it would be opens nothing; a scan with text shows it.
   */
  method ScanThenAdd(image: Image, r: Recognition) returns (visible: bool, presented: bool)
    ensures visible <==> RecognizedText(r) != ""
    ensures !r.Observations? ==> !visible && !presented
    ensures presented == visible
  {
    var view := new PrescriptionScannerView();
    view.ScanTapped();
    view.Deliver(Captured(image, RecognizedText(r)));
    visible := view.AddMedicationVisible();
    presented := view.AddMedicationTapped();
  }
}
