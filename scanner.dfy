/** The photo scanner (components/Scanner.tsx): file upload with downscaling,
    and a camera with permission errors, a flash and a capture. The browser
    (FileReader, Image, canvas, getUserMedia, the video element) is given as
    inputs: the image's size, the outcome of the camera request, the video's
    ready state and the encoded frame. */
module Scanner {
  import opened Types

  // ---------------------------------------------------------------------
  // File upload
  // ---------------------------------------------------------------------

  const MaxDim: real := 1536.0

  /** `file.type.startsWith('image/')` */
  predicate IsImageType(fileType: string): (b: bool)
    ensures b <==> |fileType| >= 6 && fileType[..6] == "image/"
  {
    "image/" <= fileType
  }

  function Max(a: real, b: real): real {
    if a >= b then a else b
  }

  /** The size drawn on the canvas for an image of size `w` by `h`: unchanged
      when it fits, otherwise scaled down with the aspect ratio kept until
      the longer side is `MaxDim`. */
  ghost predicate FitsFrom(w: real, h: real, width: real, height: real) {
    && width <= MaxDim && height <= MaxDim
    && ((w <= MaxDim && h <= MaxDim) ==> width == w && height == h)
    && ((w > MaxDim || h > MaxDim) ==>
          && Max(width, height) == MaxDim
          && width * h == height * w
          && 0.0 <= width <= w && 0.0 <= height <= h)
  }

  /** The resize of `processFile` (the `width`/`height` locals). */
  method FitWithin(w: real, h: real) returns (width: real, height: real)
    requires w >= 0.0 && h >= 0.0
    ensures FitsFrom(w, h, width, height)
  {
    width := w;
    height := h;
    if width > MaxDim || height > MaxDim {
      var scale := MaxDim / Max(width, height);
      width := width * scale;
      height := height * scale;
      ScaleDownFits(w, h);
    }
  }

  /** Scaling an oversized image by `MaxDim` over its longer side fits it. */
  lemma ScaleDownFits(w: real, h: real)
    requires w >= 0.0 && h >= 0.0 && (w > MaxDim || h > MaxDim)
    ensures var scale := MaxDim / Max(w, h); FitsFrom(w, h, w * scale, h * scale)
  {
    var scale := MaxDim / Max(w, h);
    ScaleKeepsRatio(w, h, scale);
    if w >= h {
      assert Max(w, h) == w;
      ScaleLonger(w, h);
    } else {
      assert Max(w, h) == h;
      ScaleLonger(h, w);
    }
  }

  /** The longer side scales to exactly `MaxDim`, the shorter one to at most
      that, and neither grows. */
  lemma ScaleLonger(long: real, short: real)
    requires long > MaxDim && 0.0 <= short <= long
    ensures long * (MaxDim / long) == MaxDim
    ensures 0.0 <= short * (MaxDim / long) <= short
    ensures short * (MaxDim / long) <= MaxDim
  {
    var scale := MaxDim / long;
    ScaleToMax(long);
    ScaleBelowOneFor(long);
    ScaleBelowOne(short, scale);
    ScaleMonotone(short, long, scale);
  }

  lemma ScaleKeepsRatio(w: real, h: real, s: real)
    ensures (w * s) * h == (h * s) * w
  {
  }

  lemma ScaleToMax(m: real)
    requires m > 0.0
    ensures m * (MaxDim / m) == MaxDim
  {
  }

  lemma ScaleBelowOneFor(m: real)
    requires m > MaxDim
    ensures 0.0 < MaxDim / m < 1.0
  {
  }

  lemma ScaleBelowOne(x: real, s: real)
    requires x >= 0.0 && 0.0 < s < 1.0
    ensures 0.0 <= x * s <= x
  {
  }

  lemma ScaleMonotone(x: real, y: real, s: real)
    requires x <= y && s > 0.0
    ensures x * s <= y * s
  {
  }

  /** `processFile`: ignore a file that is not an image; otherwise emit one
      image drawn at the fitted size once it has been read and decoded.
      `decoded` is the decoded image's size, `None` when `FileReader` or
      `Image` fails to load it (the source has no error handler, so nothing
      is emitted then). `drawn` is the canvas size of the emitted image,
      `None` when nothing is emitted. */
  method ProcessFile(fileType: string, decoded: Option<(real, real)>) returns (drawn: Option<(real, real)>)
    requires decoded.Some? ==> decoded.value.0 >= 0.0 && decoded.value.1 >= 0.0
    ensures drawn.None? <==> !IsImageType(fileType) || decoded.None?
    ensures drawn.Some? ==> FitsFrom(decoded.value.0, decoded.value.1, drawn.value.0, drawn.value.1)
  {
    if !IsImageType(fileType) {
      return None;
    }
    match decoded {
      case None =>
        drawn := None;
      case Some((imageWidth, imageHeight)) =>
        var width, height := FitWithin(imageWidth, imageHeight);
        drawn := Some((width, height));
    }
  }

  // ---------------------------------------------------------------------
  // Camera errors
  // ---------------------------------------------------------------------

  /** Why `getUserMedia` rejected: a `DOMException` with its name, or any
      other error. */
  datatype CameraFailure = DomException(name: string) | OtherError

  const GenericCameraMessage := "Unable to access camera."

  /** The messages for the recognised exception names. */
  const CameraMessages: map<string, string> := map[
    "NotAllowedError" := "Camera permission denied. Please allow access.",
    "NotFoundError" := "No camera found on this device.",
    "NotReadableError" := "Camera is currently in use by another application."
  ]

  /** The message shown for a failure, by table lookup. */
  function MessageFor(err: CameraFailure): string {
    if err.DomException? && err.name in CameraMessages then CameraMessages[err.name] else GenericCameraMessage
  }

  /** Different recognised failures get different messages, none of them the
      generic one. */
  lemma MessagesDistinguishFailures(a: CameraFailure, b: CameraFailure)
    requires a.DomException? && a.name in CameraMessages
    requires MessageFor(a) == MessageFor(b)
    ensures a == b
  {
  }

  /** The `errorMessage` chain of `startCamera`'s catch block. */
  method CameraErrorMessage(err: CameraFailure) returns (errorMessage: string)
    ensures errorMessage == MessageFor(err)
  {
    errorMessage := "Unable to access camera.";
    if err.DomException? {
      if err.name == "NotAllowedError" {
        errorMessage := "Camera permission denied. Please allow access.";
      } else if err.name == "NotFoundError" {
        errorMessage := "No camera found on this device.";
      } else if err.name == "NotReadableError" {
        errorMessage := "Camera is currently in use by another application.";
      }
    }
  }

  // ---------------------------------------------------------------------
  // The camera state
  // ---------------------------------------------------------------------

  /** A media stream, known by identity. */
  datatype Stream = Stream(id: nat)

  /** The outcome of `getUserMedia`. */
  datatype CameraAccess = Granted(stream: Stream) | Refused(failure: CameraFailure)

  class ScannerState {
    var showCamera: bool
    var cameraStream: Option<Stream>
    var cameraError: Option<string>
    var isFlashing: bool
    /** The streams whose tracks have been stopped, in order. */
    var stopped: seq<Stream>

    constructor ()
      ensures !showCamera && cameraStream == None && cameraError == None && !isFlashing && stopped == []
    {
      showCamera := false;
      cameraStream := None;
      cameraError := None;
      isFlashing := false;
      stopped := [];
    }

    /** `startCamera`: clear the error, then open the camera or report why not. */
    method StartCamera(access: CameraAccess)
      modifies this`cameraError, this`cameraStream, this`showCamera
      ensures access.Granted? ==> cameraError == None && cameraStream == Some(access.stream) && showCamera
      ensures access.Refused? ==>
        cameraError == Some(MessageFor(access.failure)) && cameraStream == old(cameraStream) && showCamera == old(showCamera)
    {
      cameraError := None;
      match access {
        case Granted(stream) =>
          cameraStream := Some(stream);
          showCamera := true;
        case Refused(failure) =>
          var errorMessage := CameraErrorMessage(failure);
          cameraError := Some(errorMessage);
      }
    }

    /** `stopCamera`: stop the open stream, if any, and close the camera view. */
    method StopCamera()
      modifies this`cameraStream, this`showCamera, this`stopped
      ensures cameraStream == None && !showCamera
      ensures stopped == old(stopped) + if old(cameraStream).Some? then [old(cameraStream).value] else []
    {
      if cameraStream.Some? {
        stopped := stopped + [cameraStream.value];
        cameraStream := None;
      }
      showCamera := false;
    }

    /** `capturePhoto`: nothing unless the video is ready (`readyState` 4);
        then flash, and with a 2D context emit the encoded `frame` and stop
        the camera. `scan` is the image passed to `onScan`, if any. */
    method CapturePhoto(readyState: Option<int>, hasContext: bool, frame: string) returns (scan: Option<string>)
      modifies this`isFlashing, this`cameraStream, this`showCamera, this`stopped
      ensures readyState != Some(4) ==>
        && scan == None && isFlashing == old(isFlashing)
        && cameraStream == old(cameraStream) && showCamera == old(showCamera) && stopped == old(stopped)
      ensures readyState == Some(4) && hasContext ==>
        && scan == Some(frame) && !isFlashing && cameraStream == None && !showCamera
        && stopped == old(stopped) + if old(cameraStream).Some? then [old(cameraStream).value] else []
      ensures readyState == Some(4) && !hasContext ==>
        && scan == None && !isFlashing
        && cameraStream == old(cameraStream) && showCamera == old(showCamera) && stopped == old(stopped)
    {
      scan := None;
      if readyState == Some(4) {
        isFlashing := true;
        if hasContext {
          var base64 := frame;
          isFlashing := false;
          StopCamera();
          scan := Some(base64);
        } else {
          isFlashing := false;
        }
      }
    }
  }

  /** Stopping the camera twice stops its stream once: the second call
      changes nothing. */
  method StopTwice(stream: Stream) returns (stopped: seq<Stream>, open: bool)
    ensures stopped == [stream] && !open
  {
    var scanner := new ScannerState();
    scanner.StartCamera(Granted(stream));
    scanner.StopCamera();
    scanner.StopCamera();
    stopped, open := scanner.stopped, scanner.showCamera;
  }
}
