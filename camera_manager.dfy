/**
 * The parts of the camera manager that are not hardware control: the table
 * that tells the text recognizer how a captured frame is oriented, and the
 * "is the session running" view of the optional capture session together with
 * `stopSession`.
 */
module CameraCapture {

  import opened Options

  /** `UIDeviceOrientation` */
  datatype DeviceOrientation =
    | Unknown | Portrait | PortraitUpsideDown | LandscapeLeft | LandscapeRight | FaceUp | FaceDown
  {
    /** The four orientations the table distinguishes. */
    predicate IsUpright() {
      Portrait? || PortraitUpsideDown? || LandscapeLeft? || LandscapeRight?
    }
  }

  /** `AVCaptureDevice.Position` */
  datatype CameraPosition = Unspecified | Back | Front

  /** `VisionDetectorImageOrientation`: where row 0 and column 0 of the image lie. */
  datatype VisionOrientation =
    | TopLeft | TopRight | BottomRight | BottomLeft | LeftTop | RightTop | RightBottom | LeftBottom

  /**
   * Reads the table backwards: the upright orientation and the camera side
   * (Front, or Back for every non-front camera) that give `o`.
   */
  function CaptureConditions(o: VisionOrientation): (c: (DeviceOrientation, CameraPosition))
    ensures c.0.IsUpright() && c.1 != Unspecified
  {
    match o
    case LeftTop => (Portrait, Front)
    case RightTop => (Portrait, Back)
    case BottomLeft => (LandscapeLeft, Front)
    case TopLeft => (LandscapeLeft, Back)
    case RightBottom => (PortraitUpsideDown, Front)
    case LeftBottom => (PortraitUpsideDown, Back)
    case TopRight => (LandscapeRight, Front)
    case BottomRight => (LandscapeRight, Back)
  }

  /**
   * `imageOrientation(_:cameraPosition:)`. For the four upright orientations
   * the result determines the orientation and whether the camera is the front
   * one; every other orientation gives `leftTop`, whatever the camera.
   */
  function ImageOrientation(d: DeviceOrientation, p: CameraPosition): (o: VisionOrientation)
    ensures d.IsUpright() ==> CaptureConditions(o) == (d, if p == Front then Front else Back)
    ensures !d.IsUpright() ==> o == LeftTop
  {
    match d
    case Portrait => if p == Front then LeftTop else RightTop
    case LandscapeLeft => if p == Front then BottomLeft else TopLeft
    case PortraitUpsideDown => if p == Front then RightBottom else LeftBottom
    case LandscapeRight => if p == Front then TopRight else BottomRight
    case _ => LeftTop
  }

  /** For each upright orientation the front camera gets a different result. */
  lemma FrontDiffersFromOthers(d: DeviceOrientation, p: CameraPosition)
    requires d.IsUpright() && p != Front
    ensures ImageOrientation(d, Front) != ImageOrientation(d, p)
  {
    assert CaptureConditions(ImageOrientation(d, Front)).1 == Front;
  }

  /** Every recognizer orientation is produced by exactly one upright row of the table. */
  lemma EveryOrientationReached(o: VisionOrientation)
    ensures ImageOrientation(CaptureConditions(o).0, CaptureConditions(o).1) == o
  {
  }

  /** The session value the manager holds; only whether it runs matters here. */
  datatype CaptureSession = CaptureSession(isRunning: bool)

  class CameraManager {
    var captureSession: Option<CaptureSession>
    var hasVideoOutput: bool
    var hasPreviewLayer: bool

    /** `isCaptureSessionRunning`: false when there is no session. */
    predicate IsCaptureSessionRunning()
      reads this
      ensures captureSession == None ==> !IsCaptureSessionRunning()
    {
      match captureSession
      case None => false
      case Some(session) => session.isRunning
    }

    /** A new manager holds no session, output or preview layer. */
    constructor ()
      ensures captureSession == None && !hasVideoOutput && !hasPreviewLayer
      ensures !IsCaptureSessionRunning()
    {
      captureSession := None;
      hasVideoOutput := false;
      hasPreviewLayer := false;
    }

    /** `stopSession`: stop the session and drop it with its output and preview layer. */
    method StopSession()
      modifies this
      ensures captureSession == None && !hasVideoOutput && !hasPreviewLayer
      ensures !IsCaptureSessionRunning()
    {
      hasVideoOutput := false;
      hasPreviewLayer := false;
      captureSession := None;
    }
  }
}
