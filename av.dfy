/**
 * Abstract records standing for the platform media-capture framework objects
 * the library drives. Only the state the library reads or writes is kept;
 * framework queries (isFocusModeSupported, canSetSessionPreset,
 * videoMaxZoomFactor, ...) are immutable oracle fields fixed at construction.
 */
module AV {

  /** AVCaptureDevice.Position */
  datatype Position = Back | Front | Unspecified

  /** AVCaptureDevice.FocusMode */
  datatype FocusMode = Locked | AutoFocus | ContinuousAutoFocus

  /** AVCaptureDevice.ExposureMode */
  datatype ExposureMode = ExposureLocked | AutoExpose | ContinuousAutoExposure | CustomExposure

  /** AVCaptureDevice.TorchMode */
  datatype TorchMode = TorchOff | TorchOn | TorchAuto

  /** AVCaptureDevice.FlashMode */
  datatype FlashMode = FlashOff | FlashOn | FlashAuto

  /** A point in the device's normalised coordinate space. */
  datatype Point = Point(x: real, y: real)

  /** AVCaptureSession.Preset */
  datatype SessionPreset =
    | Photo | High | Medium | Low
    | Cif352x288 | Vga640x480 | Hd1280x720 | Hd1920x1080 | Hd4K3840x2160
    | IFrame960x540 | IFrame1280x720 | InputPriority

  /** AVOutputSettingsPreset; the framework may list presets the library does not know. */
  datatype OutputSettingsPreset =
    | Output640x480 | Output960x540 | Output1280x720 | Output1920x1080 | Output3840x2160
    | OtherOutputPreset(name: string)

  /** AVMetadataObject.ObjectType; every type the library does not name is OtherObjectType. */
  datatype ObjectType =
    | Face | Qr | Upce | Code39 | Code39Mod43 | Ean13 | Ean8 | Code93 | Code128 | Pdf417 | Aztec
    | OtherObjectType(name: string)

  /** A detected face or machine-readable code; `id` tells objects apart. */
  datatype MetadataObject = MetadataObject(objectType: ObjectType, id: nat)

  /** CMTime, as a count of clock ticks. */
  type Time = int

  /** A CMSampleBuffer: whether CMSampleBufferDataIsReady holds, and its presentation timestamp. */
  datatype SampleBuffer = SampleBuffer(dataReady: bool, presentationTime: Time)

  /** AVAssetWriter.Status */
  datatype WriterStatus = Unknown | Writing | Completed | Failed | Cancelled

  type Url = string

  /** The configurable state of a capture device, everything but its lock. */
  datatype DeviceSettings = DeviceSettings(
    focusMode: FocusMode, exposureMode: ExposureMode, videoZoomFactor: real, torchMode: TorchMode,
    focusPointOfInterest: Point, exposurePointOfInterest: Point)

  /** AVCaptureDevice: configuration changes are only allowed while it is locked. */
  class CaptureDevice {
    const supportedFocusModes: set<FocusMode>
    const focusPointOfInterestSupported: bool
    const supportedExposureModes: set<ExposureMode>
    const exposurePointOfInterestSupported: bool
    /** activeFormat.videoMaxZoomFactor */
    const maxZoomFactor: real
    const torchAvailable: bool
    /** isTorchModeSupported */
    const supportedTorchModes: set<TorchMode>
    const flashAvailable: bool

    var locked: bool
    var focusMode: FocusMode
    var exposureMode: ExposureMode
    var videoZoomFactor: real
    var torchMode: TorchMode
    var focusPointOfInterest: Point
    var exposurePointOfInterest: Point

    function Settings(): DeviceSettings
      reads this
    {
      DeviceSettings(focusMode, exposureMode, videoZoomFactor, torchMode,
                     focusPointOfInterest, exposurePointOfInterest)
    }

    constructor (focusModes: set<FocusMode>, focusPoint: bool,
                 exposureModes: set<ExposureMode>, exposurePoint: bool,
                 maxZoom: real, torch: bool, torchModes: set<TorchMode>, flash: bool)
      ensures supportedFocusModes == focusModes && focusPointOfInterestSupported == focusPoint
      ensures supportedExposureModes == exposureModes && exposurePointOfInterestSupported == exposurePoint
      ensures maxZoomFactor == maxZoom && torchAvailable == torch && flashAvailable == flash
      ensures supportedTorchModes == torchModes
      ensures !locked && videoZoomFactor == 1.0 && torchMode == TorchOff
    {
      supportedFocusModes, focusPointOfInterestSupported := focusModes, focusPoint;
      supportedExposureModes, exposurePointOfInterestSupported := exposureModes, exposurePoint;
      maxZoomFactor, torchAvailable, flashAvailable := maxZoom, torch, flash;
      supportedTorchModes := torchModes;
      locked := false;
      focusMode := ContinuousAutoFocus;
      exposureMode := ContinuousAutoExposure;
      videoZoomFactor := 1.0;
      torchMode := TorchOff;
      focusPointOfInterest := Point(0.5, 0.5);
      exposurePointOfInterest := Point(0.5, 0.5);
    }

    /** lockForConfiguration(); its failure is not modelled. */
    method LockForConfiguration()
      modifies this`locked
      ensures locked
    {
      locked := true;
    }

    method UnlockForConfiguration()
      modifies this`locked
      ensures !locked
    {
      locked := false;
    }

    /** The framework raises an exception for a mode the device does not support. */
    method SetFocusMode(mode: FocusMode)
      requires locked && mode in supportedFocusModes
      modifies this`focusMode
      ensures focusMode == mode
    {
      focusMode := mode;
    }

    /** The framework raises an exception for a mode the device does not support. */
    method SetExposureMode(mode: ExposureMode)
      requires locked && mode in supportedExposureModes
      modifies this`exposureMode
      ensures exposureMode == mode
    {
      exposureMode := mode;
    }

    method SetVideoZoomFactor(factor: real)
      requires locked
      modifies this`videoZoomFactor
      ensures videoZoomFactor == factor
    {
      videoZoomFactor := factor;
    }

    /** The framework raises an exception for a mode the device does not support. */
    method SetTorchMode(mode: TorchMode)
      requires locked && mode in supportedTorchModes
      modifies this`torchMode
      ensures torchMode == mode
    {
      torchMode := mode;
    }

    method SetFocusPointOfInterest(p: Point)
      requires locked
      modifies this`focusPointOfInterest
      ensures focusPointOfInterest == p
    {
      focusPointOfInterest := p;
    }

    method SetExposurePointOfInterest(p: Point)
      requires locked
      modifies this`exposurePointOfInterest
      ensures exposurePointOfInterest == p
    {
      exposurePointOfInterest := p;
    }
  }

  /** AVCaptureSession: the presets it accepts (canSetSessionPreset) and the outputs added to it. */
  class CaptureSession {
    const acceptedPresets: set<SessionPreset>
    var sessionPreset: SessionPreset
    var outputs: seq<object>

    constructor (accepted: set<SessionPreset>)
      ensures acceptedPresets == accepted && sessionPreset == High && outputs == []
    {
      acceptedPresets := accepted;
      sessionPreset := High;
      outputs := [];
    }

    predicate CanSetSessionPreset(p: SessionPreset) {
      p in acceptedPresets
    }
  }

  /** AVCaptureMetadataOutput: the object types it is asked to detect. */
  class CaptureMetadataOutput {
    var metadataObjectTypes: seq<ObjectType>

    constructor ()
      ensures metadataObjectTypes == []
    {
      metadataObjectTypes := [];
    }
  }

  /** AVCapturePhotoSettings */
  class PhotoSettings {
    var flashMode: FlashMode

    constructor ()
      ensures flashMode == FlashOff
    {
      flashMode := FlashOff;
    }
  }
}
