/**
 * CameraEngine.swift: the session presets and the CameraEngine facade, whose
 * property setters and commands guard and forward to the device, the
 * metadata output and the capture output.
 */
module Engine {
  import AV
  import Seqs
  import Device
  import MetadataOutput

  /** CameraEngineSessionPreset */
  datatype CameraEngineSessionPreset =
    | Photo | High | Medium | Low
    | Res352x288 | Res640x480 | Res1280x720 | Res1920x1080 | Res3840x2160
    | Frame960x540 | Frame1280x720 | InputPriority

  /** The presets that fall back to the photo preset. */
  predicate FallsBackToPhoto(preset: CameraEngineSessionPreset, ios9: bool) {
    preset == InputPriority || (preset == Res3840x2160 && !ios9)
  }

  /**
   * foundationPreset(): the native preset of each case; `.inputPriority`
   * (the `default` branch) and the 4K preset before iOS 9 give the photo preset.
   */
  function FoundationPreset(preset: CameraEngineSessionPreset, ios9: bool): (native: AV.SessionPreset)
    ensures native == AV.Photo <==> preset == Photo || FallsBackToPhoto(preset, ios9)
    ensures native != AV.InputPriority
  {
    match preset
    case Photo => AV.Photo
    case High => AV.High
    case Medium => AV.Medium
    case Low => AV.Low
    case Res352x288 => AV.Cif352x288
    case Res640x480 => AV.Vga640x480
    case Res1280x720 => AV.Hd1280x720
    case Res1920x1080 => AV.Hd1920x1080
    case Res3840x2160 => if ios9 then AV.Hd4K3840x2160 else AV.Photo
    case Frame960x540 => AV.IFrame960x540
    case Frame1280x720 => AV.IFrame1280x720
    case InputPriority => AV.Photo
  }

  /** Apart from the photo fallback, distinct cases give distinct native presets. */
  lemma FoundationPresetInjective(a: CameraEngineSessionPreset, b: CameraEngineSessionPreset, ios9: bool)
    requires FoundationPreset(a, ios9) == FoundationPreset(b, ios9) != AV.Photo
    ensures a == b
  {
  }

  /** availablePresset(): every preset case, each once. */
  function AvailablePresset(): (all: seq<CameraEngineSessionPreset>)
    ensures |all| == 12 && Seqs.Distinct(all)
  {
    [Photo, High, Medium, Low, Res352x288, Res640x480, Res1280x720, Res1920x1080,
     Res3840x2160, Frame960x540, Frame1280x720, InputPriority]
  }

  /** No preset case is missing from AvailablePresset. */
  lemma AvailablePressetComplete()
    ensures forall p :: p in AvailablePresset()
  {
    forall p: CameraEngineSessionPreset ensures p in AvailablePresset() {
      match p
      case Photo => case High => case Medium => case Low =>
      case Res352x288 => case Res640x480 => case Res1280x720 => case Res1920x1080 =>
      case Res3840x2160 => case Frame960x540 => case Frame1280x720 => case InputPriority =>
    }
  }

  /** Tap-to-focus: a locked focus goes to auto focus, any other to continuous auto focus. */
  function TapFocusMode(mode: AV.FocusMode): (next: AV.FocusMode)
    ensures next != AV.Locked
    ensures next == AV.AutoFocus <==> mode == AV.Locked
  {
    if mode == AV.Locked then AV.AutoFocus else AV.ContinuousAutoFocus
  }

  /** Tap-to-expose: a locked exposure goes to auto expose, any other to continuous auto exposure. */
  function TapExposureMode(mode: AV.ExposureMode): (next: AV.ExposureMode)
    ensures next == AV.AutoExpose || next == AV.ContinuousAutoExposure
    ensures next == AV.AutoExpose <==> mode == AV.ExposureLocked
  {
    if mode == AV.ExposureLocked then AV.AutoExpose else AV.ContinuousAutoExposure
  }

  /** A call forwarded to the capture output, which is not part of this model. */
  datatype OutputCommand = StartRecordVideo(url: AV.Url) | StopRecordVideo

  /** CameraEngine */
  class CameraEngine {
    const session: AV.CaptureSession
    const cameraDevice: Device.CameraEngineDevice
    const cameraMetadata: MetadataOutput.CameraEngineMetadataOutput
    const capturePhotoSettings: AV.PhotoSettings
    /** The `#available(iOS 9.0, *)` test. */
    const ios9: bool

    /** cameraOutput.isRecording */
    var isRecording: bool
    /** The calls made on the capture output so far. */
    ghost var outputCommands: seq<OutputCommand>

    var storedTorchMode: AV.TorchMode
    var storedFlashMode: AV.FlashMode
    var storedSessionPresset: CameraEngineSessionPreset
    var storedCameraFocus: Device.CameraFocus
    var storedMetadataDetection: MetadataOutput.Detection
    var storedCameraZoomFactor: real

    /** The engine over already built framework objects; session setup is not modelled. */
    constructor (session: AV.CaptureSession, cameraDevice: Device.CameraEngineDevice,
                 cameraMetadata: MetadataOutput.CameraEngineMetadataOutput,
                 capturePhotoSettings: AV.PhotoSettings, ios9: bool)
      ensures this.session == session && this.cameraDevice == cameraDevice
      ensures this.cameraMetadata == cameraMetadata && this.capturePhotoSettings == capturePhotoSettings
      ensures this.ios9 == ios9 && !isRecording && outputCommands == []
      ensures storedTorchMode == AV.TorchOff && storedFlashMode == AV.FlashOff
      ensures storedSessionPresset == InputPriority && storedCameraFocus == Device.ContinuousAutoFocus
      ensures storedMetadataDetection == MetadataOutput.NoDetection && storedCameraZoomFactor == 1.0
    {
      this.session, this.cameraDevice := session, cameraDevice;
      this.cameraMetadata, this.capturePhotoSettings := cameraMetadata, capturePhotoSettings;
      this.ios9 := ios9;
      isRecording := false;
      outputCommands := [];
      storedTorchMode, storedFlashMode := AV.TorchOff, AV.FlashOff;
      storedSessionPresset, storedCameraFocus := InputPriority, Device.ContinuousAutoFocus;
      storedMetadataDetection, storedCameraZoomFactor := MetadataOutput.NoDetection, 1.0;
    }

    /**
     * The sessionPresset setter. The framework must accept the preset: the
     * source stops the program otherwise.
     */
    method SetSessionPresset(preset: CameraEngineSessionPreset)
      requires session.CanSetSessionPreset(FoundationPreset(preset, ios9))
      modifies this`storedSessionPresset, session`sessionPreset
      ensures storedSessionPresset == preset
      ensures session.sessionPreset == FoundationPreset(preset, ios9)
      ensures session.CanSetSessionPreset(session.sessionPreset)
    {
      storedSessionPresset := preset;
      session.sessionPreset := FoundationPreset(storedSessionPresset, ios9);
    }

    /** The cameraFocus setter. */
    method SetCameraFocus(focus: Device.CameraFocus)
      modifies this`storedCameraFocus, cameraDevice.currentDevice
      ensures storedCameraFocus == focus
      ensures var d := cameraDevice.currentDevice; d != null ==>
        && d.Settings() == old(d.Settings()).(focusMode :=
             if Device.FoundationFocus(focus) in d.supportedFocusModes
             then Device.FoundationFocus(focus) else old(d.focusMode))
        && !d.locked
    {
      cameraDevice.ChangeCameraFocusMode(focus);
      storedCameraFocus := focus;
    }

    /**
     * The metadataDetection setter; `canAddOutput` is the session's answer to
     * canAddOutput and `available` the metadata output's available object
     * types, which must include every type the mode asks for.
     */
    method SetMetadataDetection(detection: MetadataOutput.Detection, canAddOutput: bool,
                                available: set<AV.ObjectType>)
      requires var out := cameraMetadata.metadataOutput;
        !(if out == null then canAddOutput else out in session.outputs) ==> available == {}
      requires forall t :: t in MetadataOutput.FoundationCaptureOutputDetection(detection) ==> t in available
      modifies this`storedMetadataDetection, cameraMetadata`metadataOutput,
               cameraMetadata`currentMetadataOutput, session`outputs, cameraMetadata.metadataOutput
      ensures storedMetadataDetection == detection
      ensures cameraMetadata.currentMetadataOutput == detection
      ensures cameraMetadata.metadataOutput != null
      ensures cameraMetadata.metadataOutput.metadataObjectTypes ==
        MetadataOutput.FoundationCaptureOutputDetection(detection)
      ensures old(cameraMetadata.metadataOutput) != null ==>
        cameraMetadata.metadataOutput == old(cameraMetadata.metadataOutput)
    {
      storedMetadataDetection := detection;
      cameraMetadata.ConfigureMetadataOutput(session, storedMetadataDetection, canAddOutput, available);
    }

    /**
     * The cameraZoomFactor setter: the factor the device reports back is
     * stored when positive, which the clamp always makes it. Without a
     * device the stored factor becomes 1.0.
     */
    method SetCameraZoomFactor(factor: real)
      modifies this`storedCameraZoomFactor, cameraDevice.currentDevice
      ensures var d := cameraDevice.currentDevice;
        storedCameraZoomFactor == if d == null then 1.0 else Device.ClampZoom(factor, d.maxZoomFactor)
      ensures var d := cameraDevice.currentDevice; d != null ==>
        && d.videoZoomFactor == storedCameraZoomFactor
        && d.Settings() == old(d.Settings()).(videoZoomFactor := storedCameraZoomFactor)
        && !d.locked
    {
      var newZoomFactor := cameraDevice.ChangeCurrentZoomFactor(factor);
      if newZoomFactor > 0.0 {
        storedCameraZoomFactor := newZoomFactor;
      }
    }

    /** The cameraZoomFactor getter, which first refreshes the stored factor from the device. */
    method CameraZoomFactor() returns (factor: real)
      modifies this`storedCameraZoomFactor
      ensures factor == storedCameraZoomFactor
      ensures var d := cameraDevice.currentDevice;
        factor == if d == null then old(storedCameraZoomFactor) else d.videoZoomFactor
    {
      var d := cameraDevice.currentDevice;
      if d != null {
        storedCameraZoomFactor := d.videoZoomFactor;
      }
      factor := storedCameraZoomFactor;
    }

    /**
     * The torchMode setter. A device with a torch must support a mode it is
     * switched to: the framework raises an exception otherwise.
     */
    method SetTorchMode(mode: AV.TorchMode)
      requires var d := cameraDevice.currentDevice;
        d != null && d.torchAvailable && d.torchMode != mode ==> mode in d.supportedTorchModes
      modifies this`storedTorchMode, cameraDevice.currentDevice
      ensures storedTorchMode == mode
      ensures var d := cameraDevice.currentDevice; d != null ==>
        && d.Settings() == old(d.Settings()).(torchMode := if d.torchAvailable then mode else old(d.torchMode))
        && (!old(d.locked) ==> !d.locked)
    {
      storedTorchMode := mode;
      ConfigureTorch(mode);
    }

    /** configureTorch: only a device with a torch in another mode is reconfigured. */
    method ConfigureTorch(mode: AV.TorchMode)
      requires var d := cameraDevice.currentDevice;
        d != null && d.torchAvailable && d.torchMode != mode ==> mode in d.supportedTorchModes
      modifies cameraDevice.currentDevice
      ensures var d := cameraDevice.currentDevice; d != null ==>
        && d.Settings() == old(d.Settings()).(torchMode := if d.torchAvailable then mode else old(d.torchMode))
        && (!old(d.locked) ==> !d.locked)
    {
      var d := cameraDevice.currentDevice;
      if d != null && d.torchAvailable && d.torchMode != mode {
        d.LockForConfiguration();
        d.SetTorchMode(mode);
        d.UnlockForConfiguration();
      }
    }

    /** The flashMode setter. */
    method SetFlashMode(mode: AV.FlashMode)
      modifies this`storedFlashMode, capturePhotoSettings
      ensures storedFlashMode == mode
      ensures var d := cameraDevice.currentDevice;
        capturePhotoSettings.flashMode ==
          if d != null && d.flashAvailable then mode else old(capturePhotoSettings.flashMode)
    {
      storedFlashMode := mode;
      ConfigureFlash(mode);
    }

    /** configureFlash: the photo settings take the mode when the device has a flash. */
    method ConfigureFlash(mode: AV.FlashMode)
      modifies capturePhotoSettings
      ensures var d := cameraDevice.currentDevice;
        capturePhotoSettings.flashMode ==
          if d != null && d.flashAvailable then mode else old(capturePhotoSettings.flashMode)
    {
      var d := cameraDevice.currentDevice;
      if d != null && d.flashAvailable && capturePhotoSettings.flashMode != mode {
        capturePhotoSettings.flashMode := mode;
      }
    }

    /** changeCurrentDevice; reconfiguring the session's inputs is not modelled. */
    method ChangeCurrentDevice(position: AV.Position)
      modifies cameraDevice`currentPosition, cameraDevice`currentDevice
      ensures cameraDevice.currentPosition == position
      ensures position == AV.Back ==> cameraDevice.currentDevice == cameraDevice.backCameraDevice
      ensures position == AV.Front ==> cameraDevice.currentDevice == cameraDevice.frontCameraDevice
      ensures position == AV.Unspecified ==> cameraDevice.currentDevice == null
    {
      cameraDevice.ChangeCurrentDevice(position);
    }

    /** switchCurrentDevice: back becomes front, anything else back; nothing while recording. */
    method SwitchCurrentDevice()
      modifies cameraDevice`currentPosition, cameraDevice`currentDevice
      ensures isRecording ==>
        cameraDevice.currentPosition == old(cameraDevice.currentPosition)
        && cameraDevice.currentDevice == old(cameraDevice.currentDevice)
      ensures !isRecording && old(cameraDevice.currentPosition) == AV.Back ==>
        cameraDevice.currentPosition == AV.Front && cameraDevice.currentDevice == cameraDevice.frontCameraDevice
      ensures !isRecording && old(cameraDevice.currentPosition) != AV.Back ==>
        cameraDevice.currentPosition == AV.Back && cameraDevice.currentDevice == cameraDevice.backCameraDevice
    {
      if !isRecording {
        ChangeCurrentDevice(if cameraDevice.currentPosition == AV.Back then AV.Front else AV.Back);
      }
    }

    /** compatibleCameraFocus(): the focus cases the current device supports, in list order. */
    function CompatibleCameraFocus(): (focuses: seq<Device.CameraFocus>)
      reads cameraDevice
      ensures cameraDevice.currentDevice == null ==> focuses == []
      ensures forall f :: f in focuses <==>
        cameraDevice.currentDevice != null
        && Device.FoundationFocus(f) in cameraDevice.currentDevice.supportedFocusModes
      ensures Seqs.IsSubsequence(focuses, Device.AvailableFocus())
      ensures Seqs.Distinct(focuses)
    {
      var d := cameraDevice.currentDevice;
      if d != null then
        Seqs.Filter(Device.AvailableFocus(), f => Device.FoundationFocus(f) in d.supportedFocusModes)
      else
        []
    }

    /** The session accepts the native preset of `preset`. */
    predicate AcceptsPreset(preset: CameraEngineSessionPreset) {
      session.CanSetSessionPreset(FoundationPreset(preset, ios9))
    }

    /** compatibleSessionPresset(): the preset cases the session accepts, in list order. */
    function CompatibleSessionPresset(): (presets: seq<CameraEngineSessionPreset>)
      ensures forall p :: p in presets <==> AcceptsPreset(p)
      ensures Seqs.IsSubsequence(presets, AvailablePresset())
      ensures Seqs.Distinct(presets)
    {
      AvailablePressetComplete();
      Seqs.Filter(AvailablePresset(), AcceptsPreset)
    }

    /**
     * focus(_:): `devicePoint` is the tapped point already converted to the
     * device's coordinates by the preview layer. Focus and exposure are each
     * moved to the tapped point when the device supports it, each from locked
     * to auto and from anything else to continuous. The device must support
     * the mode the tap picks: the source sets the continuous modes without
     * asking, and the framework raises an exception for an unsupported mode.
     */
    method Focus(devicePoint: AV.Point)
      requires var d := cameraDevice.currentDevice; d != null ==>
        && (AV.AutoFocus in d.supportedFocusModes && d.focusPointOfInterestSupported ==>
              TapFocusMode(d.focusMode) in d.supportedFocusModes)
        && (AV.AutoExpose in d.supportedExposureModes && d.exposurePointOfInterestSupported ==>
              TapExposureMode(d.exposureMode) in d.supportedExposureModes)
      modifies cameraDevice.currentDevice
      ensures var d := cameraDevice.currentDevice; d != null ==>
        var performFocus := AV.AutoFocus in d.supportedFocusModes && d.focusPointOfInterestSupported;
        var performExposure := AV.AutoExpose in d.supportedExposureModes && d.exposurePointOfInterestSupported;
        && d.focusMode == (if performFocus then TapFocusMode(old(d.focusMode)) else old(d.focusMode))
        && d.focusPointOfInterest == (if performFocus then devicePoint else old(d.focusPointOfInterest))
        && d.exposureMode == (if performExposure then TapExposureMode(old(d.exposureMode)) else old(d.exposureMode))
        && d.exposurePointOfInterest ==
             (if performExposure then devicePoint else old(d.exposurePointOfInterest))
        && d.videoZoomFactor == old(d.videoZoomFactor) && d.torchMode == old(d.torchMode)
        && (!old(d.locked) ==> !d.locked)
    {
      var d := cameraDevice.currentDevice;
      if d != null {
        var performFocus := AV.AutoFocus in d.supportedFocusModes && d.focusPointOfInterestSupported;
        var performExposure := AV.AutoExpose in d.supportedExposureModes && d.exposurePointOfInterestSupported;
        if performFocus || performExposure {
          d.LockForConfiguration();
          if performFocus {
            d.SetFocusPointOfInterest(devicePoint);
            d.SetFocusMode(TapFocusMode(d.focusMode));
          }
          if performExposure {
            d.SetExposurePointOfInterest(devicePoint);
            d.SetExposureMode(TapExposureMode(d.exposureMode));
          }
          d.UnlockForConfiguration();
        }
      }
    }

    /** startRecordingVideo: forwarded to the capture output only when not recording. */
    method StartRecordingVideo(url: AV.Url)
      modifies this`outputCommands
      ensures outputCommands == old(outputCommands) + if isRecording then [] else [StartRecordVideo(url)]
    {
      if !isRecording {
        outputCommands := outputCommands + [StartRecordVideo(url)];
      }
    }

    /** stopRecordingVideo: forwarded to the capture output only while recording. */
    method StopRecordingVideo()
      modifies this`outputCommands
      ensures outputCommands == old(outputCommands) + if isRecording then [StopRecordVideo] else []
    {
      if isRecording {
        outputCommands := outputCommands + [StopRecordVideo];
      }
    }
  }
}
