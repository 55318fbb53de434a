/**
 * CameraEngineDevice.swift: the library's focus enum and the object that
 * selects the current camera and drives its zoom and focus.
 */
module Device {
  import AV
  import Seqs

  /** CameraEngineCameraFocus */
  datatype CameraFocus = Locked | AutoFocus | ContinuousAutoFocus

  /** The library case standing for a native focus mode. */
  function FocusFromFoundation(mode: AV.FocusMode): CameraFocus {
    match mode
    case Locked => Locked
    case AutoFocus => AutoFocus
    case ContinuousAutoFocus => ContinuousAutoFocus
  }

  /** foundationFocus(): the native focus mode each library case stands for. */
  function FoundationFocus(focus: CameraFocus): (mode: AV.FocusMode)
    ensures FocusFromFoundation(mode) == focus
  {
    match focus
    case Locked => AV.Locked
    case AutoFocus => AV.AutoFocus
    case ContinuousAutoFocus => AV.ContinuousAutoFocus
  }

  /** Every native focus mode is the image of a library case. */
  lemma FoundationFocusOnto(mode: AV.FocusMode)
    ensures FoundationFocus(FocusFromFoundation(mode)) == mode
  {
  }

  /** Distinct library cases stand for distinct native modes. */
  lemma FoundationFocusInjective(a: CameraFocus, b: CameraFocus)
    ensures FoundationFocus(a) == FoundationFocus(b) ==> a == b
  {
  }

  function Description(focus: CameraFocus): (s: string)
    ensures |s| > 0
  {
    match focus
    case Locked => "Locked"
    case AutoFocus => "AutoFocus"
    case ContinuousAutoFocus => "ContinuousAutoFocus"
  }

  lemma DescriptionInjective(a: CameraFocus, b: CameraFocus)
    ensures Description(a) == Description(b) ==> a == b
  {
  }

  /** Every focus case, each once. */
  function AvailableFocus(): (all: seq<CameraFocus>)
    ensures |all| == 3 && Seqs.Distinct(all)
  {
    [Locked, AutoFocus, ContinuousAutoFocus]
  }

  /** No focus case is missing from AvailableFocus. */
  lemma AvailableFocusComplete(focus: CameraFocus)
    ensures focus in AvailableFocus()
  {
    match focus
    case Locked =>
    case AutoFocus =>
    case ContinuousAutoFocus =>
  }

  /** Swift's `min` on two values. */
  function Min(x: real, y: real): real {
    if y < x then y else x
  }

  /** Swift's `max` on two values. */
  function Max(x: real, y: real): real {
    if y >= x then y else x
  }

  /**
   * The zoom clamp `max(1.0, min(factor, maxZoom))`: the result is at least
   * 1.0, at most `maxZoom` when that is itself at least 1.0, and a factor
   * already in range is kept.
   */
  function ClampZoom(factor: real, maxZoom: real): (zoom: real)
    ensures zoom >= 1.0
    ensures maxZoom >= 1.0 ==> zoom <= maxZoom
    ensures 1.0 <= factor <= maxZoom ==> zoom == factor
    ensures maxZoom < 1.0 ==> zoom == 1.0
    ensures zoom == factor || zoom == 1.0 || zoom == maxZoom
  {
    Max(1.0, Min(factor, maxZoom))
  }

  /** Clamping twice is clamping once. */
  lemma ClampZoomIdempotent(factor: real, maxZoom: real)
    ensures ClampZoom(ClampZoom(factor, maxZoom), maxZoom) == ClampZoom(factor, maxZoom)
  {
  }

  /** The clamp picks the zoom factor in [1.0, maxZoom] nearest to the one asked for. */
  lemma ClampZoomIsNearest(factor: real, maxZoom: real, other: real)
    requires 1.0 <= other <= maxZoom
    ensures var zoom := ClampZoom(factor, maxZoom);
      (if zoom >= factor then zoom - factor else factor - zoom) <=
      (if other >= factor then other - factor else factor - other)
  {
  }

  /** A larger request never yields a smaller zoom. */
  lemma ClampZoomMonotonic(f: real, g: real, maxZoom: real)
    requires f <= g
    ensures ClampZoom(f, maxZoom) <= ClampZoom(g, maxZoom)
  {
  }

  /** CameraEngineDevice: the back, front and microphone devices and the one in use. */
  class CameraEngineDevice {
    var backCameraDevice: AV.CaptureDevice?
    var frontCameraDevice: AV.CaptureDevice?
    var micCameraDevice: AV.CaptureDevice?
    var currentDevice: AV.CaptureDevice?
    var currentPosition: AV.Position

    /** Device discovery is abstracted: the discovered devices are the parameters. */
    constructor (back: AV.CaptureDevice?, front: AV.CaptureDevice?, mic: AV.CaptureDevice?)
      ensures backCameraDevice == back && frontCameraDevice == front && micCameraDevice == mic
      ensures currentPosition == AV.Back && currentDevice == back
    {
      backCameraDevice, frontCameraDevice, micCameraDevice := back, front, mic;
      currentDevice, currentPosition := null, AV.Unspecified;
      new;
      ChangeCurrentDevice(AV.Back);
    }

    method ChangeCurrentDevice(position: AV.Position)
      modifies this`currentPosition, this`currentDevice
      ensures currentPosition == position
      ensures position == AV.Back ==> currentDevice == backCameraDevice
      ensures position == AV.Front ==> currentDevice == frontCameraDevice
      ensures position == AV.Unspecified ==> currentDevice == null
    {
      currentPosition := position;
      match position
      case Back => currentDevice := backCameraDevice;
      case Front => currentDevice := frontCameraDevice;
      case Unspecified => currentDevice := null;
    }

    /**
     * Sets the current device's zoom to the clamped factor and returns it;
     * without a current device nothing changes and the result is 1.0.
     */
    method ChangeCurrentZoomFactor(newFactor: real) returns (zoom: real)
      modifies currentDevice
      ensures currentDevice == null ==> zoom == 1.0
      ensures currentDevice != null ==>
        && zoom == ClampZoom(newFactor, currentDevice.maxZoomFactor)
        && currentDevice.Settings() == old(currentDevice.Settings()).(videoZoomFactor := zoom)
        && !currentDevice.locked
    {
      zoom := 1.0;
      var device := currentDevice;
      if device != null {
        device.LockForConfiguration();
        zoom := Max(1.0, Min(newFactor, device.maxZoomFactor));
        device.SetVideoZoomFactor(zoom);
        device.UnlockForConfiguration();
      }
    }

    /** Switches the current device to `focus` when the device supports it. */
    method ChangeCameraFocusMode(focus: CameraFocus)
      modifies currentDevice
      ensures currentDevice != null ==>
        && currentDevice.Settings() == old(currentDevice.Settings()).(focusMode :=
             if FoundationFocus(focus) in currentDevice.supportedFocusModes
             then FoundationFocus(focus) else old(currentDevice.focusMode))
        && !currentDevice.locked
    {
      var device := currentDevice;
      if device != null {
        device.LockForConfiguration();
        if FoundationFocus(focus) in device.supportedFocusModes {
          device.SetFocusMode(FoundationFocus(focus));
        }
        device.UnlockForConfiguration();
      }
    }
  }
}
