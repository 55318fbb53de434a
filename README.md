# CameraEngine in Dafny

This project models the core of CameraEngine, a Swift library for iOS that sits on top of
AVFoundation. The library offers a `CameraEngine` facade that chooses the camera,
sets the session preset, focus, torch, flash and zoom, and starts or stops recordings.
Behind the facade are three components, each modelled in its own module:

- `CameraEngineDevice` (module `Device`) holds the back, front and microphone devices and the
  one in use. It clamps zoom requests and applies focus modes the device supports.
- `CameraEngineVideoEncoder` (module `VideoEncoder`) passes camera and microphone sample
  buffers to an asset writer. It drops audio until the first video buffer arrives and
  starts the writer's session at the first ready buffer.
- `CameraEngineMetadataOutput` (module `MetadataOutput`) maps a detection mode (face, QR code,
  bar codes, none) to the object types the framework detects. It also routes each detected
  object to the face callback or the code callback.
- `CameraEngine` (module `Engine`) holds the session presets and the facade's setters,
  compatibility queries, tap-to-focus and recording guards.

The framework objects live in module `AV`:

- `CaptureDevice` is a class. Its settings can only be written while it is locked for
  configuration.
- `CaptureSession`, `CaptureMetadataOutput` and `PhotoSettings` are classes too.
- The asset writer is a record.

Questions the code asks the framework become fields of those objects or parameters. Examples
are "is this focus mode supported", "can the session take this preset", "is this buffer's
data ready" and "is this input ready for more data".

Other modelling choices:

- The `#available(iOS 9.0, *)` test is a boolean parameter `ios9`.
- Work sent to the session's dispatch queue runs at once.
- Only one `fatalError` becomes a precondition: the one in the `sessionPresset` setter. The others are modelled as never reached. They are the lock, writer-creation and `canApply` failures.
- An implicitly unwrapped optional that the source uses while nil would trap. Each such use becomes a precondition; see "## Left out".
- A framework setter that raises an exception for an unsupported mode or object type gets a precondition that the mode or type is supported or available. The same holds for finishing a writer that is not writing.
- `CGFloat` values are `real`s.

Module `Seqs` supplies an order-preserving `Filter`, which models Swift's `filter`.

## Model

| member | source | states |
|---|---|---|
| Device.FoundationFocus | CameraEngine/CameraEngineDevice.swift:17-23 | the native mode of each library focus case; mapping it back gives the case again |
| Device.FoundationFocusOnto | CameraEngine/CameraEngineDevice.swift:17-23 | every native focus mode is the image of some library case, so `foundationFocus()` is a bijection |
| Device.FoundationFocusInjective | CameraEngine/CameraEngineDevice.swift:17-23 | distinct library focus cases stand for distinct native modes |
| Device.Description | CameraEngine/CameraEngineDevice.swift:25-31 | every focus case has a non-empty name |
| Device.DescriptionInjective | CameraEngine/CameraEngineDevice.swift:25-31 | no two focus cases share a name |
| Device.AvailableFocus | CameraEngine/CameraEngineDevice.swift:33-39 | the list has three entries and no repeats |
| Device.AvailableFocusComplete | CameraEngine/CameraEngineDevice.swift:33-39 | every focus case is in the list |
| Device.ClampZoom | CameraEngine/CameraEngineDevice.swift:70 | the zoom is at least 1.0; it is at most the device maximum when that maximum is at least 1.0; a factor already in range is kept; the result is the factor, 1.0 or the maximum |
| Device.ClampZoomIdempotent | CameraEngine/CameraEngineDevice.swift:70 | clamping an already clamped zoom changes nothing |
| Device.ClampZoomIsNearest | CameraEngine/CameraEngineDevice.swift:70 | the clamped zoom is the value in [1.0, maximum] nearest to the requested factor |
| Device.ClampZoomMonotonic | CameraEngine/CameraEngineDevice.swift:70 | a larger request never gives a smaller zoom |
| Device.CameraEngineDevice.constructor | CameraEngine/CameraEngineDevice.swift:102-106 | a new device object starts on the back camera |
| Device.CameraEngineDevice.ChangeCurrentDevice | CameraEngine/CameraEngineDevice.swift:83-90 | back or front selects that camera; unspecified selects no device; the position is recorded |
| Device.CameraEngineDevice.ChangeCurrentZoomFactor | CameraEngine/CameraEngineDevice.swift:65-81 | with no device the result is 1.0 and nothing changes; otherwise the device's zoom becomes the clamped factor, which is returned, no other setting changes, and the device ends unlocked |
| Device.CameraEngineDevice.ChangeCameraFocusMode | CameraEngine/CameraEngineDevice.swift:50-63 | the device takes the focus mode only if it supports it; nothing else changes; the device ends unlocked |
| VideoEncoder.PresetString | CameraEngine/CameraEngineVideoEncoder.swift:20-35 | a case has no native preset exactly when it is `Unknow`, or the 4K preset before iOS 9 |
| VideoEncoder.FromNative | CameraEngine/CameraEngineVideoEncoder.swift:44-66 | a native preset maps to `Unknow` exactly when the library does not recognise it; any other result maps back to that same preset |
| VideoEncoder.PresetRoundTrip | CameraEngine/CameraEngineVideoEncoder.swift:20-66 | a case with a native preset maps to that preset and back to itself |
| VideoEncoder.Configuration | CameraEngine/CameraEngineVideoEncoder.swift:37-42 | there is an assistant exactly when the case has a native preset and the framework can build an assistant for it; the assistant is for that case's preset |
| VideoEncoder.AvailableFocus | CameraEngine/CameraEngineVideoEncoder.swift:44-66 | the framework's list maps entry by entry, with the same length; an entry is `Unknow` exactly when its preset is unrecognised |
| VideoEncoder.Description | CameraEngine/CameraEngineVideoEncoder.swift:68-77 | every encoder preset has a non-empty name |
| VideoEncoder.DescriptionInjective | CameraEngine/CameraEngineVideoEncoder.swift:68-77 | no two encoder presets share a name |
| VideoEncoder.Append | CameraEngine/CameraEngineVideoEncoder.swift:160-182 | see the notes below the table |
| VideoEncoder.Run | CameraEngine/CameraEngineVideoEncoder.swift:160-182 | a run of appendBuffer calls keeps the writer and the inputs' finished flags, and preserves writer validity |
| VideoEncoder.AppendKeepsSession | CameraEngine/CameraEngineVideoEncoder.swift:166-169 | once the session has started, its start time never moves |
| VideoEncoder.RunFirstFrame | CameraEngine/CameraEngineVideoEncoder.swift:160-164 | after a run, firstFrame is set exactly when it was already set or some call carried video |
| VideoEncoder.AudioBeforeVideoDropped | CameraEngine/CameraEngineVideoEncoder.swift:161-163 | audio-only calls before any video leave the whole recording state unchanged |
| VideoEncoder.RunSessionStart | CameraEngine/CameraEngineVideoEncoder.swift:165-169 | the session starts at the first ready buffer on or after the first video call, and then stays put |
| VideoEncoder.RunAppended | CameraEngine/CameraEngineVideoEncoder.swift:170-181 | each input gets, in order, exactly the ready buffers meant for it that met a ready input; audio counts only after the first video call |
| VideoEncoder.RecordingFromStart | CameraEngine/CameraEngineVideoEncoder.swift:143-182 | for a recording set up by startWriting, the run's session start, video input and audio input equal the reference definitions over the calls; the output URL is kept |
| VideoEncoder.CameraEngineVideoEncoder.constructor | CameraEngine/CameraEngineVideoEncoder.swift:97-102 | the default preset is the 1920x1080 assistant, or none when the framework cannot build it; there is no writer and firstFrame is clear |
| VideoEncoder.CameraEngineVideoEncoder.InitVideoEncoder | CameraEngine/CameraEngineVideoEncoder.swift:104-141 | firstFrame is cleared; a fresh writer for the URL replaces the old one, unless there is no preset, in which case the old writer stays |
| VideoEncoder.CameraEngineVideoEncoder.StartWriting | CameraEngine/CameraEngineVideoEncoder.swift:143-147 | the start time is the clock's reading; firstFrame is cleared; the new writer is valid, has status unknown and holds nothing |
| VideoEncoder.CameraEngineVideoEncoder.AppendBuffer | CameraEngine/CameraEngineVideoEncoder.swift:160-182 | the new encoder state is `Append` of the old one |
| VideoEncoder.CameraEngineVideoEncoder.StopWriting | CameraEngine/CameraEngineVideoEncoder.swift:149-158 | a writing writer has both inputs marked finished and completes, with nothing else changed and validity kept; a completion block receives the output URL |
| MetadataOutput.FoundationCaptureOutputDetection | CameraEngine/CameraEngineMetadataOutput.swift:21-39 | no repeats; empty exactly for `.none`; faces exactly in face mode; QR in QR and bar-code modes; the other code types exactly in bar-code mode; no type outside the library's list |
| MetadataOutput.AvailableDetection | CameraEngine/CameraEngineMetadataOutput.swift:41-48 | the list has four entries and no repeats |
| MetadataOutput.AvailableDetectionComplete | CameraEngine/CameraEngineMetadataOutput.swift:41-48 | every detection mode is in the list |
| MetadataOutput.Description | CameraEngine/CameraEngineMetadataOutput.swift:50-57 | every detection mode has a non-empty name |
| MetadataOutput.DescriptionInjective | CameraEngine/CameraEngineMetadataOutput.swift:50-57 | no two detection modes share a name |
| MetadataOutput.RouteAsWritten | CameraEngine/CameraEngineMetadataOutput.swift:90-106 | the first-match switch as written. Any delivery is of a requested type, to the block for its kind, and that block is set. A QR object reaches the code block only in `.qrCode` mode |
| MetadataOutput.BareCodeModeDropsQr | CameraEngine/CameraEngineMetadataOutput.swift:25-36 | in `.bareCode` mode the framework is asked for QR codes, yet the written routing never delivers one |
| MetadataOutput.Route | CameraEngine/CameraEngineMetadataOutput.swift:96-105 | the intended routing, not the source as written: an object is delivered exactly when the current mode asked for its type and the block for its kind is set; faces go to the face block and codes to the code block |
| MetadataOutput.RouteDiffersOnlyOnBareCodeQr | CameraEngine/CameraEngineMetadataOutput.swift:96-105 | the intended routing differs from the written one exactly on QR objects in `.bareCode` mode when a code block is set |
| MetadataOutput.Deliveries | CameraEngine/CameraEngineMetadataOutput.swift:89-108 | a batch routed one object at a time, either as written or as intended. The delivered objects are a subsequence of the batch: at most one delivery per object, in batch order. Each delivery is of a requested type, to the block for its kind, and that block is set |
| MetadataOutput.DeliveriesAppend | CameraEngine/CameraEngineMetadataOutput.swift:89-108 | routing a batch in two parts gives the concatenation of the two parts' deliveries |
| MetadataOutput.DeliveriesComplete | CameraEngine/CameraEngineMetadataOutput.swift:89-108 | intended routing, not the source as written: every object of a requested type is delivered when the block for its kind is set |
| MetadataOutput.WrittenDeliveriesDropQr | CameraEngine/CameraEngineMetadataOutput.swift:89-108 | the written routing of a batch is the intended one, except that in `.bareCode` mode every QR delivery is left out |
| MetadataOutput.BatchDiffersOnlyOnBareCodeQr | CameraEngine/CameraEngineMetadataOutput.swift:89-108 | the written and intended batch results differ exactly when the mode is `.bareCode`, the code block is set and the batch holds a QR object |
| MetadataOutput.CameraEngineMetadataOutput.constructor | CameraEngine/CameraEngineMetadataOutput.swift:62-67 | a new metadata output has no framework output, mode `.none`, no preview layer and no blocks |
| MetadataOutput.CameraEngineMetadataOutput.ConfigureMetadataOutput | CameraEngine/CameraEngineMetadataOutput.swift:72-82 | the framework output is created on the first call only, and added to the session when the session accepts it; every call sets its object types to those of the mode, which must all be available, and records the mode |
| MetadataOutput.CameraEngineMetadataOutput.CaptureOutput | CameraEngine/CameraEngineMetadataOutput.swift:84-109 | the source as written: nothing is delivered without a preview layer; otherwise the deliveries are exactly the batch under the written routing (`Deliveries` with `AsWritten`), in object order |
| Engine.FoundationPreset | CameraEngine/CameraEngine.swift:26-47 | the photo preset comes out exactly for `.photo`, `.inputPriority`, and the 4K preset before iOS 9; the input-priority preset never comes out |
| Engine.FoundationPresetInjective | CameraEngine/CameraEngine.swift:26-47 | apart from the photo fallback, distinct cases give distinct native presets |
| Engine.AvailablePresset | CameraEngine/CameraEngine.swift:49-64 | the list has twelve entries and no repeats |
| Engine.AvailablePressetComplete | CameraEngine/CameraEngine.swift:49-64 | every preset case is in the list |
| Engine.TapFocusMode | CameraEngine/CameraEngine.swift:432-436 | a tap moves focus from locked to auto focus and from any other mode to continuous auto focus |
| Engine.TapExposureMode | CameraEngine/CameraEngine.swift:441-445 | a tap moves exposure from locked to auto expose and from any other mode to continuous auto exposure |
| Engine.CameraEngine.constructor | CameraEngine/CameraEngine.swift:82-173 | the stored settings start at their declared defaults: torch and flash off, input-priority preset, continuous auto focus, no detection, zoom 1.0 |
| Engine.CameraEngine.SetSessionPresset | CameraEngine/CameraEngine.swift:115-123 | the session, which must accept the preset, takes its native preset, and the stored preset is updated |
| Engine.CameraEngine.SetCameraFocus | CameraEngine/CameraEngine.swift:131-134 | the focus is stored, and the device takes it when supported |
| Engine.CameraEngine.SetMetadataDetection | CameraEngine/CameraEngine.swift:142-145 | the mode is stored and configured on the metadata output, whose object types become the mode's; those types must be available |
| Engine.CameraEngine.SetCameraZoomFactor | CameraEngine/CameraEngine.swift:168-173 | the stored zoom becomes the clamped factor, which is also the device's zoom; with no device it becomes 1.0 |
| Engine.CameraEngine.CameraZoomFactor | CameraEngine/CameraEngine.swift:161-166 | the getter returns the device's zoom, and stores it, when there is a device; otherwise it returns the stored value |
| Engine.CameraEngine.SetTorchMode | CameraEngine/CameraEngine.swift:87-91 | the mode is stored; a device with a torch takes it, and must support it; nothing else on the device changes |
| Engine.CameraEngine.ConfigureTorch | CameraEngine/CameraEngine.swift:360-371 | only a device with a torch takes the mode, which it must support when it is a change; nothing else changes |
| Engine.CameraEngine.SetFlashMode | CameraEngine/CameraEngine.swift:98-102 | the mode is stored; the photo settings take it when the device has a flash |
| Engine.CameraEngine.ConfigureFlash | CameraEngine/CameraEngine.swift:344-358 | the photo settings take the mode exactly when there is a device with a flash |
| Engine.CameraEngine.ChangeCurrentDevice | CameraEngine/CameraEngine.swift:314-317 | the device object switches to the camera at the given position |
| Engine.CameraEngine.SwitchCurrentDevice | CameraEngine/CameraEngine.swift:373-377 | nothing changes while recording; otherwise back becomes front and anything else becomes back |
| Engine.CameraEngine.CompatibleCameraFocus | CameraEngine/CameraEngine.swift:319-328 | exactly the focus cases the current device supports, in list order, without repeats; empty with no device |
| Engine.CameraEngine.CompatibleSessionPresset | CameraEngine/CameraEngine.swift:330-334 | exactly the preset cases whose native preset the session accepts, in list order, without repeats |
| Engine.CameraEngine.Focus | CameraEngine/CameraEngine.swift:421-454 | see the notes below the table |
| Engine.CameraEngine.StartRecordingVideo | CameraEngine/CameraEngine.swift:469-475 | the start command goes to the capture output only when not recording |
| Engine.CameraEngine.StopRecordingVideo | CameraEngine/CameraEngine.swift:477-483 | the stop command goes to the capture output only while recording |

Notes on two rows:

- `VideoEncoder.Append` is one appendBuffer call. Its contract states:
  - Audio before the first video buffer changes nothing.
  - A buffer whose data is not ready only sets firstFrame.
  - A ready buffer starts the session at its timestamp while the status is unknown.
  - A ready buffer is appended to its own input only if that input is ready and not finished.
  - Writer validity is preserved.
- `Engine.CameraEngine.Focus` is tap-to-focus. Its contract states:
  - Focus moves to the tapped point, with the tap rule for its mode, exactly when the device
    supports auto focus and a focus point.
  - Exposure does the same, exactly when the device supports auto exposure and an exposure
    point.
  - Zoom and torch are unchanged.
  - The device must support the mode the tap rule picks (see "## Left out").

## Left out

- Dispatch queues: work sent to `sessionQueue` and the main queue is modelled as running at once. The library's concurrency is not modelled.
- A failing `lockForConfiguration()` ends in `fatalError` in the source. The model's devices can always be locked, so that path does not arise.
- Device discovery (`configureDeviceCamera`, `configureDeviceMic`) is left out. The discovered devices are the constructor's parameters.
- Session setup is left out: `setupSession`, `configureInputDevice`, `configureOutputDevice`, `startSession`, `stopSession` and `askAuthorization`.
- `handleDeviceOrientation`, `rotationCamera` and `orientationTransformation` are left out. They depend on the device's orientation, and only affect video transforms.
- `progressCurrentBuffer` is left out. It is floating-point arithmetic on sample timestamps.
- `isAdjustingFocus`, `isAdjustingExposure` and `isAdjustingWhiteBalance` are left out. They pass through framework properties.
- Asset writer creation is not modelled as able to fail (the source's `fatalError`). `startWriting()` always moves the status to writing when the session starts.
- The `canApply(outputSettings:)` checks, which end in `fatalError` when they fail, are modelled as always passing.
- The `canAdd` checks on the writer inputs are left out: both inputs are always attached. Their output settings and the video transform are not modelled.
- `finishWriting` on a writing writer is modelled as completing at once and always successfully.
- The capture output (`CameraEngineCaptureOutput`), the GIF encoder and the photo capture are not part of this model. As a result:
  - `isRecording` is a field of the engine.
  - `startRecordingVideo` and `stopRecordingVideo` only record the call they forward.
  - `capturePhoto`, `capturePhotoBuffer`, `createGif`, `videoEncoderPresset` and `setPressetVideoEncoder` are not modelled.
  - The completion blocks (`blockCompletionBuffer`, `blockCompletionProgress`) are not modelled.
- `compatibleVideoEncoderPresset` and `compatibleDetectionMetadata` only return `availableFocus()` and `availableDetection()`. Those two are modelled (`VideoEncoder.AvailableFocus`, `MetadataOutput.AvailableDetection`).
- `setMetadataObjectsDelegate` and the preview layer's `transformedMetadataObject` are left out. A delivered object is the detected object itself, not its preview-layer transform.
- The preview layer's point conversion in `focus(_:)` is left out. `Engine.CameraEngine.Focus` receives the already converted point. The source force-unwraps the converted point (CameraEngine.swift:431 and 440), which traps when the public `previewLayer` has been set to nil; that case is not modelled.
- The lazy `previewLayer` is reduced to the flag `hasPreviewLayer`, and the detection blocks to the flags `hasFaceBlock` and `hasCodeBlock`.
- VideoEncoder.Append: requires the writer to exist when a ready buffer gets past the audio gate. The source's `assetWriter` is an implicitly unwrapped optional, and it traps there (CameraEngineVideoEncoder.swift:166) when nil.
- VideoEncoder.CameraEngineVideoEncoder.StopWriting: requires a writer whose status is writing. The source traps on the nil `videoInputWriter` and `assetWriter` (CameraEngineVideoEncoder.swift:150-153) when there is no writer. `finishWriting` (line 153) raises an exception when the session never started, as after stopping before the first frame, and when the writer already finished, as after a second stop. Those stops are outside the model.
- MetadataOutput.CameraEngineMetadataOutput.ConfigureMetadataOutput and Engine.CameraEngine.SetMetadataDetection: require every object type of the mode to be among the output's available types. Nothing is available while the output is not attached to the session. The source sets the types at CameraEngineMetadataOutput.swift:80 without asking, and the framework raises an exception for a type that is not available. Which types a camera makes available is a parameter.
- Engine.CameraEngine.Focus: requires the device to support the focus and exposure modes the tap rule picks. The source sets the continuous modes without asking the device, and the framework raises an exception for an unsupported mode. Devices that support auto focus but not continuous auto focus are therefore outside the model.
- Engine.CameraEngine.SetTorchMode and Engine.CameraEngine.ConfigureTorch: require a device with a torch to support the new mode. The framework raises an exception otherwise.
- VideoEncoder.Configuration: whether the framework can build an assistant for a preset is a parameter. The framework's own rule for it is not modelled.
- AV.CaptureDevice.SetVideoZoomFactor: the framework's range check on the zoom factor is not modelled. The clamp keeps the factor in range whenever the device maximum is at least 1.0.
- Engine.CameraEngine.SetSessionPresset: requires that the session accepts the preset. The source stops the program with `fatalError` otherwise.
- Device.ClampZoom: works on unbounded reals, not `CGFloat`; NaN and infinities are not modelled.
- The sample project's view controllers are not part of this model.

## Findings

| source | as written | input that shows it | evidently intended | confidence | as-written member | corrected member |
|---|---|---|---|---|---|---|
| CameraEngine/CameraEngineMetadataOutput.swift:96-105 | The routing `switch` matches the first case. The `.qr` case comes before the bar-code case, which also lists QR, so a QR object only reaches the code block in `.qrCode` mode. | Mode `.bareCode` with a code block set, and a QR object detected. `.bareCode` asks the framework for QR codes (lines 25-36), yet the code block is never called. | In `.bareCode` mode every requested code type, QR included, reaches the code block. | not executed | MetadataOutput.RouteAsWritten, MetadataOutput.BareCodeModeDropsQr, MetadataOutput.WrittenDeliveriesDropQr, MetadataOutput.BatchDiffersOnlyOnBareCodeQr, MetadataOutput.CameraEngineMetadataOutput.CaptureOutput | MetadataOutput.Route, MetadataOutput.DeliveriesComplete |
