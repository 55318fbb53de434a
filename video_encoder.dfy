/**
 * CameraEngineVideoEncoder.swift: the encoder presets and the encoder that
 * feeds camera and microphone sample buffers to an asset writer.
 *
 * The asset writer and its two inputs are framework objects; they are kept
 * here as one record held in an optional field of the encoder (nil until a
 * recording has been set up). What an input has accepted is its `appended`
 * list.
 */
module VideoEncoder {
  import opened Wrappers
  import AV

  /** CameraEngineVideoEncoderEncoderSettings; `Unknow` is the library's own spelling. */
  datatype EncoderSettings =
    | Preset640x480 | Preset960x540 | Preset1280x720 | Preset1920x1080 | Preset3840x2160
    | Unknow

  /** The settings with no native preset: `Unknow` always, the 4K preset before iOS 9. */
  predicate HasNoPreset(settings: EncoderSettings, ios9: bool) {
    settings == Unknow || (settings == Preset3840x2160 && !ios9)
  }

  /**
   * avFoundationPresetString: the native output preset of each case;
   * `ios9` stands for the `#available(iOS 9.0, *)` test.
   */
  function PresetString(settings: EncoderSettings, ios9: bool): (preset: Option<AV.OutputSettingsPreset>)
    ensures preset.None? <==> HasNoPreset(settings, ios9)
    ensures preset.Some? ==> !preset.value.OtherOutputPreset?
  {
    match settings
    case Preset640x480 => Some(AV.Output640x480)
    case Preset960x540 => Some(AV.Output960x540)
    case Preset1280x720 => Some(AV.Output1280x720)
    case Preset1920x1080 => Some(AV.Output1920x1080)
    case Preset3840x2160 => if ios9 then Some(AV.Output3840x2160) else None
    case Unknow => None
  }

  /** The presets the library recognises in a framework list. */
  predicate Recognised(preset: AV.OutputSettingsPreset, ios9: bool) {
    !preset.OtherOutputPreset? && (ios9 || preset != AV.Output3840x2160)
  }

  /**
   * The closure given to `map` in availableFocus: a native preset back to its
   * library case, `Unknow` for anything unrecognised. It inverts PresetString.
   */
  function FromNative(preset: AV.OutputSettingsPreset, ios9: bool): (settings: EncoderSettings)
    ensures settings == Unknow <==> !Recognised(preset, ios9)
    ensures settings != Unknow ==> PresetString(settings, ios9) == Some(preset)
  {
    match preset
    case Output640x480 => Preset640x480
    case Output960x540 => Preset960x540
    case Output1280x720 => Preset1280x720
    case Output1920x1080 => Preset1920x1080
    case Output3840x2160 => if ios9 then Preset3840x2160 else Unknow
    case OtherOutputPreset(_) => Unknow
  }

  /** Mapping a case to its native preset and back gives the case again. */
  lemma PresetRoundTrip(settings: EncoderSettings, ios9: bool)
    requires !HasNoPreset(settings, ios9)
    ensures FromNative(PresetString(settings, ios9).value, ios9) == settings
  {
  }

  /** AVOutputSettingsAssistant, known here only by the preset it was made for. */
  datatype SettingsAssistant = SettingsAssistant(preset: AV.OutputSettingsPreset)

  /**
   * configuration(): an assistant for the case's native preset. The
   * assistant's initializer is failable: `available` is whether the framework
   * can build one for that preset on this device.
   */
  function Configuration(settings: EncoderSettings, ios9: bool, available: bool): (assistant: Option<SettingsAssistant>)
    ensures assistant.None? <==> HasNoPreset(settings, ios9) || !available
    ensures assistant.Some? ==> FromNative(assistant.value.preset, ios9) == settings
  {
    match PresetString(settings, ios9)
    case Some(preset) => if available then Some(SettingsAssistant(preset)) else None
    case None => None
  }

  /**
   * availableFocus(): the framework's list of output presets mapped one by
   * one to library cases; unrecognised presets become `Unknow`.
   */
  function AvailableFocus(native: seq<AV.OutputSettingsPreset>, ios9: bool): (all: seq<EncoderSettings>)
    ensures |all| == |native|
    ensures forall i :: 0 <= i < |all| ==> (all[i] == Unknow <==> !Recognised(native[i], ios9))
    ensures forall i :: 0 <= i < |all| && all[i] != Unknow ==> PresetString(all[i], ios9) == Some(native[i])
  {
    if native == [] then []
    else [FromNative(native[0], ios9)] + AvailableFocus(native[1..], ios9)
  }

  function Description(settings: EncoderSettings): (s: string)
    ensures |s| > 0
  {
    match settings
    case Preset640x480 => "Preset 640x480"
    case Preset960x540 => "Preset 960x540"
    case Preset1280x720 => "Preset 1280x720"
    case Preset1920x1080 => "Preset 1920x1080"
    case Preset3840x2160 => "Preset 3840x2160"
    case Unknow => "Preset Unknow"
  }

  /** The six descriptions are pairwise distinct. */
  lemma DescriptionInjective(a: EncoderSettings, b: EncoderSettings)
    ensures Description(a) == Description(b) ==> a == b
  {
  }

  /** AVAssetWriterInput: the buffers it accepted and whether it was marked finished. */
  datatype WriterInput = WriterInput(appended: seq<AV.SampleBuffer>, finished: bool)

  /** AVAssetWriter with its video and audio inputs. */
  datatype AssetWriter = AssetWriter(
    outputUrl: AV.Url, status: AV.WriterStatus, sessionStart: Option<AV.Time>,
    video: WriterInput, audio: WriterInput)

  /** A writer as initVideoEncoder creates it: status unknown, no session, empty inputs. */
  function NewWriter(url: AV.Url): AssetWriter {
    AssetWriter(url, AV.Unknown, None, WriterInput([], false), WriterInput([], false))
  }

  /**
   * What the writer's history can be: before its session starts it has
   * accepted nothing, until then its status is unknown, and it accepts only
   * buffers whose data is ready.
   */
  predicate WriterValid(w: AssetWriter) {
    && (w.status == AV.Unknown ==> w.sessionStart.None?)
    && (w.sessionStart.None? ==> w.status == AV.Unknown)
    && (w.status == AV.Completed ==> w.video.finished && w.audio.finished)
    && (w.sessionStart.None? ==> w.video.appended == [] && w.audio.appended == [])
    && (forall i :: 0 <= i < |w.video.appended| ==> w.video.appended[i].dataReady)
    && (forall i :: 0 <= i < |w.audio.appended| ==> w.audio.appended[i].dataReady)
  }

  /** The part of the encoder that appendBuffer reads and writes. */
  datatype Recording = Recording(firstFrame: bool, writer: Option<AssetWriter>)

  /** A buffer gets past the first test of appendBuffer: it is video, or video was seen. */
  predicate PassesGate(r: Recording, isVideo: bool) {
    isVideo || r.firstFrame
  }

  /** appendBuffer reaches the writer only for a ready buffer past the gate; the writer must exist then. */
  predicate CanAppend(r: Recording, buffer: AV.SampleBuffer, isVideo: bool) {
    PassesGate(r, isVideo) && buffer.dataReady ==> r.writer.Some?
  }

  /**
   * isReadyForMoreMediaData of an input: `inputReady` is the framework's
   * answer, which is false once the input has been marked finished.
   */
  predicate ReadyForMoreMediaData(input: WriterInput, inputReady: bool) {
    inputReady && !input.finished
  }

  /**
   * One call of appendBuffer. `inputReady` is the readiness the framework
   * reports for the input the buffer is meant for (the video input for
   * video, the audio input otherwise).
   */
  function Append(r: Recording, buffer: AV.SampleBuffer, isVideo: bool, inputReady: bool): (r': Recording)
    requires CanAppend(r, buffer, isVideo)
    ensures r'.firstFrame == (r.firstFrame || isVideo)
    ensures !PassesGate(r, isVideo) ==> r' == r
    ensures !buffer.dataReady ==> r'.writer == r.writer
    ensures r'.writer.Some? == r.writer.Some?
    ensures r.writer.Some? ==> r'.writer.value.video.finished == r.writer.value.video.finished
    ensures r.writer.Some? ==> r'.writer.value.audio.finished == r.writer.value.audio.finished
    ensures r.writer.Some? && WriterValid(r.writer.value) ==> WriterValid(r'.writer.value)
    // a ready video buffer goes to the video input only, and only when it is ready for it
    ensures r.writer.Some? ==>
      r'.writer.value.video.appended == r.writer.value.video.appended +
        (if isVideo && buffer.dataReady && ReadyForMoreMediaData(r.writer.value.video, inputReady)
         then [buffer] else [])
    // likewise for audio, which must also come after the first video buffer
    ensures r.writer.Some? ==>
      r'.writer.value.audio.appended == r.writer.value.audio.appended +
        (if !isVideo && r.firstFrame && buffer.dataReady && ReadyForMoreMediaData(r.writer.value.audio, inputReady)
         then [buffer] else [])
    // the session starts at the first ready buffer past the gate while the status is unknown
    ensures r.writer.Some? ==>
      var starts := PassesGate(r, isVideo) && buffer.dataReady && r.writer.value.status == AV.Unknown;
      && r'.writer.value.sessionStart == (if starts then Some(buffer.presentationTime) else r.writer.value.sessionStart)
      && r'.writer.value.status == (if starts then AV.Writing else r.writer.value.status)
  {
    if !PassesGate(r, isVideo) then r
    else if !buffer.dataReady then r.(firstFrame := true)
    else
      var w := r.writer.value;
      var started :=
        if w.status == AV.Unknown
        then w.(status := AV.Writing, sessionStart := Some(buffer.presentationTime))
        else w;
      var w' :=
        if isVideo then
          if ReadyForMoreMediaData(started.video, inputReady)
          then started.(video := started.video.(appended := started.video.appended + [buffer]))
          else started
        else
          if ReadyForMoreMediaData(started.audio, inputReady)
          then started.(audio := started.audio.(appended := started.audio.appended + [buffer]))
          else started;
      r.(firstFrame := true, writer := Some(w'))
  }

  /** A started session stays where it started, whatever buffer comes next. */
  lemma AppendKeepsSession(r: Recording, buffer: AV.SampleBuffer, isVideo: bool, inputReady: bool)
    requires CanAppend(r, buffer, isVideo) && r.writer.Some? && WriterValid(r.writer.value)
    requires r.writer.value.sessionStart.Some?
    ensures Append(r, buffer, isVideo, inputReady).writer.value.sessionStart == r.writer.value.sessionStart
  {
  }

  /** One appendBuffer call: a buffer, whether it is video, and the readiness of its input. */
  datatype BufferEvent = BufferEvent(buffer: AV.SampleBuffer, isVideo: bool, inputReady: bool)

  /** A sequence of appendBuffer calls on a recording that has a writer. */
  function Run(r: Recording, events: seq<BufferEvent>): (r': Recording)
    requires r.writer.Some?
    ensures r'.writer.Some?
    ensures r'.writer.value.video.finished == r.writer.value.video.finished
    ensures r'.writer.value.audio.finished == r.writer.value.audio.finished
    ensures WriterValid(r.writer.value) ==> WriterValid(r'.writer.value)
    decreases |events|
  {
    if events == [] then r
    else
      var e := events[0];
      Run(Append(r, e.buffer, e.isVideo, e.inputReady), events[1..])
  }

  // Reference definitions of what a run of appendBuffer calls does, written
  // directly over the list of calls rather than as a state machine.

  /** Some call in the list carries video. */
  predicate HasVideo(events: seq<BufferEvent>) {
    exists i :: 0 <= i < |events| && events[i].isVideo
  }

  /**
   * The timestamp of the first call whose buffer is ready and that comes at
   * or after the first video call (`seen`: video was already seen before).
   */
  function FirstStart(seen: bool, events: seq<BufferEvent>): Option<AV.Time>
    decreases |events|
  {
    if events == [] then None
    else
      var e := events[0];
      if (seen || e.isVideo) && e.buffer.dataReady then Some(e.buffer.presentationTime)
      else FirstStart(seen || e.isVideo, events[1..])
  }

  /** The video buffers that are ready and meet a ready video input. */
  function AcceptedVideo(events: seq<BufferEvent>): seq<AV.SampleBuffer>
    decreases |events|
  {
    if events == [] then []
    else
      var e := events[0];
      (if e.isVideo && e.buffer.dataReady && e.inputReady then [e.buffer] else [])
      + AcceptedVideo(events[1..])
  }

  /** The audio buffers after the first video call that are ready and meet a ready audio input. */
  function AcceptedAudio(seen: bool, events: seq<BufferEvent>): seq<AV.SampleBuffer>
    decreases |events|
  {
    if events == [] then []
    else
      var e := events[0];
      (if !e.isVideo && seen && e.buffer.dataReady && e.inputReady then [e.buffer] else [])
      + AcceptedAudio(seen || e.isVideo, events[1..])
  }

  /** After a run, firstFrame is set exactly when it was set before or some call carried video. */
  lemma {:induction false} RunFirstFrame(r: Recording, events: seq<BufferEvent>)
    requires r.writer.Some?
    ensures Run(r, events).firstFrame == (r.firstFrame || HasVideo(events))
    decreases |events|
  {
    if events != [] {
      var e := events[0];
      RunFirstFrame(Append(r, e.buffer, e.isVideo, e.inputReady), events[1..]);
      assert HasVideo(events) <==> e.isVideo || HasVideo(events[1..]) by {
        if HasVideo(events[1..]) {
          var i :| 0 <= i < |events[1..]| && events[1..][i].isVideo;
          assert events[i + 1].isVideo;
        }
        if HasVideo(events) && !e.isVideo {
          var i :| 0 <= i < |events| && events[i].isVideo;
          assert events[1..][i - 1].isVideo;
        }
      }
    }
  }

  /**
   * Until the first video buffer, audio buffers are dropped without a trace.
   * Run needs a writer; that early audio is dropped without one too is
   * already the second ensures of Append.
   */
  lemma {:induction false} AudioBeforeVideoDropped(r: Recording, events: seq<BufferEvent>)
    requires r.writer.Some? && !r.firstFrame
    requires forall i :: 0 <= i < |events| ==> !events[i].isVideo
    ensures Run(r, events) == r
    decreases |events|
  {
    if events != [] {
      AudioBeforeVideoDropped(r, events[1..]);
    }
  }

  /**
   * The writer's session starts once: at the timestamp of the first ready
   * buffer past the gate, and never moves afterwards.
   */
  lemma {:induction false} RunSessionStart(r: Recording, events: seq<BufferEvent>)
    requires r.writer.Some? && WriterValid(r.writer.value)
    ensures Run(r, events).writer.value.sessionStart ==
      if r.writer.value.sessionStart.Some? then r.writer.value.sessionStart
      else FirstStart(r.firstFrame, events)
    decreases |events|
  {
    if events != [] {
      var e := events[0];
      RunSessionStart(Append(r, e.buffer, e.isVideo, e.inputReady), events[1..]);
    }
  }

  /**
   * Each input ends up with exactly the buffers meant for it: every ready
   * video buffer meeting a ready video input, and every ready audio buffer
   * after the first video call meeting a ready audio input, in order.
   */
  lemma {:induction false} RunAppended(r: Recording, events: seq<BufferEvent>)
    requires r.writer.Some? && !r.writer.value.video.finished && !r.writer.value.audio.finished
    ensures Run(r, events).writer.value.video.appended == r.writer.value.video.appended + AcceptedVideo(events)
    ensures Run(r, events).writer.value.audio.appended == r.writer.value.audio.appended + AcceptedAudio(r.firstFrame, events)
    decreases |events|
  {
    if events != [] {
      var e := events[0];
      var r1 := Append(r, e.buffer, e.isVideo, e.inputReady);
      RunAppended(r1, events[1..]);
      assert r1.firstFrame == (r.firstFrame || e.isVideo);
    }
  }

  /**
   * A whole recording from a fresh writer, as startWriting leaves it: the
   * session starts at the first ready buffer from the first video call on,
   * the video input holds the accepted video buffers and the audio input
   * the accepted audio buffers that follow the first video call.
   */
  lemma RecordingFromStart(url: AV.Url, events: seq<BufferEvent>)
    ensures var r' := Run(Recording(false, Some(NewWriter(url))), events);
      && r'.firstFrame == HasVideo(events)
      && r'.writer.value.outputUrl == url
      && r'.writer.value.sessionStart == FirstStart(false, events)
      && r'.writer.value.video.appended == AcceptedVideo(events)
      && r'.writer.value.audio.appended == AcceptedAudio(false, events)
  {
    var r := Recording(false, Some(NewWriter(url)));
    RunFirstFrame(r, events);
    RunSessionStart(r, events);
    RunAppended(r, events);
    RunKeepsUrl(r, events);
  }

  /** appendBuffer never changes where the writer writes. */
  lemma {:induction false} RunKeepsUrl(r: Recording, events: seq<BufferEvent>)
    requires r.writer.Some?
    ensures Run(r, events).writer.value.outputUrl == r.writer.value.outputUrl
    decreases |events|
  {
    if events != [] {
      var e := events[0];
      RunKeepsUrl(Append(r, e.buffer, e.isVideo, e.inputReady), events[1..]);
    }
  }

  /** CameraEngineVideoEncoder */
  class CameraEngineVideoEncoder {
    var firstFrame: bool
    /** The host clock's time when the recording was set up. */
    var startTime: Option<AV.Time>
    var presetSettingEncoder: Option<SettingsAssistant>
    var assetWriter: Option<AssetWriter>

    function State(): Recording
      reads this
    {
      Recording(firstFrame, assetWriter)
    }

    /** The lazily built default preset is built eagerly here. */
    /** `available`: whether the framework can build the default assistant. */
    constructor (ios9: bool, available: bool)
      ensures !firstFrame && startTime.None? && assetWriter.None?
      ensures presetSettingEncoder == Configuration(Preset1920x1080, ios9, available)
      ensures presetSettingEncoder == if available then Some(SettingsAssistant(AV.Output1920x1080)) else None
    {
      firstFrame := false;
      startTime := None;
      presetSettingEncoder := Configuration(Preset1920x1080, ios9, available);
      assetWriter := None;
    }

    /**
     * initVideoEncoder: a new writer for `url` unless there is no preset, in
     * which case the old writer (if any) stays.
     */
    method InitVideoEncoder(url: AV.Url)
      modifies this`firstFrame, this`assetWriter
      ensures !firstFrame
      ensures assetWriter == if presetSettingEncoder.Some? then Some(NewWriter(url)) else old(assetWriter)
    {
      firstFrame := false;
      if presetSettingEncoder.None? {
        return;
      }
      assetWriter := Some(NewWriter(url));
    }

    /** startWriting; `now` is the host clock's reading. */
    method StartWriting(url: AV.Url, now: AV.Time)
      modifies this`firstFrame, this`startTime, this`assetWriter
      ensures !firstFrame && startTime == Some(now)
      ensures assetWriter == if presetSettingEncoder.Some? then Some(NewWriter(url)) else old(assetWriter)
      ensures presetSettingEncoder.Some? ==> WriterValid(assetWriter.value) && assetWriter.value.status == AV.Unknown
    {
      firstFrame := false;
      startTime := Some(now);
      InitVideoEncoder(url);
    }

    method AppendBuffer(buffer: AV.SampleBuffer, isVideo: bool, inputReady: bool)
      requires CanAppend(State(), buffer, isVideo)
      modifies this`firstFrame, this`assetWriter
      ensures State() == Append(old(State()), buffer, isVideo, inputReady)
    {
      if !isVideo && !firstFrame {
        return;
      }
      firstFrame := true;
      if buffer.dataReady {
        var writer := assetWriter.value;
        if writer.status == AV.Unknown {
          var start := buffer.presentationTime;
          writer := writer.(status := AV.Writing);
          writer := writer.(sessionStart := Some(start));
        }
        if isVideo {
          if ReadyForMoreMediaData(writer.video, inputReady) {
            writer := writer.(video := writer.video.(appended := writer.video.appended + [buffer]));
          }
        } else {
          if ReadyForMoreMediaData(writer.audio, inputReady) {
            writer := writer.(audio := writer.audio.(appended := writer.audio.appended + [buffer]));
          }
        }
        assetWriter := Some(writer);
      }
    }

    /**
     * stopWriting: both inputs are marked finished and the writer finishes;
     * the completion block, when there is one, receives the output URL. The
     * writer must be writing: the framework raises an exception when asked
     * to finish a writer whose session never started or that already finished.
     */
    method StopWriting(hasCompletion: bool) returns (completedUrl: Option<AV.Url>)
      requires assetWriter.Some? && assetWriter.value.status == AV.Writing
      modifies this`assetWriter
      ensures assetWriter.Some?
      ensures var w := old(assetWriter.value);
        assetWriter.value == w.(status := AV.Completed,
                                video := w.video.(finished := true),
                                audio := w.audio.(finished := true))
      ensures WriterValid(old(assetWriter.value)) ==> WriterValid(assetWriter.value)
      ensures completedUrl == if hasCompletion then Some(assetWriter.value.outputUrl) else None
    {
      var writer := assetWriter.value;
      writer := writer.(video := writer.video.(finished := true));
      writer := writer.(audio := writer.audio.(finished := true));
      writer := writer.(status := AV.Completed);
      assetWriter := Some(writer);
      completedUrl := if hasCompletion then Some(writer.outputUrl) else None;
    }
  }
}
