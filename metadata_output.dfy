/**
 * CameraEngineMetadataOutput.swift: the detection modes, the object types
 * each asks the framework for, and the routing of detected objects to the
 * face and code callbacks.
 */
module MetadataOutput {
  import opened Wrappers
  import AV
  import Seqs

  /** CameraEngineCaptureOutputDetection; `NoDetection` is the `.none` case. */
  datatype Detection = Face | QrCode | BareCode | NoDetection

  /** The ten code types of `.bareCode` mode. */
  const BareCodeTypes: seq<AV.ObjectType> :=
    [AV.Upce, AV.Code39, AV.Code39Mod43, AV.Ean13, AV.Ean8,
     AV.Code93, AV.Code128, AV.Pdf417, AV.Qr, AV.Aztec]

  /** A machine-readable code type the library names (everything it knows but faces). */
  predicate IsCodeType(t: AV.ObjectType) {
    !t.Face? && !t.OtherObjectType?
  }

  /** foundationCaptureOutputDetection(): the object types a mode asks the framework to detect. */
  function FoundationCaptureOutputDetection(mode: Detection): (types: seq<AV.ObjectType>)
    ensures Seqs.Distinct(types)
    ensures mode == NoDetection <==> types == []
    ensures AV.Face in types <==> mode == Face
    ensures AV.Qr in types <==> mode == QrCode || mode == BareCode
    ensures forall t :: IsCodeType(t) && t != AV.Qr ==> (t in types <==> mode == BareCode)
    ensures forall t :: t in types ==> !t.OtherObjectType?
  {
    match mode
    case Face => [AV.Face]
    case QrCode => [AV.Qr]
    case BareCode => BareCodeTypes
    case NoDetection => []
  }

  /** Every detection mode, each once. */
  function AvailableDetection(): (all: seq<Detection>)
    ensures |all| == 4 && Seqs.Distinct(all)
  {
    [Face, QrCode, BareCode, NoDetection]
  }

  /** No detection mode is missing from AvailableDetection. */
  lemma AvailableDetectionComplete(mode: Detection)
    ensures mode in AvailableDetection()
  {
    match mode
    case Face =>
    case QrCode =>
    case BareCode =>
    case NoDetection =>
  }

  function Description(mode: Detection): (s: string)
    ensures |s| > 0
  {
    match mode
    case Face => "Face detection"
    case QrCode => "QRCode detection"
    case BareCode => "BareCode detection"
    case NoDetection => "No detection"
  }

  /** The four descriptions are pairwise distinct. */
  lemma DescriptionInjective(a: Detection, b: Detection)
    ensures Description(a) == Description(b) ==> a == b
  {
  }

  /** A callback invocation: the face block or the code block, with the object it receives. */
  datatype Delivery = FaceDelivered(detected: AV.MetadataObject) | CodeDelivered(detected: AV.MetadataObject)

  /**
   * A delivery that respects the mode and the blocks: the mode asked for the
   * object's type, faces go to the face block and codes to the code block,
   * and that block is set.
   */
  predicate Proper(d: Delivery, mode: Detection, hasFaceBlock: bool, hasCodeBlock: bool) {
    && d.detected.objectType in FoundationCaptureOutputDetection(mode)
    && (d.FaceDelivered? <==> d.detected.objectType == AV.Face)
    && (if d.FaceDelivered? then hasFaceBlock else hasCodeBlock)
  }

  /**
   * The `switch` in captureOutput as written: the first matching case wins,
   * so a QR object always lands in the `.qr` case and is delivered only in
   * `.qrCode` mode, never by the `.bareCode` case that also lists it.
   */
  function RouteAsWritten(detected: AV.MetadataObject, mode: Detection, hasFaceBlock: bool, hasCodeBlock: bool)
    : (delivery: Option<Delivery>)
    ensures delivery.Some? ==> delivery.value.detected == detected
    ensures delivery.Some? ==> Proper(delivery.value, mode, hasFaceBlock, hasCodeBlock)
    ensures detected.objectType == AV.Qr ==> (delivery.Some? <==> mode == QrCode && hasCodeBlock)
  {
    match detected.objectType
    case Face => if hasFaceBlock && mode == Face then Some(FaceDelivered(detected)) else None
    case Qr => if hasCodeBlock && mode == QrCode then Some(CodeDelivered(detected)) else None
    case Upce | Code39 | Code39Mod43 | Ean13 | Ean8 | Code93 | Code128 | Pdf417 | Aztec =>
      if hasCodeBlock && mode == BareCode then Some(CodeDelivered(detected)) else None
    case OtherObjectType(_) => None
  }

  /** In `.bareCode` mode the output is asked for QR codes, yet the code block never sees one. */
  lemma BareCodeModeDropsQr(detected: AV.MetadataObject, hasFaceBlock: bool)
    requires detected.objectType == AV.Qr
    ensures AV.Qr in FoundationCaptureOutputDetection(BareCode)
    ensures RouteAsWritten(detected, BareCode, hasFaceBlock, true) == None
  {
  }

  /**
   * The routing as evidently intended: an object reaches the block for its
   * kind exactly when the current mode asked for its type and that block is set.
   */
  function Route(detected: AV.MetadataObject, mode: Detection, hasFaceBlock: bool, hasCodeBlock: bool)
    : (delivery: Option<Delivery>)
    ensures delivery.Some? <==>
      detected.objectType in FoundationCaptureOutputDetection(mode)
      && (if detected.objectType == AV.Face then hasFaceBlock else hasCodeBlock)
    ensures delivery.Some? ==> delivery.value.detected == detected
    ensures delivery.Some? ==> Proper(delivery.value, mode, hasFaceBlock, hasCodeBlock)
  {
    match detected.objectType
    case Face => if hasFaceBlock && mode == Face then Some(FaceDelivered(detected)) else None
    case Qr => if hasCodeBlock && (mode == QrCode || mode == BareCode) then Some(CodeDelivered(detected)) else None
    case Upce | Code39 | Code39Mod43 | Ean13 | Ean8 | Code93 | Code128 | Pdf417 | Aztec =>
      if hasCodeBlock && mode == BareCode then Some(CodeDelivered(detected)) else None
    case OtherObjectType(_) => None
  }

  /** The intended routing differs from the written one only on QR codes in `.bareCode` mode. */
  lemma RouteDiffersOnlyOnBareCodeQr(detected: AV.MetadataObject, mode: Detection, hasFaceBlock: bool, hasCodeBlock: bool)
    ensures Route(detected, mode, hasFaceBlock, hasCodeBlock) != RouteAsWritten(detected, mode, hasFaceBlock, hasCodeBlock)
      <==> detected.objectType == AV.Qr && mode == BareCode && hasCodeBlock
  {
  }

  /** Which routing a batch goes through: the switch as written or the intended one. */
  datatype Routing = AsWritten | Intended

  function RouteBy(routing: Routing, detected: AV.MetadataObject, mode: Detection, hasFaceBlock: bool, hasCodeBlock: bool)
    : Option<Delivery>
  {
    match routing
    case AsWritten => RouteAsWritten(detected, mode, hasFaceBlock, hasCodeBlock)
    case Intended => Route(detected, mode, hasFaceBlock, hasCodeBlock)
  }

  /** The objects a list of deliveries hands to the blocks, in order. */
  function DetectedObjects(deliveries: seq<Delivery>): seq<AV.MetadataObject> {
    if deliveries == [] then []
    else [deliveries[0].detected] + DetectedObjects(deliveries[1..])
  }

  /**
   * The callbacks one batch of detected objects triggers: each object in
   * turn, at most once, in the order of the batch, and each to the block for
   * its kind under the current mode.
   */
  function Deliveries(routing: Routing, objects: seq<AV.MetadataObject>, mode: Detection,
                      hasFaceBlock: bool, hasCodeBlock: bool)
    : (deliveries: seq<Delivery>)
    ensures Seqs.IsSubsequence(DetectedObjects(deliveries), objects)
    ensures forall d :: d in deliveries ==> d.detected in objects
    ensures forall d :: d in deliveries ==> Proper(d, mode, hasFaceBlock, hasCodeBlock)
    decreases |objects|
  {
    if objects == [] then []
    else
      var route := RouteBy(routing, objects[0], mode, hasFaceBlock, hasCodeBlock);
      var rest := Deliveries(routing, objects[1..], mode, hasFaceBlock, hasCodeBlock);
      assert forall o :: o in objects[1..] ==> o in objects;
      if route.Some? then
        var r := [route.value] + rest;
        assert r[1..] == rest;
        assert DetectedObjects(r)[1..] == DetectedObjects(rest);
        r
      else
        rest
  }

  /** Routing a batch in two parts is routing the whole batch. */
  lemma {:induction false} DeliveriesAppend(routing: Routing, a: seq<AV.MetadataObject>, b: seq<AV.MetadataObject>,
                                            mode: Detection, hasFaceBlock: bool, hasCodeBlock: bool)
    ensures Deliveries(routing, a + b, mode, hasFaceBlock, hasCodeBlock) ==
      Deliveries(routing, a, mode, hasFaceBlock, hasCodeBlock) + Deliveries(routing, b, mode, hasFaceBlock, hasCodeBlock)
    decreases |a|
  {
    if a == [] {
      assert a + b == b;
    } else {
      assert (a + b)[0] == a[0] && (a + b)[1..] == a[1..] + b;
      DeliveriesAppend(routing, a[1..], b, mode, hasFaceBlock, hasCodeBlock);
    }
  }

  /** Under the intended routing every object of a requested type reaches its block when that block is set. */
  lemma {:induction false} DeliveriesComplete(objects: seq<AV.MetadataObject>, mode: Detection,
                                              hasFaceBlock: bool, hasCodeBlock: bool, k: nat)
    requires k < |objects|
    requires objects[k].objectType in FoundationCaptureOutputDetection(mode)
    requires if objects[k].objectType == AV.Face then hasFaceBlock else hasCodeBlock
    ensures exists d :: d in Deliveries(Intended, objects, mode, hasFaceBlock, hasCodeBlock) && d.detected == objects[k]
    decreases |objects|
  {
    var route := Route(objects[0], mode, hasFaceBlock, hasCodeBlock);
    var rest := Deliveries(Intended, objects[1..], mode, hasFaceBlock, hasCodeBlock);
    if k == 0 {
      assert route.value in Deliveries(Intended, objects, mode, hasFaceBlock, hasCodeBlock);
    } else {
      DeliveriesComplete(objects[1..], mode, hasFaceBlock, hasCodeBlock, k - 1);
      var d :| d in rest && d.detected == objects[k];
      assert d in Deliveries(Intended, objects, mode, hasFaceBlock, hasCodeBlock);
    }
  }

  /** A delivery of something other than a QR code. */
  predicate NotQr(d: Delivery) {
    d.detected.objectType != AV.Qr
  }

  /**
   * The written routing of a batch is the intended one with, in `.bareCode`
   * mode, every QR delivery left out.
   */
  lemma {:induction false} WrittenDeliveriesDropQr(objects: seq<AV.MetadataObject>, mode: Detection,
                                                   hasFaceBlock: bool, hasCodeBlock: bool)
    ensures Deliveries(AsWritten, objects, mode, hasFaceBlock, hasCodeBlock) ==
      if mode == BareCode then Seqs.Filter(Deliveries(Intended, objects, mode, hasFaceBlock, hasCodeBlock), NotQr)
      else Deliveries(Intended, objects, mode, hasFaceBlock, hasCodeBlock)
    decreases |objects|
  {
    if objects != [] {
      RouteDiffersOnlyOnBareCodeQr(objects[0], mode, hasFaceBlock, hasCodeBlock);
      WrittenDeliveriesDropQr(objects[1..], mode, hasFaceBlock, hasCodeBlock);
      var intended := Deliveries(Intended, objects, mode, hasFaceBlock, hasCodeBlock);
      var route := Route(objects[0], mode, hasFaceBlock, hasCodeBlock);
      if mode == BareCode && route.Some? {
        assert intended[0] == route.value;
        assert intended[1..] == Deliveries(Intended, objects[1..], mode, hasFaceBlock, hasCodeBlock);
      }
    }
  }

  /** A batch drops a requested QR code under the written routing. */
  predicate DropsQr(objects: seq<AV.MetadataObject>, mode: Detection, hasCodeBlock: bool) {
    mode == BareCode && hasCodeBlock && exists i :: 0 <= i < |objects| && objects[i].objectType == AV.Qr
  }

  /**
   * The written and intended routings of a batch differ exactly when the
   * mode is `.bareCode`, the code block is set and the batch holds a QR code.
   */
  lemma BatchDiffersOnlyOnBareCodeQr(objects: seq<AV.MetadataObject>, mode: Detection,
                                     hasFaceBlock: bool, hasCodeBlock: bool)
    ensures Deliveries(AsWritten, objects, mode, hasFaceBlock, hasCodeBlock) !=
      Deliveries(Intended, objects, mode, hasFaceBlock, hasCodeBlock)
      <==> DropsQr(objects, mode, hasCodeBlock)
  {
    var intended := Deliveries(Intended, objects, mode, hasFaceBlock, hasCodeBlock);
    WrittenDeliveriesDropQr(objects, mode, hasFaceBlock, hasCodeBlock);
    if DropsQr(objects, mode, hasCodeBlock) {
      var i :| 0 <= i < |objects| && objects[i].objectType == AV.Qr;
      DeliveriesComplete(objects, mode, hasFaceBlock, hasCodeBlock, i);
      var d :| d in intended && d.detected == objects[i];
      assert d !in Seqs.Filter(intended, NotQr);
    } else if mode == BareCode {
      assert forall d :: d in intended ==> NotQr(d);
      Seqs.FilterKeepsAll(intended, NotQr);
    }
  }

  /** CameraEngineMetadataOutput */
  class CameraEngineMetadataOutput {
    var metadataOutput: AV.CaptureMetadataOutput?
    var currentMetadataOutput: Detection
    var hasPreviewLayer: bool
    var hasFaceBlock: bool
    var hasCodeBlock: bool

    constructor ()
      ensures metadataOutput == null && currentMetadataOutput == NoDetection
      ensures !hasPreviewLayer && !hasFaceBlock && !hasCodeBlock
    {
      metadataOutput := null;
      currentMetadataOutput := NoDetection;
      hasPreviewLayer, hasFaceBlock, hasCodeBlock := false, false, false;
    }

    /**
     * configureMetadataOutput: the framework output is created (and added to
     * the session when it accepts it) on the first call only; every call sets
     * its object types to those of `metadataType`. `canAddOutput` is the
     * session's answer to canAddOutput. `available` is the output's
     * availableMetadataObjectTypes: nothing while the output is not attached
     * to the session. The framework raises an exception when asked for a type
     * that is not available, and the source does not ask first.
     */
    method ConfigureMetadataOutput(session: AV.CaptureSession, metadataType: Detection, canAddOutput: bool,
                                   available: set<AV.ObjectType>)
      requires !(if metadataOutput == null then canAddOutput else metadataOutput in session.outputs) ==> available == {}
      requires forall t :: t in FoundationCaptureOutputDetection(metadataType) ==> t in available
      modifies this`metadataOutput, this`currentMetadataOutput, session`outputs, metadataOutput
      ensures metadataOutput != null
      ensures old(metadataOutput) != null ==>
        metadataOutput == old(metadataOutput) && session.outputs == old(session.outputs)
      ensures old(metadataOutput) == null ==>
        && fresh(metadataOutput)
        && session.outputs == old(session.outputs) + (if canAddOutput then [metadataOutput] else [])
      ensures metadataOutput.metadataObjectTypes == FoundationCaptureOutputDetection(metadataType)
      ensures currentMetadataOutput == metadataType
    {
      if metadataOutput == null {
        metadataOutput := new AV.CaptureMetadataOutput();
        if canAddOutput {
          session.outputs := session.outputs + [metadataOutput];
        }
      }
      metadataOutput.metadataObjectTypes := FoundationCaptureOutputDetection(metadataType);
      currentMetadataOutput := metadataType;
    }

    /**
     * The body of captureOutput(_:didOutputMetadataObjects:from:) as written:
     * nothing without a preview layer, otherwise each object in turn goes
     * through the written `switch`.
     */
    method CaptureOutput(objects: seq<AV.MetadataObject>) returns (delivered: seq<Delivery>)
      ensures !hasPreviewLayer ==> delivered == []
      ensures hasPreviewLayer ==>
        delivered == Deliveries(AsWritten, objects, currentMetadataOutput, hasFaceBlock, hasCodeBlock)
    {
      delivered := [];
      if !hasPreviewLayer {
        return;
      }
      for i := 0 to |objects|
        invariant delivered == Deliveries(AsWritten, objects[..i], currentMetadataOutput, hasFaceBlock, hasCodeBlock)
      {
        assert objects[..i + 1] == objects[..i] + [objects[i]];
        DeliveriesAppend(AsWritten, objects[..i], [objects[i]], currentMetadataOutput, hasFaceBlock, hasCodeBlock);
        var route := RouteAsWritten(objects[i], currentMetadataOutput, hasFaceBlock, hasCodeBlock);
        if route.Some? {
          delivered := delivered + [route.value];
        }
      }
      assert objects[..|objects|] == objects;
    }
  }
}
