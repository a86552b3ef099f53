/**
 * The backend selection of CameraPreviewView.kt: which camera API a preview is
 * opened with, given the configured version and the hardware levels the camera
 * service reports, and when startPreview opens the camera at once or waits
 * for the preview surface.
 */
module CameraPreviewView {

  import opened Wrappers
  import opened CameraManagement

  /* ---------------------------------------------------------------------- */
  /* The configured camera version                                           */
  /* ---------------------------------------------------------------------- */

  /** `enum class CameraVersion(val value: Int)`. */
  datatype CameraVersion = Auto | Legacy | Camera2
  {
    function Value(): int
    {
      match this
      case Auto => 0
      case Legacy => 1
      case Camera2 => 2
    }

    /** The Kotlin enum constant's `name`. */
    function Name(): string
    {
      match this
      case Auto => "AUTO"
      case Legacy => "LEGACY"
      case Camera2 => "CAMERA2"
    }
  }

  /** `CameraVersion.values()`, in declaration order. */
  const VERSIONS: seq<CameraVersion> := [Auto, Legacy, Camera2]

  /** `getCameraVersion(v)`: the name of the constant whose value is `v`, or "" when there is none. */
  method GetCameraVersion(v: int) returns (name: string)
    ensures v == 0 ==> name == "AUTO"
    ensures v == 1 ==> name == "LEGACY"
    ensures v == 2 ==> name == "CAMERA2"
    ensures (v < 0 || v > 2) ==> name == ""
    ensures forall e: CameraVersion :: e.Value() == v ==> name == e.Name()
    ensures name == "" <==> forall e: CameraVersion :: e.Value() != v
  {
    var values := VERSIONS;
    for i := 0 to |values|
      invariant forall j | 0 <= j < i :: values[j].Value() != v
    {
      if values[i].Value() == v {
        return values[i].Name();
      }
    }
    assert values == [Auto, Legacy, Camera2];
    assert Auto.Value() != v && Legacy.Value() != v && Camera2.Value() != v by {
      assert values[0].Value() != v && values[1].Value() != v && values[2].Value() != v;
    }
    return "";
  }

  /* ---------------------------------------------------------------------- */
  /* Hardware levels and Camera2 support                                     */
  /* ---------------------------------------------------------------------- */

  /**
   * `CameraCharacteristics.INFO_SUPPORTED_HARDWARE_LEVEL` of one camera;
   * `Unreported` stands for the `null` the characteristics lookup may return.
   */
  datatype HardwareLevel = Limited | Full | LegacyLevel | Level3 | External | Unreported

  /** A camera is good enough for Camera2 unless its level is LEGACY or LIMITED. */
  predicate Camera2Capable(level: HardwareLevel)
  {
    !(level == LegacyLevel || level == Limited)
  }

  /** Every camera is good enough for Camera2. */
  predicate AllCamera2Capable(levels: seq<HardwareLevel>)
  {
    forall i | 0 <= i < |levels| :: Camera2Capable(levels[i])
  }

  /**
   * `isCamera2Need()`, with `levels[i]` the hardware level of `cameraIdList[i]`.
   * `queried` is how many cameras' characteristics were read: the loop stops
   * at the first camera that is not good enough.
   */
  method IsCamera2Need(cameraNumbers: int, levels: seq<HardwareLevel>) returns (result: bool, queried: nat)
    requires cameraNumbers == |levels|
    ensures result <==> AllCamera2Capable(levels)
    ensures queried <= |levels|
    ensures forall i | 0 <= i < queried - 1 :: Camera2Capable(levels[i])
    ensures result ==> queried == |levels|
    ensures !result ==> 0 < queried && !Camera2Capable(levels[queried - 1])
  {
    if cameraNumbers == 1 {
      var supportHardwareLevel := levels[0];
      return !(supportHardwareLevel == LegacyLevel || supportHardwareLevel == Limited), 1;
    }
    result := true;
    queried := 0;
    while queried < |levels|
      invariant queried <= |levels|
      invariant forall i | 0 <= i < queried :: Camera2Capable(levels[i])
    {
      var supportHardwareLevel := levels[queried];
      queried := queried + 1;
      var cache := !(supportHardwareLevel == LegacyLevel || supportHardwareLevel == Limited);
      if !cache {
        result := false;
        break;
      }
    }
  }

  /* ---------------------------------------------------------------------- */
  /* Opening a backend                                                       */
  /* ---------------------------------------------------------------------- */

  /**
   * The backends openCamera can start. The legacy path always opens the one
   * default camera; `openCamera2` has an empty body in the source, so
   * `Camera2Device` only records that it was chosen.
   */
  datatype Backend = LegacySingleCamera | Camera2Device

  /** What one openCamera call did. */
  datatype OpenResult = Opened(backend: Backend) | NothingOpened

  /** The backend openCamera picks for `version`, given the levels of all cameras. */
  function OpenDecision(version: int, levels: seq<HardwareLevel>): (r: OpenResult)
    ensures r == Opened(Camera2Device) <==> version == 2 || (version == 0 && AllCamera2Capable(levels))
    ensures r == Opened(LegacySingleCamera) <==> version == 1 || (version == 0 && !AllCamera2Capable(levels))
    ensures r == NothingOpened <==> version < 0 || version > 2
  {
    if version == Auto.Value() then
      if AllCamera2Capable(levels) then Opened(Camera2Device) else Opened(LegacySingleCamera)
    else if version == Legacy.Value() then Opened(LegacySingleCamera)
    else if version == Camera2.Value() then Opened(Camera2Device)
    else NothingOpened
  }

  /** `openLegacySingleCamera()`; the Camera calls it makes are not modelled. */
  function OpenLegacySingleCamera(): Backend
  {
    LegacySingleCamera
  }

  /** `openLegacy()`: with one camera or several, the single default camera is opened. */
  method OpenLegacy(cameraNumbers: int) returns (backend: Backend)
    ensures backend == LegacySingleCamera
  {
    if cameraNumbers == 1 {
      backend := OpenLegacySingleCamera();
    } else {
      backend := OpenLegacySingleCamera();
    }
  }

  /* ---------------------------------------------------------------------- */
  /* startPreview                                                            */
  /* ---------------------------------------------------------------------- */

  /** How startPreview returned. */
  datatype PreviewOutcome =
    | NotInitialised        // CameraManagement.init has not run
    | NoCamera              // init found no camera
    | TextureViewMissing    // the view was built before a successful init; `lateinit textureView` throws
    | Started(result: OpenResult)
    | ListenerRegistered    // the surface is not ready; openCamera waits for it

  /**
   * What startPreview does, given the management flags, whether the view
   * inflated its texture view, whether the surface is available, the version
   * and the cameras' levels.
   */
  function PreviewDecision(isInit: bool, cameraEnable: bool, inflated: bool, available: bool,
                           version: int, levels: seq<HardwareLevel>): (r: PreviewOutcome)
    ensures r == NotInitialised <==> !isInit
    ensures r == NoCamera <==> isInit && !cameraEnable
    ensures r == TextureViewMissing <==> isInit && cameraEnable && !inflated
    ensures r.Started? <==> isInit && cameraEnable && inflated && available
    ensures r == ListenerRegistered <==> isInit && cameraEnable && inflated && !available
    ensures r.Started? ==> r.result == OpenDecision(version, levels)
  {
    if !isInit then NotInitialised
    else if !cameraEnable then NoCamera
    else if !inflated then TextureViewMissing
    else if available then Started(OpenDecision(version, levels))
    else ListenerRegistered
  }

  /** The `CameraPreviewView` view. */
  class CameraPreviewView {
    const management: CameraManagement
    /** Whether the constructor inflated the layout and set `textureView`. */
    const inflated: bool
    /** `cameraVersion`, read from the layout attributes when the view inflated. */
    var cameraVersion: int
    /** Whether `textureView.surfaceTextureListener` is this view's listener. */
    var listenerRegistered: bool
    /** The result of every openCamera call so far, oldest first. */
    var openCalls: seq<OpenResult>

    /**
     * The constructor: it inflates and reads the `cameraVersion` attribute
     * (`attrVersion`, defaulting to AUTO in the source) only when management
     * is initialised and has a camera.
     */
    constructor (management: CameraManagement, attrVersion: int)
      ensures this.management == management
      ensures inflated == (management.isInit && management.cameraEnable)
      ensures cameraVersion == if inflated then attrVersion else Auto.Value()
      ensures !listenerRegistered && openCalls == []
    {
      this.management := management;
      inflated := management.isInit && management.cameraEnable;
      cameraVersion := if management.isInit && management.cameraEnable then attrVersion else Auto.Value();
      listenerRegistered := false;
      openCalls := [];
    }

    /** `openCamera()`, with the service's levels for the cameras in `cameraIdList`. */
    method OpenCamera(levels: seq<HardwareLevel>) returns (r: OpenResult)
      requires management.Valid() && |levels| == |management.cameraIdList|
      modifies this`openCalls
      ensures r == OpenDecision(cameraVersion, levels)
      ensures openCalls == old(openCalls) + [r]
    {
      if cameraVersion == Auto.Value() {
        var need, _ := IsCamera2Need(management.cameraNumbers, levels);
        if need {
          r := Opened(Camera2Device);
        } else {
          var backend := OpenLegacy(management.cameraNumbers);
          r := Opened(backend);
        }
      } else if cameraVersion == Legacy.Value() {
        var backend := OpenLegacy(management.cameraNumbers);
        r := Opened(backend);
      } else if cameraVersion == Camera2.Value() {
        r := Opened(Camera2Device);
      } else {
        r := NothingOpened;
      }
      openCalls := openCalls + [r];
    }

    /** `startPreview()`, with `available` for `textureView.isAvailable`. */
    method StartPreview(available: bool, levels: seq<HardwareLevel>) returns (outcome: PreviewOutcome)
      requires management.Valid() && |levels| == |management.cameraIdList|
      modifies this`listenerRegistered, this`openCalls
      ensures outcome == PreviewDecision(management.isInit, management.cameraEnable, inflated, available, cameraVersion, levels)
      ensures listenerRegistered == (old(listenerRegistered) || outcome == ListenerRegistered)
      ensures openCalls == old(openCalls) + (if outcome.Started? then [outcome.result] else [])
    {
      if !management.isInit {
        return NotInitialised;
      }
      if !management.cameraEnable {
        return NoCamera;
      }
      if !inflated {
        return TextureViewMissing;
      }
      if available {
        var r := OpenCamera(levels);
        outcome := Started(r);
      } else {
        listenerRegistered := true;
        outcome := ListenerRegistered;
      }
    }

    /**
     * The surface becoming available: when the listener is registered, its
     * `onSurfaceTextureAvailable` makes exactly one openCamera call.
     */
    method OnSurfaceTextureAvailable(levels: seq<HardwareLevel>) returns (r: Option<OpenResult>)
      requires management.Valid() && |levels| == |management.cameraIdList|
      modifies this`openCalls
      ensures r.Some? <==> listenerRegistered
      ensures r.Some? ==> r.value == OpenDecision(cameraVersion, levels)
      ensures openCalls == old(openCalls) + (if r.Some? then [r.value] else [])
    {
      if listenerRegistered {
        var result := OpenCamera(levels);
        r := Some(result);
      } else {
        r := None;
      }
    }
  }
}
