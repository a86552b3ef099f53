/**
 * The process-wide camera service handle of CameraManagement.kt: a one-shot
 * initialisation that records the camera id list and whether any camera exists,
 * and the switch for debug logging.
 */
module CameraManagement {

  import opened Wrappers
  import opened CommonUtils

  /** The fields of the `CameraManagement` object that init writes. */
  datatype ManagementState = ManagementState(
    isInit: bool,
    cameraIdList: seq<string>,
    cameraNumbers: int,
    cameraEnable: bool)

  /** Field values before init; the id list is `lateinit` and is never read before it is set. */
  const UNINITIALISED: ManagementState := ManagementState(false, [], 0, false)

  /**
   * How init returned: the two early returns, each with its warning, success,
   * and the exception thrown by the camera-service lookup or the id-list query.
   */
  datatype InitOutcome = AlreadyInitialised | NoCameraDetected | Ready | ServiceFailed

  datatype InitResult = InitResult(state: ManagementState, outcome: InitOutcome)

  /**
   * What the fields always satisfy: the count is the list's length, the list
   * is unset (empty) before init, and cameras are enabled only after an init
   * that found one.
   */
  predicate Consistent(s: ManagementState)
  {
    s.cameraNumbers == |s.cameraIdList| &&
    (!s.isInit ==> s.cameraIdList == []) &&
    (s.cameraEnable <==> s.isInit && |s.cameraIdList| > 0)
  }

  /**
   * `init(context)`, with `ids` for what `CameraManager.cameraIdList` reports,
   * or `None` when getting the camera service or its id list throws.
   * `isInit` is set before both the service calls and the count check, so a
   * later call returns at once even when the first failed or found no camera.
   */
  function InitStep(s: ManagementState, ids: Option<seq<string>>): InitResult
  {
    if s.isInit then InitResult(s, AlreadyInitialised)
    else if ids.None? then InitResult(s.(isInit := true), ServiceFailed)
    else
      var s1 := s.(isInit := true, cameraIdList := ids.value, cameraNumbers := |ids.value|);
      if |ids.value| == 0 then InitResult(s1, NoCameraDetected)
      else InitResult(s1.(cameraEnable := true), Ready)
  }

  /** The first init records the ids and their count, and enables cameras iff there is one. */
  lemma FirstInit(s: ManagementState, ids: seq<string>)
    requires !s.isInit && Consistent(s)
    ensures var r := InitStep(s, Some(ids));
      r.state.isInit && r.state.cameraIdList == ids && r.state.cameraNumbers == |ids| &&
      (r.state.cameraEnable <==> |ids| > 0) &&
      (r.outcome == Ready <==> |ids| > 0) && (r.outcome == NoCameraDetected <==> |ids| == 0)
  {
  }

  /**
   * A first init whose service calls throw leaves `isInit` set and cameras
   * disabled, and every later init then returns at once: the failure is permanent.
   */
  lemma ServiceFailureIsPermanent(s: ManagementState, later: Option<seq<string>>)
    requires !s.isInit && Consistent(s)
    ensures var r := InitStep(s, None);
      r.outcome == ServiceFailed && r.state.isInit && !r.state.cameraEnable &&
      r.state.cameraIdList == [] && r.state.cameraNumbers == 0 &&
      InitStep(r.state, later) == InitResult(r.state, AlreadyInitialised)
  {
  }

  /** A second init, with whatever ids or failure, changes no field. */
  lemma InitIdempotent(s: ManagementState, first: Option<seq<string>>, second: Option<seq<string>>)
    ensures var r1 := InitStep(s, first);
      InitStep(r1.state, second) == InitResult(r1.state, AlreadyInitialised)
  {
  }

  /** init keeps the fields consistent. */
  lemma InitKeepsConsistent(s: ManagementState, ids: Option<seq<string>>)
    requires Consistent(s)
    ensures Consistent(InitStep(s, ids).state)
  {
  }

  /** The `object CameraManagement` singleton. */
  class CameraManagement {
    var cameraIdList: seq<string>
    var cameraNumbers: int
    var isInit: bool
    var cameraEnable: bool
    /** The CommonUtils globals, where `debugEnabled` lives. */
    const globals: Globals

    function State(): ManagementState
      reads this
    {
      ManagementState(isInit, cameraIdList, cameraNumbers, cameraEnable)
    }

    ghost predicate Valid()
      reads this
    {
      Consistent(State())
    }

    constructor (globals: Globals)
      ensures Valid() && State() == UNINITIALISED && this.globals == globals
    {
      this.globals := globals;
      cameraIdList, cameraNumbers := [], 0;
      isInit, cameraEnable := false, false;
    }

    /** `enableDebug(enable)`: sets `debugEnabled` and nothing else. */
    method EnableDebug(enable: bool)
      modifies globals`debugEnabled
      ensures globals.Snapshot() == old(globals.Snapshot()).(debugEnabled := enable)
      ensures unchanged(this)
    {
      globals.debugEnabled := enable;
    }

    /** `init(context)`, with the camera service's id list as `ids`, or `None` when the service calls throw. */
    method Init(ids: Option<seq<string>>) returns (outcome: InitOutcome)
      requires Valid()
      modifies this
      ensures Valid()
      ensures InitResult(State(), outcome) == InitStep(old(State()), ids)
    {
      if isInit {
        return AlreadyInitialised;
      }
      isInit := true;
      if ids.None? {
        return ServiceFailed;
      }
      cameraIdList := ids.value;
      cameraNumbers := |cameraIdList|;
      if cameraNumbers == 0 {
        return NoCameraDetected;
      }
      cameraEnable := true;
      outcome := Ready;
    }
  }

  /**
   * A usage example, not part of the source: a caller initialising the
   * singleton twice can rely on the second call changing nothing.
   */
  method InitTwice(globals: Globals, first: seq<string>, second: Option<seq<string>>)
  {
    var management := new CameraManagement(globals);
    var o1 := management.Init(Some(first));
    var after := management.State();
    var o2 := management.Init(second);
    assert o2 == AlreadyInitialised && management.State() == after;
    assert management.isInit && management.cameraNumbers == |first|;
    assert management.cameraEnable <==> |first| > 0;
  }
}
