# CameraPreview decision logic, modelled in Dafny

The CameraPreview library wraps Android's legacy `Camera` and `Camera2` APIs behind one
view, `CameraPreviewView`. Almost all of it is calls into the Android SDK. This project
models the deterministic logic on top of those calls, with the SDK's answers passed in
as plain inputs:

- `CameraManagement` (module `CameraManagement`): the singleton's one-shot `init`. It
  sets `isInit`, records the camera id list and its size, and enables cameras when there
  is at least one. Because `isInit` is set before the camera service is queried, a
  failing query disables the library for the rest of the process; the model keeps that
  path (`ServiceFailed`). `enableDebug` switches debug logging. The object is a class. Its
  methods are proved against the value-level function `InitStep`, and the lemmas about
  `InitStep` state the promises.
- `CameraPreviewView` (module `CameraPreviewView`):
  - the `CameraVersion` enum and `getCameraVersion`, a loop with an early return;
  - `isCamera2Need`, a loop over the cameras' hardware levels that stops at the first
    LEGACY or LIMITED camera;
  - `openLegacy` and `openCamera`, which choose the backend;
  - `startPreview` and the surface listener, which decide whether to open now, wait for
    the surface, or give up.
  The view is a class. Its methods are proved against `OpenDecision` and
  `PreviewDecision`.
- `CameraTextureView` (module `CameraTextureView`): the circular-crop outline. It
  computes the centre, the radius and the oval bounds. The centre and the radius are
  written back into the global configuration; the oval bounds go to the view's
  `Outline`.
- `CommonUtils` (module `CommonUtils`): the global configuration variables (class
  `Globals`), Kotlin `Int` arithmetic, Kotlin's `String.split`, and the log-tag
  derivation of `warnOut`/`errorOut`.

Kotlin details the model states explicitly:

- `Int` is 32-bit. `Wrap32`, `Add32` and `Sub32` wrap around as Kotlin does.
- `/` truncates toward zero. `Half` models this, including for negative extents.
- `String.split` on a literal delimiter keeps empty pieces, so it always yields at least
  one piece.

Where the code and its surroundings disagree:

- `CameraTextureView.kt:28-29` reads `faceCameraViewDownOffset`. `CommonUtils.kt` does
  not declare that variable. It declares `faceCameraViewBottomOffset` (line 39), and the
  model uses that.
- `textureView` is `lateinit`. It is set only when the view is built after an `init`
  that found a camera. `startPreview` on a view built before that still returns early
  while `init` has not run, or has found no camera, or has failed. It reaches
  `textureView.isAvailable` and throws only once a later `init` has found a camera. The model reports this
  as the outcome `TextureViewMissing`.

## Model

| member | source | states |
|---|---|---|
| `CameraPreviewView.GetCameraVersion` | CameraPreview/src/main/java/com/quicknew/camerapreview/view/CameraPreviewView.kt:189-197 | 0, 1 and 2 give "AUTO", "LEGACY" and "CAMERA2". Any other integer gives "". The result is the name of the constant with that value, and it is "" exactly when no constant has that value. |
| `CameraPreviewView.IsCamera2Need` | CameraPreview/src/main/java/com/quicknew/camerapreview/view/CameraPreviewView.kt:202-223 | True iff no camera is LEGACY or LIMITED. One contract covers the single-camera branch and the loop, so the two agree. The loop stops at the first camera that is not good enough: every camera queried before it passes. A list with no cameras yields true. |
| `CameraPreviewView.Camera2Capable` | CameraPreview/src/main/java/com/quicknew/camerapreview/view/CameraPreviewView.kt:207 | No contract: the test that one camera's hardware level is neither LEGACY nor LIMITED; a null level passes. `IsCamera2Need` is proved against it. |
| `CameraPreviewView.AllCamera2Capable` | CameraPreview/src/main/java/com/quicknew/camerapreview/view/CameraPreviewView.kt:209-221 | No contract: the reference predicate "every camera passes the test at line 215". `IsCamera2Need`, `OpenDecision` and `PreviewDecision` are stated against it. |
| `CameraPreviewView.OpenLegacySingleCamera` | CameraPreview/src/main/java/com/quicknew/camerapreview/view/CameraPreviewView.kt:249-268 | No contract: the SDK calls that open and start the one default legacy camera, reduced to the event `LegacySingleCamera`. |
| `CameraPreviewView.OpenLegacy` | CameraPreview/src/main/java/com/quicknew/camerapreview/view/CameraPreviewView.kt:235-243 | Opens the single legacy camera whatever the camera count. |
| `CameraPreviewView.OpenDecision` | CameraPreview/src/main/java/com/quicknew/camerapreview/view/CameraPreviewView.kt:274-290 | Camera2 is opened iff the version is CAMERA2, or AUTO with every camera Camera2-capable. Legacy is opened iff the version is LEGACY, or AUTO with some camera not capable. Nothing is opened iff the version is outside 0..2. |
| `CameraPreviewView.CameraPreviewView.OpenCamera` | CameraPreview/src/main/java/com/quicknew/camerapreview/view/CameraPreviewView.kt:274-290 | Returns the backend `OpenDecision` chooses for the view's `cameraVersion`. Appends exactly that one call to the history of openCamera calls. |
| `CameraPreviewView.PreviewDecision` | CameraPreview/src/main/java/com/quicknew/camerapreview/view/CameraPreviewView.kt:147-161 | NotInitialised iff not initialised, whatever the other flags. NoCamera iff initialised with no camera enabled. TextureViewMissing iff both checks pass but the view never inflated its texture view. openCamera is called iff all checks pass and the surface is available; the outcome is then `Started` with `OpenDecision`'s result, which is `NothingOpened` for a version outside 0..2. The listener is registered iff they pass and the surface is not available. |
| `CameraPreviewView.CameraPreviewView.StartPreview` | CameraPreview/src/main/java/com/quicknew/camerapreview/view/CameraPreviewView.kt:147-161 | Outcome is `PreviewDecision` of the management flags, the surface and the version. Registers the listener only when deferring. Makes one openCamera call when it starts the preview, otherwise none. |
| `CameraPreviewView.CameraPreviewView.OnSurfaceTextureAvailable` | CameraPreview/src/main/java/com/quicknew/camerapreview/view/CameraPreviewView.kt:91-95 | When the listener is registered, the surface becoming available makes exactly one openCamera call. When it is not registered, no call is made. |
| `CameraPreviewView.CameraPreviewView.constructor` | CameraPreview/src/main/java/com/quicknew/camerapreview/view/CameraPreviewView.kt:124-136 | Inflates, and takes `cameraVersion` from the attributes, only when management is initialised with a camera enabled. Otherwise the version stays AUTO. No listener is registered and no camera has been opened. |
| `CameraManagement.FirstInit` | CameraPreview/src/main/java/com/quicknew/camerapreview/CameraManagement.kt:52-66 | After a first init whose service calls succeed: `isInit` is true, the id list is recorded, and `cameraNumbers` is its length. `cameraEnable` (false before) is true iff the list is non-empty. Init reports Ready or NoCameraDetected to match. |
| `CameraManagement.ServiceFailureIsPermanent` | CameraPreview/src/main/java/com/quicknew/camerapreview/CameraManagement.kt:53-60 | When getting the camera service or its id list throws on the first init, `isInit` stays set, cameras stay disabled and no ids are recorded. Every later init then takes the already-initialised return. |
| `CameraManagement.InitIdempotent` | CameraPreview/src/main/java/com/quicknew/camerapreview/CameraManagement.kt:53-57 | A second init, with any ids or a failing service, changes no field and takes the already-initialised return. This holds even when the first init found no camera or failed. |
| `CameraManagement.InitKeepsConsistent` | CameraPreview/src/main/java/com/quicknew/camerapreview/CameraManagement.kt:52-66 | Init preserves the invariant: `cameraNumbers` is the list's length, the list is empty before init, and `cameraEnable` holds iff initialised with at least one id. |
| `CameraManagement.CameraManagement.constructor` | CameraPreview/src/main/java/com/quicknew/camerapreview/CameraManagement.kt:13-33 | Starts uninitialised: no ids, zero cameras, not enabled. |
| `CameraManagement.CameraManagement.Init` | CameraPreview/src/main/java/com/quicknew/camerapreview/CameraManagement.kt:52-67 | The new fields and the outcome are exactly `InitStep` of the old fields and the ids. The invariant is kept. |
| `CameraManagement.CameraManagement.EnableDebug` | CameraPreview/src/main/java/com/quicknew/camerapreview/CameraManagement.kt:45-47 | Sets `debugEnabled` to the argument. Every other global and every management field is unchanged. |
| `CameraTextureView.RadiusIsHalfSmallerExtent` | CameraPreview/src/main/java/com/quicknew/camerapreview/view/CameraTextureView.kt:27-32 | The radius is half, truncated, of the smaller of the horizontal and vertical face-region extents. On a tie it is half the horizontal extent. |
| `CameraTextureView.OvalIsCentredSquare` | CameraPreview/src/main/java/com/quicknew/camerapreview/view/CameraTextureView.kt:24-38 | The centre is (width / 2, height / 2) by integer division. For every `Int` input, the oval is a square of side 2·radius centred on that point; a wrapped extent changes the radius, not the shape. |
| `CameraTextureView.CameraTextureView.GetOutline` | CameraPreview/src/main/java/com/quicknew/camerapreview/view/CameraTextureView.kt:22-40 | With circular preview off, nothing changes. With it on: `roundX`, `roundY` and `radius` take the computed circle, the outline's oval is set, clipping is switched on, and no other global changes. |
| `CommonUtils.Half` | CameraPreview/src/main/java/com/quicknew/camerapreview/view/CameraTextureView.kt:24-32 | Kotlin `x / 2`, truncated toward zero: twice the result is within 1 of `x`, on the side of zero. |
| `CommonUtils.Globals.constructor` | CameraPreview/src/main/java/com/quicknew/camerapreview/utils/CommonUtils.kt:9-59 | All globals start at their declared defaults: false, or 0. |
| `CommonUtils.Split` | CameraPreview/src/main/java/com/quicknew/camerapreview/utils/CommonUtils.kt:77-80 | `split` yields at least one piece, and no piece contains the delimiter. |
| `CommonUtils.JoinSplit` | CameraPreview/src/main/java/com/quicknew/camerapreview/utils/CommonUtils.kt:77-80 | Joining the pieces with the delimiter restores the string. |
| `CommonUtils.SplitJoin` | CameraPreview/src/main/java/com/quicknew/camerapreview/utils/CommonUtils.kt:77-80 | Splitting a join of delimiter-free pieces gives back the pieces. |
| `CommonUtils.SplitCount` | CameraPreview/src/main/java/com/quicknew/camerapreview/utils/CommonUtils.kt:79-85 | A string splits into two or more pieces iff it contains the delimiter. |
| `CommonUtils.LastDotPiece` | CameraPreview/src/main/java/com/quicknew/camerapreview/utils/CommonUtils.kt:77-78 | The last `.`-piece contains no '.'. It is the whole name when the name has no '.', and otherwise the text after the last '.'. |
| `CommonUtils.DollarPieceHasTwoParts` | CameraPreview/src/main/java/com/quicknew/camerapreview/utils/CommonUtils.kt:79-85 | A piece containing '$' splits into at least two parts, so the `size < 2` branch is unreachable. |
| `CommonUtils.FallbackTagHasNoSeparators` | CameraPreview/src/main/java/com/quicknew/camerapreview/utils/CommonUtils.kt:77-89 | The fallback tag contains neither '.' nor '$'. |
| `CommonUtils.FallbackTagOfInnerClass` | CameraPreview/src/main/java/com/quicknew/camerapreview/utils/CommonUtils.kt:77-89 | For `pkg.Outer$Inner` the fallback tag is `Outer`. |
| `CommonUtils.SimpleNameIsTag` | CameraPreview/src/main/java/com/quicknew/camerapreview/utils/CommonUtils.kt:68-69 | A non-empty simple name is used unchanged as the tag. |
| `CameraPreviewView.CameraVersion.Value` | CameraPreview/src/main/java/com/quicknew/camerapreview/view/CameraPreviewView.kt:42-57 | No contract: the enum's `value`, 0 for AUTO, 1 for LEGACY, 2 for CAMERA2. `GetCameraVersion`'s contract is stated in terms of it. |
| `CameraPreviewView.CameraVersion.Name` | CameraPreview/src/main/java/com/quicknew/camerapreview/view/CameraPreviewView.kt:42-57 | No contract: the enum constant's name, "AUTO", "LEGACY" or "CAMERA2". `GetCameraVersion`'s contract is stated in terms of it. |
| `CameraManagement.InitStep` | CameraPreview/src/main/java/com/quicknew/camerapreview/CameraManagement.kt:52-67 | No contract: the reference definition of init on the field values. `FirstInit`, `ServiceFailureIsPermanent`, `InitIdempotent` and `InitKeepsConsistent` state its properties, and `Init` is proved against it. |
| `CameraTextureView.Radius` | CameraPreview/src/main/java/com/quicknew/camerapreview/view/CameraTextureView.kt:27-32 | No contract: the radius expression with Kotlin `Int` subtraction and division. `RadiusIsHalfSmallerExtent` states its meaning. |
| `CameraTextureView.CircleFor` | CameraPreview/src/main/java/com/quicknew/camerapreview/view/CameraTextureView.kt:24-38 | No contract: the centre, radius and oval bounds getOutline computes. `OvalIsCentredSquare` states their geometry, and `GetOutline` is proved against it. |
| `CommonUtils.Wrap32` | CameraPreview/src/main/java/com/quicknew/camerapreview/view/CameraTextureView.kt:24-38 | Kotlin `Int` overflow: the result is the exact value when it fits in 32 bits, and is always congruent to it modulo 2^32. |
| `CommonUtils.Add32` | CameraPreview/src/main/java/com/quicknew/camerapreview/view/CameraTextureView.kt:36-37 | Kotlin `Int` `+`: exact when the sum fits in 32 bits, and congruent to it modulo 2^32. |
| `CommonUtils.Sub32` | CameraPreview/src/main/java/com/quicknew/camerapreview/view/CameraTextureView.kt:28-35 | Kotlin `Int` `-`: exact when the difference fits in 32 bits, and congruent to it modulo 2^32. |
| `CommonUtils.FallbackTag` | CameraPreview/src/main/java/com/quicknew/camerapreview/utils/CommonUtils.kt:77-88 | No contract: the pre-O fallback on `javaClass.name`. `LastDotPiece`, `DollarPieceHasTwoParts`, `FallbackTagHasNoSeparators` and `FallbackTagOfInnerClass` state its properties. |
| `CommonUtils.TagFor` | CameraPreview/src/main/java/com/quicknew/camerapreview/utils/CommonUtils.kt:68-89 | No contract: the reference definition of the log tag. `SimpleNameIsTag` and the fallback lemmas state its properties, and `WarnOut` and `ErrorOut` are both proved against it. |
| `CommonUtils.WarnOut` | CameraPreview/src/main/java/com/quicknew/camerapreview/utils/CommonUtils.kt:64-93 | With debugging off, nothing is logged. With it on, exactly one warning is logged, under `TagFor` of the class information and the SDK level. |
| `CommonUtils.ErrorOut` | CameraPreview/src/main/java/com/quicknew/camerapreview/utils/CommonUtils.kt:98-127 | Same gate, and the same tag `TagFor` as warnOut for every input, logged at error priority. |

## Left out

- `openLegacySingleCamera` (CameraPreviewView.kt:249-268): its `Camera.open`, preview-size and orientation settings, `textureView.surfaceTexture?.setDefaultBufferSize`, `setPreviewTexture`, preview callback and `startPreview` are SDK calls. The model reduces them to the event "legacy single camera opened".
- `openCamera2` (CameraPreviewView.kt:228-230) has an empty body. Choosing it is recorded as `Camera2Device`, and nothing more happens.
- View inflation and styled-attribute parsing (CameraPreviewView.kt:124-136, 172-184) are not modelled. Their only effects appear as inputs: whether the texture view exists, and the `cameraVersion` integer handed to the constructor.
- The log line that reports `getCameraVersion`'s result during attribute parsing is not modelled; `GetCameraVersion` itself is.
- Messages logged through `warnOut` are not modelled as log lines. This covers those of `init`, `startPreview`, `openCamera`, the constructor's two warnings (no camera, management not initialised) `openLegacy`'s several-cameras warning, and the warning `openLegacySingleCamera` logs for each supported preview size. The outcome datatypes record which early return was taken.
- `Log.w`/`Log.e` are represented by the returned `LogLine`.
- The reflection calls are inputs, in `ClassInfo`: `simpleName`, `declaredClasses`, `typeName` and `name`.
- `Build.VERSION.SDK_INT` is an input compared with `SDK_O` = 26.
- The `CameraManager` handle is not modelled. The hardware level of each camera is passed in as a sequence parallel to the id list, instead of read through `getCameraCharacteristics`.
- CameraPreviewView.IsCamera2Need: takes every `getCameraCharacteristics` call to succeed; an exception thrown there (for example a `CameraAccessException`) is not modelled.
- The real integer values of the Android hardware-level constants are not modelled, because only their identity matters.
- The surface listener's `onSurfaceTextureSizeChanged` and `onSurfaceTextureUpdated` callbacks are not modelled, because their bodies are empty.
- `onSurfaceTextureDestroyed` is not modelled. It returns `true`, which tells the TextureView to release its SurfaceTexture; that release is platform behaviour.
- The legacy preview-frame callback is not modelled, because it only logs.
- `MainActivity.kt` and `App.kt` are host glue. `MainActivity` calls `setFrameListener`, `stopPreview` and `isCoordinatesOutScreen`, which this version of the view does not define.
- `FrameListener.kt` is not modelled, because it is an interface with no behaviour.
- `StaticVariables.kt` is not modelled, because it holds only the default rotation and the 640x480 preview size used by the SDK calls above.
- Threads and callbacks posted by the platform are not modelled; every operation is taken to run to completion on its own.
