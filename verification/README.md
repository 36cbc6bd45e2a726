# Object detection camera app: a Dafny model of its logic

The app shows the camera feed and names the object in view, using a ResNet-50
image classifier. This project models and proves the logic behind that
screen:

- **`ObjectResults`** (`object_result.dfy`) covers `ObjectResult`:
  - the failable initialiser, which accepts a prediction only when its top
    label's probability is at least 0.3;
  - `cleanLabel`, which turns a raw ResNet label such as
    `n02123045 tabby, tabby cat` into `Tabby`. It cuts at the first comma,
    removes a leading technical identifier `^n\d+\s+`, then capitalises.
- **`Detector`** (`object_detector.dfy`) covers `ObjectDetector`:
  - the model's one-time setup state machine;
  - the probability map folded from a frame's observations;
  - the sticky current result, which is replaced by a new result and never
    cleared.
- **`Camera`** (`camera_manager.dfy`) covers `CameraManager`:
  - the permission check, and how it maps onto setup status and error;
  - input selection;
  - configuration of the capture session and its video output;
  - start and stop through `loading`;
  - switching between the front and back cameras.
- **`CameraViews`** (`camera_view.dfy`) covers `CameraView`:
  - the single status shown, derived by an order-sensitive match on three
    states;
  - whether the status badge is hidden;
  - the launch sequence run when the screen appears.
- **`Wrappers`** (`wrappers.dfy`) holds `Option`.

Both managers are classes whose methods update their fields in place.
Observable values that pass by in the middle of an operation, such as
`loading` before `success`, are recorded in ghost logs (`statusLog`,
`setupLog`, `runLog`, `errorLog`). That way a contract can state the whole
sequence an observer sees.

The platform's answers are parameters of the model:

- the camera authorization status and the user's answer to the prompt;
- which cameras open;
- whether the session accepts the output;
- where the model asset is found and whether it loads;
- what a frame's classification produced.

A few behaviours of the code differ from what a reader of the screen would
naturally assume. The model follows the code as written:

- **Restricted access.** One might expect restricted camera access always to
  show `failed`. It becomes `failed` only as the last rule of the status match. Rules such as "detector not started" and
  "anything loading" take precedence (`RestrictedIsLastFallback`).
- **The reported label.** The code reports the first observation's
  identifier. That is the most probable label only if the framework lists
  observations by decreasing confidence. The model does not assume that
  ordering. If an identifier were repeated, which a classifier's label set
  does not produce, its probability in the map would be that of its last
  observation (`LastOccurrenceDecides`, `LaterObservationOverwrites`).
- **Front camera alone.** When only the front camera opens, `currentCamera`
  stays unset, so its output is not mirrored.
- **Switching cameras.** `switchCamera` opens no configuration bracket and
  does not update mirroring.
- **Published errors.** A refused output publishes `cannotAddOutput`, and
  `setupCamera` then overwrites it with `cameraUnavailable`. The error log
  records both.

## Model

| member | source | states |
|---|---|---|
| ObjectResults.FromOutput | ObjectDetection/Models/ObjectResult.swift:22-32 | No result exactly when the label has no probability or its probability is below 0.3. Otherwise the result keeps the prediction unchanged, takes the label's probability as its confidence, and takes the cleaned label as its label. |
| ObjectResults.ThresholdBoundary | ObjectDetection/Models/ObjectResult.swift:23-25 | A probability of 0.29 is refused, exactly 0.3 is accepted, and a label missing from the map is refused. |
| ObjectResults.AcceptedResultIsDisplayable | ObjectDetection/Models/ObjectResult.swift:22-53 | Every accepted result has confidence at least 0.3 and a label without commas whose first character is not a lower-case letter and whose other characters are not upper-case letters. |
| ObjectResults.FirstComponent | ObjectDetection/Models/ObjectResult.swift:43-44 | The text before the first comma is a comma-free prefix of the label, ending at the label's end or at a comma. |
| ObjectResults.FirstComponentOfCommaFree | ObjectDetection/Models/ObjectResult.swift:43-44 | A label without commas is its own first component. |
| ObjectResults.TechIdLength | ObjectDetection/Models/ObjectResult.swift:46-50 | The length of the prefix the regex replace removes. It is never longer than the label, and a non-empty prefix starts with `n`. |
| ObjectResults.TechIdLengthIsLongestMatch | ObjectDetection/Models/ObjectResult.swift:46-50 | The prefix removed is the greedy match of `^n\d+\s+`. Nothing is removed when no prefix matches; otherwise the longest matching prefix is removed. |
| ObjectResults.TechIdSplitForced | ObjectDetection/Models/ObjectResult.swift:46-50 | In any match of the pattern, the digit run is the longest one available and the whitespace run is no longer than the longest one available. |
| ObjectResults.CapitalizeFirst | ObjectDetection/Models/ObjectResult.swift:52 | The result has its first character upper-cased and every other letter lower-cased, and it equals the input up to the case of letters. |
| ObjectResults.CleanLabel | ObjectDetection/Models/ObjectResult.swift:41-53 | The cleaned label has no comma, is no longer than the raw label, and is capitalised: its first character is not a lower-case letter and no later character is an upper-case letter. Up to case, it equals the first component with the technical identifier removed. The empty label cleans to the empty label. |
| ObjectResults.CleanLabelWithoutTechId | ObjectDetection/Models/ObjectResult.swift:46-52 | When the first component has no technical identifier, every character is kept and only the case of letters changes. |
| ObjectResults.CleanLabelIdempotent | ObjectDetection/Models/ObjectResult.swift:41-53 | Cleaning a cleaned label changes nothing. |
| ObjectResults.LowercasedWithoutCapitals | ObjectDetection/Models/ObjectResult.swift:52 | Lowercasing leaves a string without capital letters unchanged. |
| ObjectResults.CleanLabelTabby | ObjectDetection/Models/ObjectResult.swift:40-53 | `n02123045 tabby, tabby cat` cleans to `Tabby`. |
| ObjectResults.CleanLabelSportsCar | ObjectDetection/Models/ObjectResult.swift:41-53 | `n04285008 sports car` cleans to `Sports car`. |
| ObjectResults.CleanLabelAirliner | ObjectDetection/Models/ObjectResult.swift:41-53 | `airliner` cleans to `Airliner`. |
| Detector.ChosenUrl | ObjectDetection/Managers/ObjectDetector.swift:70-77 | A URL is chosen exactly when the bundle or the generated class provides one. The bundle's URL wins when present, and the choice is always one of the two. |
| Detector.Identifiers | ObjectDetection/Managers/ObjectDetector.swift:118-120 | Every observation's identifier is among the map's keys. |
| Detector.IdentifiersOccur | ObjectDetection/Managers/ObjectDetector.swift:118-120 | Every key comes from some observation. |
| Detector.Distribution | ObjectDetection/Managers/ObjectDetector.swift:118-120 | The folded map has exactly one key per distinct identifier. |
| Detector.LastOccurrenceDecides | ObjectDetection/Managers/ObjectDetector.swift:118-120 | Each identifier's probability is the confidence of its last observation, so later observations overwrite earlier ones. |
| Detector.DropLastObservation | ObjectDetection/Managers/ObjectDetector.swift:118-120 | A last occurrence that is not the final observation stays a last occurrence when the final observation is removed, and its identifier differs from the final one. |
| Detector.TopConfidenceWhenUnique | ObjectDetection/Managers/ObjectDetector.swift:114-124 | When the top identifier is not repeated, the threshold is applied to its own confidence. |
| Detector.LaterObservationOverwrites | ObjectDetection/Managers/ObjectDetector.swift:118-120 | For any non-empty list, some observation is the last occurrence of the top identifier, and the top label's probability in the map is that observation's confidence. |
| Detector.Retained | ObjectDetection/Managers/ObjectDetector.swift:53-55 | A displayed result is never cleared, and a produced result replaces it. The outcome is always the produced result or the previous one. |
| Detector.StickyResult | ObjectDetection/Managers/ObjectDetector.swift:50-58 | Over any run of frames, the displayed result is never cleared. Frames without a result leave it unchanged. Otherwise it is the most recent result produced. |
| Detector.Classify | ObjectDetection/Managers/ObjectDetector.swift:114-127 | No result without observations. A result exactly when the first observation's identifier reaches 0.3 in the folded map. The result's label is that first identifier, its map is the folded map, and it is exactly what the initialiser accepts. |
| Detector.ObjectDetector.constructor | ObjectDetection/Managers/ObjectDetector.swift:18-21 | The detector starts not started, with no model and no result. |
| Detector.ObjectDetector.Setup | ObjectDetection/Managers/ObjectDetector.swift:67-101 | `setup()` only forwards to `setupModels()`. As `SetupOutcome` states, a detector already started keeps every field: status, log, model and result. Without an asset URL, it publishes only `failed` and loads no model. Otherwise it publishes `loading`, then either `success` with the model loaded from the chosen URL (the bundle's first), or `failed` with the model unchanged. The current result is never touched. |
| Detector.ObjectDetector.OnImageReceived | ObjectDetection/Managers/ObjectDetector.swift:50-58 | Together with the readiness guards of `getObjectResult` (lines 104-105): when the detector is not ready or the frame failed, the displayed result stays. Otherwise a produced result replaces the displayed one and no result keeps it. The displayed result is always one the initialiser accepts. |
| Camera.PermissionOutcome | ObjectDetection/Camera/CameraManager.swift:112-136 | Access is granted exactly when authorised, or when undetermined and the user grants it. Denied, or refused at the prompt, gives `accessDenied` with `deniedAuthorization`. Restricted gives `accessRestricted` with `restrictedAuthorization`. An unknown status gives `failed` with `unknownAuthorization`. |
| Camera.CameraManager.CheckAndRequestPermissions | ObjectDetection/Camera/CameraManager.swift:112-136 | It returns whether access is granted. On refusal it publishes the refusal's status and error; on grant it publishes nothing. |
| Camera.CameraManager.constructor | ObjectDetection/Camera/CameraManager.swift:17-26 | The manager starts not started and stopped, with no camera, no input, no output and no error. |
| Camera.CameraManager.SetupCamera | ObjectDetection/Camera/CameraManager.swift:44-62 | As `SetupCameraOutcome` states, setup already started keeps every setup field: status, logs, error, cameras, inputs, output and output settings. Otherwise it publishes `loading` first. A refused permission publishes its status and error, appends the error to the error log, opens no camera, leaves no input in the session, adds no output, and keeps the output settings. A granted one ends as `CaptureSetupFinished` describes. Unless setup succeeds, the output settings are kept. Run state is never touched. |
| Camera.CameraManager.FinishSetup | ObjectDetection/Camera/CameraManager.swift:55-61 | After permission: the selected inputs. With no camera, `failed` and `cameraUnavailable`. With a camera but no room for the output, `failed`, with `cameraUnavailable` published right after `cannotAddOutput`. Otherwise `success`, with the output added, late frames discarded, portrait orientation, and mirroring exactly when the current camera is the front one. The output settings are kept unless setup succeeds. |
| Camera.CameraManager.SetupCapture | ObjectDetection/Camera/CameraManager.swift:157-183 | The configuration bracket is closed on every path, and inputs and output are only changed inside it. The result is true exactly when a camera opened and the output was accepted. A refused output publishes `cannotAddOutput` and adds no output. Unless the result is true, the output settings are kept. |
| Camera.CameraManager.AddVideoOutput | ObjectDetection/Camera/CameraManager.swift:166-182 | Called inside the configuration bracket. The output is added exactly when the session accepts it, with late frames discarded, portrait orientation, and mirroring only for the front camera. A refusal publishes `cannotAddOutput` and leaves the output settings as they were. |
| Camera.CameraManager.SetupInputs | ObjectDetection/Camera/CameraManager.swift:185-225 | Called inside the configuration bracket. With both cameras open, only the back input is added and the back camera becomes current. With one camera, only its input is added and the current camera stays unset. With none, nothing is added and the result is false. |
| Camera.CameraManager.StartCapture | ObjectDetection/Camera/CameraManager.swift:64-74 | Only from a successful setup while stopped, it publishes `loading` then `running`, and the session runs. Otherwise nothing changes. |
| Camera.CameraManager.StopCapture | ObjectDetection/Camera/CameraManager.swift:76-86 | Only from a successful setup while running, it publishes `loading` then `stopped`, and the session stops. Otherwise nothing changes. |
| Camera.CameraManager.SwitchCamera | ObjectDetection/Camera/CameraManager.swift:88-105 | Nothing happens unless both cameras opened and one is current. From front, the front input is swapped for the back one and back becomes current; from back, the reverse. The session never holds both inputs. |
| CameraViews.ComposeStatus | ObjectDetection/Views/CameraView/CameraView+Publics.swift:48-73 | Each of the six statuses is characterised exactly. `accessDenied` iff the camera is denied. `failed` iff not denied and the camera or detector failed, or the camera is restricted with the detector ready and run not loading. `loading` iff nothing denied or failed and something is loading. `stopped` and `running` iff both setups succeeded and capture is in that state. `notStarted` in the remaining cases where a setup has not started. |
| CameraViews.DeniedBeatsFailed | ObjectDetection/Views/CameraView/CameraView+Publics.swift:52-56 | Denied camera access wins over a failed detector. |
| CameraViews.RestrictedIsLastFallback | ObjectDetection/Views/CameraView/CameraView+Publics.swift:58-71 | Restricted camera access shows `notStarted` when the detector has not started and `loading` when it is loading. It shows `failed` only when the detector is ready. |
| CameraViews.IsBadgeHidden | ObjectDetection/Views/CameraView/CameraView+Publics.swift:22-24 | The badge is shown exactly for `accessDenied`, `loading` and `failed`. |
| CameraViews.BadgeShownWhen | ObjectDetection/Views/CameraView/CameraView+Publics.swift:22-24 | The badge shows exactly when access is denied, something failed or is loading, or the camera is restricted with the detector ready. |
| CameraViews.AfterCameraSetup | ObjectDetection/Views/CameraView/CameraView+Publics.swift:31-35 | Once the camera is set up, the camera's setup is untouched. The detector ends as `SetupOutcome` states for the given assets. One already started keeps every field, its model included. One not started and given a loadable asset holds the model loaded from the chosen URL, the bundle's first. Its current result is kept either way. Capture starts only when the detector succeeded. From stopped, it publishes `loading` then `running` and the shown status is `running`. A running capture keeps running. |
| CameraViews.OnAppear | ObjectDetection/Views/CameraView/CameraView+Publics.swift:28-36 | The camera is always set up first and ends as `SetupCameraOutcome` states. Setup already started keeps every camera setup field. On first launch, a refused permission publishes `loading` then the refusal's status and error, logs the error, and leaves no camera, input or output. A granted one ends as `CaptureSetupFinished` describes. Unless camera setup succeeded, the detector keeps every field and capture does not start. After success, the detector ends as `SetupOutcome` states: an already-started detector keeps its model, and a first successful load holds the model from the chosen URL. Capture behaves as `AfterCameraSetup` states. The detector's current result is never cleared, and a running capture keeps running. A denied permission on first launch shows `accessDenied`. |

## Left out

- **Concurrency.** Detached background work, `async let` and the main-actor
  hops are left out. Each awaited step is one atomic step, and the two managers are
  driven one call at a time.
- **Foreign frameworks.** AVFoundation, Vision and Core ML are not modelled.
  Their answers are parameters:
  - device lookup and input creation become `frontOpens` and `backOpens`;
  - `canAddOutput` is whether the session accepts the output;
  - `requestAccess` becomes `userGrants`;
  - the model asset lookup and loading become `ModelAssets`;
  - the request handler's outcome becomes an optional list of observations.
- **Errors from classification.** The errors that `try?` discards (creating
  the Vision model, performing the request, results of another kind) are one
  case, `None`, because the code treats them alike.
- **Generated model class.** `Resnet50` and its `urlOfModelInThisBundle` come
  from code generated from the model file, which is not part of this model.
  The model takes the generated URL as optional, as the code's
  `var modelURL: URL?` does. If the generated property is non-optional, the
  code's path that fails without loading (`ObjectDetector.swift:79-83`) cannot
  be reached, and a missing asset fails inside the generated code instead.
- **Error type.** The declaration of `CameraError` is not part of this model.
  Its cases are the ones the manager assigns, plus `cannotAddInput`. The
  manager never assigns that one; only the error view's preview names it.
- **Video connection.** `AddVideoOutput` sets orientation and mirroring as if
  the output always has a video connection once added. The connection's
  absence is not modelled.
- **Session settings.** The session preset (`.high`) and the preview layer
  are not modelled.
- **Text handling.**
  - Upper- and lower-casing are ASCII-only; other characters are unchanged.
  - `\d` matches the ASCII digits.
  - `\s` matches tab, line feed, form feed, carriage return and the Unicode
    space separators.
  - Labels are sequences of characters, not grapheme clusters.
  - The model's label set is ASCII, so these choices do not affect it.
- **Confidence values.** They are exact reals. The source's `Float`-to-`Double`
  conversion changes nothing that is compared.
- **Diagnostics and dead code.** The `print` diagnostics and the commented-out
  code (`start`, the old `setupCapture`) are not modelled.
- **Other files.** The frame manager, the capture view and its delegate, the
  content view model and the purely visual views are outside this model.
