/**
 * `CameraManager`: asks for camera permission, opens the front and back
 * cameras, configures the capture session and its video output, starts and
 * stops capture, and switches between the two cameras.
 *
 * The platform's answers (the authorization status, the user's reply to the
 * prompt, which cameras open, whether the output can be added) are the
 * `Platform` record. The capture session is represented by the fields it
 * holds: its inputs, whether the video output was added, how the output's
 * connection was configured, and whether it is running.
 */
module Camera {
  import opened Wrappers

  /** `CameraManager.SetupStatus`. */
  datatype SetupStatus = NotStarted | Loading | Success | Failed | AccessDenied | AccessRestricted

  /** `CameraManager.RunStatus`. */
  datatype RunStatus = Stopped | Loading | Running

  /** A camera's position on the device. */
  datatype Position = Front | Back

  /** The errors the manager publishes. */
  datatype CameraError =
    | CameraUnavailable | CannotAddInput | CannotAddOutput
    | DeniedAuthorization | RestrictedAuthorization | UnknownAuthorization

  /** The platform's video authorization status; `Unknown` stands for any case added later. */
  datatype Authorization = Authorized | NotDetermined | Restricted | Denied | Unknown

  /** An opened camera, as added to the capture session. */
  datatype DeviceInput = DeviceInput(position: Position)

  /**
   * The platform's answers during setup: the authorization status, what the
   * user answers if asked, which cameras open, and whether the session
   * accepts the video output.
   */
  datatype Platform = Platform(
    authorization: Authorization,
    userGrants: bool,
    frontOpens: bool,
    backOpens: bool,
    canAddOutput: bool)

  /** The part of a camera manager's state that setup may change. */
  datatype CaptureSetup = CaptureSetup(
    setupStatus: SetupStatus,
    setupLog: seq<SetupStatus>,
    error: Option<CameraError>,
    errorLog: seq<CameraError>,
    frontCamera: Option<DeviceInput>,
    backCamera: Option<DeviceInput>,
    currentCamera: Option<Position>,
    sessionInputs: set<DeviceInput>,
    outputAdded: bool,
    discardsLateFrames: bool,
    portraitOrientation: bool,
    mirrored: bool)

  /** What the permission check decides: go on, or stop with a status and an error. */
  datatype Permission = Granted | Refused(status: SetupStatus, error: CameraError)

  /** The permission check's outcome for an authorization status and the user's answer. */
  function PermissionOutcome(authorization: Authorization, userGrants: bool): (p: Permission)
    ensures p.Granted? <==> authorization == Authorized || (authorization == NotDetermined && userGrants)
    ensures p.Refused? ==> p.status != SetupStatus.NotStarted && p.status != SetupStatus.Loading
                           && p.status != SetupStatus.Success
    ensures p == Refused(AccessDenied, DeniedAuthorization) <==>
              authorization == Denied || (authorization == NotDetermined && !userGrants)
    ensures p == Refused(AccessRestricted, RestrictedAuthorization) <==> authorization == Restricted
    ensures p == Refused(SetupStatus.Failed, UnknownAuthorization) <==> authorization == Unknown
  {
    match authorization
    case Authorized => Granted
    case NotDetermined => if userGrants then Granted else Refused(AccessDenied, DeniedAuthorization)
    case Restricted => Refused(AccessRestricted, RestrictedAuthorization)
    case Denied => Refused(AccessDenied, DeniedAuthorization)
    case Unknown => Refused(SetupStatus.Failed, UnknownAuthorization)
  }

  class CameraManager {
    var setupStatus: SetupStatus
    var runStatus: RunStatus
    var currentCamera: Option<Position>
    var error: Option<CameraError>
    var frontCamera: Option<DeviceInput>
    var backCamera: Option<DeviceInput>

    // The capture session and its video output.
    var sessionInputs: set<DeviceInput>
    var outputAdded: bool
    var discardsLateFrames: bool
    var portraitOrientation: bool
    var mirrored: bool
    var sessionRunning: bool
    /** Between `beginConfiguration` and `commitConfiguration`. */
    var configuring: bool

    /**
     * Every value given to `setupStatus`, `runStatus` and `error`, in order:
     * what an observer of the published properties sees, step by step.
     */
    ghost var setupLog: seq<SetupStatus>
    ghost var runLog: seq<RunStatus>
    ghost var errorLog: seq<CameraError>

    /** The invariant that holds at every step, also inside a configuration bracket. */
    ghost predicate Coherent()
      reads this
    {
      && InputsCoherent()
      && (setupStatus == SetupStatus.NotStarted ==>
            sessionInputs == {} && !outputAdded && currentCamera.None?
            && frontCamera.None? && backCamera.None? && error.None?)
      && (setupStatus == SetupStatus.Success ==>
            sessionInputs != {} && outputAdded && discardsLateFrames && portraitOrientation)
      && (runStatus == Running ==> setupStatus == SetupStatus.Success)
      && (sessionRunning <==> runStatus == Running)
    }

    /**
     * The session holds at most one camera, only one that opened, and the
     * current camera's alone when one is current.
     */
    ghost predicate InputsCoherent()
      reads this`frontCamera, this`backCamera, this`sessionInputs, this`currentCamera
    {
      && (frontCamera.Some? ==> frontCamera.value == DeviceInput(Front))
      && (backCamera.Some? ==> backCamera.value == DeviceInput(Back))
      && (DeviceInput(Front) in sessionInputs ==> frontCamera.Some?)
      && (DeviceInput(Back) in sessionInputs ==> backCamera.Some?)
      && !(DeviceInput(Front) in sessionInputs && DeviceInput(Back) in sessionInputs)
      && (currentCamera.Some? ==>
            frontCamera.Some? && backCamera.Some? && sessionInputs == {DeviceInput(currentCamera.value)})
    }

    /** The invariant between operations: no configuration bracket open, no start or stop under way. */
    ghost predicate Valid()
      reads this
    {
      Coherent() && !configuring && runStatus != RunStatus.Loading
    }

    /** The inputs `setupInputs` leaves behind, given which cameras opened. */
    ghost predicate SelectedInputs(frontOpens: bool, backOpens: bool)
      reads this`frontCamera, this`backCamera, this`currentCamera, this`sessionInputs
    {
      && frontCamera == (if frontOpens then Some(DeviceInput(Front)) else None)
      && backCamera == (if backOpens then Some(DeviceInput(Back)) else None)
      && currentCamera == (if frontOpens && backOpens then Some(Back) else None)
      && sessionInputs == (if backOpens then {DeviceInput(Back)}
                           else if frontOpens then {DeviceInput(Front)}
                           else {})
    }

    /**
     * How setup ends once permission is granted, from the logs and error it
     * started with: the selected inputs; with no camera, `failed` and
     * `cameraUnavailable`; with a camera but no room for the output, `failed`
     * and `cameraUnavailable` published right after `cannotAddOutput`;
     * otherwise `success`, the output configured and mirrored exactly when the
     * current camera is the front one.
     */
    ghost predicate CaptureSetupFinished(
      setupLog0: seq<SetupStatus>, error0: Option<CameraError>, errorLog0: seq<CameraError>,
      frontOpens: bool, backOpens: bool, canAddOutput: bool)
      reads this`frontCamera, this`backCamera, this`currentCamera, this`sessionInputs
      reads this`setupStatus, this`setupLog, this`error, this`errorLog
      reads this`outputAdded, this`discardsLateFrames, this`portraitOrientation, this`mirrored
    {
      && SelectedInputs(frontOpens, backOpens)
      && (!frontOpens && !backOpens ==>
            && setupStatus == SetupStatus.Failed && setupLog == setupLog0 + [SetupStatus.Failed]
            && error == Some(CameraUnavailable) && errorLog == errorLog0 + [CameraUnavailable]
            && !outputAdded)
      && ((frontOpens || backOpens) && !canAddOutput ==>
            && setupStatus == SetupStatus.Failed && setupLog == setupLog0 + [SetupStatus.Failed]
            && error == Some(CameraUnavailable)
            && errorLog == errorLog0 + [CannotAddOutput, CameraUnavailable]
            && !outputAdded)
      && ((frontOpens || backOpens) && canAddOutput ==>
            && setupStatus == SetupStatus.Success && setupLog == setupLog0 + [SetupStatus.Success]
            && error == error0 && errorLog == errorLog0
            && outputAdded && discardsLateFrames && portraitOrientation
            && mirrored == (currentCamera == Some(Front)))
    }

    constructor ()
      ensures Valid()
      ensures setupStatus == SetupStatus.NotStarted && runStatus == Stopped
      ensures currentCamera == None && error == None && frontCamera == None && backCamera == None
      ensures sessionInputs == {} && !outputAdded && !sessionRunning
      ensures setupLog == [SetupStatus.NotStarted] && runLog == [Stopped] && errorLog == []
    {
      setupStatus := SetupStatus.NotStarted;
      runStatus := Stopped;
      currentCamera := None;
      error := None;
      frontCamera := None;
      backCamera := None;
      sessionInputs := {};
      outputAdded := false;
      discardsLateFrames := false;
      portraitOrientation := false;
      mirrored := false;
      sessionRunning := false;
      configuring := false;
      setupLog := [SetupStatus.NotStarted];
      runLog := [Stopped];
      errorLog := [];
    }

    /** The fields `setupCamera()` may change, as one value. */
    ghost function SetupState(): CaptureSetup
      reads this`setupStatus, this`setupLog, this`error, this`errorLog
      reads this`frontCamera, this`backCamera, this`currentCamera, this`sessionInputs
      reads this`outputAdded, this`discardsLateFrames, this`portraitOrientation, this`mirrored
    {
      CaptureSetup(setupStatus, setupLog, error, errorLog, frontCamera, backCamera, currentCamera,
                   sessionInputs, outputAdded, discardsLateFrames, portraitOrientation, mirrored)
    }

    /**
     * What `setupCamera()` leaves behind, compared with the state `before` it
     * started from: from any state but `notStarted`, every setup field as it
     * was; a refused permission publishes `loading` then the refusal and opens
     * no camera; a granted one ends as `CaptureSetupFinished` describes; and
     * unless setup succeeds, the output settings are kept.
     */
    ghost predicate SetupCameraOutcome(before: CaptureSetup, platform: Platform)
      reads this`setupStatus, this`setupLog, this`error, this`errorLog
      reads this`frontCamera, this`backCamera, this`currentCamera, this`sessionInputs
      reads this`outputAdded, this`discardsLateFrames, this`portraitOrientation, this`mirrored
    {
      var p := PermissionOutcome(platform.authorization, platform.userGrants);
      && (before.setupStatus != SetupStatus.NotStarted ==> SetupState() == before)
      && (before.setupStatus == SetupStatus.NotStarted && p.Refused? ==>
            && setupStatus == p.status && setupLog == before.setupLog + [SetupStatus.Loading, p.status]
            && error == Some(p.error) && errorLog == before.errorLog + [p.error]
            && sessionInputs == {} && frontCamera.None? && backCamera.None? && currentCamera.None?
            && !outputAdded && discardsLateFrames == before.discardsLateFrames
            && portraitOrientation == before.portraitOrientation && mirrored == before.mirrored)
      && (before.setupStatus == SetupStatus.NotStarted && p.Granted? ==>
            CaptureSetupFinished(before.setupLog + [SetupStatus.Loading], before.error, before.errorLog,
                                 platform.frontOpens, platform.backOpens, platform.canAddOutput))
      && (setupStatus != SetupStatus.Success ==>
            && discardsLateFrames == before.discardsLateFrames
            && portraitOrientation == before.portraitOrientation && mirrored == before.mirrored)
    }

    /**
     * `setupCamera()`: only from `notStarted`; `loading` first, then the
     * permission check, then the capture setup. A refused permission ends with
     * the permission's status and error and opens no camera; a failed capture
     * setup ends in `failed` with `cameraUnavailable`, whatever error the
     * capture setup published.
     */
    method SetupCamera(platform: Platform)
      requires Valid()
      modifies this`setupStatus, this`setupLog, this`error, this`errorLog
      modifies this`configuring, this`frontCamera, this`backCamera, this`currentCamera, this`sessionInputs
      modifies this`outputAdded, this`discardsLateFrames, this`portraitOrientation, this`mirrored
      ensures Valid()
      ensures SetupCameraOutcome(old(SetupState()), platform)
    {
      if setupStatus != SetupStatus.NotStarted {
        return;
      }
      setupStatus := SetupStatus.Loading;
      setupLog := setupLog + [SetupStatus.Loading];

      var hasPermission := CheckAndRequestPermissions(platform.authorization, platform.userGrants);
      if !hasPermission {
        return;
      }

      FinishSetup(platform.frontOpens, platform.backOpens, platform.canAddOutput);
    }

    /**
     * The part of `setupCamera()` after permission is granted: capture setup,
     * then `success`, or `failed` with `cameraUnavailable`.
     */
    method FinishSetup(frontOpens: bool, backOpens: bool, canAddOutput: bool)
      requires Valid()
      requires setupStatus == SetupStatus.Loading && sessionInputs == {} && currentCamera.None? && !outputAdded
      modifies this`configuring, this`frontCamera, this`backCamera, this`currentCamera, this`sessionInputs
      modifies this`error, this`errorLog, this`outputAdded, this`discardsLateFrames
      modifies this`portraitOrientation, this`mirrored, this`setupStatus, this`setupLog
      ensures Valid()
      ensures CaptureSetupFinished(old(setupLog), old(error), old(errorLog), frontOpens, backOpens, canAddOutput)
      ensures setupStatus != SetupStatus.Success ==>
                && discardsLateFrames == old(discardsLateFrames)
                && portraitOrientation == old(portraitOrientation) && mirrored == old(mirrored)
    {
      var captureReady := SetupCapture(frontOpens, backOpens, canAddOutput);
      if !captureReady {
        setupStatus := SetupStatus.Failed;
        setupLog := setupLog + [SetupStatus.Failed];
        error := Some(CameraUnavailable);
        errorLog := errorLog + [CameraUnavailable];
        return;
      }
      setupStatus := SetupStatus.Success;
      setupLog := setupLog + [SetupStatus.Success];
    }

    /** `startCapture()`: only from a successful setup while stopped; through `loading` to `running`. */
    method StartCapture()
      requires Valid()
      modifies this`runStatus, this`runLog, this`sessionRunning
      ensures Valid()
      ensures old(setupStatus == SetupStatus.Success && runStatus == Stopped) ==>
                runStatus == Running && sessionRunning && runLog == old(runLog) + [RunStatus.Loading, Running]
      ensures !old(setupStatus == SetupStatus.Success && runStatus == Stopped) ==>
                runStatus == old(runStatus) && runLog == old(runLog) && sessionRunning == old(sessionRunning)
    {
      if setupStatus != SetupStatus.Success || runStatus != Stopped {
        return;
      }
      runStatus := RunStatus.Loading;
      runLog := runLog + [RunStatus.Loading];
      sessionRunning := true;
      runStatus := Running;
      runLog := runLog + [Running];
    }

    /** `stopCapture()`: only from a successful setup while running; through `loading` to `stopped`. */
    method StopCapture()
      requires Valid()
      modifies this`runStatus, this`runLog, this`sessionRunning
      ensures Valid()
      ensures old(setupStatus == SetupStatus.Success && runStatus == Running) ==>
                runStatus == Stopped && !sessionRunning && runLog == old(runLog) + [RunStatus.Loading, Stopped]
      ensures !old(setupStatus == SetupStatus.Success && runStatus == Running) ==>
                runStatus == old(runStatus) && runLog == old(runLog) && sessionRunning == old(sessionRunning)
    {
      if setupStatus != SetupStatus.Success || runStatus != Running {
        return;
      }
      runStatus := RunStatus.Loading;
      runLog := runLog + [RunStatus.Loading];
      sessionRunning := false;
      runStatus := Stopped;
      runLog := runLog + [Stopped];
    }

    /**
     * `switchCamera()`: only when both cameras opened and one is current;
     * the current camera's input leaves the session and the other one's enters.
     */
    method SwitchCamera()
      requires Valid()
      modifies this`sessionInputs, this`currentCamera
      ensures Valid()
      ensures !(DeviceInput(Front) in sessionInputs && DeviceInput(Back) in sessionInputs)
      ensures frontCamera.None? || backCamera.None? || old(currentCamera).None? ==>
                sessionInputs == old(sessionInputs) && currentCamera == old(currentCamera)
      ensures frontCamera.Some? && backCamera.Some? && old(currentCamera) == Some(Front) ==>
                && sessionInputs == old(sessionInputs) - {DeviceInput(Front)} + {DeviceInput(Back)}
                && currentCamera == Some(Back)
      ensures frontCamera.Some? && backCamera.Some? && old(currentCamera) == Some(Back) ==>
                && sessionInputs == old(sessionInputs) - {DeviceInput(Back)} + {DeviceInput(Front)}
                && currentCamera == Some(Front)
    {
      if frontCamera.None? || backCamera.None? {
        return;
      }
      match currentCamera
      case Some(Front) =>
        sessionInputs := sessionInputs - {frontCamera.value} + {backCamera.value};
        currentCamera := Some(Back);
      case Some(Back) =>
        sessionInputs := sessionInputs - {backCamera.value} + {frontCamera.value};
        currentCamera := Some(Front);
      case None =>
    }

    /**
     * `checkAndRequestPermissions()`: goes on when access is granted, else
     * publishes the refusal's status and error.
     */
    method CheckAndRequestPermissions(authorization: Authorization, userGrants: bool) returns (granted: bool)
      requires Coherent()
      requires setupStatus == SetupStatus.Loading
      modifies this`setupStatus, this`setupLog, this`error, this`errorLog
      ensures Coherent()
      ensures var p := PermissionOutcome(authorization, userGrants);
              && granted == p.Granted?
              && (p.Granted? ==> setupStatus == old(setupStatus) && setupLog == old(setupLog)
                                 && error == old(error) && errorLog == old(errorLog))
              && (p.Refused? ==> setupStatus == p.status && setupLog == old(setupLog) + [p.status]
                                 && error == Some(p.error) && errorLog == old(errorLog) + [p.error])
    {
      match authorization
      case Authorized =>
        granted := true;
      case NotDetermined =>
        granted := userGrants;
        if !granted {
          setupStatus := AccessDenied;
          setupLog := setupLog + [AccessDenied];
          error := Some(DeniedAuthorization);
          errorLog := errorLog + [DeniedAuthorization];
        }
      case Restricted =>
        setupStatus := AccessRestricted;
        setupLog := setupLog + [AccessRestricted];
        error := Some(RestrictedAuthorization);
        errorLog := errorLog + [RestrictedAuthorization];
        granted := false;
      case Denied =>
        setupStatus := AccessDenied;
        setupLog := setupLog + [AccessDenied];
        error := Some(DeniedAuthorization);
        errorLog := errorLog + [DeniedAuthorization];
        granted := false;
      case Unknown =>
        setupStatus := SetupStatus.Failed;
        setupLog := setupLog + [SetupStatus.Failed];
        error := Some(UnknownAuthorization);
        errorLog := errorLog + [UnknownAuthorization];
        granted := false;
    }

    /**
     * `setupCapture()`: inside one configuration bracket, closed on every
     * path, select the inputs and then add the video output.
     */
    method SetupCapture(frontOpens: bool, backOpens: bool, canAddOutput: bool) returns (ready: bool)
      requires Coherent() && !configuring
      requires setupStatus == SetupStatus.Loading && sessionInputs == {} && currentCamera.None? && !outputAdded
      modifies this`configuring, this`frontCamera, this`backCamera, this`currentCamera, this`sessionInputs
      modifies this`error, this`errorLog, this`outputAdded, this`discardsLateFrames
      modifies this`portraitOrientation, this`mirrored
      ensures Coherent() && !configuring
      ensures SelectedInputs(frontOpens, backOpens)
      ensures ready == ((frontOpens || backOpens) && canAddOutput)
      ensures (frontOpens || backOpens) && !canAddOutput ==>
                error == Some(CannotAddOutput) && errorLog == old(errorLog) + [CannotAddOutput]
      ensures !((frontOpens || backOpens) && !canAddOutput) ==> error == old(error) && errorLog == old(errorLog)
      ensures !ready ==> && !outputAdded && discardsLateFrames == old(discardsLateFrames)
                         && portraitOrientation == old(portraitOrientation) && mirrored == old(mirrored)
      ensures ready ==> outputAdded && discardsLateFrames && portraitOrientation
                        && mirrored == (currentCamera == Some(Front))
    {
      configuring := true;
      var inputsReady := SetupInputs(frontOpens, backOpens);
      if !inputsReady {
        configuring := false;
        return false;
      }
      ready := AddVideoOutput(canAddOutput);
      configuring := false;
    }

    /**
     * The output half of `setupCapture()`, inside its configuration bracket:
     * add the video output if the session accepts it, discard late frames, fix the orientation to portrait
     * and mirror only when the current camera is the front one.
     */
    method AddVideoOutput(canAddOutput: bool) returns (added: bool)
      requires Coherent() && configuring && setupStatus == SetupStatus.Loading && !outputAdded
      modifies this`error, this`errorLog, this`outputAdded, this`discardsLateFrames
      modifies this`portraitOrientation, this`mirrored
      ensures Coherent() && configuring
      ensures added == canAddOutput
      ensures !added ==> && !outputAdded && error == Some(CannotAddOutput) && errorLog == old(errorLog) + [CannotAddOutput]
                         && discardsLateFrames == old(discardsLateFrames)
                         && portraitOrientation == old(portraitOrientation) && mirrored == old(mirrored)
      ensures added ==> && outputAdded && discardsLateFrames && portraitOrientation
                        && mirrored == (currentCamera == Some(Front))
                        && error == old(error) && errorLog == old(errorLog)
    {
      if !canAddOutput {
        error := Some(CannotAddOutput);
        errorLog := errorLog + [CannotAddOutput];
        return false;
      }
      discardsLateFrames := true;
      outputAdded := true;
      portraitOrientation := true;
      mirrored := currentCamera == Some(Front);
      return true;
    }

    /**
     * `setupInputs()`, inside `setupCapture()`'s configuration bracket:
     * record which cameras opened; with both, the back
     * camera is added and becomes current; with one, that one is added and
     * the current camera is left unset; with none, nothing is added.
     */
    method SetupInputs(frontOpens: bool, backOpens: bool) returns (found: bool)
      requires Coherent() && configuring
      requires setupStatus == SetupStatus.Loading && sessionInputs == {} && currentCamera.None?
      modifies this`frontCamera, this`backCamera, this`currentCamera, this`sessionInputs
      ensures Coherent() && configuring
      ensures SelectedInputs(frontOpens, backOpens)
      ensures found == (frontOpens || backOpens)
    {
      frontCamera := if frontOpens then Some(DeviceInput(Front)) else None;
      backCamera := if backOpens then Some(DeviceInput(Back)) else None;
      match (frontCamera, backCamera)
      case (Some(_), Some(back)) =>
        currentCamera := Some(Back);
        sessionInputs := sessionInputs + {back};
        found := true;
      case (Some(front), None) =>
        sessionInputs := sessionInputs + {front};
        found := true;
      case (None, Some(back)) =>
        sessionInputs := sessionInputs + {back};
        found := true;
      case (None, None) =>
        found := false;
    }
  }
}
