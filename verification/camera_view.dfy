/**
 * The camera screen's logic: the single status it shows, derived from the
 * camera manager's and the detector's states, whether the status badge is
 * hidden, and the launch sequence run when the screen appears.
 */
module CameraViews {
  import C = Camera
  import D = Detector
  import opened Wrappers

  /** `CameraView.Status`: what the screen shows. */
  datatype Status = AccessDenied | Loading | Failed | Running | Stopped | NotStarted

  /**
   * `Status.init(cameraSetupStatus:objectDetectorStatus:cameraStatus:)`: the
   * first matching rule wins — access denied; a failure; anything loading;
   * both set up and stopped or running; anything not started; and only then
   * access restricted, as a failure. Each result is characterised on its own.
   */
  function ComposeStatus(camera: C.SetupStatus, detector: D.SetupStatus, run: C.RunStatus): (s: Status)
    ensures s == AccessDenied <==> camera == C.AccessDenied
    ensures s == Failed <==>
              && camera != C.AccessDenied
              && (|| camera == C.SetupStatus.Failed
                  || detector == D.Failed
                  || (camera == C.AccessRestricted && detector == D.Success && run != C.RunStatus.Loading))
    ensures s == Loading <==>
              && camera != C.AccessDenied && camera != C.SetupStatus.Failed && detector != D.Failed
              && (camera == C.SetupStatus.Loading || detector == D.Loading || run == C.RunStatus.Loading)
    ensures s == Stopped <==> camera == C.SetupStatus.Success && detector == D.Success && run == C.Stopped
    ensures s == Running <==> camera == C.SetupStatus.Success && detector == D.Success && run == C.Running
    ensures s == NotStarted <==>
              && camera != C.AccessDenied && camera != C.SetupStatus.Failed && camera != C.SetupStatus.Loading
              && detector != D.Failed && detector != D.Loading && run != C.RunStatus.Loading
              && (camera == C.SetupStatus.NotStarted || detector == D.NotStarted)
  {
    match (camera, detector, run)
    case (AccessDenied, _, _) => AccessDenied
    case (Failed, _, _) | (_, Failed, _) => Failed
    case (Loading, _, _) | (_, Loading, _) | (_, _, Loading) => Loading
    case (Success, Success, Stopped) => Stopped
    case (Success, Success, Running) => Running
    case (NotStarted, _, _) | (_, NotStarted, _) => NotStarted
    case (AccessRestricted, _, _) => Failed
  }

  /** The order matters: access denied wins even over a failed detector. */
  lemma DeniedBeatsFailed(run: C.RunStatus)
    ensures ComposeStatus(C.AccessDenied, D.Failed, run) == AccessDenied
  {
  }

  /** Access restricted is the last fallback: not started and loading come first. */
  lemma RestrictedIsLastFallback(run: C.RunStatus)
    ensures run != C.RunStatus.Loading ==> ComposeStatus(C.AccessRestricted, D.NotStarted, run) == NotStarted
    ensures ComposeStatus(C.AccessRestricted, D.Loading, run) == Loading
    ensures run != C.RunStatus.Loading ==> ComposeStatus(C.AccessRestricted, D.Success, run) == Failed
  {
  }

  /** `isBadgeHidden`: the badge is hidden while stopped, running or not started. */
  predicate IsBadgeHidden(s: Status)
    ensures !IsBadgeHidden(s) <==> s == AccessDenied || s == Loading || s == Failed
  {
    s == Stopped || s == Running || s == NotStarted
  }

  /** The badge shows exactly when a subsystem is denied, failed, loading, or the camera is restricted with the detector ready. */
  lemma BadgeShownWhen(camera: C.SetupStatus, detector: D.SetupStatus, run: C.RunStatus)
    ensures !IsBadgeHidden(ComposeStatus(camera, detector, run)) <==>
              || camera == C.AccessDenied || camera == C.SetupStatus.Failed || detector == D.Failed
              || camera == C.SetupStatus.Loading || detector == D.Loading || run == C.RunStatus.Loading
              || (camera == C.AccessRestricted && detector == D.Success)
  {
  }

  /**
   * The rest of `onAppear()` once the camera is set up: set up the detector,
   * and only if that succeeded, start capture. The camera's setup is not
   * touched; only its run state may change.
   */
  method AfterCameraSetup(camera: C.CameraManager, detector: D.ObjectDetector, assets: D.ModelAssets)
    requires camera.Valid() && detector.Valid() && camera.setupStatus == C.SetupStatus.Success
    modifies camera`runStatus, camera`runLog, camera`sessionRunning, detector
    ensures camera.Valid() && detector.Valid()
    ensures detector.SetupOutcome(old(detector.State()), assets)
    ensures detector.setupStatus != D.Success ==>
              camera.runStatus == old(camera.runStatus) && camera.runLog == old(camera.runLog)
    ensures old(camera.runStatus) == C.Running ==> camera.runStatus == C.Running && camera.runLog == old(camera.runLog)
    ensures detector.setupStatus == D.Success && old(camera.runStatus) == C.Stopped ==>
              camera.runStatus == C.Running && camera.runLog == old(camera.runLog) + [C.RunStatus.Loading, C.Running]
              && ComposeStatus(camera.setupStatus, detector.setupStatus, camera.runStatus) == Running
  {
    detector.Setup(assets);
    if detector.setupStatus == D.Success {
      camera.StartCapture();
    }
  }

  /**
   * `onAppear()`: set up the camera; only if that succeeded, set up the
   * detector; only if that succeeded too, start capture.
   */
  method OnAppear(camera: C.CameraManager, detector: D.ObjectDetector, platform: C.Platform, assets: D.ModelAssets)
    requires camera.Valid() && detector.Valid()
    modifies camera, detector
    ensures camera.Valid() && detector.Valid()
    ensures camera.SetupCameraOutcome(old(camera.SetupState()), platform)
    ensures camera.setupStatus != C.SetupStatus.Success ==>
              unchanged(detector) && camera.runStatus == old(camera.runStatus) && camera.runLog == old(camera.runLog)
    ensures detector.currentResult == old(detector.currentResult)
    ensures old(camera.runStatus) == C.Running ==> camera.runStatus == C.Running && camera.runLog == old(camera.runLog)
    ensures camera.setupStatus == C.SetupStatus.Success ==> detector.SetupOutcome(old(detector.State()), assets)
    ensures camera.setupStatus == C.SetupStatus.Success && detector.setupStatus != D.Success ==>
              camera.runStatus == old(camera.runStatus) && camera.runLog == old(camera.runLog)
    ensures camera.setupStatus == C.SetupStatus.Success && detector.setupStatus == D.Success
            && old(camera.runStatus) == C.Stopped ==>
              camera.runStatus == C.Running && camera.runLog == old(camera.runLog) + [C.RunStatus.Loading, C.Running]
              && ComposeStatus(camera.setupStatus, detector.setupStatus, camera.runStatus) == Running
    ensures old(camera.setupStatus) == C.SetupStatus.NotStarted
            && C.PermissionOutcome(platform.authorization, platform.userGrants) == C.Refused(C.AccessDenied, C.DeniedAuthorization) ==>
              ComposeStatus(camera.setupStatus, detector.setupStatus, camera.runStatus) == AccessDenied
  {
    ghost var detectorBefore := detector.State();
    ghost var runBefore := (camera.runStatus, camera.runLog);
    camera.SetupCamera(platform);
    // Camera setup leaves the detector and the capture run alone.
    assert detector.State() == detectorBefore;
    assert (camera.runStatus, camera.runLog) == runBefore;
    ghost var cameraSetUp := camera.SetupState();
    if camera.setupStatus == C.SetupStatus.Success {
      AfterCameraSetup(camera, detector, assets);
    }
    // The detector step leaves the camera's setup alone.
    assert camera.SetupState() == cameraSetUp;
  }
}
