/**
 * `ObjectDetector`: loads the classifier once, classifies camera frames when
 * it is ready, and keeps the last accepted result on display.
 *
 * The classifier itself, Vision's request handling and the image buffers are
 * outside the model: what they produce is passed in. A load is described by
 * `ModelAssets`; one frame's inference by an `Option<seq<Observation>>` where
 * `None` stands for every way it can fail (an error thrown by Vision or results
 * that are not classification observations).
 */
module Detector {
  import opened Wrappers
  import opened ObjectResults

  /** `ObjectDetector.SetupStatus`. */
  datatype SetupStatus = NotStarted | Loading | Success | Failed

  type Url = string

  /** A loaded classifier, known by the asset it was loaded from. */
  datatype Resnet50 = Resnet50(source: Url)

  /**
   * What the platform answers during setup: the asset URL found in the bundle's
   * sub-directory, the URL the generated model class reports, and whether
   * loading the chosen asset succeeds.
   */
  datatype ModelAssets = ModelAssets(bundleUrl: Option<Url>, generatedUrl: Option<Url>, loadSucceeds: bool)

  /** One classification observation: a label and its probability. */
  datatype Observation = Observation(identifier: string, confidence: real)

  /** The URL setup loads from: the bundle's, else the generated class's. */
  function ChosenUrl(assets: ModelAssets): (url: Option<Url>)
    ensures url.Some? <==> assets.bundleUrl.Some? || assets.generatedUrl.Some?
    ensures assets.bundleUrl.Some? ==> url == assets.bundleUrl
    ensures url == assets.bundleUrl || url == assets.generatedUrl
  {
    if assets.bundleUrl.Some? then assets.bundleUrl else assets.generatedUrl
  }

  /** The identifiers that occur among the observations. */
  function Identifiers(observations: seq<Observation>): (ids: set<string>)
    ensures forall i :: 0 <= i < |observations| ==> observations[i].identifier in ids
  {
    if observations == [] then {}
    else Identifiers(observations[..|observations| - 1]) + {observations[|observations| - 1].identifier}
  }

  /** No later observation has the same identifier as `observations[i]`. */
  predicate IsLastOccurrence(observations: seq<Observation>, i: int)
    requires 0 <= i < |observations|
  {
    forall j :: i < j < |observations| ==> observations[j].identifier != observations[i].identifier
  }

  /**
   * The label-to-probability map built by folding over the observations in
   * order, one key per distinct identifier (see `LastOccurrenceDecides` for
   * which probability each key gets).
   */
  function Distribution(observations: seq<Observation>): (probs: map<string, real>)
    ensures probs.Keys == Identifiers(observations)
  {
    if observations == [] then map[]
    else
      var earlier := observations[..|observations| - 1];
      var last := observations[|observations| - 1];
      Distribution(earlier)[last.identifier := last.confidence]
  }

  /** The last observation of an identifier decides its probability: later ones overwrite earlier ones. */
  lemma {:induction false} LastOccurrenceDecides(observations: seq<Observation>)
    ensures forall i :: 0 <= i < |observations| && IsLastOccurrence(observations, i) ==>
              Distribution(observations)[observations[i].identifier] == observations[i].confidence
  {
    if observations != [] {
      LastOccurrenceDecides(observations[..|observations| - 1]);
      DropLastObservation(observations);
    }
  }

  /** Every identifier in the set comes from some observation. */
  lemma {:induction false} IdentifiersOccur(observations: seq<Observation>, id: string)
    requires id in Identifiers(observations)
    ensures exists i :: 0 <= i < |observations| && observations[i].identifier == id
  {
    var earlier := observations[..|observations| - 1];
    if id != observations[|observations| - 1].identifier {
      IdentifiersOccur(earlier, id);
      var i :| 0 <= i < |earlier| && earlier[i].identifier == id;
      assert observations[i] == earlier[i];
    }
  }

  /** A last occurrence in a list is one in the list without its last element too, unless it is that element. */
  lemma DropLastObservation(observations: seq<Observation>)
    requires observations != []
    ensures var earlier := observations[..|observations| - 1];
            var last := observations[|observations| - 1];
            forall i :: 0 <= i < |earlier| && IsLastOccurrence(observations, i) ==>
                 IsLastOccurrence(earlier, i) && observations[i].identifier != last.identifier
  {
  }

  /** When the top identifier is not repeated, its own confidence is what the threshold is applied to. */
  lemma TopConfidenceWhenUnique(observations: seq<Observation>)
    requires observations != [] && IsLastOccurrence(observations, 0)
    ensures Distribution(observations)[observations[0].identifier] == observations[0].confidence
  {
    LastOccurrenceDecides(observations);
  }

  /** Some observation at or after `k` is the last one with `observations[k]`'s identifier. */
  lemma LastOccurrenceAfter(observations: seq<Observation>, k: nat) returns (i: nat)
    requires k < |observations|
    ensures k <= i < |observations| && observations[i].identifier == observations[k].identifier
    ensures IsLastOccurrence(observations, i)
  {
    i := |observations| - 1;
    while observations[i].identifier != observations[k].identifier
      invariant k <= i < |observations|
      invariant forall j :: i < j < |observations| ==> observations[j].identifier != observations[k].identifier
      decreases i
    {
      i := i - 1;
    }
  }

  /**
   * The top label's probability is the confidence of its last observation,
   * which is later in the list whenever the top label is repeated.
   */
  lemma LaterObservationOverwrites(observations: seq<Observation>)
    requires observations != []
    ensures exists i :: && 0 <= i < |observations|
                        && observations[i].identifier == observations[0].identifier
                        && IsLastOccurrence(observations, i)
                        && Distribution(observations)[observations[0].identifier] == observations[i].confidence
  {
    var i := LastOccurrenceAfter(observations, 0);
    LastOccurrenceDecides(observations);
  }

  /** `onImageReceived`'s update: a new result replaces the displayed one, no result keeps it. */
  function Retained(current: Option<ObjectResult>, produced: Option<ObjectResult>): (r: Option<ObjectResult>)
    ensures current.Some? ==> r.Some?
    ensures produced.Some? ==> r == produced
    ensures r == produced || r == current
  {
    if produced.Some? then produced else current
  }

  /** The displayed result after a run of frames, each producing a result or not. */
  function AfterFrames(current: Option<ObjectResult>, produced: seq<Option<ObjectResult>>): Option<ObjectResult>
  {
    if produced == [] then current
    else Retained(AfterFrames(current, produced[..|produced| - 1]), produced[|produced| - 1])
  }

  /**
   * The displayed result is sticky: it is never cleared, frames without a
   * result leave it alone, and otherwise it is the most recent result produced.
   */
  lemma {:induction false} StickyResult(current: Option<ObjectResult>, produced: seq<Option<ObjectResult>>)
    ensures current.Some? ==> AfterFrames(current, produced).Some?
    ensures (forall i :: 0 <= i < |produced| ==> produced[i].None?) ==> AfterFrames(current, produced) == current
    ensures forall i :: 0 <= i < |produced| && produced[i].Some?
                        && (forall j :: i < j < |produced| ==> produced[j].None?) ==>
                          AfterFrames(current, produced) == produced[i]
  {
    if produced != [] {
      var last := |produced| - 1;
      var earlier := produced[..last];
      StickyResult(current, earlier);
      forall i | 0 <= i < |produced| && produced[i].Some? && (forall j :: i < j < |produced| ==> produced[j].None?)
        ensures AfterFrames(current, produced) == produced[i]
      {
        if i < last {
          assert produced[last].None?;
          assert earlier[i] == produced[i];
          assert forall j :: i < j < |earlier| ==> earlier[j] == produced[j];
        }
      }
      if forall i :: 0 <= i < |produced| ==> produced[i].None? {
        assert produced[last].None?;
        assert forall i :: 0 <= i < |earlier| ==> earlier[i] == produced[i];
      }
    }
  }

  /**
   * The body of `getObjectResult(buffer:)` once the model is ready: no result
   * without observations; otherwise the top observation names the label, all
   * of them make the distribution, and the threshold decides.
   */
  function Classify(observations: seq<Observation>): (r: Option<ObjectResult>)
    ensures r.Some? <==> observations != []
                         && Distribution(observations)[observations[0].identifier] >= Threshold
    ensures r.Some? ==> && r.value.output.classLabel == observations[0].identifier
                        && r.value.output.classLabelProbs == Distribution(observations)
                        && FromOutput(r.value.output) == r
  {
    if observations == [] then None
    else
      assert observations[0].identifier in Identifiers(observations);
      FromOutput(Resnet50Output(Distribution(observations), observations[0].identifier))
  }

  /** An `ObjectDetector`'s fields, as one value. */
  datatype DetectorState = DetectorState(
    setupStatus: SetupStatus,
    currentResult: Option<ObjectResult>,
    model: Option<Resnet50>,
    statusLog: seq<SetupStatus>)

  class ObjectDetector {
    var setupStatus: SetupStatus
    var currentResult: Option<ObjectResult>
    var model: Option<Resnet50>
    /** Every value `setupStatus` has been given, in order; what an observer of the published status sees. */
    ghost var statusLog: seq<SetupStatus>

    ghost predicate Valid()
      reads this
    {
      && (model.Some? <==> setupStatus == Success)
      && (currentResult.Some? ==> FromOutput(currentResult.value.output) == currentResult)
      && LogEndsInStatus()
    }

    /** The status log starts at `notStarted` and its last entry is the current status. */
    ghost predicate LogEndsInStatus()
      reads this`statusLog, this`setupStatus
    {
      statusLog != [] && statusLog[0] == NotStarted && statusLog[|statusLog| - 1] == setupStatus
    }

    constructor ()
      ensures Valid()
      ensures setupStatus == NotStarted && currentResult == None && model == None
      ensures statusLog == [NotStarted]
    {
      setupStatus := NotStarted;
      currentResult := None;
      model := None;
      statusLog := [NotStarted];
    }

    /** The detector's fields, as one value. */
    ghost function State(): DetectorState
      reads this
    {
      DetectorState(setupStatus, currentResult, model, statusLog)
    }

    /**
     * What `setup()` leaves behind, compared with the state `before` it
     * started from: the current result is kept; from any state but
     * `notStarted`, nothing changes; without an asset URL, only `failed` is
     * published and no model is loaded; otherwise `loading`, then `success`
     * with the model loaded from the chosen URL, or `failed` with the model
     * as it was.
     */
    ghost predicate SetupOutcome(before: DetectorState, assets: ModelAssets)
      reads this
    {
      && currentResult == before.currentResult
      && (before.setupStatus != NotStarted ==> State() == before)
      && (before.setupStatus == NotStarted && ChosenUrl(assets).None? ==>
            setupStatus == Failed && model == None && statusLog == before.statusLog + [Failed])
      && (before.setupStatus == NotStarted && ChosenUrl(assets).Some? && assets.loadSucceeds ==>
            && setupStatus == Success && model == Some(Resnet50(ChosenUrl(assets).value))
            && statusLog == before.statusLog + [Loading, Success])
      && (before.setupStatus == NotStarted && ChosenUrl(assets).Some? && !assets.loadSucceeds ==>
            && setupStatus == Failed && model == before.model
            && statusLog == before.statusLog + [Loading, Failed])
    }

    /**
     * `setup()`, that is `setupModels()`: only from `notStarted`; without an
     * asset URL straight to `failed`; otherwise `loading`, then `success` with
     * the model or `failed` without it.
     */
    method Setup(assets: ModelAssets)
      requires Valid()
      modifies this
      ensures Valid()
      ensures SetupOutcome(old(State()), assets)
    {
      if setupStatus != NotStarted {
        return;
      }
      var modelUrl: Option<Url>;
      if assets.bundleUrl.Some? {
        modelUrl := assets.bundleUrl;
      } else {
        modelUrl := assets.generatedUrl;
      }
      if modelUrl.None? {
        setupStatus := Failed;
        statusLog := statusLog + [Failed];
        return;
      }
      setupStatus := Loading;
      statusLog := statusLog + [Loading];
      if !assets.loadSucceeds {
        setupStatus := Failed;
        statusLog := statusLog + [Failed];
        return;
      }
      model := Some(Resnet50(modelUrl.value));
      setupStatus := Success;
      statusLog := statusLog + [Success];
    }

    /**
     * `onImageReceived(buffer:)` together with the guards of
     * `getObjectResult(buffer:)`: a frame is classified only when the detector
     * is ready, and the displayed result changes only when the frame produced one.
     */
    method OnImageReceived(inference: Option<seq<Observation>>)
      requires Valid()
      modifies this`currentResult
      ensures Valid()
      ensures setupStatus == Success && inference.Some? ==>
                currentResult == Retained(old(currentResult), Classify(inference.value))
      ensures setupStatus != Success || inference.None? ==> currentResult == old(currentResult)
    {
      if setupStatus != Success || model.None? {
        return;
      }
      if inference.None? {
        return;
      }
      var result := Classify(inference.value);
      if result.Some? {
        currentResult := result;
      }
    }
  }
}
