/**
 * The camera session: the current task, model base name and confidence, the
 * detector built for them, the settings update that decides whether the
 * detector must be rebuilt, and the per-frame choice of drawing passes.
 */
module CameraSession {
  import opened Wrappers
  import opened Inference
  import opened Canvas
  import Visualizer

  /** The capture source: a device index or a video file path. */
  datatype Source = DeviceIndex(index: int) | VideoFile(path: string)

  /** A detector built from a checkpoint file for a requested device. */
  datatype Detector = Detector(modelPath: string, device: string)

  /**
   * The `conf` argument of a settings update: absent, a JSON number, or a
   * string (the web page sends the slider's value as text) together with
   * what `float()` makes of it (`None` when it raises).
   */
  datatype Conf = NoConf | NumConf(value: real) | TextConf(text: string, parsed: Option<real>)

  const DefaultSource := DeviceIndex(0)
  const DefaultModelBase := "yolo11n"
  const DefaultDevice := "cpu"
  const DefaultTask := "detect"
  const DefaultConf: real := 0.5

  /** Python truthiness of an optional string argument. */
  predicate Truthy(arg: Option<string>)
  {
    arg.Some? && arg.value != ""
  }

  /** Python truthiness of the `conf` argument: `None`, `0` and `""` are falsy, the string `"0"` is not. */
  predicate ConfTruthy(c: Conf)
  {
    match c
    case NoConf => false
    case NumConf(v) => v != 0.0
    case TextConf(t, _) => t != ""
  }

  /** `float(conf)`; `None` when the conversion raises. */
  function ToFloat(c: Conf): Option<real>
  {
    match c
    case NoConf => None
    case NumConf(v) => Some(v)
    case TextConf(_, p) => p
  }

  /** The checkpoint file name for a task and a model base name. */
  function ResolveModelPath(task: string, base: string): (path: string)
    ensures |path| >= |base| + 3
    ensures path[..|base|] == base && path[|path| - 3..] == ".pt"
  {
    if task == "detect" then base + ".pt"
    else if task == "segment" then base + "-seg.pt"
    else if task == "pose" then base + "-pose.pt"
    else base + ".pt"
  }

  /** Each task has its own suffix; any task other than the three known ones falls back to the plain checkpoint. */
  lemma ResolveModelPathCases(task: string, base: string)
    ensures task == "segment" ==> ResolveModelPath(task, base) == base + "-seg.pt"
    ensures task == "pose" ==> ResolveModelPath(task, base) == base + "-pose.pt"
    ensures task != "segment" && task != "pose" ==> ResolveModelPath(task, base) == base + ".pt"
  {
  }

  /** For a fixed task the file name identifies the model base, and the three tasks give three different files. */
  lemma ResolveModelPathInjective(task: string, base1: string, base2: string)
    ensures ResolveModelPath(task, base1) == ResolveModelPath(task, base2) ==> base1 == base2
    ensures ResolveModelPath("detect", base1) != ResolveModelPath("segment", base1)
    ensures ResolveModelPath("detect", base1) != ResolveModelPath("pose", base1)
    ensures ResolveModelPath("segment", base1) != ResolveModelPath("pose", base1)
  {
  }

  /** A settings update rebuilds the detector iff a truthy task or a truthy model base differs from the current one. */
  predicate NeedsReload(task: string, modelBase: string, taskArg: Option<string>, baseArg: Option<string>)
  {
    (Truthy(taskArg) && taskArg.value != task) || (Truthy(baseArg) && baseArg.value != modelBase)
  }

  /** The fields a settings update can change. */
  datatype Session = Session(task: string, modelBase: string, conf: real, detector: Detector, modelPath: string)

  /**
   * The outcome of one settings update: the new session, the checkpoint a
   * load was attempted for (if any), and whether the update raised.
   */
  datatype Update = Update(session: Session, loadAttempt: Option<string>, raised: bool)

  /** The session right after construction with a successful initial load. */
  function InitialSession(modelBase: string, device: string): Session
  {
    var path := ResolveModelPath(DefaultTask, modelBase);
    Session(DefaultTask, modelBase, DefaultConf, Detector(path, device), path)
  }

  /**
   * One settings update. The task and the model base are assigned first; a
   * `conf` whose conversion raises stops the update there, before any reload;
   * otherwise the confidence is assigned, and the detector is rebuilt when
   * needed. A rebuild that fails is swallowed and keeps the old detector and
   * the old path.
   */
  function SetSettingsStep(s: Session, device: string, taskArg: Option<string>, confArg: Conf,
                           baseArg: Option<string>, loadOk: bool): (u: Update)
    ensures u.raised ==> u.loadAttempt.None?
    ensures u.loadAttempt.None? || !loadOk ==>
      u.session.detector == s.detector && u.session.modelPath == s.modelPath
    ensures Truthy(taskArg) ==> u.session.task == taskArg.value
    ensures Truthy(baseArg) ==> u.session.modelBase == baseArg.value
  {
    var task := if Truthy(taskArg) then taskArg.value else s.task;
    var base := if Truthy(baseArg) then baseArg.value else s.modelBase;
    if ConfTruthy(confArg) && ToFloat(confArg).None? then
      Update(s.(task := task, modelBase := base), None, true)
    else
      var conf := if ConfTruthy(confArg) then ToFloat(confArg).value else s.conf;
      var path := ResolveModelPath(task, base);
      if !NeedsReload(s.task, s.modelBase, taskArg, baseArg) then
        Update(s.(task := task, modelBase := base, conf := conf), None, false)
      else if loadOk then
        Update(Session(task, base, conf, Detector(path, device), path), Some(path), false)
      else
        Update(s.(task := task, modelBase := base, conf := conf), Some(path), false)
  }

  /** The detector and the recorded path match the current task and model base. */
  predicate Consistent(s: Session, device: string)
  {
    s.modelPath == ResolveModelPath(s.task, s.modelBase) && s.detector == Detector(s.modelPath, device)
  }

  // ---------------------------------------------------------------------------
  // Per-frame drawing
  // ---------------------------------------------------------------------------

  datatype Pass = SegmentationPass | DetectionsPass | PosePass

  /**
   * What a frame request returns: the blank 480x640 image when the read
   * fails, or the frame with the passes that took effect and the calls they
   * made (mask blending makes no vector calls).
   */
  datatype FrameOut = NoSignal | Frame(passes: seq<Pass>, overlay: seq<Command>)

  /** The drawing passes for a task; no result means no pass. */
  function Dispatch(task: string, results: seq<FrameResult>): (passes: seq<Pass>)
    ensures passes == [] <==> results == [] || task !in {"detect", "segment", "pose"}
    ensures DetectionsPass in passes <==> results != [] && task in {"detect", "segment"}
    ensures PosePass in passes <==> results != [] && task == "pose"
    ensures SegmentationPass in passes ==> passes[0] == SegmentationPass
  {
    if results == [] then []
    else if task == "detect" then [DetectionsPass]
    else if task == "segment" then [SegmentationPass, DetectionsPass]
    else if task == "pose" then [PosePass]
    else []
  }

  /** What inference yields: its results, or nothing when it raised. */
  function Predictions(inferred: Option<seq<FrameResult>>): seq<FrameResult>
  {
    match inferred
    case None => []
    case Some(rs) => rs
  }

  /**
   * The visualized frame: the passes of `Dispatch` and what they draw. A
   * class id that a name table lacks makes the box pass raise; the error is
   * caught and the frame is shown without any overlay.
   */
  function Render(task: string, results: seq<FrameResult>, measure: Measure): (f: FrameOut)
    ensures f.Frame?
    ensures f.passes == Dispatch(task, results) || f == Frame([], [])
    ensures f.passes == [] ==> f.overlay == []
    ensures DetectionsPass in Dispatch(task, results) ==> (f.passes != [] <==> AllClassesKnown(results))
  {
    var passes := Dispatch(task, results);
    if DetectionsPass in passes then
      if AllClassesKnown(results) then Frame(passes, Visualizer.DetectionCommands(results, measure))
      else Frame([], [])
    else if PosePass in passes then Frame(passes, Visualizer.PoseCommands(results))
    else Frame(passes, [])
  }

  /** The dispatch table of the frame loop, task by task. */
  lemma DispatchCases(task: string, results: seq<FrameResult>)
    ensures results == [] ==> Dispatch(task, results) == []
    ensures results != [] && task == "detect" ==> Dispatch(task, results) == [DetectionsPass]
    ensures results != [] && task == "segment" ==> Dispatch(task, results) == [SegmentationPass, DetectionsPass]
    ensures results != [] && task == "pose" ==> Dispatch(task, results) == [PosePass]
    ensures task !in {"detect", "segment", "pose"} ==> Dispatch(task, results) == []
  {
  }

  /** With no results, whatever the task and also after an inference error, the frame is left untouched. */
  lemma RenderWithoutResults(task: string, inferred: Option<seq<FrameResult>>, measure: Measure)
    requires inferred.None? || inferred == Some([])
    ensures Render(task, Predictions(inferred), measure) == Frame([], [])
  {
  }

  /** The segmentation task blends masks and then draws exactly what the detection task draws. */
  lemma SegmentDrawsDetectionsAfterMasks(results: seq<FrameResult>, measure: Measure)
    requires results != [] && AllClassesKnown(results)
    ensures Render("segment", results, measure) ==
            Frame([SegmentationPass] + Render("detect", results, measure).passes,
                  Render("detect", results, measure).overlay)
  {
    assert Dispatch("segment", results) == [SegmentationPass, DetectionsPass];
    assert Dispatch("detect", results) == [DetectionsPass];
  }

  // ---------------------------------------------------------------------------
  // Properties of the settings update
  // ---------------------------------------------------------------------------

  /**
   * A load is attempted iff a reload is needed and the update did not raise
   * first; at most one per update, and always for the checkpoint of the new
   * task and model base.
   */
  lemma ReloadIff(s: Session, device: string, taskArg: Option<string>, confArg: Conf,
                  baseArg: Option<string>, loadOk: bool)
    ensures var u := SetSettingsStep(s, device, taskArg, confArg, baseArg, loadOk);
      && (u.loadAttempt.Some? <==> !u.raised && NeedsReload(s.task, s.modelBase, taskArg, baseArg))
      && (u.loadAttempt.Some? ==> u.loadAttempt.value == ResolveModelPath(u.session.task, u.session.modelBase))
      && u.session.task == (if Truthy(taskArg) then taskArg.value else s.task)
      && u.session.modelBase == (if Truthy(baseArg) then baseArg.value else s.modelBase)
  {
  }

  /**
   * An update that changes neither the task nor the model base never
   * reloads, and changes the confidence alone: to `float(conf)` when `conf`
   * is truthy, not at all when it is falsy.
   */
  lemma ConfidenceOnlyUpdate(s: Session, device: string, taskArg: Option<string>, confArg: Conf,
                             baseArg: Option<string>, loadOk: bool)
    requires !NeedsReload(s.task, s.modelBase, taskArg, baseArg)
    ensures var u := SetSettingsStep(s, device, taskArg, confArg, baseArg, loadOk);
      && u.loadAttempt.None?
      && u.raised == (ConfTruthy(confArg) && ToFloat(confArg).None?)
      && u.session == s.(conf := u.session.conf)
      && (!ConfTruthy(confArg) ==> u.session.conf == s.conf)
      && (ConfTruthy(confArg) && ToFloat(confArg).Some? ==> u.session.conf == ToFloat(confArg).value)
  {
  }

  /** After a successful reload the detector and the recorded path are those of the resolved checkpoint. */
  lemma SuccessfulReload(s: Session, device: string, taskArg: Option<string>, confArg: Conf, baseArg: Option<string>)
    ensures var u := SetSettingsStep(s, device, taskArg, confArg, baseArg, true);
      u.loadAttempt.Some? ==>
        && Consistent(u.session, device)
        && u.session.modelPath == ResolveModelPath(u.session.task, u.session.modelBase)
  {
  }

  /**
   * A failed reload is swallowed half-way: the task and the model base keep
   * their new values while the detector and the recorded path keep their old
   * ones.
   */
  lemma FailedReload(s: Session, device: string, taskArg: Option<string>, confArg: Conf, baseArg: Option<string>)
    ensures var u := SetSettingsStep(s, device, taskArg, confArg, baseArg, false);
      u.loadAttempt.Some? ==>
        && !u.raised
        && u.session.task == (if Truthy(taskArg) then taskArg.value else s.task)
        && u.session.modelBase == (if Truthy(baseArg) then baseArg.value else s.modelBase)
        && u.session.detector == s.detector && u.session.modelPath == s.modelPath
  {
  }

  /**
   * A `conf` string that `float()` rejects raises after the task and the
   * model base were already replaced: no load is attempted for them.
   */
  lemma BadConfSkipsReload(s: Session, device: string, taskArg: Option<string>, text: string,
                           baseArg: Option<string>, loadOk: bool)
    requires text != ""
    ensures var u := SetSettingsStep(s, device, taskArg, TextConf(text, None), baseArg, loadOk);
      && u.raised && u.loadAttempt.None?
      && u.session == s.(task := u.session.task, modelBase := u.session.modelBase)
      && u.session.task == (if Truthy(taskArg) then taskArg.value else s.task)
  {
  }

  /**
   * From a consistent session, the session after an update is consistent
   * iff the update reloaded successfully or the new task and model base
   * resolve to the checkpoint already loaded.
   */
  lemma ConsistencyAfterUpdate(s: Session, device: string, taskArg: Option<string>, confArg: Conf,
                               baseArg: Option<string>, loadOk: bool)
    requires Consistent(s, device)
    ensures var u := SetSettingsStep(s, device, taskArg, confArg, baseArg, loadOk);
      Consistent(u.session, device) <==>
        (u.loadAttempt.Some? && loadOk) ||
        ResolveModelPath(u.session.task, u.session.modelBase) == s.modelPath
  {
  }

  /**
   * Repeating an update changes nothing and attempts no load: a reload is
   * attempted at most once per distinct change.
   */
  lemma UpdateIdempotent(s: Session, device: string, taskArg: Option<string>, confArg: Conf,
                         baseArg: Option<string>, loadOk: bool, loadOk2: bool)
    ensures var u := SetSettingsStep(s, device, taskArg, confArg, baseArg, loadOk);
            var u2 := SetSettingsStep(u.session, device, taskArg, confArg, baseArg, loadOk2);
      u2.session == u.session && u2.loadAttempt.None? && u2.raised == u.raised
  {
  }

  /** After an update naming the segmentation task, frames with results take the segmentation path. */
  lemma SegmentUpdateSelectsSegmentation(s: Session, device: string, confArg: Conf, baseArg: Option<string>,
                                         loadOk: bool, results: seq<FrameResult>)
    requires results != []
    ensures var u := SetSettingsStep(s, device, Some("segment"), confArg, baseArg, loadOk);
      Dispatch(u.session.task, results) == [SegmentationPass, DetectionsPass]
  {
  }

  // ---------------------------------------------------------------------------
  // The session object
  // ---------------------------------------------------------------------------

  class Camera {
    var source: Source
    var device: string
    var task: string
    var modelBase: string
    var conf: real
    var detector: Detector
    var modelPath: string
    /** Every checkpoint a detector build was attempted for, in order. */
    ghost var loads: seq<string>

    /** The fields a settings update can change. */
    function Snapshot(): Session
      reads this
    {
      Session(task, modelBase, conf, detector, modelPath)
    }

    /** Opens the source and builds the initial detector (here: successfully). */
    constructor(source: Source, modelBase: string, device: string)
      ensures this.source == source && this.device == device
      ensures Snapshot() == InitialSession(modelBase, device)
      ensures task == "detect" && conf == 0.5 && modelPath == modelBase + ".pt"
      ensures loads == [modelBase + ".pt"]
    {
      this.source := source;
      this.modelBase := modelBase;
      this.device := device;
      task := DefaultTask;
      conf := DefaultConf;
      var path := ResolveModelPath(DefaultTask, modelBase);
      detector := Detector(path, device);
      modelPath := path;
      loads := [path];
    }

    /**
     * Construction as a whole: it raises when the capture does not open or
     * when the initial detector cannot be built.
     */
    static method Open(source: Source, modelBase: string, device: string, captureOpens: bool, loadOk: bool)
      returns (cam: Camera?)
      ensures cam != null <==> captureOpens && loadOk
      ensures cam != null ==> fresh(cam) && cam.source == source && cam.device == device &&
                              cam.Snapshot() == InitialSession(modelBase, device) &&
                              cam.loads == [ResolveModelPath(DefaultTask, modelBase)]
    {
      if !captureOpens || !loadOk {
        return null;
      }
      cam := new Camera(source, modelBase, device);
    }

    /** Construction with every argument left at its default: device 0, `yolo11n`, the CPU. */
    static method OpenWithDefaults(captureOpens: bool, loadOk: bool) returns (cam: Camera?)
      ensures cam != null <==> captureOpens && loadOk
      ensures cam != null ==> fresh(cam) && cam.source == DeviceIndex(0) && cam.device == "cpu" &&
                              cam.task == "detect" && cam.modelBase == "yolo11n" && cam.conf == 0.5 &&
                              cam.modelPath == "yolo11n.pt" && cam.detector == Detector("yolo11n.pt", "cpu")
    {
      cam := Open(DefaultSource, DefaultModelBase, DefaultDevice, captureOpens, loadOk);
    }

    /**
     * Builds the detector for the current task and model base. The path is
     * recorded only once the build succeeded; a failed build (`ok` false,
     * the constructor raised) leaves the detector and the path as they were.
     */
    method LoadModel(ok: bool) returns (loaded: bool)
      modifies this
      ensures loaded == ok
      ensures loads == old(loads) + [ResolveModelPath(task, modelBase)]
      ensures source == old(source) && device == old(device)
      ensures task == old(task) && modelBase == old(modelBase) && conf == old(conf)
      ensures ok ==> detector == Detector(ResolveModelPath(task, modelBase), device) &&
                     modelPath == ResolveModelPath(task, modelBase)
      ensures !ok ==> detector == old(detector) && modelPath == old(modelPath)
    {
      var path := ResolveModelPath(task, modelBase);
      loads := loads + [path];
      if !ok {
        return false;
      }
      detector := Detector(path, device);
      modelPath := path;
      loaded := true;
    }

    /**
     * Applies a settings update; `raised` reports that `float(conf)` raised.
     * A failed reload is swallowed.
     */
    method SetSettings(taskArg: Option<string>, confArg: Conf, baseArg: Option<string>, loadOk: bool)
      returns (raised: bool)
      modifies this
      ensures var u := SetSettingsStep(old(Snapshot()), old(device), taskArg, confArg, baseArg, loadOk);
        && Snapshot() == u.session
        && raised == u.raised
        && loads == old(loads) + (if u.loadAttempt.Some? then [u.loadAttempt.value] else [])
      ensures source == old(source) && device == old(device)
    {
      ghost var u := SetSettingsStep(Snapshot(), device, taskArg, confArg, baseArg, loadOk);
      var needsReload := false;
      if Truthy(taskArg) && taskArg.value != task {
        task := taskArg.value;
        needsReload := true;
      }
      if Truthy(baseArg) && baseArg.value != modelBase {
        modelBase := baseArg.value;
        needsReload := true;
      }
      if ConfTruthy(confArg) {
        var value := ToFloat(confArg);
        if value.None? {
          return true;
        }
        conf := value.value;
      }
      assert task == u.session.task && modelBase == u.session.modelBase && conf == u.session.conf;
      if needsReload {
        var _ := LoadModel(loadOk);
      }
      raised := false;
    }

    /**
     * One frame request. The read is `readOk`; inference is `predict` applied
     * to the current detector and confidence, `None` when it raises.
     */
    method GetFrame(readOk: bool, predict: (Detector, real) -> Option<seq<FrameResult>>, measure: Measure)
      returns (f: FrameOut)
      ensures !readOk ==> f == NoSignal
      ensures readOk ==> f == Render(task, Predictions(predict(detector, conf)), measure)
    {
      if !readOk {
        return NoSignal;
      }
      var currentTask := task;
      var currentConf := conf;
      var results := Predictions(predict(detector, currentConf));
      f := Frame([], []);
      if results != [] {
        if currentTask == "detect" {
          var drawn := Visualizer.DrawDetections(results, measure);
          if drawn.Some? {
            f := Frame([DetectionsPass], drawn.value);
          }
        } else if currentTask == "segment" {
          var drawn := Visualizer.DrawDetections(results, measure);
          if drawn.Some? {
            f := Frame([SegmentationPass, DetectionsPass], drawn.value);
          }
        } else if currentTask == "pose" {
          var drawn := Visualizer.DrawPose(results);
          f := Frame([PosePass], drawn);
        }
      }
    }
  }
}
