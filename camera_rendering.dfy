/**
  The per-camera frame of CameraRenderer.cs: cull the camera's view (and
  give up on the frame when that is impossible), set up lighting and
  shadows, set up the camera and clear its target, draw opaque geometry,
  the skybox and transparent geometry, clean the lighting up and submit.

  The renderer reaches the engine through its command buffer (commands
  recorded but not yet run) and the render context (commands run, in
  order); both are traces of abstract commands. What the engine answers
  (whether the camera can be culled, the colour-space conversion of its
  background) is carried by the camera value.
 */
module CameraRendering {
  import DirectionalShadows
  import Sequences

  /** An RGBA colour. */
  datatype LinearColor = LinearColor(r: real, g: real, b: real, a: real)

  /** Color.clear: transparent black. */
  const ClearColor := LinearColor(0.0, 0.0, 0.0, 0.0)

  /** The engine's CameraClearFlags. */
  datatype ClearFlags = Skybox | Color | Depth | Nothing

  /** The enum's underlying values; the clear rule compares flags through them. */
  function FlagValue(f: ClearFlags): int {
    match f
    case Skybox => 1
    case Color => 2
    case Depth => 3
    case Nothing => 4
  }

  /**
    The parts of a camera the frame reads. hasCullingParameters is the
    engine's answer to TryGetCullingParameters, and backgroundLinear is the
    background colour already converted to linear space.
   */
  datatype Camera = Camera(
    clearFlags: ClearFlags, backgroundLinear: LinearColor, farClipPlane: real, hasCullingParameters: bool)

  datatype Option<T> = None | Some(value: T)

  /** The visibility query's result, known to the model by the shadow distance it was bounded by. */
  datatype CullingResults = NotCulled | Culled(shadowDistance: real)

  datatype SortingCriteria = CommonOpaque | CommonTransparent
  datatype RenderQueueRange = AllQueues | TransparentQueues
  datatype ShaderTag = SRPDefaultUnlit | CustomLit
  datatype PerObjectData = Lightmaps | LightProbe | LightProbeProxyVolume

  /** DrawingSettings: sorting criteria, shader passes by index, batching switches and per-object data. */
  datatype DrawingSettings = DrawingSettings(
    criteria: SortingCriteria, passes: seq<ShaderTag>,
    enableDynamicBatching: bool, enableInstancing: bool, perObjectData: set<PerObjectData>)

  /** Commands the renderer records into its buffer or issues to the render context. */
  datatype Command =
    | Cull(shadowDistance: real)
    | BeginSample(name: string)
    | EndSample(name: string)
    | LightingSetup(cullingResults: CullingResults, shadowSettings: DirectionalShadows.ShadowSettings)
    | SetupCameraProperties(camera: Camera)
    | ClearRenderTarget(clearDepth: bool, clearColor: bool, backgroundColor: LinearColor)
    | DrawRenderers(cullingResults: CullingResults, drawing: DrawingSettings, queues: RenderQueueRange)
    | DrawSkybox(camera: Camera)
    | DrawUnsupportedShaders
    | DrawGizmos
    | LightingCleanup
    | Submit

  /** The buffer's name, used as the profiler sample name. */
  const SampleName := "Render Camera"

  /** Mathf.Min of the configured shadow distance and the camera's far plane. */
  function ShadowDistance(maxShadowDistance: real, farClipPlane: real): (r: real)
    ensures r <= maxShadowDistance && r <= farClipPlane
    ensures r == maxShadowDistance || r == farClipPlane
  {
    if maxShadowDistance < farClipPlane then maxShadowDistance else farClipPlane
  }

  /**
    The clear of Setup. Depth is cleared unless the flags say Nothing,
    colour is cleared for Skybox and Color only, and only Color clears to
    the camera's background (the others clear to transparent black).
   */
  function ClearFor(camera: Camera): (r: Command)
    ensures r.ClearRenderTarget?
    ensures r.clearDepth <==> camera.clearFlags != Nothing
    ensures r.clearColor <==> camera.clearFlags == Skybox || camera.clearFlags == Color
    ensures r.backgroundColor == (if camera.clearFlags == Color then camera.backgroundLinear else ClearColor)
  {
    var flags := FlagValue(camera.clearFlags);
    ClearRenderTarget(flags <= FlagValue(Depth), flags <= FlagValue(Color),
      if camera.clearFlags == Color then camera.backgroundLinear else ClearColor)
  }

  /** Drawing settings of the opaque pass: unlit pass first, lit pass at index 1. */
  function OpaqueDrawing(useDynamicBatching: bool, useGPUInstancing: bool): DrawingSettings {
    DrawingSettings(CommonOpaque, [SRPDefaultUnlit, CustomLit], useDynamicBatching, useGPUInstancing,
      {Lightmaps, LightProbe, LightProbeProxyVolume})
  }

  /** The three draws of DrawVisibleGeometry, in order. */
  function GeometryCommands(cullingResults: CullingResults, camera: Camera,
                            useDynamicBatching: bool, useGPUInstancing: bool): seq<Command>
  {
    var opaquePass := OpaqueDrawing(useDynamicBatching, useGPUInstancing);
    [DrawRenderers(cullingResults, opaquePass, AllQueues),
     DrawSkybox(camera),
     DrawRenderers(cullingResults, opaquePass.(criteria := CommonTransparent), TransparentQueues)]
  }

  /** The cull, and the lighting and shadow setup inside the first sample (lines 28-34). */
  function OpeningCommands(shadowDistance: real, shadowSettings: DirectionalShadows.ShadowSettings): seq<Command> {
    [Cull(shadowDistance), BeginSample(SampleName), LightingSetup(Culled(shadowDistance), shadowSettings)]
  }

  /**
    The camera setup (lines 35-36 and 45-53): camera properties first, then
    the buffer closes the lighting sample, clears and opens the second one.
   */
  function CameraSetupCommands(camera: Camera): seq<Command> {
    [SetupCameraProperties(camera), EndSample(SampleName), ClearFor(camera), BeginSample(SampleName)]
  }

  /** The editor draws, the lighting cleanup and the submit (lines 38-41 and 86-90). */
  const ClosingCommands := [DrawUnsupportedShaders, DrawGizmos, LightingCleanup, EndSample(SampleName), Submit]

  /**
    Everything one call of Render issues to the render context, in order:
    nothing when the camera cannot be culled; otherwise the cull, the
    lighting setup inside a sample, the camera setup and the clear, the
    geometry, the editor draws and the lighting cleanup inside a second
    sample, and the submit.
   */
  function FrameCommands(camera: Camera, useDynamicBatching: bool, useGPUInstancing: bool,
                         shadowSettings: DirectionalShadows.ShadowSettings): (r: seq<Command>)
    ensures r == [] <==> !camera.hasCullingParameters
    ensures r != [] ==> r[0] == Cull(ShadowDistance(shadowSettings.maxDistance, camera.farClipPlane))
    ensures r != [] ==> r[|r| - 1] == Submit
  {
    if !camera.hasCullingParameters then []
    else
      var d := ShadowDistance(shadowSettings.maxDistance, camera.farClipPlane);
      OpeningCommands(d, shadowSettings) + CameraSetupCommands(camera)
      + GeometryCommands(Culled(d), camera, useDynamicBatching, useGPUInstancing) + ClosingCommands
  }

  /** A culled frame on a context with trace ctx, phase by phase. */
  lemma FrameCommandsInPhases(ctx: seq<Command>, camera: Camera, useDynamicBatching: bool, useGPUInstancing: bool,
                              shadowSettings: DirectionalShadows.ShadowSettings)
    requires camera.hasCullingParameters
    ensures var d := ShadowDistance(shadowSettings.maxDistance, camera.farClipPlane);
      ctx + FrameCommands(camera, useDynamicBatching, useGPUInstancing, shadowSettings)
        == ctx + OpeningCommands(d, shadowSettings) + CameraSetupCommands(camera)
           + GeometryCommands(Culled(d), camera, useDynamicBatching, useGPUInstancing) + ClosingCommands
  {
    var d := ShadowDistance(shadowSettings.maxDistance, camera.farClipPlane);
    var opening, setup := OpeningCommands(d, shadowSettings), CameraSetupCommands(camera);
    var geometry := GeometryCommands(Culled(d), camera, useDynamicBatching, useGPUInstancing);
    Sequences.AppendAssoc(ctx, opening, setup);
    Sequences.AppendAssoc(ctx, opening + setup, geometry);
    Sequences.AppendAssoc(ctx, opening + setup + geometry, ClosingCommands);
  }

  /** The stages of a frame, in the order the renderer must go through them. */
  datatype Stage =
    | Culling | Lighting | CameraSetup | Clearing | OpaqueDraw | SkyboxDraw | TransparentDraw
    | EditorDraw | LightingRelease | Submission

  /** The stages a command belongs to: one, or none for a profiler sample. */
  function StageOf(c: Command): seq<Stage> {
    match c
    case Cull(_) => [Culling]
    case BeginSample(_) => []
    case EndSample(_) => []
    case LightingSetup(_, _) => [Lighting]
    case SetupCameraProperties(_) => [CameraSetup]
    case ClearRenderTarget(_, _, _) => [Clearing]
    case DrawRenderers(_, d, _) => if d.criteria == CommonOpaque then [OpaqueDraw] else [TransparentDraw]
    case DrawSkybox(_) => [SkyboxDraw]
    case DrawUnsupportedShaders => [EditorDraw]
    case DrawGizmos => [EditorDraw]
    case LightingCleanup => [LightingRelease]
    case Submit => [Submission]
  }

  /** The stages of a command sequence, in order, samples skipped. */
  function Stages(cmds: seq<Command>): seq<Stage> {
    if cmds == [] then [] else Stages(cmds[..|cmds| - 1]) + StageOf(cmds[|cmds| - 1])
  }

  /** The order a culled frame goes through. */
  const FrameStageOrder := [Culling, Lighting, CameraSetup, Clearing, OpaqueDraw, SkyboxDraw, TransparentDraw,
                            EditorDraw, EditorDraw, LightingRelease, Submission]

  lemma {:induction false} StagesAppend(a: seq<Command>, b: seq<Command>)
    ensures Stages(a + b) == Stages(a) + Stages(b)
    decreases |b|
  {
    if b == [] {
      assert a + b == a;
    } else {
      var b' := b[..|b| - 1];
      assert (a + b)[..|a + b| - 1] == a + b';
      StagesAppend(a, b');
      Sequences.AppendAssoc(Stages(a), Stages(b'), StageOf(b[|b| - 1]));
    }
  }

  lemma StagesOfThree(x: Command, y: Command, z: Command)
    ensures Stages([x, y, z]) == StageOf(x) + StageOf(y) + StageOf(z)
  {
    assert [x, y, z][..2] == [x, y];
    assert [x, y][..1] == [x];
    assert [x][..0] == [];
    assert Stages([x]) == StageOf(x);
  }

  lemma StagesOfOpening(shadowDistance: real, shadowSettings: DirectionalShadows.ShadowSettings)
    ensures Stages(OpeningCommands(shadowDistance, shadowSettings)) == [Culling, Lighting]
  {
    var o := OpeningCommands(shadowDistance, shadowSettings);
    StagesOfThree(o[0], o[1], o[2]);
  }

  lemma StagesOfCameraSetup(camera: Camera)
    ensures Stages(CameraSetupCommands(camera)) == [CameraSetup, Clearing]
  {
    hide Stages;
    var properties, clear := [SetupCameraProperties(camera), EndSample(SampleName)], [ClearFor(camera), BeginSample(SampleName)];
    assert CameraSetupCommands(camera) == properties + clear;
    StagesAppend(properties, clear);
    StagesOfTwo(SetupCameraProperties(camera), EndSample(SampleName));
    StagesOfTwo(ClearFor(camera), BeginSample(SampleName));
  }

  lemma StagesOfGeometry(cullingResults: CullingResults, camera: Camera, useDynamicBatching: bool, useGPUInstancing: bool)
    ensures Stages(GeometryCommands(cullingResults, camera, useDynamicBatching, useGPUInstancing))
      == [OpaqueDraw, SkyboxDraw, TransparentDraw]
  {
    var g := GeometryCommands(cullingResults, camera, useDynamicBatching, useGPUInstancing);
    StagesOfThree(g[0], g[1], g[2]);
  }

  lemma StagesOfTwo(x: Command, y: Command)
    ensures Stages([x, y]) == StageOf(x) + StageOf(y)
  {
    assert [x, y][..1] == [x];
    assert [x][..0] == [];
    assert Stages([x]) == StageOf(x);
  }

  lemma StagesOfClosing()
    ensures Stages(ClosingCommands) == [EditorDraw, EditorDraw, LightingRelease, Submission]
  {
    hide Stages;
    var editor, finish := [DrawUnsupportedShaders, DrawGizmos, LightingCleanup], [EndSample(SampleName), Submit];
    assert ClosingCommands == editor + finish;
    StagesAppend(editor, finish);
    StagesOfThree(DrawUnsupportedShaders, DrawGizmos, LightingCleanup);
    StagesOfTwo(EndSample(SampleName), Submit);
  }

  /**
    A culled frame goes through its stages in the required order: culling,
    then lighting and shadow setup, camera setup and the clear, the opaque
    draw, the skybox and the transparent draw, the editor draws, the
    lighting cleanup, and the submit last.
   */
  lemma FrameFollowsStageOrder(camera: Camera, useDynamicBatching: bool, useGPUInstancing: bool,
                               shadowSettings: DirectionalShadows.ShadowSettings)
    requires camera.hasCullingParameters
    ensures Stages(FrameCommands(camera, useDynamicBatching, useGPUInstancing, shadowSettings)) == FrameStageOrder
  {
    var d := ShadowDistance(shadowSettings.maxDistance, camera.farClipPlane);
    var opening, setup := OpeningCommands(d, shadowSettings), CameraSetupCommands(camera);
    var geometry := GeometryCommands(Culled(d), camera, useDynamicBatching, useGPUInstancing);
    StagesAppend(opening + setup + geometry, ClosingCommands);
    StagesAppend(opening + setup, geometry);
    StagesAppend(opening, setup);
    StagesOfOpening(d, shadowSettings);
    StagesOfCameraSetup(camera);
    StagesOfGeometry(Culled(d), camera, useDynamicBatching, useGPUInstancing);
    StagesOfClosing();
  }

  /** Net count of opened profiler samples: +1 per BeginSample, -1 per EndSample. */
  function SampleDepth(cmds: seq<Command>): int {
    if cmds == [] then 0
    else
      SampleDepth(cmds[..|cmds| - 1]) + SampleStep(cmds[|cmds| - 1])
  }

  lemma {:induction false} SampleDepthAppend(a: seq<Command>, b: seq<Command>)
    ensures SampleDepth(a + b) == SampleDepth(a) + SampleDepth(b)
    decreases |b|
  {
    if b == [] {
      assert a + b == a;
    } else {
      var b' := b[..|b| - 1];
      assert (a + b)[..|a + b| - 1] == a + b';
      SampleDepthAppend(a, b');
    }
  }

  /** The change in open samples a single command makes. */
  function SampleStep(c: Command): int {
    if c.BeginSample? then 1 else if c.EndSample? then -1 else 0
  }

  lemma SampleDepthOfTwo(x: Command, y: Command)
    ensures SampleDepth([x, y]) == SampleStep(x) + SampleStep(y)
  {
    assert [x, y][..1] == [x];
    assert [x][..0] == [];
    assert SampleDepth([x]) == SampleStep(x);
  }

  lemma SampleDepthOfThree(x: Command, y: Command, z: Command)
    ensures SampleDepth([x, y, z]) == SampleStep(x) + SampleStep(y) + SampleStep(z)
  {
    assert [x, y, z][..2] == [x, y];
    SampleDepthOfTwo(x, y);
  }

  lemma SampleDepthOfPhases(d: real, shadowSettings: DirectionalShadows.ShadowSettings, camera: Camera,
                             cullingResults: CullingResults, useDynamicBatching: bool, useGPUInstancing: bool)
    ensures SampleDepth(OpeningCommands(d, shadowSettings)) == 1
    ensures SampleDepth(CameraSetupCommands(camera)) == 0
    ensures SampleDepth(GeometryCommands(cullingResults, camera, useDynamicBatching, useGPUInstancing)) == 0
    ensures SampleDepth(ClosingCommands) == -1
  {
    var o := OpeningCommands(d, shadowSettings);
    SampleDepthOfThree(o[0], o[1], o[2]);
    var c := CameraSetupCommands(camera);
    assert c == [c[0], c[1]] + [c[2], c[3]];
    SampleDepthAppend([c[0], c[1]], [c[2], c[3]]);
    SampleDepthOfTwo(c[0], c[1]);
    SampleDepthOfTwo(c[2], c[3]);
    var g := GeometryCommands(cullingResults, camera, useDynamicBatching, useGPUInstancing);
    SampleDepthOfThree(g[0], g[1], g[2]);
    var e := ClosingCommands;
    assert e == [e[0], e[1], e[2]] + [e[3], e[4]];
    SampleDepthAppend([e[0], e[1], e[2]], [e[3], e[4]]);
    SampleDepthOfThree(e[0], e[1], e[2]);
    SampleDepthOfTwo(e[3], e[4]);
  }

  /** The profiler-sample commands of a command sequence, in order, everything else skipped. */
  function Samples(cmds: seq<Command>): seq<Command> {
    if cmds == [] then [] else Samples(cmds[..|cmds| - 1]) + SampleOf(cmds[|cmds| - 1])
  }

  function SampleOf(c: Command): seq<Command> {
    if c.BeginSample? || c.EndSample? then [c] else []
  }

  lemma {:induction false} SamplesAppend(a: seq<Command>, b: seq<Command>)
    ensures Samples(a + b) == Samples(a) + Samples(b)
    decreases |b|
  {
    if b == [] {
      assert a + b == a;
    } else {
      var b' := b[..|b| - 1];
      assert (a + b)[..|a + b| - 1] == a + b';
      SamplesAppend(a, b');
      Sequences.AppendAssoc(Samples(a), Samples(b'), SampleOf(b[|b| - 1]));
    }
  }

  lemma SamplesOfTwo(x: Command, y: Command)
    ensures Samples([x, y]) == SampleOf(x) + SampleOf(y)
  {
    assert [x, y][..1] == [x];
    assert [x][..0] == [];
    assert Samples([x]) == SampleOf(x);
  }

  lemma SamplesOfThree(x: Command, y: Command, z: Command)
    ensures Samples([x, y, z]) == SampleOf(x) + SampleOf(y) + SampleOf(z)
  {
    assert [x, y, z][..2] == [x, y];
    SamplesOfTwo(x, y);
  }

  /** The samples each phase opens and closes. */
  lemma SamplesOfPhases(d: real, shadowSettings: DirectionalShadows.ShadowSettings, camera: Camera,
                        cullingResults: CullingResults, useDynamicBatching: bool, useGPUInstancing: bool)
    ensures Samples(OpeningCommands(d, shadowSettings)) == [BeginSample(SampleName)]
    ensures Samples(CameraSetupCommands(camera)) == [EndSample(SampleName), BeginSample(SampleName)]
    ensures Samples(GeometryCommands(cullingResults, camera, useDynamicBatching, useGPUInstancing)) == []
    ensures Samples(ClosingCommands) == [EndSample(SampleName)]
  {
    hide Samples;
    var o := OpeningCommands(d, shadowSettings);
    SamplesOfThree(o[0], o[1], o[2]);
    var c := CameraSetupCommands(camera);
    assert c == [c[0], c[1]] + [c[2], c[3]];
    SamplesAppend([c[0], c[1]], [c[2], c[3]]);
    SamplesOfTwo(c[0], c[1]);
    SamplesOfTwo(c[2], c[3]);
    var g := GeometryCommands(cullingResults, camera, useDynamicBatching, useGPUInstancing);
    SamplesOfThree(g[0], g[1], g[2]);
    var e := ClosingCommands;
    assert e == [e[0], e[1], e[2]] + [e[3], e[4]];
    SamplesAppend([e[0], e[1], e[2]], [e[3], e[4]]);
    SamplesOfThree(e[0], e[1], e[2]);
    SamplesOfTwo(e[3], e[4]);
  }

  /**
    Every profiler sample a frame opens it also closes, and none is closed
    before it is opened: the opening opens the sample, the camera setup
    closes it and reopens it, and the closing commands close it again.
   */
  lemma FrameClosesItsSamples(camera: Camera, useDynamicBatching: bool, useGPUInstancing: bool,
                              shadowSettings: DirectionalShadows.ShadowSettings)
    ensures camera.hasCullingParameters ==>
      Samples(FrameCommands(camera, useDynamicBatching, useGPUInstancing, shadowSettings))
        == [BeginSample(SampleName), EndSample(SampleName), BeginSample(SampleName), EndSample(SampleName)]
    ensures SampleDepth(FrameCommands(camera, useDynamicBatching, useGPUInstancing, shadowSettings)) == 0
  {
    if camera.hasCullingParameters {
      var d := ShadowDistance(shadowSettings.maxDistance, camera.farClipPlane);
      var opening, setup := OpeningCommands(d, shadowSettings), CameraSetupCommands(camera);
      var geometry := GeometryCommands(Culled(d), camera, useDynamicBatching, useGPUInstancing);
      SampleDepthAppend(opening + setup + geometry, ClosingCommands);
      SampleDepthAppend(opening + setup, geometry);
      SampleDepthAppend(opening, setup);
      SampleDepthOfPhases(d, shadowSettings, camera, Culled(d), useDynamicBatching, useGPUInstancing);
      SamplesAppend(opening + setup + geometry, ClosingCommands);
      SamplesAppend(opening + setup, geometry);
      SamplesAppend(opening, setup);
      SamplesOfPhases(d, shadowSettings, camera, Culled(d), useDynamicBatching, useGPUInstancing);
    }
  }

  /**
    CameraRenderer: the renderer of one camera at a time. context is the
    trace of the render context the current frame was given, buffer the
    command buffer's pending commands.
   */
  class CameraRenderer {
    var context: seq<Command>
    var camera: Option<Camera>
    var buffer: seq<Command>
    var cullingResults: CullingResults

    constructor()
      ensures context == [] && camera == None && buffer == [] && cullingResults == NotCulled
    {
      context := [];
      camera := None;
      buffer := [];
      cullingResults := NotCulled;
    }

    /**
      Render (CameraRenderer.cs:22-43): one frame of camera on the render
      context whose trace so far is ctx.
     */
    method Render(ctx: seq<Command>, cam: Camera, useDynamicBatching: bool, useGPUInstancing: bool,
                  shadowSettings: DirectionalShadows.ShadowSettings)
      requires buffer == []
      modifies this
      ensures buffer == [] && camera == Some(cam)
      ensures context == ctx + FrameCommands(cam, useDynamicBatching, useGPUInstancing, shadowSettings)
      ensures cullingResults
        == if cam.hasCullingParameters then Culled(ShadowDistance(shadowSettings.maxDistance, cam.farClipPlane))
           else old(cullingResults)
    {
      hide FrameCommands, GeometryCommands, ClearFor, ShadowDistance;
      context := ctx;
      camera := Some(cam);
      var culled := Cull(shadowSettings.maxDistance);
      if !culled {
        return;
      }
      ghost var d := cullingResults.shadowDistance;
      buffer := buffer + [BeginSample(SampleName)];
      ExecuteBuffer();
      context := context + [LightingSetup(cullingResults, shadowSettings)];
      ghost var lit := context;
      assert lit == ctx + OpeningCommands(d, shadowSettings);
      buffer := buffer + [EndSample(SampleName)];
      Setup();
      ghost var setUp := context;
      assert setUp == lit + CameraSetupCommands(cam);
      DrawVisibleGeometry(useDynamicBatching, useGPUInstancing);
      ghost var drawn := context;
      assert drawn == setUp + GeometryCommands(Culled(d), cam, useDynamicBatching, useGPUInstancing);
      context := context + [DrawUnsupportedShaders];
      context := context + [DrawGizmos];
      context := context + [LightingCleanup];
      Submit();
      assert context == drawn + ClosingCommands;
      FrameCommandsInPhases(ctx, cam, useDynamicBatching, useGPUInstancing, shadowSettings);
    }

    /**
      Setup (lines 45-53): camera properties go straight to the context,
      then the clear and a new sample run together with whatever the
      buffer already held.
     */
    method Setup()
      requires camera.Some?
      modifies this`context, this`buffer
      ensures buffer == []
      ensures context == old(context) + [SetupCameraProperties(camera.value)] + old(buffer)
                         + [ClearFor(camera.value), BeginSample(SampleName)]
    {
      context := context + [SetupCameraProperties(camera.value)];
      var flags := camera.value.clearFlags;
      buffer := buffer + [ClearRenderTarget(FlagValue(flags) <= FlagValue(Depth), FlagValue(flags) <= FlagValue(Color),
                                            if flags == Color then camera.value.backgroundLinear else ClearColor)];
      buffer := buffer + [BeginSample(SampleName)];
      ExecuteBuffer();
    }

    /** DrawVisibleGeometry (lines 55-84): opaque over all queues, the skybox, then transparent. */
    method DrawVisibleGeometry(useDynamicBatching: bool, useGPUInstancing: bool)
      requires camera.Some?
      modifies this`context
      ensures context == old(context) + GeometryCommands(cullingResults, camera.value, useDynamicBatching, useGPUInstancing)
    {
      var drawing := OpaqueDrawing(useDynamicBatching, useGPUInstancing);
      context := context + [DrawRenderers(cullingResults, drawing, AllQueues)];
      context := context + [DrawSkybox(camera.value)];
      drawing := drawing.(criteria := CommonTransparent);
      context := context + [DrawRenderers(cullingResults, drawing, TransparentQueues)];
    }

    /** Submit (lines 86-90): close the sample, run the buffer, submit the context. */
    method Submit()
      modifies this`context, this`buffer
      ensures buffer == []
      ensures context == old(context) + old(buffer) + [EndSample(SampleName), Command.Submit]
    {
      buffer := buffer + [EndSample(SampleName)];
      ExecuteBuffer();
      context := context + [Command.Submit];
    }

    /** ExecuteBuffer (lines 92-95): the context runs the pending commands and the buffer is cleared. */
    method ExecuteBuffer()
      modifies this`context, this`buffer
      ensures context == old(context) + old(buffer) && buffer == []
    {
      context := context + buffer;
      buffer := [];
    }

    /**
      Cull (lines 97-105): when the camera yields culling parameters, run
      the visibility query bounded by the smaller of the shadow distance and
      the far plane; otherwise report failure and change nothing.
     */
    method Cull(maxShadowDistance: real) returns (culled: bool)
      requires camera.Some?
      modifies this`context, this`cullingResults
      ensures culled == camera.value.hasCullingParameters
      ensures culled ==> var d := ShadowDistance(maxShadowDistance, camera.value.farClipPlane);
        cullingResults == Culled(d) && context == old(context) + [Command.Cull(d)]
      ensures !culled ==> cullingResults == old(cullingResults) && context == old(context)
    {
      if camera.value.hasCullingParameters {
        var shadowDistance := if maxShadowDistance < camera.value.farClipPlane then maxShadowDistance
                              else camera.value.farClipPlane;
        cullingResults := Culled(shadowDistance);
        context := context + [Command.Cull(shadowDistance)];
        return true;
      }
      return false;
    }
  }
}
