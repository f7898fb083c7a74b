/**
 * End-to-end frames through the feature, the pass and the host stand-ins,
 * each stated as what a caller can conclude from the contracts alone.
 */
module Scenarios {
  import opened Host
  import opened CRTVolume
  import opened CRTPass
  import opened CRTFeature

  /** A 1920x1080 camera colour target, imported as texture 0. */
  const CameraDesc := TextureDesc(1920, 1080, 0, "_CameraColor")

  /** Every toggle off. */
  function AllOff(v: CRTDistortionVolume): (r: CRTDistortionVolume)
    ensures forall t :: !r.Flag(t)
    ensures forall p :: r.Get(p) == v.Get(p)
  {
    v.(enableDistortion := false, enableScanlinesAndPhosphor := false, enableChromaticAberration := false,
       enableBloom := false, enableNoiseAndFlicker := false, enableVsyncGlitch := false)
  }

  /**
   * No shader configured: the frame gate logs exactly one error and enqueues
   * nothing, even though the volume is active.
   */
  method MissingShaderFrame() returns (errors: seq<string>, queued: seq<CRTDistortionPass>)
    ensures errors == [MissingMaterialError]
    ensures queued == []
  {
    var feature := new CRTDistortionFeature(DefaultSettings);
    feature.Create();
    var renderer := new Renderer<CRTDistortionPass>();
    var log := new Log();
    DefaultVolumeActive();
    feature.AddRenderPasses(renderer, log, Some(DefaultVolume()));
    errors, queued := log.errors, renderer.queue;
  }

  /** No volume on the stack, or one with every toggle off: nothing is enqueued and nothing logged. */
  method InactiveFrames(shader: Shader) returns (errors: seq<string>, queued: seq<CRTDistortionPass>)
    ensures errors == []
    ensures queued == []
  {
    var feature := new CRTDistortionFeature(Settings(Some(shader), BeforeRenderingPostProcessing));
    feature.Create();
    var renderer := new Renderer<CRTDistortionPass>();
    var log := new Log();
    feature.AddRenderPasses(renderer, log, None);
    var off := AllOff(DefaultVolume());
    AllOffInactive(off);
    feature.AddRenderPasses(renderer, log, Some(off));
    errors, queued := log.errors, renderer.queue;
  }

  /** The declared volume with only distortion left on and its strength set to 0.3. */
  function DistortionOnly(): (v: CRTDistortionVolume)
    ensures v.IsActive()
    ensures v.distortionStrength == 0.3 && v.chromaticAberrationStrength == 10.0
  {
    DefaultVolume().(enableScanlinesAndPhosphor := false, enableChromaticAberration := false, enableBloom := false,
                     enableNoiseAndFlicker := false, enableVsyncGlitch := false, distortionStrength := 0.3)
  }

  /** With only distortion on, the feature enqueues its pass once, before post-processing. */
  method DistortionOnlyEnqueued(shader: Shader) returns (queued: seq<CRTDistortionPass>, event: RenderPassEvent)
    ensures |queued| == 1
    ensures event == BeforeRenderingPostProcessing
    ensures queued[0].volume == Some(DistortionOnly())
  {
    var feature := new CRTDistortionFeature(Settings(Some(shader), DefaultSettings.renderPassEvent));
    feature.Create();
    var renderer := new Renderer<CRTDistortionPass>();
    var log := new Log();
    feature.AddRenderPasses(renderer, log, Some(DistortionOnly()));
    queued := renderer.queue;
    event := queued[0].renderPassEvent;
  }

  /**
   * Recording with only distortion on still declares both passes (the
   * activity test is per volume, not per pass); pass 0 receives 0.3 and the
   * declared chromatic-aberration default of 10.
   */
  method DistortionOnlyRecorded(shader: Shader) returns (passes: seq<PassDecl<PassData>>)
    ensures |passes| == 2
    ensures passes[0].name == DistortionPassName && passes[1].name == ScanlinesPassName
    ensures passes[0].data.Data0? && passes[0].data.d0.distortionStrength == 0.3
    ensures passes[0].data.d0.chromaticAberrationStrength == 10.0
  {
    var v := DistortionOnly();
    var m := new Material(shader);
    var pass := new CRTDistortionPass(m);
    pass.Setup(v);
    var graph := new RenderGraph<PassData>([CameraDesc]);
    pass.RecordRenderGraph(graph, ResourceData(TextureHandle(0)));
    passes := graph.passes;
    assert RecordedValue(passes[0].data.d0, passes[1].data.d1, DistortionStrength) == v.Get(DistortionStrength);
    assert RecordedValue(passes[0].data.d0, passes[1].data.d1, ChromaticAberrationStrength)
        == v.Get(ChromaticAberrationStrength);
  }

  /**
   * One frame recorded against a camera colour target with descriptor
   * `camera`: the temporary texture copies its shape and the material
   * publishes its resolution.
   */
  method RecordFrame(pass: CRTDistortionPass, camera: TextureDesc) returns (temp: TextureDesc, res: UniformValue)
    requires pass.material != null && !pass.material.destroyed && pass.material.Valid() && pass.volume.Some?
    modifies pass.material
    ensures pass.material.Valid() && !pass.material.destroyed
    ensures temp == TempDesc(camera)
    ensures res == Vector(ScreenResolution(camera))
  {
    var graph := new RenderGraph<PassData>([camera]);
    ghost var u := pass.material.uniforms;
    pass.RecordRenderGraph(graph, ResourceData(TextureHandle(0)));
    temp := graph.textures[1];
    StagedUniforms(u, pass.volume.value, TextureHandle(0), TextureHandle(1), camera, pass.material);
    res := pass.material.uniforms[ScreenResolutionUniform];
  }

  /**
   * The camera target shrinks from 1920x1080 to 1280x720 between frames:
   * the second frame's temporary texture and published resolution follow
   * the new size.
   */
  method ResizedFrames(shader: Shader, v: CRTDistortionVolume)
    returns (res1: UniformValue, temp2: TextureDesc, res2: UniformValue)
    ensures res1 == Vector(Vector4(1920.0, 1080.0, 0.0, 0.0))
    ensures temp2 == TextureDesc(1280, 720, 0, TempTextureName)
    ensures res2 == Vector(Vector4(1280.0, 720.0, 0.0, 0.0))
  {
    var m := new Material(shader);
    var pass := new CRTDistortionPass(m);
    pass.Setup(v);
    var temp1;
    temp1, res1 := RecordFrame(pass, CameraDesc);
    temp2, res2 := RecordFrame(pass, TextureDesc(1280, 720, 0, "_CameraColor"));
  }

  /**
   * Disposing twice is safe and leaves the material null each time; the
   * pass built before keeps its now-destroyed material and records nothing.
   */
  method DisposeTwice(shader: Shader, v: CRTDistortionVolume) returns (firstNull: bool, secondNull: bool, declared: nat)
    ensures firstNull && secondNull
    ensures declared == 0
  {
    var feature := new CRTDistortionFeature(Settings(Some(shader), BeforeRenderingPostProcessing));
    feature.Create();
    var pass := feature.scriptablePass;
    feature.Dispose();
    firstNull := feature.material == null;
    feature.Dispose();
    secondNull := feature.material == null;
    pass.Setup(v);
    var graph := new RenderGraph<PassData>([CameraDesc]);
    pass.RecordRenderGraph(graph, ResourceData(TextureHandle(0)));
    declared := |graph.passes|;
  }
}
