/**
 * The render pass that records the CRT effect into the frame's render graph:
 * one temporary texture shaped like the camera colour target, then pass 0
 * (distortion and chromatic aberration) from the camera colour into the
 * temporary texture, then pass 1 (scanlines, phosphor, bloom, noise,
 * flicker, vsync glitch) from the temporary texture back into the camera
 * colour. Volume values are copied into each pass's record and into the
 * shared material's uniforms at record time.
 */
module CRTPass {
  import opened Host
  import opened CRTVolume

  const DistortionPassName := "CRTDistortion"
  const ScanlinesPassName := "CRTScanlinesAndPhosphor"
  const TempTextureName := "CRTDistortionTempTexture"
  const ScreenResolutionUniform := "_ScreenResolution"

  /** The material uniform each volume parameter is staged into. */
  function UniformName(p: Param): string
  {
    match p
    case DistortionStrength => "_DistortionStrength"
    case ChromaticAberrationStrength => "_ChromaticAberrationStrength"
    case ScanlineDensity => "_ScanlineDensity"
    case ScanlineStrength => "_ScanlineStrength"
    case PhosphorStrength => "_PhosphorStrength"
    case BloomStrength => "_BloomStrength"
    case NoiseStrength => "_NoiseStrength"
    case FlickerStrength => "_FlickerStrength"
    case VsyncGlitchStrength => "_VsyncGlitchStrength"
    case VsyncGlitchSpeed => "_VsyncGlitchSpeed"
    case VsyncGlitchBarHeight => "_VsyncGlitchBarHeight"
  }

  /** Every uniform the pass writes. */
  const StagedNames: set<string> := {
    ScreenResolutionUniform,
    "_DistortionStrength", "_ChromaticAberrationStrength",
    "_ScanlineDensity", "_ScanlineStrength", "_PhosphorStrength",
    "_BloomStrength", "_NoiseStrength", "_FlickerStrength",
    "_VsyncGlitchStrength", "_VsyncGlitchSpeed", "_VsyncGlitchBarHeight"
  }

  /** Distinct parameters go to distinct uniforms, none of them the resolution uniform. */
  lemma UniformNamesDistinct(p: Param, q: Param)
    ensures UniformName(p) in StagedNames
    ensures UniformName(p) != ScreenResolutionUniform
    ensures UniformName(p) == UniformName(q) ==> p == q
  {
  }

  /** The parameters pass 0 carries; pass 1 carries the other nine. */
  predicate InPass0(p: Param)
  {
    p == DistortionStrength || p == ChromaticAberrationStrength
  }

  /** Pass 0's parameter record. */
  datatype PassData0 = PassData0(
    source: TextureHandle,
    material: Material,
    distortionStrength: real,
    chromaticAberrationStrength: real)

  /** Pass 1's parameter record. */
  datatype PassData1 = PassData1(
    source: TextureHandle,
    material: Material,
    scanlineDensity: real,
    scanlineStrength: real,
    phosphorStrength: real,
    screenResolution: Vector4,
    bloomStrength: real,
    noiseStrength: real,
    flickerStrength: real,
    vsyncGlitchStrength: real,
    vsyncGlitchSpeed: real,
    vsyncGlitchBarHeight: real)

  /** The record a declared pass closes over. */
  datatype PassData = Data0(d0: PassData0) | Data1(d1: PassData1)

  /** The value the two records hold for a parameter, read from the record of the pass that carries it. */
  function RecordedValue(d0: PassData0, d1: PassData1, p: Param): real
  {
    match p
    case DistortionStrength => d0.distortionStrength
    case ChromaticAberrationStrength => d0.chromaticAberrationStrength
    case ScanlineDensity => d1.scanlineDensity
    case ScanlineStrength => d1.scanlineStrength
    case PhosphorStrength => d1.phosphorStrength
    case BloomStrength => d1.bloomStrength
    case NoiseStrength => d1.noiseStrength
    case FlickerStrength => d1.flickerStrength
    case VsyncGlitchStrength => d1.vsyncGlitchStrength
    case VsyncGlitchSpeed => d1.vsyncGlitchSpeed
    case VsyncGlitchBarHeight => d1.vsyncGlitchBarHeight
  }

  /** The resolution vector published to the shader: (width, height, 0, 0). */
  function ScreenResolution(desc: TextureDesc): Vector4
  {
    Vector4(desc.width as real, desc.height as real, 0.0, 0.0)
  }

  /** The temporary texture's descriptor: the camera colour's, renamed. */
  function TempDesc(camDesc: TextureDesc): (r: TextureDesc)
    ensures r.width == camDesc.width && r.height == camDesc.height && r.format == camDesc.format
    ensures r.name == TempTextureName
  {
    camDesc.(name := TempTextureName)
  }

  /** Pass 0's record, filled from the volume. */
  function Pass0Record(v: CRTDistortionVolume, source: TextureHandle, m: Material): PassData0
  {
    PassData0(source, m, v.distortionStrength, v.chromaticAberrationStrength)
  }

  /** Pass 1's record, filled from the volume and the camera descriptor. */
  function Pass1Record(v: CRTDistortionVolume, source: TextureHandle, camDesc: TextureDesc, m: Material): PassData1
  {
    PassData1(source, m,
      v.scanlineDensity, v.scanlineStrength, v.phosphorStrength,
      ScreenResolution(camDesc),
      v.bloomStrength, v.noiseStrength, v.flickerStrength,
      v.vsyncGlitchStrength, v.vsyncGlitchSpeed, v.vsyncGlitchBarHeight)
  }

  /**
   * The two pass declarations one recording appends, in order. Pass 0 reads
   * the camera colour and writes the temporary texture; pass 1 reads what
   * pass 0 wrote and writes back what pass 0 read. Each render function
   * blits from its record's source with its own technique, and the records
   * together hold exactly the volume's parameter values.
   */
  function DeclaredPasses(cameraColor: TextureHandle, temp: TextureHandle, v: CRTDistortionVolume,
                          camDesc: TextureDesc, m: Material): (r: seq<PassDecl<PassData>>)
    ensures |r| == 2
    ensures r[0].name == DistortionPassName && r[1].name == ScanlinesPassName
    ensures r[0].read == cameraColor && r[0].write == temp
    ensures r[1].read == r[0].write && r[1].write == r[0].read
    ensures r[0].technique == 0 && r[1].technique == 1
    ensures r[0].data.Data0? && r[0].data.d0.source == r[0].read && r[0].data.d0.material == m
    ensures r[1].data.Data1? && r[1].data.d1.source == r[1].read && r[1].data.d1.material == m
    ensures forall p :: RecordedValue(r[0].data.d0, r[1].data.d1, p) == v.Get(p)
    ensures r[1].data.d1.screenResolution == Vector4(camDesc.width as real, camDesc.height as real, 0.0, 0.0)
  {
    var d0 := Pass0Record(v, cameraColor, m);
    var d1 := Pass1Record(v, temp, camDesc, m);
    [PassDecl(DistortionPassName, d0.source, temp, 0, Data0(d0)),
     PassDecl(ScanlinesPassName, d1.source, cameraColor, 1, Data1(d1))]
  }

  /**
   * A volume whose parameters lie in their declared ranges, as a clamped
   * volume's always do, hands both passes values within those ranges.
   */
  lemma RecordedValuesInRange(cameraColor: TextureHandle, temp: TextureHandle, v: CRTDistortionVolume,
                              camDesc: TextureDesc, m: Material)
    requires v.Valid()
    ensures var r := DeclaredPasses(cameraColor, temp, v, camDesc, m);
            forall p :: MinOf(p) <= RecordedValue(r[0].data.d0, r[1].data.d1, p) <= MaxOf(p)
  {
  }

  /** Where in the staging order each parameter's uniform is written. */
  function WriteIndex(p: Param): nat
  {
    match p
    case DistortionStrength => 1
    case ChromaticAberrationStrength => 2
    case ScanlineDensity => 3
    case ScanlineStrength => 4
    case PhosphorStrength => 5
    case BloomStrength => 7
    case NoiseStrength => 8
    case FlickerStrength => 9
    case VsyncGlitchStrength => 10
    case VsyncGlitchSpeed => 11
    case VsyncGlitchBarHeight => 12
  }

  /**
   * The uniform writes one recording issues, in order. The resolution is
   * written first, before pass 0 is declared, and again as the seventh write,
   * among pass 1's; each parameter's uniform is written at its WriteIndex
   * with the value its pass record holds, pass 0's before pass 1's.
   * StagingWritesOnce adds that no other position writes any of these
   * uniforms, and StagingWritesByScope splits the order by builder scope.
   */
  function StagingWrites(camDesc: TextureDesc, d0: PassData0, d1: PassData1): (r: seq<UniformWrite>)
    ensures |r| == 13
    ensures r[0] == UniformWrite(ScreenResolutionUniform, Vector(ScreenResolution(camDesc)))
    ensures r[6] == UniformWrite(ScreenResolutionUniform, Vector(d1.screenResolution))
    ensures forall p :: WriteIndex(p) < |r| && r[WriteIndex(p)] == UniformWrite(UniformName(p), Float(RecordedValue(d0, d1, p)))
    ensures forall p, q :: InPass0(p) && !InPass0(q) ==> WriteIndex(p) < WriteIndex(q)
  {
    [UniformWrite(ScreenResolutionUniform, Vector(ScreenResolution(camDesc))),
     UniformWrite("_DistortionStrength", Float(d0.distortionStrength)),
     UniformWrite("_ChromaticAberrationStrength", Float(d0.chromaticAberrationStrength)),
     UniformWrite("_ScanlineDensity", Float(d1.scanlineDensity)),
     UniformWrite("_ScanlineStrength", Float(d1.scanlineStrength)),
     UniformWrite("_PhosphorStrength", Float(d1.phosphorStrength)),
     UniformWrite(ScreenResolutionUniform, Vector(d1.screenResolution)),
     UniformWrite("_BloomStrength", Float(d1.bloomStrength)),
     UniformWrite("_NoiseStrength", Float(d1.noiseStrength)),
     UniformWrite("_FlickerStrength", Float(d1.flickerStrength)),
     UniformWrite("_VsyncGlitchStrength", Float(d1.vsyncGlitchStrength)),
     UniformWrite("_VsyncGlitchSpeed", Float(d1.vsyncGlitchSpeed)),
     UniformWrite("_VsyncGlitchBarHeight", Float(d1.vsyncGlitchBarHeight))]
  }

  /**
   * Apart from those positions, the staging order never writes the
   * resolution uniform, and it writes each parameter's uniform only at that
   * parameter's own position.
   */
  lemma StagingWritesOnce(camDesc: TextureDesc, d0: PassData0, d1: PassData1)
    ensures var r := StagingWrites(camDesc, d0, d1);
            && (forall i :: 0 <= i < |r| && r[i].name == ScreenResolutionUniform ==> i == 0 || i == 6)
            && (forall p, i :: 0 <= i < |r| && r[i].name == UniformName(p) ==> i == WriteIndex(p))
  {
  }

  /** The uniform writes issued while pass 0 is being declared, in order. */
  function Pass0Writes(d0: PassData0): seq<UniformWrite>
  {
    [UniformWrite("_DistortionStrength", Float(d0.distortionStrength)),
     UniformWrite("_ChromaticAberrationStrength", Float(d0.chromaticAberrationStrength))]
  }

  /** The uniform writes issued while pass 1 is being declared, in order. */
  function Pass1Writes(d1: PassData1): seq<UniformWrite>
  {
    ScanlineWrites(d1) + BloomAndNoiseWrites(d1) + VsyncGlitchWrites(d1)
  }

  /** Pass 1's scanline and phosphor uniforms, and the resolution they are computed against. */
  function ScanlineWrites(d1: PassData1): seq<UniformWrite>
  {
    [UniformWrite("_ScanlineDensity", Float(d1.scanlineDensity)),
     UniformWrite("_ScanlineStrength", Float(d1.scanlineStrength)),
     UniformWrite("_PhosphorStrength", Float(d1.phosphorStrength)),
     UniformWrite(ScreenResolutionUniform, Vector(d1.screenResolution))]
  }

  /** Pass 1's bloom, noise and flicker uniforms. */
  function BloomAndNoiseWrites(d1: PassData1): seq<UniformWrite>
  {
    [UniformWrite("_BloomStrength", Float(d1.bloomStrength)),
     UniformWrite("_NoiseStrength", Float(d1.noiseStrength)),
     UniformWrite("_FlickerStrength", Float(d1.flickerStrength))]
  }

  /** Pass 1's vsync-glitch uniforms. */
  function VsyncGlitchWrites(d1: PassData1): seq<UniformWrite>
  {
    [UniformWrite("_VsyncGlitchStrength", Float(d1.vsyncGlitchStrength)),
     UniformWrite("_VsyncGlitchSpeed", Float(d1.vsyncGlitchSpeed)),
     UniformWrite("_VsyncGlitchBarHeight", Float(d1.vsyncGlitchBarHeight))]
  }

  /**
   * The staging order is the resolution write that precedes the first
   * builder scope, then the writes of pass 0's scope, then those of pass 1's.
   */
  lemma StagingWritesByScope(camDesc: TextureDesc, d0: PassData0, d1: PassData1)
    ensures StagingWrites(camDesc, d0, d1)
         == [UniformWrite(ScreenResolutionUniform, Vector(ScreenResolution(camDesc)))] + Pass0Writes(d0) + Pass1Writes(d1)
  {
  }

  /**
   * After one recording's writes, the material holds, under each
   * parameter's uniform, the value its pass record holds, which is the
   * volume's value; it holds the current resolution under the resolution
   * uniform; and every uniform the pass does not write is as it was.
   */
  lemma StagedUniforms(u: map<string, UniformValue>, v: CRTDistortionVolume,
                       cameraColor: TextureHandle, temp: TextureHandle, camDesc: TextureDesc, m: Material)
    ensures var d0 := Pass0Record(v, cameraColor, m);
            var d1 := Pass1Record(v, temp, camDesc, m);
            var r := ApplyWrites(u, StagingWrites(camDesc, d0, d1));
            && (forall p :: UniformName(p) in r && r[UniformName(p)] == Float(RecordedValue(d0, d1, p))
                                                && RecordedValue(d0, d1, p) == v.Get(p))
            && ScreenResolutionUniform in r
            && r[ScreenResolutionUniform] == Vector(d1.screenResolution)
            && r[ScreenResolutionUniform] == Vector(ScreenResolution(camDesc))
            && (forall k :: k !in StagedNames ==> (k in r <==> k in u) && (k in u ==> r[k] == u[k]))
  {
    var d0 := Pass0Record(v, cameraColor, m);
    var d1 := Pass1Record(v, temp, camDesc, m);
    var ws := StagingWrites(camDesc, d0, d1);
    StagingWritesOnce(camDesc, d0, d1);
    forall p ensures UniformName(p) in ApplyWrites(u, ws)
                  && ApplyWrites(u, ws)[UniformName(p)] == Float(RecordedValue(d0, d1, p))
    {
      ApplyWritesLastWins(u, ws, UniformName(p), WriteIndex(p));
    }
    ApplyWritesLastWins(u, ws, ScreenResolutionUniform, 6);
    forall k | k !in StagedNames
      ensures (k in ApplyWrites(u, ws) <==> k in u) && (k in u ==> ApplyWrites(u, ws)[k] == u[k])
    {
      ApplyWritesLastWins(u, ws, k, -1);
    }
  }

  /**
   * Recording overwrites everything an earlier recording staged: whatever
   * two states the material starts from, one recording's writes leave both
   * holding the same values under every uniform the pass writes, so no value
   * from an earlier frame (an old resolution, say) survives.
   */
  lemma RestagingForgetsEarlierFrames(u1: map<string, UniformValue>, u2: map<string, UniformValue>,
                                      camDesc: TextureDesc, d0: PassData0, d1: PassData1)
    ensures var ws := StagingWrites(camDesc, d0, d1);
            && (forall p :: UniformName(p) in ApplyWrites(u1, ws) && UniformName(p) in ApplyWrites(u2, ws)
                            && ApplyWrites(u1, ws)[UniformName(p)] == ApplyWrites(u2, ws)[UniformName(p)])
            && ScreenResolutionUniform in ApplyWrites(u1, ws) && ScreenResolutionUniform in ApplyWrites(u2, ws)
            && ApplyWrites(u1, ws)[ScreenResolutionUniform] == ApplyWrites(u2, ws)[ScreenResolutionUniform]
  {
    var ws := StagingWrites(camDesc, d0, d1);
    StagingWritesOnce(camDesc, d0, d1);
    forall p ensures UniformName(p) in ApplyWrites(u1, ws) && UniformName(p) in ApplyWrites(u2, ws)
                  && ApplyWrites(u1, ws)[UniformName(p)] == ApplyWrites(u2, ws)[UniformName(p)]
    {
      ApplyWritesLastWins(u1, ws, UniformName(p), WriteIndex(p));
      ApplyWritesLastWins(u2, ws, UniformName(p), WriteIndex(p));
    }
    ApplyWritesLastWins(u1, ws, ScreenResolutionUniform, 6);
    ApplyWritesLastWins(u2, ws, ScreenResolutionUniform, 6);
  }

  /**
   * The pass object: the volume bound for this frame, the material shared by
   * both passes (fixed at construction, possibly null), and the pipeline
   * stage the feature inserts it at.
   */
  class CRTDistortionPass {
    var volume: Option<CRTDistortionVolume>
    const material: Material?
    var renderPassEvent: RenderPassEvent

    /** A new pass has no volume; the host's default stage is after opaques. */
    constructor (material: Material?)
      ensures this.material == material && volume == None && renderPassEvent == AfterRenderingOpaques
    {
      this.material := material;
      volume := None;
      renderPassEvent := AfterRenderingOpaques;
    }

    /** Binds the volume to record with; nothing else changes. */
    method Setup(v: CRTDistortionVolume)
      modifies this`volume
      ensures volume == Some(v)
    {
      volume := Some(v);
    }

    /**
     * Records the effect into `graph`. Without a (live) material or a bound
     * volume it does nothing. Otherwise it publishes the resolution, creates
     * the temporary texture and declares the two passes, as TempDesc,
     * DeclaredPasses and StagingWrites describe.
     */
    method RecordRenderGraph(graph: RenderGraph<PassData>, frameData: ResourceData)
      requires frameData.activeColorTexture.id < |graph.textures|
      requires material != null ==> material.Valid()
      modifies graph, material
      ensures material != null ==> material.Valid() && material.destroyed == old(material.destroyed)
      ensures old(IsNull(material)) || volume.None? ==>
                unchanged(graph) && (material != null ==> unchanged(material))
      ensures !old(IsNull(material)) && volume.Some? ==>
                var cameraColor := frameData.activeColorTexture;
                var camDesc := old(graph.textures)[cameraColor.id];
                var temp := TextureHandle(|old(graph.textures)|);
                var staged := StagingWrites(camDesc,
                  Pass0Record(volume.value, cameraColor, material), Pass1Record(volume.value, temp, camDesc, material));
                && temp != cameraColor
                && graph.textures == old(graph.textures) + [TempDesc(camDesc)]
                && graph.passes == old(graph.passes) + DeclaredPasses(cameraColor, temp, volume.value, camDesc, material)
                && material.writes == old(material.writes) + staged
                && material.uniforms == ApplyWrites(old(material.uniforms), staged)
    {
      if IsNull(material) || volume.None? {
        return;
      }
      var v := volume.value;
      ghost var writes0 := material.writes;

      var cameraColor := frameData.activeColorTexture;
      var camDesc, tempTexture := CreateTempTexture(graph, cameraColor);
      var passData0 := DeclareDistortionPass(graph, cameraColor, tempTexture, v);
      var passData1 := DeclareScanlinesPass(graph, cameraColor, tempTexture, camDesc, v);

      StagingWritesByScope(camDesc, passData0, passData1);
      ApplyWritesAppend(map[], writes0, StagingWrites(camDesc, passData0, passData1));
    }

    /**
     * Before the builder scopes: publish the camera's resolution, then create
     * the temporary texture from the camera colour's descriptor, renamed.
     */
    method CreateTempTexture(graph: RenderGraph<PassData>, cameraColor: TextureHandle)
      returns (camDesc: TextureDesc, tempTexture: TextureHandle)
      requires cameraColor.id < |graph.textures|
      requires material != null && material.Valid()
      modifies graph`textures, material`uniforms, material`writes
      ensures material.Valid()
      ensures camDesc == old(graph.textures)[cameraColor.id]
      ensures tempTexture == TextureHandle(|old(graph.textures)|) && tempTexture != cameraColor
      ensures graph.textures == old(graph.textures) + [TempDesc(camDesc)]
      ensures material.writes == old(material.writes) + [UniformWrite(ScreenResolutionUniform, Vector(ScreenResolution(camDesc)))]
    {
      camDesc := graph.GetTextureDesc(cameraColor);
      material.SetVector(ScreenResolutionUniform, Vector4(camDesc.width as real, camDesc.height as real, 0.0, 0.0));

      var tempDesc := camDesc.(name := TempTextureName);
      tempTexture := graph.CreateTexture(tempDesc);
    }

    /** The first builder scope: fill pass 0's record, stage it, declare the pass. */
    method DeclareDistortionPass(graph: RenderGraph<PassData>, cameraColor: TextureHandle, tempTexture: TextureHandle,
                                 v: CRTDistortionVolume) returns (passData0: PassData0)
      requires material != null && material.Valid()
      modifies graph`passes, material`uniforms, material`writes
      ensures material.Valid()
      ensures passData0 == Pass0Record(v, cameraColor, material)
      ensures material.writes == old(material.writes) + Pass0Writes(passData0)
      ensures graph.passes == old(graph.passes) + [PassDecl(DistortionPassName, cameraColor, tempTexture, 0, Data0(passData0))]
    {
      passData0 := PassData0(cameraColor, material, v.distortionStrength, v.chromaticAberrationStrength);
      material.SetFloat("_DistortionStrength", passData0.distortionStrength);
      material.SetFloat("_ChromaticAberrationStrength", passData0.chromaticAberrationStrength);
      graph.AddRasterRenderPass(PassDecl(DistortionPassName, passData0.source, tempTexture, 0, Data0(passData0)));
    }

    /** The second builder scope: fill pass 1's record, stage it, declare the pass. */
    method DeclareScanlinesPass(graph: RenderGraph<PassData>, cameraColor: TextureHandle, tempTexture: TextureHandle,
                                camDesc: TextureDesc, v: CRTDistortionVolume) returns (passData1: PassData1)
      requires material != null && material.Valid()
      modifies graph`passes, material`uniforms, material`writes
      ensures material.Valid()
      ensures passData1 == Pass1Record(v, tempTexture, camDesc, material)
      ensures material.writes == old(material.writes) + Pass1Writes(passData1)
      ensures graph.passes == old(graph.passes) + [PassDecl(ScanlinesPassName, tempTexture, cameraColor, 1, Data1(passData1))]
    {
      passData1 := PassData1(tempTexture, material,
        v.scanlineDensity, v.scanlineStrength, v.phosphorStrength,
        Vector4(camDesc.width as real, camDesc.height as real, 0.0, 0.0),
        v.bloomStrength, v.noiseStrength, v.flickerStrength,
        v.vsyncGlitchStrength, v.vsyncGlitchSpeed, v.vsyncGlitchBarHeight);
      StageScanlines(passData1);
      StageBloomAndNoise(passData1);
      StageVsyncGlitch(passData1);
      graph.AddRasterRenderPass(PassDecl(ScanlinesPassName, passData1.source, cameraColor, 1, Data1(passData1)));
    }

    /** Lines 108-111: the scanline and phosphor uniforms, then the resolution. */
    method StageScanlines(passData1: PassData1)
      requires material != null && material.Valid()
      modifies material`uniforms, material`writes
      ensures material.Valid()
      ensures material.writes == old(material.writes) + ScanlineWrites(passData1)
    {
      material.SetFloat("_ScanlineDensity", passData1.scanlineDensity);
      material.SetFloat("_ScanlineStrength", passData1.scanlineStrength);
      material.SetFloat("_PhosphorStrength", passData1.phosphorStrength);
      material.SetVector(ScreenResolutionUniform, passData1.screenResolution);
    }

    /** The bloom, noise and flicker uniforms. */
    method StageBloomAndNoise(passData1: PassData1)
      requires material != null && material.Valid()
      modifies material`uniforms, material`writes
      ensures material.Valid()
      ensures material.writes == old(material.writes) + BloomAndNoiseWrites(passData1)
    {
      material.SetFloat("_BloomStrength", passData1.bloomStrength);
      material.SetFloat("_NoiseStrength", passData1.noiseStrength);
      material.SetFloat("_FlickerStrength", passData1.flickerStrength);
    }

    /** The vsync-glitch uniforms. */
    method StageVsyncGlitch(passData1: PassData1)
      requires material != null && material.Valid()
      modifies material`uniforms, material`writes
      ensures material.Valid()
      ensures material.writes == old(material.writes) + VsyncGlitchWrites(passData1)
    {
      material.SetFloat("_VsyncGlitchStrength", passData1.vsyncGlitchStrength);
      material.SetFloat("_VsyncGlitchSpeed", passData1.vsyncGlitchSpeed);
      material.SetFloat("_VsyncGlitchBarHeight", passData1.vsyncGlitchBarHeight);
    }
  }
}
