/**
 * The effect's configuration volume: six on/off toggles and eleven clamped
 * float parameters, each with a declared range and default, and the
 * activity test the feature uses to decide whether to run the effect.
 */
module CRTVolume {

  /** The six toggles, one per effect group. */
  datatype Toggle =
    | Distortion
    | ScanlinesAndPhosphor
    | ChromaticAberration
    | Bloom
    | NoiseAndFlicker
    | VsyncGlitch

  /** The eleven clamped float parameters. */
  datatype Param =
    | DistortionStrength
    | ScanlineDensity
    | ScanlineStrength
    | PhosphorStrength
    | ChromaticAberrationStrength
    | BloomStrength
    | NoiseStrength
    | FlickerStrength
    | VsyncGlitchStrength
    | VsyncGlitchSpeed
    | VsyncGlitchBarHeight

  /** The declared lower bound of a parameter. */
  function MinOf(p: Param): real
  {
    match p
    case VsyncGlitchBarHeight => 0.01
    case _ => 0.0
  }

  /** The declared upper bound of a parameter. */
  function MaxOf(p: Param): real
  {
    match p
    case DistortionStrength => 0.5
    case ScanlineDensity => 1000.0
    case ScanlineStrength => 1.0
    case PhosphorStrength => 1.0
    case ChromaticAberrationStrength => 50.0
    case BloomStrength => 1.0
    case NoiseStrength => 0.2
    case FlickerStrength => 0.5
    case VsyncGlitchStrength => 100.0
    case VsyncGlitchSpeed => 5.0
    case VsyncGlitchBarHeight => 0.5
  }

  /** The declared default of a parameter. */
  function DefaultOf(p: Param): real
  {
    match p
    case DistortionStrength => 0.1
    case ScanlineDensity => 400.0
    case ScanlineStrength => 0.5
    case PhosphorStrength => 0.1
    case ChromaticAberrationStrength => 10.0
    case BloomStrength => 0.1
    case NoiseStrength => 0.05
    case FlickerStrength => 0.08
    case VsyncGlitchStrength => 20.0
    case VsyncGlitchSpeed => 1.0
    case VsyncGlitchBarHeight => 0.1
  }

  /** Every declared range is non-empty. */
  lemma RangesWellFormed(p: Param)
    ensures MinOf(p) <= MaxOf(p)
  {
  }

  /** Every declared default lies within its declared range. */
  lemma DefaultsInRange(p: Param)
    ensures MinOf(p) <= DefaultOf(p) <= MaxOf(p)
  {
  }

  /** The clamping law of a clamped parameter's setter: the nearest point of [lo, hi]. */
  function Clamp(x: real, lo: real, hi: real): (r: real)
    requires lo <= hi
    ensures lo <= r <= hi
    ensures lo <= x <= hi ==> r == x
    ensures x < lo ==> r == lo
    ensures hi < x ==> r == hi
  {
    if x < lo then lo else if hi < x then hi else x
  }

  /**
   * One volume's values. The field names are those of the configuration
   * component; `Valid` is the invariant that every parameter lies in its range.
   */
  datatype CRTDistortionVolume = CRTDistortionVolume(
    enableDistortion: bool,
    distortionStrength: real,
    enableScanlinesAndPhosphor: bool,
    scanlineDensity: real,
    scanlineStrength: real,
    phosphorStrength: real,
    enableChromaticAberration: bool,
    chromaticAberrationStrength: real,
    enableBloom: bool,
    bloomStrength: real,
    enableNoiseAndFlicker: bool,
    noiseStrength: real,
    flickerStrength: real,
    enableVsyncGlitch: bool,
    vsyncGlitchStrength: real,
    vsyncGlitchSpeed: real,
    vsyncGlitchBarHeight: real)
  {
    /** The current value of a toggle. */
    function Flag(t: Toggle): bool
    {
      match t
      case Distortion => enableDistortion
      case ScanlinesAndPhosphor => enableScanlinesAndPhosphor
      case ChromaticAberration => enableChromaticAberration
      case Bloom => enableBloom
      case NoiseAndFlicker => enableNoiseAndFlicker
      case VsyncGlitch => enableVsyncGlitch
    }

    /** The current value of a parameter. */
    function Get(p: Param): real
    {
      match p
      case DistortionStrength => distortionStrength
      case ScanlineDensity => scanlineDensity
      case ScanlineStrength => scanlineStrength
      case PhosphorStrength => phosphorStrength
      case ChromaticAberrationStrength => chromaticAberrationStrength
      case BloomStrength => bloomStrength
      case NoiseStrength => noiseStrength
      case FlickerStrength => flickerStrength
      case VsyncGlitchStrength => vsyncGlitchStrength
      case VsyncGlitchSpeed => vsyncGlitchSpeed
      case VsyncGlitchBarHeight => vsyncGlitchBarHeight
    }

    /** Every parameter lies within its declared range. */
    predicate Valid()
    {
      forall p :: MinOf(p) <= Get(p) <= MaxOf(p)
    }

    /** The activity test: some pass-0 toggle or some pass-1 toggle is on. */
    predicate IsActive()
    {
      var pass0Active := enableDistortion || enableChromaticAberration;
      var pass1Active := enableScanlinesAndPhosphor || enableBloom || enableVsyncGlitch;
      pass0Active || pass1Active
    }

    /** The volume is never tile compatible. */
    function IsTileCompatible(): (r: bool)
      ensures !r
    {
      false
    }

    /** Writing a toggle: that toggle takes the value, nothing else changes. */
    function SetFlag(t: Toggle, b: bool): (v: CRTDistortionVolume)
      ensures v.Flag(t) == b
      ensures forall s :: s != t ==> v.Flag(s) == Flag(s)
      ensures forall p :: v.Get(p) == Get(p)
    {
      match t
      case Distortion => this.(enableDistortion := b)
      case ScanlinesAndPhosphor => this.(enableScanlinesAndPhosphor := b)
      case ChromaticAberration => this.(enableChromaticAberration := b)
      case Bloom => this.(enableBloom := b)
      case NoiseAndFlicker => this.(enableNoiseAndFlicker := b)
      case VsyncGlitch => this.(enableVsyncGlitch := b)
    }

    /**
     * Writing a clamped parameter: the parameter stores the nearest point of
     * its range to `x`, every other parameter and every toggle is unchanged,
     * and so the range invariant is preserved.
     */
    function SetParam(p: Param, x: real): (v: CRTDistortionVolume)
      ensures MinOf(p) <= v.Get(p) <= MaxOf(p)
      ensures MinOf(p) <= x <= MaxOf(p) ==> v.Get(p) == x
      ensures x < MinOf(p) ==> v.Get(p) == MinOf(p)
      ensures MaxOf(p) < x ==> v.Get(p) == MaxOf(p)
      ensures forall q :: q != p ==> v.Get(q) == Get(q)
      ensures forall t :: v.Flag(t) == Flag(t)
      ensures Valid() ==> v.Valid()
    {
      var c := Clamp(x, MinOf(p), MaxOf(p));
      match p
      case DistortionStrength => this.(distortionStrength := c)
      case ScanlineDensity => this.(scanlineDensity := c)
      case ScanlineStrength => this.(scanlineStrength := c)
      case PhosphorStrength => this.(phosphorStrength := c)
      case ChromaticAberrationStrength => this.(chromaticAberrationStrength := c)
      case BloomStrength => this.(bloomStrength := c)
      case NoiseStrength => this.(noiseStrength := c)
      case FlickerStrength => this.(flickerStrength := c)
      case VsyncGlitchStrength => this.(vsyncGlitchStrength := c)
      case VsyncGlitchSpeed => this.(vsyncGlitchSpeed := c)
      case VsyncGlitchBarHeight => this.(vsyncGlitchBarHeight := c)
    }
  }

  /** A volume as declared: every toggle on, every parameter at its default. */
  function DefaultVolume(): (v: CRTDistortionVolume)
    ensures forall t :: v.Flag(t)
    ensures forall p :: v.Get(p) == DefaultOf(p)
  {
    CRTDistortionVolume(
      true, DefaultOf(DistortionStrength),
      true, DefaultOf(ScanlineDensity), DefaultOf(ScanlineStrength), DefaultOf(PhosphorStrength),
      true, DefaultOf(ChromaticAberrationStrength),
      true, DefaultOf(BloomStrength),
      true, DefaultOf(NoiseStrength), DefaultOf(FlickerStrength),
      true, DefaultOf(VsyncGlitchStrength), DefaultOf(VsyncGlitchSpeed), DefaultOf(VsyncGlitchBarHeight))
  }

  /** The declared volume satisfies the range invariant. */
  lemma DefaultVolumeValid()
    ensures DefaultVolume().Valid()
  {
  }

  /** The toggles the activity test consults: all but noise-and-flicker. */
  predicate Gating(t: Toggle)
  {
    t != NoiseAndFlicker
  }

  /** Activity means exactly: some gating toggle is on. */
  lemma IsActiveIff(v: CRTDistortionVolume)
    ensures v.IsActive() <==> exists t :: Gating(t) && v.Flag(t)
  {
    if v.IsActive() {
      var t :| t in [Distortion, ChromaticAberration, ScanlinesAndPhosphor, Bloom, VsyncGlitch] && v.Flag(t);
      assert Gating(t);
    }
  }

  /** The noise-and-flicker toggle never changes the outcome of the activity test. */
  lemma NoiseAndFlickerIgnored(v: CRTDistortionVolume, b: bool)
    ensures v.SetFlag(NoiseAndFlicker, b).IsActive() == v.IsActive()
  {
  }

  /** With every toggle off the volume is inactive. */
  lemma AllOffInactive(v: CRTDistortionVolume)
    requires forall t :: !v.Flag(t)
    ensures !v.IsActive()
  {
    assert !v.Flag(Distortion) && !v.Flag(ChromaticAberration);
    assert !v.Flag(ScanlinesAndPhosphor) && !v.Flag(Bloom) && !v.Flag(VsyncGlitch);
  }

  /** Noise-and-flicker on and every other toggle off still gives an inactive volume. */
  lemma OnlyNoiseAndFlickerInactive(v: CRTDistortionVolume)
    requires v.Flag(NoiseAndFlicker)
    requires forall t :: t != NoiseAndFlicker ==> !v.Flag(t)
    ensures !v.IsActive()
  {
    assert !v.Flag(Distortion) && !v.Flag(ChromaticAberration);
    assert !v.Flag(ScanlinesAndPhosphor) && !v.Flag(Bloom) && !v.Flag(VsyncGlitch);
  }

  /** The declared volume is active. */
  lemma DefaultVolumeActive()
    ensures DefaultVolume().IsActive()
  {
  }

  /** Activity depends on the toggles alone. */
  lemma SameTogglesSameActivity(a: CRTDistortionVolume, b: CRTDistortionVolume)
    requires forall t :: a.Flag(t) == b.Flag(t)
    ensures a.IsActive() == b.IsActive()
  {
    assert a.Flag(Distortion) == b.Flag(Distortion) && a.Flag(ChromaticAberration) == b.Flag(ChromaticAberration);
    assert a.Flag(ScanlinesAndPhosphor) == b.Flag(ScanlinesAndPhosphor);
    assert a.Flag(Bloom) == b.Flag(Bloom) && a.Flag(VsyncGlitch) == b.Flag(VsyncGlitch);
  }

  /** A sequence of parameter writes, applied in order. */
  function ApplyParams(v: CRTDistortionVolume, ws: seq<(Param, real)>): CRTDistortionVolume
    decreases |ws|
  {
    if ws == [] then v else ApplyParams(v.SetParam(ws[0].0, ws[0].1), ws[1..])
  }

  /**
   * Whatever parameter writes a volume receives, in range or not, it keeps
   * the range invariant and its toggles, and so its activity.
   */
  lemma {:induction false} ApplyParamsKeepsInvariant(v: CRTDistortionVolume, ws: seq<(Param, real)>)
    requires v.Valid()
    ensures ApplyParams(v, ws).Valid()
    ensures forall t :: ApplyParams(v, ws).Flag(t) == v.Flag(t)
    ensures ApplyParams(v, ws).IsActive() == v.IsActive()
    decreases |ws|
  {
    if ws != [] {
      var v' := v.SetParam(ws[0].0, ws[0].1);
      ApplyParamsKeepsInvariant(v', ws[1..]);
      SameTogglesSameActivity(v', v);
    }
  }
}
