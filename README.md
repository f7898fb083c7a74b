# CRT distortion post-process: a Dafny model

This project models the core of a small render feature that adds a CRT
emulation filter to a real-time rendering pipeline. The model has three parts.

- **The configuration volume** (`CRTVolume`, volume.dfy). It holds six
  toggles and eleven clamped float parameters. Each parameter has a declared
  range and a default. `IsActive` is the activity test. Writing a parameter
  clamps the value to its range.
- **The render pass** (`CRTPass`, pass.dfy). This is a class holding the
  bound volume, a shared material and an insertion stage. `RecordRenderGraph`
  does nothing when the material or the volume is missing. Otherwise it
  publishes the screen resolution, creates one temporary texture shaped like
  the camera colour target and declares two passes. Pass 0 is
  "CRTDistortion": camera colour into the temporary texture, technique 0.
  Pass 1 is "CRTScanlinesAndPhosphor": the temporary texture back into the
  camera colour, technique 1. Each pass copies its volume values into its own
  record and into named material uniforms.
- **The renderer feature** (`CRTFeature`, feature.dfy). This is a class that
  owns the material and the pass. `Create` builds them. `AddRenderPasses` is
  the per-frame gate: it logs an error when something is missing and
  otherwise enqueues the pass when the volume is active. `Dispose` releases
  the material.

The host framework is a small abstract stand-in (`Host`, host.dfy):

- A material is a class whose uniform table is a `map` from name to value.
  It also keeps a ghost list of the writes it has received, in order.
- A render graph is a class with a list of textures and a list of pass
  declarations, both append-only. A texture handle is its index in that list.
- The renderer's queue and the error log are classes holding sequences.
- The global volume stack is replaced by an injected `Option` volume.
- The host's `== null` test on engine objects is `IsNull`. It is true for a
  missing reference and also for a destroyed material.

Floats are only copied, never computed with, so they are `real`s.

scenarios.dfy drives whole frames through these pieces. Each scenario states
as its postcondition what a caller can conclude from the contracts alone.

The feature's serialized settings are the `Settings` datatype, with the
effect shader (possibly unset) and the insertion stage
(CRTDistortionFeature.cs:9-14). `DefaultSettings` is the declared default:
no shader, inserted before post-processing.

`RecordRenderGraph` is verified against specification functions:

- `TempDesc` gives the temporary descriptor.
- `DeclaredPasses` gives the two pass declarations.
- `StagingWrites` gives the thirteen uniform writes, in source order.

The properties of those functions, and of replaying the writes
(`ApplyWrites`), are proved as their own contracts and as lemmas. The method
is split into helpers that follow the source's structure:

- `CreateTempTexture` covers the lines before the builder scopes.
- Each `using (var builder = …)` scope is its own method
  (`DeclareDistortionPass`, `DeclareScanlinesPass`).
- Pass 1's ten uniform writes are issued by three helpers, grouped by
  effect (`StageScanlines`, `StageBloomAndNoise`, `StageVsyncGlitch`).

The material writes are the same as the source's, in the same order. Each
scope's builder calls (the record's field assignments, `UseTexture`,
`SetRenderAttachment` and `SetRenderFunc`) become one pass declaration,
committed when the scope closes.

Facts of the code that the model keeps:

- The volume declares eleven clamped parameters.
- The chromatic-aberration default is 10.
- `AddRenderPasses` logs the missing-material error on every call made
  without a live material, not only on the first.

## Model

| member | source | states |
|---|---|---|
| `Host.ApplyWrites` | CRTDistortionPass.cs:60-117 | a material's uniforms after a list of SetFloat/SetVector writes, replayed in order as map updates; its laws are ApplyWritesSnoc, ApplyWritesLastWins and ApplyWritesAppend |
| `Host.ApplyWritesSnoc` | CRTDistortionPass.cs:60 | replaying one more write is one more map update of that write's name |
| `Host.ApplyWritesLastWins` | CRTDistortionPass.cs:108-117 | after a sequence of uniform writes, a name never written keeps its old state, and a written name holds the value of its last write |
| `Host.ApplyWritesAppend` | CRTDistortionPass.cs:60-117 | replaying two runs of writes one after the other equals replaying their concatenation |
| `Host.Material.SetFloat` | CRTDistortionPass.cs:77-78 | a scalar uniform write updates exactly that name in the uniform map and appends the write to the material's write list |
| `Host.Material.SetVector` | CRTDistortionPass.cs:60 | a vector uniform write updates exactly that name and appends the write |
| `Host.IsNull` | CRTDistortionFeature.cs:31 | the host's null test on an engine object (also at CRTDistortionPass.cs:51): true for a missing reference and for a destroyed material |
| `Host.Destroy` | CRTDistortionFeature.cs:50 | destroying accepts null; afterwards the host's null test holds of the material, and its uniforms are untouched |
| `Host.RenderGraph.GetTextureDesc` | CRTDistortionPass.cs:59 | the descriptor of a texture the graph knows, looked up by its handle |
| `Host.RenderGraph.CreateTexture` | CRTDistortionPass.cs:65 | a created texture gets a fresh handle, the next index, and its descriptor is appended |
| `Host.RenderGraph.AddRasterRenderPass` | CRTDistortionPass.cs:68-89 | a committed pass declaration is appended after every earlier one |
| `Host.Renderer.EnqueuePass` | CRTDistortionFeature.cs:44 | the pass is appended to the renderer's queue |
| `Host.Log.LogError` | CRTDistortionFeature.cs:33 | the message is appended to the error log |
| `CRTVolume.MinOf` | CRTDistortionVolume.cs:11-30 | the declared lower bound of each parameter: 0.01 for the vsync-glitch bar height, 0 for the other ten |
| `CRTVolume.MaxOf` | CRTDistortionVolume.cs:11-30 | the declared upper bound of each parameter, e.g. 0.5 for distortion, 1000 for scanline density, 50 for chromatic aberration |
| `CRTVolume.DefaultOf` | CRTDistortionVolume.cs:11-30 | the declared default of each parameter, e.g. 0.1 for distortion, 400 for scanline density, 10 for chromatic aberration |
| `CRTVolume.RangesWellFormed` | CRTDistortionVolume.cs:11-30 | every declared range has min <= max |
| `CRTVolume.DefaultsInRange` | CRTDistortionVolume.cs:11-30 | every declared default lies within its declared range (e.g. 0.1 in [0.01, 0.5], 400 in [0, 1000]) |
| `CRTVolume.Clamp` | CRTDistortionVolume.cs:11-30 | the clamping law: the result lies in [lo, hi], equals the input inside the range, and is the nearest bound outside it |
| `CRTVolume.CRTDistortionVolume.SetParam` | CRTDistortionVolume.cs:11-30 | writing a parameter stores the nearest point of its range; no other parameter and no toggle changes; the range invariant is preserved |
| `CRTVolume.CRTDistortionVolume.SetFlag` | CRTDistortionVolume.cs:10-27 | writing a toggle sets exactly that toggle and leaves the rest of the volume as it was |
| `CRTVolume.CRTDistortionVolume.IsActive` | CRTDistortionVolume.cs:32-38 | the activity test: distortion or chromatic aberration on (pass 0), or scanlines and phosphor, bloom or vsync glitch on (pass 1); IsActiveIff states what it means |
| `CRTVolume.CRTDistortionVolume.IsTileCompatible` | CRTDistortionVolume.cs:40 | the volume is never tile compatible |
| `CRTVolume.DefaultVolume` | CRTDistortionVolume.cs:10-30 | the declared volume has every toggle on and every parameter at its declared default |
| `CRTVolume.DefaultVolumeValid` | CRTDistortionVolume.cs:10-30 | the declared volume satisfies the range invariant |
| `CRTVolume.IsActiveIff` | CRTDistortionVolume.cs:32-38 | IsActive holds iff some toggle other than noise-and-flicker is on (both directions) |
| `CRTVolume.NoiseAndFlickerIgnored` | CRTDistortionVolume.cs:23-38 | flipping the noise-and-flicker toggle never changes IsActive |
| `CRTVolume.SameTogglesSameActivity` | CRTDistortionVolume.cs:32-38 | two volumes with the same toggles are equally active: the activity test reads no parameter |
| `CRTVolume.AllOffInactive` | CRTDistortionVolume.cs:32-38 | with every toggle off the volume is inactive |
| `CRTVolume.OnlyNoiseAndFlickerInactive` | CRTDistortionVolume.cs:23-38 | noise-and-flicker on and all other toggles off gives an inactive volume |
| `CRTVolume.DefaultVolumeActive` | CRTDistortionVolume.cs:10-38 | the declared volume (all toggles on) is active |
| `CRTVolume.ApplyParams` | CRTDistortionVolume.cs:11-30 | a sequence of writes to clamped parameters, applied in order through SetParam |
| `CRTVolume.ApplyParamsKeepsInvariant` | CRTDistortionVolume.cs:11-38 | any sequence of parameter writes, in range or not, keeps every parameter within its range and leaves the toggles and IsActive unchanged |
| `CRTPass.UniformName` | CRTDistortionPass.cs:77-117 | the material uniform each parameter is staged into, e.g. `_DistortionStrength` for the distortion strength |
| `CRTPass.UniformNamesDistinct` | CRTDistortionPass.cs:77-117 | each parameter is staged under its own uniform name, distinct from every other parameter's and from the resolution uniform |
| `CRTPass.ScreenResolution` | CRTDistortionPass.cs:60 | the resolution vector published to the shader, (width, height, 0, 0), also built at CRTDistortionPass.cs:99 |
| `CRTPass.TempDesc` | CRTDistortionPass.cs:63-65 | the temporary texture has the camera colour's width, height and format, renamed "CRTDistortionTempTexture" |
| `CRTPass.Pass0Record` | CRTDistortionPass.cs:71-74 | pass 0's record: the shared material, the camera colour as source, and the volume's distortion and chromatic-aberration strengths |
| `CRTPass.Pass1Record` | CRTDistortionPass.cs:94-105 | pass 1's record: the shared material, the temporary texture as source, the volume's nine other parameters and the camera's resolution |
| `CRTPass.DeclaredPasses` | CRTDistortionPass.cs:68-128 | exactly two passes, "CRTDistortion" then "CRTScanlinesAndPhosphor"; pass 0 reads the camera colour and writes the temporary texture; pass 1 reads what pass 0 wrote and writes what pass 0 read; techniques 0 and 1; each record's source is its pass's read and its material is the shared one; the records hold exactly the volume's values; pass 1's resolution is (width, height, 0, 0) |
| `CRTPass.RecordedValuesInRange` | CRTDistortionPass.cs:71-105 | a volume whose parameters lie in their declared ranges hands both passes values within those ranges |
| `CRTPass.StagingWrites` | CRTDistortionPass.cs:60-117 | thirteen writes; the resolution first, before pass 0, and again as the seventh write; every parameter's uniform at its own position, with its record's value; pass 0's parameters before pass 1's |
| `CRTPass.StagingWritesOnce` | CRTDistortionPass.cs:60-117 | apart from the first and seventh writes, no write touches the resolution uniform; each parameter's uniform is written only at its own position |
| `CRTPass.Pass0Writes` | CRTDistortionPass.cs:77-78 | the two writes of pass 0's scope: distortion, then chromatic aberration, from pass 0's record |
| `CRTPass.Pass1Writes` | CRTDistortionPass.cs:108-117 | the ten writes of pass 1's scope, in order: the scanline group, then bloom and noise, then vsync glitch |
| `CRTPass.ScanlineWrites` | CRTDistortionPass.cs:108-111 | scanline density, scanline strength, phosphor strength, then the resolution vector, from pass 1's record |
| `CRTPass.BloomAndNoiseWrites` | CRTDistortionPass.cs:112-114 | bloom, noise, then flicker strength, from pass 1's record |
| `CRTPass.VsyncGlitchWrites` | CRTDistortionPass.cs:115-117 | vsync-glitch strength, speed, then bar height, from pass 1's record |
| `CRTPass.StagingWritesByScope` | CRTDistortionPass.cs:60-117 | the staging order is the resolution write before the scopes, then pass 0's scope writes, then pass 1's |
| `CRTPass.StagedUniforms` | CRTDistortionPass.cs:59-117 | after one recording, each parameter's uniform equals the value its pass record holds, which equals the volume's value; the resolution uniform equals pass 1's resolution, (width, height, 0, 0); every other uniform is untouched |
| `CRTPass.RestagingForgetsEarlierFrames` | CRTDistortionPass.cs:59-111 | one recording leaves every staged uniform with the same value whatever state the material started in, so no value from an earlier frame survives |
| `CRTPass.CRTDistortionPass.constructor` | CRTDistortionPass.cs:38-42 | a new pass holds the given material (possibly null) and no volume |
| `CRTPass.CRTDistortionPass.Setup` | CRTDistortionPass.cs:44-47 | binds the volume and changes nothing else (its frame is the volume field only) |
| `CRTPass.CRTDistortionPass.RecordRenderGraph` | CRTDistortionPass.cs:49-129 | with a null or destroyed material or no volume: graph and material unchanged; otherwise the temporary texture (a new handle, distinct from the camera colour) is appended, the two DeclaredPasses are appended, and the material receives exactly StagingWrites, leaving its uniforms equal to their replay over the old uniforms |
| `CRTPass.CRTDistortionPass.CreateTempTexture` | CRTDistortionPass.cs:59-65 | the camera colour's descriptor is read; the resolution is written to the material, as the only write; one texture is appended, the renamed descriptor, under a new handle distinct from the camera colour's |
| `CRTPass.CRTDistortionPass.DeclareDistortionPass` | CRTDistortionPass.cs:68-89 | pass 0's record is filled from the volume, its two uniforms are written in order, and its declaration is appended |
| `CRTPass.CRTDistortionPass.DeclareScanlinesPass` | CRTDistortionPass.cs:91-128 | pass 1's record is filled from the volume and the camera size; its ten uniforms are written in order; its declaration is appended |
| `CRTPass.CRTDistortionPass.StageScanlines` | CRTDistortionPass.cs:108-111 | the material receives exactly the scanline group's four writes, in order, and stays valid |
| `CRTPass.CRTDistortionPass.StageBloomAndNoise` | CRTDistortionPass.cs:112-114 | the material receives exactly the bloom, noise and flicker writes, in order |
| `CRTPass.CRTDistortionPass.StageVsyncGlitch` | CRTDistortionPass.cs:115-117 | the material receives exactly the three vsync-glitch writes, in order |
| `CRTFeature.CRTDistortionFeature.constructor` | CRTDistortionFeature.cs:9-19 | a feature starts with its settings, no pass and no material |
| `CRTFeature.CRTDistortionFeature.Create` | CRTDistortionFeature.cs:21-27 | a fresh material from the shader when one is set, otherwise the material is kept; from a feature without a material, the material is set iff the shader is; a fresh pass is always built, bound to that material (possibly null) |
| `CRTFeature.CRTDistortionFeature.AddRenderPasses` | CRTDistortionFeature.cs:29-46 | with no live material or no pass: exactly one error logged, queue and pass untouched; otherwise nothing logged, and the pass is enqueued once, bound to the found volume and set to the configured stage, iff a volume exists and is active; else nothing changes |
| `CRTFeature.CRTDistortionFeature.Dispose` | CRTDistortionFeature.cs:48-52 | the material is destroyed (when there is one) and the field becomes null |
| `Scenarios.MissingShaderFrame` | CRTDistortionFeature.cs:21-35 | with no shader, a frame logs exactly one error and enqueues nothing, even with an active volume |
| `Scenarios.InactiveFrames` | CRTDistortionFeature.cs:37-46 | with no volume on the stack, or a volume with every toggle off, nothing is enqueued and nothing is logged |
| `Scenarios.DistortionOnly` | CRTDistortionVolume.cs:10-38 | the declared volume with only distortion left on (strength 0.3) is active, and its chromatic-aberration strength is still the declared default 10 |
| `Scenarios.DistortionOnlyEnqueued` | CRTDistortionFeature.cs:13-45 | with only distortion on, the pass is enqueued once with that volume, at the default stage BeforeRenderingPostProcessing |
| `Scenarios.DistortionOnlyRecorded` | CRTDistortionPass.cs:49-128 | with only distortion on, both passes are still declared, in order; pass 0 receives distortion 0.3 and chromatic aberration 10 |
| `Scenarios.RecordFrame` | CRTDistortionPass.cs:59-65 | recording one frame against a camera target leaves the temporary texture with that target's shape and the material publishing that target's resolution |
| `Scenarios.ResizedFrames` | CRTDistortionPass.cs:59-65 | after a resize from 1920x1080 to 1280x720, the next frame's temporary texture and published resolution follow the new size |
| `Scenarios.DisposeTwice` | CRTDistortionFeature.cs:48-52 | disposing twice leaves the material null both times; the pass built earlier then records nothing |

## Left out

- Render-graph execution, `Blitter.BlitTexture`, command buffers and texture allocation are host calls. A pass is represented only by its declaration. That declaration holds the name, the read and written handles, the technique index its render function blits with, and its parameter record. The constant scale-bias vector (1, 1, 0, 0) passed to the blit is not recorded.
- `ProfilingSampler`, the serialization attributes and `VolumeComponentMenu` are editor plumbing.
- Shader behaviour and the visual effect are not in these files.
- Float behaviour (NaN, rounding) is not modelled: floats are `real`s and are only copied. Converting the integer width and height to floats is exact in the model. A 32-bit float is exact for sizes up to 2^24, which is above any texture size the host allows.
- `CoreUtils.CreateEngineMaterial` always succeeds when a shader is set. Its failure inside the host is not modelled.
- A new pass's default insertion stage, AfterRenderingOpaques, is the host's default for render passes. It is taken as given.
- Volume blending, override states and the `VolumeManager` registry are not modelled. The looked-up volume is an injected optional value.
- The volume is bound as a value. Changes the host makes to the live volume between `Setup` and recording are not captured.
- When and on which thread the deferred render functions run belongs to the host scheduler. Only their declared order and technique index are modelled.
- CRTFeature.CRTDistortionFeature.AddRenderPasses: "the volume stack is not consulted on the error path" is stated only as "the outcome on that path does not depend on the injected volume". The lookup itself is outside the model.
- CRTFeature.CRTDistortionFeature.Create: leaking an earlier material when `Create` runs again is not modelled, because the model has no notion of leaks.
- The `disposing` flag of `Dispose` is not modelled, because the code ignores it.
