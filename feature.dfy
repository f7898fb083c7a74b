/**
 * The renderer feature that owns the effect's material and pass: it builds
 * them from the configured shader, decides each frame whether to enqueue
 * the pass, and releases the material on disposal.
 */
module CRTFeature {
  import opened Host
  import opened CRTVolume
  import opened CRTPass

  const MissingMaterialError := "CRTDistortionFeature: Missing material. CRTDistortionPass will not execute. Check for missing reference in the assigned renderer."

  /** The serialized settings: the effect shader (possibly unset) and the insertion stage. */
  datatype Settings = Settings(shader: Option<Shader>, renderPassEvent: RenderPassEvent)

  /** The settings as declared: no shader, insertion just before post-processing. */
  const DefaultSettings := Settings(None, BeforeRenderingPostProcessing)

  class CRTDistortionFeature {
    var settings: Settings
    var scriptablePass: CRTDistortionPass?
    var material: Material?

    /** A feature as the host deserializes it, before Create. */
    constructor (settings: Settings)
      ensures this.settings == settings && scriptablePass == null && material == null
    {
      this.settings := settings;
      scriptablePass := null;
      material := null;
    }

    /**
     * Builds a material when a shader is configured (and otherwise keeps the
     * material it had), then always builds a fresh pass bound to that
     * material, null or not.
     */
    method Create()
      modifies this`material, this`scriptablePass
      ensures settings.shader.Some? ==>
                && material != null && fresh(material) && material.Valid()
                && material.shader == settings.shader.value && material.uniforms == map[] && !material.destroyed
      ensures settings.shader.None? ==> material == old(material)
      ensures old(material) == null ==> (material != null <==> settings.shader.Some?)
      ensures scriptablePass != null && fresh(scriptablePass)
      ensures scriptablePass.material == material && scriptablePass.volume == None
      ensures scriptablePass.renderPassEvent == AfterRenderingOpaques
    {
      if settings.shader.Some? {
        material := new Material(settings.shader.value);
      }
      scriptablePass := new CRTDistortionPass(material);
    }

    /**
     * The per-frame gate. Without a (live) material or a pass it logs one
     * error and stops, without looking at the volume stack. Otherwise, if
     * the stack holds a volume and it is active, it binds the volume,
     * sets the insertion stage and enqueues the pass once; if not, nothing
     * happens and nothing is logged. `stackVolume` is the volume the host's
     * global stack returns, if any.
     */
    method AddRenderPasses(renderer: Renderer<CRTDistortionPass>, log: Log, stackVolume: Option<CRTDistortionVolume>)
      modifies renderer, log, scriptablePass
      ensures IsNull(material) || scriptablePass == null ==>
                && log.errors == old(log.errors) + [MissingMaterialError]
                && unchanged(renderer)
                && (scriptablePass != null ==> unchanged(scriptablePass))
      ensures !IsNull(material) && scriptablePass != null ==>
                && unchanged(log)
                && (if stackVolume.Some? && stackVolume.value.IsActive() then
                      && renderer.queue == old(renderer.queue) + [scriptablePass]
                      && scriptablePass.volume == stackVolume
                      && scriptablePass.renderPassEvent == settings.renderPassEvent
                    else
                      unchanged(renderer) && unchanged(scriptablePass))
    {
      if IsNull(material) || scriptablePass == null {
        log.LogError(MissingMaterialError);
        return;
      }
      var customVolume := stackVolume;
      if customVolume.Some? && customVolume.value.IsActive() {
        scriptablePass.Setup(customVolume.value);
        scriptablePass.renderPassEvent := settings.renderPassEvent;
        renderer.EnqueuePass(scriptablePass);
      }
    }

    /**
     * Destroys the material (if any) and forgets it. The pass keeps its
     * reference, which the host's null test now reports as null.
     */
    method Dispose()
      modifies this`material, material
      ensures material == null
      ensures old(material) != null ==>
                old(material).destroyed && old(material).uniforms == old(material.uniforms)
                && old(material).writes == old(material.writes)
    {
      Destroy(material);
      material := null;
    }
  }
}
