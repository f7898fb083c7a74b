/**
 * A small, abstract stand-in for the parts of the host rendering framework
 * that the CRT effect talks to: materials and their named uniforms, texture
 * handles and descriptors, the per-frame render graph (as an append-only
 * list of pass declarations), the renderer's pass queue and the error log.
 * None of these execute anything; they only record what the effect asks of
 * them.
 */
module Host {

  datatype Option<+T> = None | Some(value: T)

  /** A four-component shader vector. Floats are only copied, so reals stand for them. */
  datatype Vector4 = Vector4(x: real, y: real, z: real, w: real)

  /** A value held by a named material uniform: a scalar (SetFloat) or a vector (SetVector). */
  datatype UniformValue = Float(f: real) | Vector(v: Vector4)

  /** One uniform assignment, in the order the effect issues it. */
  datatype UniformWrite = UniformWrite(name: string, value: UniformValue)

  /** The state of a material's uniforms after replaying `ws` in order on top of `u`. */
  function ApplyWrites(u: map<string, UniformValue>, ws: seq<UniformWrite>): map<string, UniformValue>
    decreases |ws|
  {
    if ws == [] then u
    else ApplyWrites(u, ws[..|ws| - 1])[ws[|ws| - 1].name := ws[|ws| - 1].value]
  }

  /** No write in `ws` after position `i` (exclusive) names `k`. */
  predicate NoLaterWrite(ws: seq<UniformWrite>, i: int, k: string)
    requires -1 <= i < |ws|
  {
    forall j :: i < j < |ws| ==> ws[j].name != k
  }

  /**
   * Last write wins: a uniform that `ws` never names keeps its old state, and
   * one that it names ends up holding the value of the last write to it.
   */
  lemma {:induction false} ApplyWritesLastWins(u: map<string, UniformValue>, ws: seq<UniformWrite>, k: string, i: int)
    requires -1 <= i < |ws|
    requires i >= 0 ==> ws[i].name == k
    requires NoLaterWrite(ws, i, k)
    ensures i < 0 ==> (k in ApplyWrites(u, ws) <==> k in u)
    ensures i < 0 && k in u ==> ApplyWrites(u, ws)[k] == u[k]
    ensures i >= 0 ==> k in ApplyWrites(u, ws) && ApplyWrites(u, ws)[k] == ws[i].value
    decreases |ws|
  {
    if ws != [] {
      var last := |ws| - 1;
      if i < last {
        ApplyWritesLastWins(u, ws[..last], k, i);
      }
    }
  }

  /** Replaying two lists of writes one after the other is replaying their concatenation. */
  lemma {:induction false} ApplyWritesAppend(u: map<string, UniformValue>, a: seq<UniformWrite>, b: seq<UniformWrite>)
    ensures ApplyWrites(u, a + b) == ApplyWrites(ApplyWrites(u, a), b)
    decreases |b|
  {
    if b != [] {
      var last := |b| - 1;
      assert (a + b)[..|a + b| - 1] == a + b[..last];
      ApplyWritesAppend(u, a, b[..last]);
    } else {
      assert a + b == a;
    }
  }

  /** Appending one write to the replayed list is one more map update. */
  lemma ApplyWritesSnoc(u: map<string, UniformValue>, ws: seq<UniformWrite>, w: UniformWrite)
    ensures ApplyWrites(u, ws + [w]) == ApplyWrites(u, ws)[w.name := w.value]
  {
    assert (ws + [w])[..|ws|] == ws;
  }

  /** A shader asset reference, identified only by an opaque id. */
  datatype Shader = Shader(id: nat)

  /**
   * A material instantiated from a shader (CoreUtils.CreateEngineMaterial).
   * Its uniform table is a map from uniform name to value; `writes` is the
   * list of assignments it has received, in order, and `Valid` ties the two.
   * `destroyed` records CoreUtils.Destroy, after which the host's null test
   * reports the material as null.
   */
  class Material {
    const shader: Shader
    var uniforms: map<string, UniformValue>
    ghost var writes: seq<UniformWrite>
    var destroyed: bool

    ghost predicate Valid()
      reads this
    {
      uniforms == ApplyWrites(map[], writes)
    }

    constructor (shader: Shader)
      ensures Valid()
      ensures this.shader == shader && uniforms == map[] && writes == [] && !destroyed
    {
      this.shader := shader;
      uniforms := map[];
      writes := [];
      destroyed := false;
    }

    method SetFloat(name: string, x: real)
      requires Valid()
      modifies this`uniforms, this`writes
      ensures Valid()
      ensures uniforms == old(uniforms)[name := Float(x)]
      ensures writes == old(writes) + [UniformWrite(name, Float(x))]
    {
      ApplyWritesSnoc(map[], writes, UniformWrite(name, Float(x)));
      uniforms := uniforms[name := Float(x)];
      writes := writes + [UniformWrite(name, Float(x))];
    }

    method SetVector(name: string, v: Vector4)
      requires Valid()
      modifies this`uniforms, this`writes
      ensures Valid()
      ensures uniforms == old(uniforms)[name := Vector(v)]
      ensures writes == old(writes) + [UniformWrite(name, Vector(v))]
    {
      ApplyWritesSnoc(map[], writes, UniformWrite(name, Vector(v)));
      uniforms := uniforms[name := Vector(v)];
      writes := writes + [UniformWrite(name, Vector(v))];
    }
  }

  /**
   * The host's `== null` test on an engine object: true for a missing
   * reference and also for an object that has been destroyed.
   */
  predicate IsNull(m: Material?)
    reads m
  {
    m == null || m.destroyed
  }

  /** CoreUtils.Destroy: accepts null and otherwise destroys the material. */
  method Destroy(m: Material?)
    modifies m
    ensures m != null ==> m.destroyed && m.uniforms == old(m.uniforms) && m.writes == old(m.writes)
    ensures IsNull(m)
  {
    if m != null {
      m.destroyed := true;
    }
  }

  /** A render-graph texture handle: the index of the texture in the graph. */
  datatype TextureHandle = TextureHandle(id: nat)

  /** A texture descriptor: size, an opaque format, and a debug name. */
  datatype TextureDesc = TextureDesc(width: nat, height: nat, format: nat, name: string)

  /** The frame-scoped resource data: which texture is the camera's active colour target. */
  datatype ResourceData = ResourceData(activeColorTexture: TextureHandle)

  /**
   * One declared raster pass: its debug name, the texture it reads, the
   * colour attachment it writes, the shader technique its render function
   * blits with, and the parameter record its render function closes over.
   */
  datatype PassDecl<D> = PassDecl(name: string, read: TextureHandle, write: TextureHandle, technique: nat, data: D)

  /**
   * The per-frame render graph, as far as the effect sees it: the textures it
   * knows (imported ones first, then the ones created this frame, a handle
   * being the index) and the passes declared so far, in declaration order.
   */
  class RenderGraph<D> {
    var textures: seq<TextureDesc>
    var passes: seq<PassDecl<D>>

    constructor (imported: seq<TextureDesc>)
      ensures textures == imported && passes == []
    {
      textures := imported;
      passes := [];
    }

    function GetTextureDesc(h: TextureHandle): TextureDesc
      reads this
      requires h.id < |textures|
    {
      textures[h.id]
    }

    method CreateTexture(desc: TextureDesc) returns (h: TextureHandle)
      modifies this`textures
      ensures h.id == |old(textures)| && textures == old(textures) + [desc]
    {
      h := TextureHandle(|textures|);
      textures := textures + [desc];
    }

    /** Commits a pass declaration, as leaving the builder's scope does. */
    method AddRasterRenderPass(decl: PassDecl<D>)
      modifies this`passes
      ensures passes == old(passes) + [decl]
    {
      passes := passes + [decl];
    }
  }

  /** The pipeline stage a pass is inserted at. */
  datatype RenderPassEvent =
    | BeforeRendering
    | BeforeRenderingShadows
    | AfterRenderingShadows
    | BeforeRenderingPrePasses
    | AfterRenderingPrePasses
    | BeforeRenderingGbuffer
    | AfterRenderingGbuffer
    | BeforeRenderingDeferredLights
    | AfterRenderingDeferredLights
    | BeforeRenderingOpaques
    | AfterRenderingOpaques
    | BeforeRenderingSkybox
    | AfterRenderingSkybox
    | BeforeRenderingTransparents
    | AfterRenderingTransparents
    | BeforeRenderingPostProcessing
    | AfterRenderingPostProcessing
    | AfterRendering

  /** The renderer's queue of passes enqueued for the current frame. */
  class Renderer<P> {
    var queue: seq<P>

    constructor ()
      ensures queue == []
    {
      queue := [];
    }

    method EnqueuePass(p: P)
      modifies this
      ensures queue == old(queue) + [p]
    {
      queue := queue + [p];
    }
  }

  /** The host's error log (Debug.LogError). */
  class Log {
    var errors: seq<string>

    constructor ()
      ensures errors == []
    {
      errors := [];
    }

    method LogError(msg: string)
      modifies this
      ensures errors == old(errors) + [msg]
    {
      errors := errors + [msg];
    }
  }
}
