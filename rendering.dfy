/**
 * The per-frame pass sequencing of main.cpp (myGlutDisplay, drawModel, doSSAO,
 * doBlur) over an abstract OpenGL context. Only the state the passes reconfigure
 * is kept: the bound framebuffer, the three attachments and the draw-buffer list
 * of the offscreen framebuffer object `framebuffer`, the current program, the
 * active texture unit and the texture bound on each unit. Every clear, draw and
 * buffer swap is appended to `trace` with a snapshot of the target it writes and
 * of the textures its program samples, so that the pass order and the attachment
 * configuration can be stated about a whole frame.
 */
module Rendering {
  import opened Camera
  import opened ModelLoading

  datatype Option<T> = None | Some(value: T)

  /** The textures created by initializeOpenGL. */
  datatype Texture = DepthTexture | ColorTexture | NormalTexture | AoTexture | RandomTexture

  /** What an attachment point of the offscreen framebuffer holds. */
  datatype Attachment = Detached | TextureImage(texture: Texture) | DepthRenderbuffer

  datatype AttachmentPoint = Color0Point | Color1Point | DepthPoint

  /** The entries of a glDrawBuffers list. */
  datatype ColorBuffer = ColorAttachment0 | ColorAttachment1

  /** Framebuffer 0 (the window) or the one framebuffer object of the program. */
  datatype Framebuffer = DefaultFramebuffer | SceneFramebuffer

  datatype Program = NoProgram | PhongProgram | AoProgram | BlurProgram

  /** Where a clear or a draw writes: the window, or the offscreen framebuffer
      with its attachments and draw buffers at that moment. */
  datatype Target =
    | Window
    | Offscreen(color0: Attachment, color1: Attachment, depth: Attachment, drawBuffers: seq<ColorBuffer>)

  /** One observable GL command: glClear, glDrawArrays (with the program, the
      target, the texture on each sampler unit the program reads, and the vertex
      count) or glutSwapBuffers. */
  datatype Event =
    | Clear(target: Target)
    | Draw(program: Program, target: Target, sampled: seq<Option<Texture>>, count: int)
    | Swap

  const FloorVertexCount := 6
  const QuadVertexCount := 4

  /** The texture units a program's samplers are set to: the ssao shader reads
      depthTex, normTex and randomTex on units 0, 1, 2, the blur shader aoTex and
      colorTex on units 0, 1; the phong shader has no sampler. */
  function SamplerUnits(p: Program): (us: seq<nat>)
    ensures |us| <= 3
    ensures forall i :: 0 <= i < |us| ==> us[i] == i
  {
    match p
    case AoProgram => [0, 1, 2]
    case BlurProgram => [0, 1]
    case _ => []
  }

  /** The textures bound on the given units, in order. */
  function SampledTextures(units: map<nat, Texture>, us: seq<nat>): (ts: seq<Option<Texture>>)
    ensures |ts| == |us|
    ensures forall i :: 0 <= i < |us| ==>
              ts[i] == (if us[i] in units then Some(units[us[i]]) else None)
  {
    if us == [] then []
    else [if us[0] in units then Some(units[us[0]]) else None] + SampledTextures(units, us[1..])
  }

  /** The state of the GL context that the passes touch. */
  class GlContext {
    var bound: Framebuffer
    var color0: Attachment
    var color1: Attachment
    var depth: Attachment
    var drawBuffers: seq<ColorBuffer>
    var program: Program
    var activeUnit: nat
    var units: map<nat, Texture>
    var trace: seq<Event>

    /** The target a clear or draw writes with the current bindings. */
    function CurrentTarget(): (t: Target)
      reads this
      ensures t.Window? <==> bound == DefaultFramebuffer
      ensures t.Offscreen? ==> t == Offscreen(color0, color1, depth, drawBuffers)
    {
      if bound == DefaultFramebuffer then Window
      else Offscreen(color0, color1, depth, drawBuffers)
    }

    /** The textures the current program samples. */
    function Sampled(): seq<Option<Texture>>
      reads this
    {
      SampledTextures(units, SamplerUnits(program))
    }

    /** The context after initializeOpenGL: nothing attached yet, unit 0 active,
        and unit 0 left holding the last texture bound there, the random texture. */
    constructor ()
      ensures bound == DefaultFramebuffer && program == NoProgram
      ensures color0 == Detached && color1 == Detached && depth == Detached
      ensures drawBuffers == [ColorAttachment0]
      ensures activeUnit == 0 && units == map[0 := RandomTexture]
      ensures trace == []
    {
      bound := DefaultFramebuffer;
      color0, color1, depth := Detached, Detached, Detached;
      drawBuffers := [ColorAttachment0];
      program := NoProgram;
      activeUnit := 0;
      units := map[];
      trace := [];
      new;
      ActiveTexture(0);
      BindTexture(DepthTexture);
      BindTexture(ColorTexture);
      BindTexture(NormalTexture);
      BindTexture(AoTexture);
      BindTexture(RandomTexture);
    }

    /** glBindFramebuffer. */
    method BindFramebuffer(f: Framebuffer)
      modifies this
      ensures bound == f
      ensures unchanged(`color0, `color1, `depth, `drawBuffers, `program, `activeUnit, `units, `trace)
    {
      bound := f;
    }

    /** glFramebufferTexture2D / glFramebufferRenderbuffer on the bound framebuffer
        object (framebuffer 0 has no attachment points to change). */
    method Attach(point: AttachmentPoint, a: Attachment)
      requires bound == SceneFramebuffer
      modifies this
      ensures color0 == (if point == Color0Point then a else old(color0))
      ensures color1 == (if point == Color1Point then a else old(color1))
      ensures depth == (if point == DepthPoint then a else old(depth))
      ensures unchanged(`bound, `drawBuffers, `program, `activeUnit, `units, `trace)
    {
      match point
      case Color0Point => color0 := a;
      case Color1Point => color1 := a;
      case DepthPoint => depth := a;
    }

    /** glDrawBuffers (and glDrawBuffer, a list of one) on the framebuffer object. */
    method SetDrawBuffers(bufs: seq<ColorBuffer>)
      requires bound == SceneFramebuffer
      modifies this
      ensures drawBuffers == bufs
      ensures unchanged(`bound, `color0, `color1, `depth, `program, `activeUnit, `units, `trace)
    {
      drawBuffers := bufs;
    }

    /** glClear of the colour and depth buffers of the current target. */
    method ClearBuffers()
      modifies this
      ensures trace == old(trace) + [Clear(old(CurrentTarget()))]
      ensures unchanged(`bound, `color0, `color1, `depth, `drawBuffers, `program, `activeUnit, `units)
    {
      trace := trace + [Clear(CurrentTarget())];
    }

    /** glUseProgram. */
    method UseProgram(p: Program)
      modifies this
      ensures program == p
      ensures unchanged(`bound, `color0, `color1, `depth, `drawBuffers, `activeUnit, `units, `trace)
    {
      program := p;
    }

    /** glActiveTexture. */
    method ActiveTexture(unit: nat)
      modifies this
      ensures activeUnit == unit
      ensures unchanged(`bound, `color0, `color1, `depth, `drawBuffers, `program, `units, `trace)
    {
      activeUnit := unit;
    }

    /** glBindTexture(GL_TEXTURE_2D, t) on the active unit. */
    method BindTexture(t: Texture)
      modifies this
      ensures units == old(units)[activeUnit := t]
      ensures unchanged(`bound, `color0, `color1, `depth, `drawBuffers, `program, `activeUnit, `trace)
    {
      units := units[activeUnit := t];
    }

    /** glDrawArrays with the current program into the current target. */
    method DrawArrays(count: int)
      modifies this
      ensures trace == old(trace) + [Draw(program, old(CurrentTarget()), old(Sampled()), count)]
      ensures unchanged(`bound, `color0, `color1, `depth, `drawBuffers, `program, `activeUnit, `units)
    {
      trace := trace + [Draw(program, CurrentTarget(), Sampled(), count)];
    }

    /** glutSwapBuffers. */
    method SwapBuffers()
      modifies this
      ensures trace == old(trace) + [Swap]
      ensures unchanged(`bound, `color0, `color1, `depth, `drawBuffers, `program, `activeUnit, `units)
    {
      trace := trace + [Swap];
    }
  }

  /** The configuration drawModel(true) gives the framebuffer object: colour,
      normals and depth rendered to textures through two draw buffers. */
  const GeometryTarget := Offscreen(TextureImage(ColorTexture), TextureImage(NormalTexture),
                                    TextureImage(DepthTexture), [ColorAttachment0, ColorAttachment1])

  /** The configuration doSSAO gives it: occlusion to the ao texture, nothing on
      COLOR1, the depth renderbuffer for depth, one draw buffer. */
  const OcclusionTarget := Offscreen(TextureImage(AoTexture), Detached, DepthRenderbuffer,
                                     [ColorAttachment0])

  /** The commands of drawModel: a clear, then the model and the floor. */
  function GeometryPass(ssao: bool, faceIndexCount: int): seq<Event> {
    var t := if ssao then GeometryTarget else Window;
    [Clear(t), Draw(PhongProgram, t, [], faceIndexCount), Draw(PhongProgram, t, [], FloorVertexCount)]
  }

  /** The commands of doSSAO: a clear and a full-screen quad sampling depth,
      normals and random directions. */
  function OcclusionPass(): seq<Event> {
    [Clear(OcclusionTarget),
     Draw(AoProgram, OcclusionTarget, [Some(DepthTexture), Some(NormalTexture), Some(RandomTexture)],
          QuadVertexCount)]
  }

  /** The commands of doBlur: a clear of the window and a full-screen quad
      sampling occlusion and colour. */
  function BlurPass(): seq<Event> {
    [Clear(Window), Draw(BlurProgram, Window, [Some(AoTexture), Some(ColorTexture)], QuadVertexCount)]
  }

  /** The commands of one myGlutDisplay call. */
  function FrameEvents(ambientOcclusion: bool, faceIndexCount: int): seq<Event> {
    if ambientOcclusion then GeometryPass(true, faceIndexCount) + OcclusionPass() + BlurPass() + [Swap]
    else [Clear(Window)] + GeometryPass(false, faceIndexCount) + [Swap]
  }

  /** drawModel: bind the target (configuring the framebuffer object when ssao
      is on), clear, and draw the model and the floor with the phong program. */
  method DrawModel(gl: GlContext, ssao: bool, faceIndexCount: int)
    modifies gl
    ensures gl.trace == old(gl.trace) + GeometryPass(ssao, faceIndexCount)
    ensures gl.program == PhongProgram
    ensures ssao ==> gl.CurrentTarget() == GeometryTarget
    ensures !ssao ==> gl.bound == DefaultFramebuffer && gl.color0 == old(gl.color0)
                      && gl.color1 == old(gl.color1) && gl.depth == old(gl.depth)
                      && gl.drawBuffers == old(gl.drawBuffers)
    ensures gl.activeUnit == old(gl.activeUnit) && gl.units == old(gl.units)
  {
    if ssao {
      gl.BindFramebuffer(SceneFramebuffer);
      gl.Attach(Color0Point, TextureImage(ColorTexture));
      gl.Attach(Color1Point, TextureImage(NormalTexture));
      gl.Attach(DepthPoint, TextureImage(DepthTexture));
      gl.SetDrawBuffers([ColorAttachment0, ColorAttachment1]);
    } else {
      gl.BindFramebuffer(DefaultFramebuffer);
    }
    gl.ClearBuffers();
    gl.UseProgram(PhongProgram);
    gl.DrawArrays(faceIndexCount);
    gl.DrawArrays(FloorVertexCount);
  }

  /** doSSAO: reconfigure the framebuffer object for the occlusion texture, bind
      depth, normal and random textures to units 0, 1, 2 and draw a quad. */
  method DoSsao(gl: GlContext)
    modifies gl
    ensures gl.trace == old(gl.trace) + OcclusionPass()
    ensures gl.CurrentTarget() == OcclusionTarget && gl.program == AoProgram
    ensures gl.activeUnit == 0
    ensures gl.units == old(gl.units)[0 := DepthTexture][1 := NormalTexture][2 := RandomTexture]
  {
    AttachOcclusionTarget(gl);
    gl.ClearBuffers();
    gl.UseProgram(AoProgram);
    BindOcclusionInputs(gl);
    assert gl.Sampled() == [Some(DepthTexture), Some(NormalTexture), Some(RandomTexture)];
    gl.DrawArrays(QuadVertexCount);
  }

  /** The framebuffer half of doSSAO: one draw buffer, the occlusion texture on
      COLOR0, COLOR1 emptied, the depth texture swapped for the renderbuffer. */
  method AttachOcclusionTarget(gl: GlContext)
    modifies gl
    ensures gl.CurrentTarget() == OcclusionTarget
    ensures unchanged(gl`program, gl`activeUnit, gl`units, gl`trace)
  {
    gl.BindFramebuffer(SceneFramebuffer);
    gl.SetDrawBuffers([ColorAttachment0]);
    gl.Attach(Color0Point, TextureImage(AoTexture));
    gl.Attach(Color1Point, Detached);
    gl.Attach(DepthPoint, Detached);
    gl.Attach(DepthPoint, DepthRenderbuffer);
  }

  /** The texture half of doSSAO: depth, normals and random directions on units
      0, 1 and 2, leaving unit 0 active. */
  method BindOcclusionInputs(gl: GlContext)
    modifies gl
    ensures gl.activeUnit == 0
    ensures gl.units == old(gl.units)[0 := DepthTexture][1 := NormalTexture][2 := RandomTexture]
    ensures unchanged(gl`bound, gl`color0, gl`color1, gl`depth, gl`drawBuffers, gl`program, gl`trace)
  {
    gl.ActiveTexture(0);
    gl.BindTexture(DepthTexture);
    gl.ActiveTexture(1);
    gl.BindTexture(NormalTexture);
    gl.ActiveTexture(2);
    gl.BindTexture(RandomTexture);
    gl.ActiveTexture(0);
  }

  /** doBlur: render to the window, sampling the occlusion texture on unit 0 and
      the colour texture on unit 1. */
  method DoBlur(gl: GlContext)
    modifies gl
    ensures gl.trace == old(gl.trace) + BlurPass()
    ensures gl.bound == DefaultFramebuffer && gl.program == BlurProgram
    ensures gl.color0 == old(gl.color0) && gl.color1 == old(gl.color1) && gl.depth == old(gl.depth)
    ensures gl.drawBuffers == old(gl.drawBuffers)
    ensures gl.activeUnit == 0 && gl.units == old(gl.units)[0 := AoTexture][1 := ColorTexture]
  {
    gl.BindFramebuffer(DefaultFramebuffer);
    gl.ClearBuffers();
    gl.UseProgram(BlurProgram);
    gl.ActiveTexture(0);
    gl.BindTexture(AoTexture);
    gl.ActiveTexture(1);
    gl.BindTexture(ColorTexture);
    gl.ActiveTexture(0);
    assert gl.Sampled() == [Some(AoTexture), Some(ColorTexture)];
    gl.DrawArrays(QuadVertexCount);
  }

  /** myGlutDisplay: the three passes when ambient occlusion is on, a plain draw
      to the window otherwise, then the buffer swap. */
  method Display(gl: GlContext, app: AppState, loader: ModelLoader)
    modifies gl
    ensures gl.trace == old(gl.trace) + FrameEvents(app.ambientOcclusionState != 0, loader.faceIndexCount)
    ensures gl.bound == DefaultFramebuffer
  {
    if app.ambientOcclusionState != 0 {
      DrawModel(gl, true, loader.faceIndexCount);
      DoSsao(gl);
      DoBlur(gl);
    } else {
      gl.BindFramebuffer(DefaultFramebuffer);
      gl.ClearBuffers();
      DrawModel(gl, false, loader.faceIndexCount);
    }
    gl.SwapBuffers();
  }

  // Properties of a frame

  /** Texture t is attached to target (so a draw into the target writes it). */
  predicate Attached(target: Target, t: Texture) {
    target.Offscreen? && TextureImage(t) in [target.color0, target.color1, target.depth]
  }

  /** A draw samples texture t. */
  predicate Samples(e: Event, t: Texture) {
    e.Draw? && Some(t) in e.sampled
  }

  /** No draw samples a texture that is attached to the framebuffer it renders
      into (an OpenGL rendering feedback loop). */
  predicate FeedbackFree(e: Event) {
    forall t :: Samples(e, t) ==> !Attached(e.target, t)
  }

  /** Every draw of every frame is free of feedback loops. */
  lemma FrameIsFeedbackFree(ambientOcclusion: bool, faceIndexCount: int)
    ensures forall i :: 0 <= i < |FrameEvents(ambientOcclusion, faceIndexCount)| ==>
              FeedbackFree(FrameEvents(ambientOcclusion, faceIndexCount)[i])
  {
    var es := FrameEvents(ambientOcclusion, faceIndexCount);
    forall i, t | 0 <= i < |es| && Samples(es[i], t)
      ensures !Attached(es[i].target, t)
    {
      if ambientOcclusion {
        assert i == 4 || i == 6;
      }
    }
  }

  /** The occlusion program runs in a frame if and only if ambient occlusion is on. */
  lemma OcclusionPassIffEnabled(ambientOcclusion: bool, faceIndexCount: int)
    ensures (exists i :: 0 <= i < |FrameEvents(ambientOcclusion, faceIndexCount)|
               && FrameEvents(ambientOcclusion, faceIndexCount)[i].Draw?
               && FrameEvents(ambientOcclusion, faceIndexCount)[i].program == AoProgram)
            <==> ambientOcclusion
  {
    var es := FrameEvents(ambientOcclusion, faceIndexCount);
    if ambientOcclusion {
      assert es[4].Draw? && es[4].program == AoProgram;
    } else {
      forall i | 0 <= i < |es| && es[i].Draw? ensures es[i].program == PhongProgram {
        assert i == 2 || i == 3;
      }
    }
  }

  /** Each texture a draw samples (except the random directions, uploaded once by
      initializeOpenGL) was rendered earlier in the same frame: the occlusion
      pass reads what the geometry pass wrote, the blur pass what the geometry
      and occlusion passes wrote. */
  lemma SampledAfterWritten(ambientOcclusion: bool, faceIndexCount: int)
    ensures var es := FrameEvents(ambientOcclusion, faceIndexCount);
            forall k, t :: 0 <= k < |es| && Samples(es[k], t) && t != RandomTexture ==>
              exists j :: 0 <= j < k && es[j].Draw? && Attached(es[j].target, t)
  {
    var es := FrameEvents(ambientOcclusion, faceIndexCount);
    forall k, t | 0 <= k < |es| && Samples(es[k], t) && t != RandomTexture
      ensures exists j :: 0 <= j < k && es[j].Draw? && Attached(es[j].target, t)
    {
      if ambientOcclusion {
        if k == 4 {
          assert es[1].Draw? && Attached(es[1].target, t);
        } else {
          assert k == 6;
          if t == AoTexture {
            assert es[4].Draw? && Attached(es[4].target, t);
          } else {
            assert es[1].Draw? && Attached(es[1].target, t);
          }
        }
      }
    }
  }

  /** A frame ends with its only buffer swap, and the draw before it renders into
      the window, so what is presented was drawn in this frame. */
  lemma FramePresentsWindow(ambientOcclusion: bool, faceIndexCount: int)
    ensures var es := FrameEvents(ambientOcclusion, faceIndexCount);
            && 2 <= |es| && es[|es| - 1] == Swap
            && (forall i :: 0 <= i < |es| - 1 ==> es[i] != Swap)
            && es[|es| - 2].Draw? && es[|es| - 2].target == Window
  {
  }

  /** Pressing 'a' twice gives back the same frame. */
  lemma ToggleTwiceSameFrame(ambientOcclusionState: int, faceIndexCount: int)
    ensures FrameEvents(Toggled(Toggled(ambientOcclusionState)) != 0, faceIndexCount)
         == FrameEvents(ambientOcclusionState != 0, faceIndexCount)
  {
  }
}
