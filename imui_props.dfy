/*
 * What the backend's call sequences guarantee. The effect lemmas say what
 * each operation of imui/imui.go does to the GL state and the imgui IO record;
 * the ones about Render compose into RenderEffect, the restore guarantee.
 */
module ImuiProps {
  import opened Native
  import opened ImuiSpec

  // ---- Effects on the observable context ----

  /** Setting the first n buttons changes only imgui's button table, as MouseDownAfter says. */
  lemma {:induction false} ButtonsEffect(t: Trace, reported: seq<bool>, n: nat)
    requires n <= |reported|
    ensures ButtonsTrace(t, reported, n).ctx
         == t.ctx.(io := t.ctx.io.(mouseDown := MouseDownAfter(t.ctx.io.mouseDown, reported, n)))
  {
    if n > 0 {
      ButtonsEffect(t, reported, n - 1);
    }
  }

  /** NewFrame leaves the GL state alone and updates imgui's IO record as FrameIo says. */
  lemma FrameEffect(t: Trace, time: real, latch: seq<bool>, window: Window, currentTime: real)
    requires |latch| == 3
    ensures FrameTrace(t, time, latch, window, currentTime).ctx
         == t.ctx.(io := FrameIo(t.ctx.io, time, latch, window, currentTime))
  {
    var sized := Issue(t, Imgui(SetDisplaySize(DisplaySize(window))));
    var timed := if time > 0.0 then Issue(sized, Imgui(SetDeltaTime(currentTime - time))) else sized;
    var positioned := Issue(timed, Imgui(SetMousePosition(MousePosition(window))));
    ButtonsEffect(positioned, ReportedDown(latch, window.pressedButtons), 3);
  }

  /** The key event changes only imgui's key-down table, as KeysAfter says. */
  lemma KeyEventEffect(t: Trace, key: int, action: Action)
    ensures KeyEventTrace(t, key, action).ctx
         == t.ctx.(io := t.ctx.io.(keysDown := KeysAfter(t.ctx.io.keysDown, key, action)))
  {
  }

  /** Recomputing the modifiers changes only the four modifier flags, as ModifiersIo says. */
  lemma ModifiersEffect(t: Trace)
    ensures ModifiersTrace(t).ctx == t.ctx.(io := ModifiersIo(t.ctx.io))
  {
  }

  /** keyChange leaves the GL state alone and updates imgui's IO record as KeyIo says. */
  lemma KeyEffect(t: Trace, key: int, action: Action)
    ensures KeyTrace(t, key, action).ctx == t.ctx.(io := KeyIo(t.ctx.io, key, action))
  {
    KeyEventEffect(t, key, action);
    ModifiersEffect(KeyEventTrace(t, key, action));
  }

  /** One shader stage's release changes nothing the backend observes. */
  lemma StageTeardownEffect(t: Trace, program: int, stage: int)
    ensures StageTeardownTrace(t, program, stage).ctx == t.ctx
  {
  }

  /** The font texture's release changes at most imgui's font id, which it clears. */
  lemma FontTeardownEffect(t: Trace, font: int)
    ensures FontTeardownTrace(t, font).ctx
         == if font != 0 then t.ctx.(io := t.ctx.io.(fontTextureId := 0)) else t.ctx
  {
  }

  /** invalidateDeviceObjects touches no GL state record field, and clears imgui's font id only with a live texture. */
  lemma TeardownEffect(t: Trace, h: DeviceObjects)
    ensures TeardownTrace(t, h).ctx
         == if h.fontTexture != 0 then t.ctx.(io := t.ctx.io.(fontTextureId := 0)) else t.ctx
  {
    var vbo := IssueIfLive(t, h.vboHandle, Gl(DeleteBuffer(h.vboHandle)));
    assert vbo.ctx == t.ctx;
    var buffers := IssueIfLive(vbo, h.elementsHandle, Gl(DeleteBuffer(h.elementsHandle)));
    assert buffers.ctx == t.ctx;
    StageTeardownEffect(buffers, h.shaderHandle, h.vertHandle);
    var vert := StageTeardownTrace(buffers, h.shaderHandle, h.vertHandle);
    StageTeardownEffect(vert, h.shaderHandle, h.fragHandle);
    var stages := StageTeardownTrace(vert, h.shaderHandle, h.fragHandle);
    var program := IssueIfLive(stages, h.shaderHandle, Gl(DeleteProgram(h.shaderHandle)));
    assert program.ctx == t.ctx;
    FontTeardownEffect(program, h.fontTexture);
  }

  /**
   * The effect of drawing: only the active unit's texture, the scissor box
   * and the two buffer bindings may change; imgui IO and names do not.
   */
  ghost predicate DrawEffect(before: Context, after: Context) {
    after.io == before.io && after.nextName == before.nextName &&
    after.gl == before.gl.(textures := after.gl.textures, scissorBox := after.gl.scissorBox,
                           arrayBuffer := after.gl.arrayBuffer, elementArrayBuffer := after.gl.elementArrayBuffer) &&
    (forall u :: u != before.gl.activeTexture ==> Binding(after.gl.textures, u) == Binding(before.gl.textures, u))
  }

  lemma DrawEffectTransitive(a: Context, b: Context, c: Context)
    requires DrawEffect(a, b) && DrawEffect(b, c)
    ensures DrawEffect(a, c)
  {
  }

  /** One command's calls have only the effects DrawEffect allows. */
  lemma CmdEffect(t: Trace, cmd: DrawCmd, l: nat, c: nat, fbHeight: int, drawType: int, offset: nat)
    ensures DrawEffect(t.ctx, CmdTrace(t, cmd, l, c, fbHeight, drawType, offset).ctx)
  {
  }

  /** A list's commands have only the effects DrawEffect allows. */
  lemma {:induction false} CommandsEffect(t: Trace, cmds: seq<DrawCmd>, l: nat, fbHeight: int, drawType: int, indexSize: nat)
    ensures DrawEffect(t.ctx, CommandsTrace(t, cmds, l, fbHeight, drawType, indexSize).ctx)
  {
    if cmds != [] {
      var n := |cmds| - 1;
      var before := CommandsTrace(t, cmds[..n], l, fbHeight, drawType, indexSize);
      CommandsEffect(t, cmds[..n], l, fbHeight, drawType, indexSize);
      CmdEffect(before, cmds[n], l, n, fbHeight, drawType, IndexBytes(cmds[..n], indexSize));
      DrawEffectTransitive(t.ctx, before.ctx,
        CmdTrace(before, cmds[n], l, n, fbHeight, drawType, IndexBytes(cmds[..n], indexSize)).ctx);
    }
  }

  /** Drawing every list has only the effects DrawEffect allows. */
  lemma {:induction false} ListsEffect(t: Trace, lists: seq<CommandList>, objects: DeviceObjects, fbHeight: int, drawType: int, indexSize: nat)
    ensures DrawEffect(t.ctx, ListsTrace(t, lists, objects, fbHeight, drawType, indexSize).ctx)
  {
    if lists != [] {
      var n := |lists| - 1;
      var before := ListsTrace(t, lists[..n], objects, fbHeight, drawType, indexSize);
      ListsEffect(t, lists[..n], objects, fbHeight, drawType, indexSize);
      var uploaded := UploadTrace(before, lists[n], objects);
      CommandsEffect(uploaded, lists[n].commands, n, fbHeight, drawType, indexSize);
      DrawEffectTransitive(t.ctx, before.ctx, uploaded.ctx);
      DrawEffectTransitive(t.ctx, uploaded.ctx,
        CommandsTrace(uploaded, lists[n].commands, n, fbHeight, drawType, indexSize).ctx);
    }
  }

  /** Blending goes on with source-alpha-over factors. */
  lemma BlendStateEffect(t: Trace)
    ensures BlendStateTrace(t).ctx
         == t.ctx.(gl := t.ctx.gl.(blend := true, blendEquationRgb := FUNC_ADD, blendEquationAlpha := FUNC_ADD,
                                   blendSrcRgb := SRC_ALPHA, blendSrcAlpha := SRC_ALPHA,
                                   blendDstRgb := ONE_MINUS_SRC_ALPHA, blendDstAlpha := ONE_MINUS_SRC_ALPHA))
  {
  }

  /** Culling and depth test go off, scissor test on, polygons filled, and the viewport covers the framebuffer. */
  lemma RasterStateEffect(t: Trace, fbWidth: int, fbHeight: int)
    requires fbWidth >= 0 && fbHeight >= 0
    ensures RasterStateTrace(t, fbWidth, fbHeight).ctx
         == t.ctx.(gl := t.ctx.gl.(cullFace := false, depthTest := false, scissorTest := true,
                                   polygonMode := FILL, viewport := Rect(0, 0, fbWidth, fbHeight)))
  {
  }

  /** The program is bound and unit 0's sampler reset; the uniforms are not part of the state record. */
  lemma UniformsEffect(t: Trace, objects: DeviceObjects)
    ensures UniformsTrace(t, objects).ctx
         == t.ctx.(gl := t.ctx.gl.(program := objects.shaderHandle, samplers := t.ctx.gl.samplers[0 := 0]))
  {
  }

  /** A fresh vertex array is bound with the vertex buffer; one name is used up. */
  lemma VertexArrayEffect(t: Trace, objects: DeviceObjects, vao: int, layout: VertexLayout)
    ensures VertexArrayTrace(t, objects, vao, layout).ctx
         == Context(t.ctx.gl.(vertexArray := vao, arrayBuffer := objects.vboHandle), t.ctx.io, t.ctx.nextName + 1)
  {
  }

  /** The state Render sets up for the overlay, on a framebuffer of non-negative size. */
  lemma SetupEffect(t: Trace, fbWidth: int, fbHeight: int, objects: DeviceObjects, vao: int, layout: VertexLayout)
    requires fbWidth >= 0 && fbHeight >= 0
    ensures SetupTrace(t, fbWidth, fbHeight, objects, vao, layout).ctx
         == Context(OverlayState(t.ctx.gl, fbWidth, fbHeight, objects, vao), t.ctx.io, t.ctx.nextName + 1)
  {
    var state := RenderStateTrace(t, fbWidth, fbHeight);
    BlendStateEffect(t);
    RasterStateEffect(BlendStateTrace(t), fbWidth, fbHeight);
    UniformsEffect(state, objects);
    VertexArrayEffect(UniformsTrace(state, objects), objects, vao, layout);
  }

  /** Restoring the bindings and blend settings, the texture on the unit active when restoring begins. */
  lemma RestoreBindingsEffect(t: Trace, saved: Saved)
    ensures RestoreBindingsTrace(t, saved).ctx
         == t.ctx.(gl := t.ctx.gl.(
              program := saved.program,
              textures := t.ctx.gl.textures[t.ctx.gl.activeTexture := saved.texture],
              samplers := t.ctx.gl.samplers[0 := saved.sampler],
              activeTexture := saved.activeTexture, vertexArray := saved.vertexArray,
              arrayBuffer := saved.arrayBuffer, elementArrayBuffer := saved.elementArrayBuffer,
              blendEquationRgb := saved.blendEquationRgb, blendEquationAlpha := saved.blendEquationAlpha,
              blendSrcRgb := saved.blendSrcRgb, blendDstRgb := saved.blendDstRgb,
              blendSrcAlpha := saved.blendSrcAlpha, blendDstAlpha := saved.blendDstAlpha))
  {
  }

  /** Restoring the capabilities, polygon mode, viewport and scissor box. */
  lemma RestoreRasterEffect(t: Trace, saved: Saved)
    ensures RestoreRasterTrace(t, saved).ctx
         == t.ctx.(gl := t.ctx.gl.(
              blend := saved.enableBlend, cullFace := saved.enableCullFace,
              depthTest := saved.enableDepthTest, scissorTest := saved.enableScissorTest,
              polygonMode := saved.polygonMode, viewport := saved.viewport, scissorBox := saved.scissorBox))
  {
  }

  /** Restoring puts every saved value back, the texture on the unit active when restoring begins. */
  lemma RestoreEffect(t: Trace, saved: Saved)
    ensures RestoreRasterTrace(RestoreBindingsTrace(t, saved), saved).ctx
         == t.ctx.(gl := RestoredState(t.ctx.gl, saved))
  {
    RestoreBindingsEffect(t, saved);
    RestoreRasterEffect(RestoreBindingsTrace(t, saved), saved);
  }

  /**
   * Render's phases on the observable context: from c0, unit 0 is made active,
   * the overlay state set up, the lists drawn, the vertex array deleted and the
   * backup of c0's GL state restored. Every saved field ends as in c0.
   */
  lemma RenderPhases(c0: Context, setUp: Context, drawn: Context, final: Context,
                     fbWidth: int, fbHeight: int, objects: DeviceObjects, vao: int)
    requires fbWidth >= 0 && fbHeight >= 0
    requires setUp == Context(OverlayState(c0.gl.(activeTexture := TEXTURE0), fbWidth, fbHeight, objects, vao),
                              c0.io, c0.nextName + 1)
    requires DrawEffect(setUp, drawn)
    requires final == Apply(drawn, Gl(DeleteVertexArray(vao))).(
                        gl := RestoredState(Apply(drawn, Gl(DeleteVertexArray(vao))).gl, Backup(c0.gl)))
    ensures Restored(c0.gl, final.gl) && final.io == c0.io && final.nextName == c0.nextName + 1
  {
  }

  /**
   * A Render that gets past the early return leaves every piece of GL state it
   * saves as it found it, leaves imgui IO alone, and uses up one vertex-array name.
   */
  lemma RenderEffect(t: Trace, objects: DeviceObjects, window: Window,
                     lists: seq<CommandList>, layout: VertexLayout, indexSize: nat)
    requires !Minimized(window)
    ensures var r := RenderTrace(t, objects, window, lists, layout, indexSize).ctx;
      Restored(t.ctx.gl, r.gl) && r.io == t.ctx.io && r.nextName == t.ctx.nextName + 1
  {
    var vao := t.ctx.nextName;
    var begun := Issue(Issue(t, Imgui(Render)), Gl(ActiveTexture(TEXTURE0)));
    var setUp := SetupTrace(begun, window.fbWidth, window.fbHeight, objects, vao, layout);
    SetupEffect(begun, window.fbWidth, window.fbHeight, objects, vao, layout);
    var drawn := ListsTrace(setUp, lists, objects, window.fbHeight, DrawType(indexSize), indexSize);
    ListsEffect(setUp, lists, objects, window.fbHeight, DrawType(indexSize), indexSize);
    RestoreEffect(Issue(drawn, Gl(DeleteVertexArray(vao))), Backup(t.ctx.gl));
    RenderPhases(t.ctx, setUp.ctx, drawn.ctx, RenderTrace(t, objects, window, lists, layout, indexSize).ctx,
                 window.fbWidth, window.fbHeight, objects, vao);
  }
}
