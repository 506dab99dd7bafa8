/*
 * The imgui/glfw backend object of imui/imui.go. Its methods mutate the
 * latch, the timestamp and the GL handles step by step, and drive the GL and
 * imgui contexts of `native`; each is proved against the functions of ImuiSpec.
 */
module Imui {
  import opened Native
  import opened ImuiSpec
  import opened ImuiProps

  class Imui {
    /** The imgui IO and GL context the backend drives. */
    const native: Host

    var time: real
    const mouseJustPressed: array<bool>

    var glslVersion: string
    var fontTexture: nat
    var shaderHandle: nat
    var vertHandle: nat
    var fragHandle: nat
    var attribLocationTex: int
    var attribLocationProjMtx: int
    var attribLocationPosition: int
    var attribLocationUV: int
    var attribLocationColor: int
    var vboHandle: nat
    var elementsHandle: nat

    /** The latch has one slot per imgui mouse button. */
    ghost predicate Valid() {
      mouseJustPressed.Length == 3
    }

    /** The GL objects and shader locations held in the handle fields. */
    function Objects(): DeviceObjects
      reads this
    {
      DeviceObjects(fontTexture, shaderHandle, vertHandle, fragHandle,
                    attribLocationTex, attribLocationProjMtx, attribLocationPosition,
                    attribLocationUV, attribLocationColor, vboHandle, elementsHandle)
    }

    /**
     * NewIMUI: a fresh backend with no timestamp and an empty latch, holding
     * the device objects that shader and font-texture creation produced.
     */
    constructor (native: Host, objects: DeviceObjects)
      ensures Valid()
      ensures this.native == native && fresh(mouseJustPressed)
      ensures time == 0.0 && mouseJustPressed[..] == [false, false, false]
      ensures glslVersion == GLSL_VERSION && Objects() == objects
    {
      this.native := native;
      time := 0.0;
      mouseJustPressed := new bool[3](_ => false);
      glslVersion := GLSL_VERSION;
      fontTexture := objects.fontTexture;
      shaderHandle := objects.shaderHandle;
      vertHandle := objects.vertHandle;
      fragHandle := objects.fragHandle;
      attribLocationTex := objects.attribLocationTex;
      attribLocationProjMtx := objects.attribLocationProjMtx;
      attribLocationPosition := objects.attribLocationPosition;
      attribLocationUV := objects.attribLocationUV;
      attribLocationColor := objects.attribLocationColor;
      vboHandle := objects.vboHandle;
      elementsHandle := objects.elementsHandle;
      new;
      assert mouseJustPressed[..] == [false, false, false];
    }

    /**
     * NewFrame: forwards display size, time step, cursor and button state to
     * imgui, consuming the latch, then starts the imgui frame.
     */
    method NewFrame(window: Window, currentTime: real)
      requires Valid()
      modifies this`time, mouseJustPressed, native
      ensures Valid()
      ensures time == currentTime
      ensures mouseJustPressed[..] == [false, false, false]
      ensures native.State() == FrameTrace(old(native.State()), old(time), old(mouseJustPressed[..]), window, currentTime)
    {
      native.SetDisplaySize(DisplaySize(window));
      ForwardDeltaTime(currentTime);
      native.SetMousePosition(MousePosition(window));
      ForwardMouseButtons(window);
      native.NewFrame();
    }

    /** The time step and the new timestamp: no step on the first frame. */
    method ForwardDeltaTime(currentTime: real)
      modifies this`time, native
      ensures time == currentTime
      ensures native.State() == DeltaTrace(old(native.State()), old(time), currentTime)
    {
      if time > 0.0 {
        native.SetDeltaTime(currentTime - time);
      }
      time := currentTime;
    }

    /**
     * The button loop: each button is reported down when it was
     * latched or is held, and its latch is cleared.
     */
    method ForwardMouseButtons(window: Window)
      requires Valid()
      modifies mouseJustPressed, native
      ensures mouseJustPressed[..] == [false, false, false]
      ensures native.State() == ButtonsTrace(old(native.State()), ReportedDown(old(mouseJustPressed[..]), window.pressedButtons), 3)
    {
      ghost var latch := mouseJustPressed[..];
      ghost var reported := ReportedDown(latch, window.pressedButtons);
      ghost var t0 := native.State();
      var i := 0;
      while i < mouseJustPressed.Length
        invariant 0 <= i <= 3
        invariant forall k :: 0 <= k < i ==> !mouseJustPressed[k]
        invariant forall k :: i <= k < 3 ==> mouseJustPressed[k] == latch[k]
        invariant native.State() == ButtonsTrace(t0, reported, i)
      {
        var down := mouseJustPressed[i] || GlfwButtonIdByIndex[i] in window.pressedButtons;
        native.SetMouseButtonDown(i, down);
        mouseJustPressed[i] := false;
        i := i + 1;
      }
      assert mouseJustPressed[..] == [false, false, false];
    }

    /** mouseButtonChange: latches a press of a known button until the next frame. */
    method MouseButtonChange(rawButton: int, action: Action, mods: int)
      requires Valid()
      modifies mouseJustPressed
      ensures Valid()
      ensures mouseJustPressed[..] == PressLatch(old(mouseJustPressed[..]), rawButton, action)
    {
      var buttonIndex, known := 0, rawButton in GlfwButtonIndexById;
      if known {
        buttonIndex := GlfwButtonIndexById[rawButton];
      }
      if known && action == Press {
        mouseJustPressed[buttonIndex] := true;
      }
    }

    /** keyChange: forwards the key event, then recomputes every modifier from the key table. */
    method KeyChange(key: int, scancode: int, action: Action, mods: int)
      requires Valid()
      modifies native
      ensures Valid()
      ensures native.State() == KeyTrace(old(native.State()), key, action)
    {
      ghost var t := native.State();
      if action == Press {
        native.KeyPress(key);
      }
      if action == Release {
        native.KeyRelease(key);
      }
      native.KeyCtrl(KEY_LEFT_CONTROL, KEY_RIGHT_CONTROL);
      native.KeyShift(KEY_LEFT_SHIFT, KEY_RIGHT_SHIFT);
      native.KeyAlt(KEY_LEFT_ALT, KEY_RIGHT_ALT);
      native.KeySuper(KEY_LEFT_SUPER, KEY_RIGHT_SUPER);
      KeyEffect(t, key, action);
    }

    /** Dispose: releases the device objects. */
    method Dispose()
      requires Valid()
      modifies this`vboHandle, this`elementsHandle, this`vertHandle, this`fragHandle,
               this`shaderHandle, this`fontTexture, native
      ensures Valid()
      ensures Objects() == Released(old(Objects()))
      ensures native.State() == TeardownTrace(old(native.State()), old(Objects()))
    {
      InvalidateDeviceObjects();
    }

    /**
     * Render: unless the framebuffer is empty, backs up the GL state, sets up
     * the overlay state, walks the draw lists and restores every saved field.
     */
    method Render(window: Window, lists: seq<CommandList>, layout: VertexLayout, indexSize: nat)
      requires Valid()
      modifies native
      ensures Valid()
      ensures Minimized(window) ==> native.State() == old(native.State())
      ensures !Minimized(window) ==>
        native.State() == RenderTrace(old(native.State()), old(Objects()), window, lists, layout, indexSize)
    {
      if window.fbWidth <= 0 || window.fbHeight <= 0 {
        return;
      }
      RenderDrawData(Objects(), window, lists, layout, indexSize);
    }

    /**
     * Render past the early return: imgui's render pass, the
     * backup, the overlay setup, the draw lists, and the restore.
     */
    method RenderDrawData(objects: DeviceObjects, window: Window, lists: seq<CommandList>, layout: VertexLayout, indexSize: nat)
      modifies native
      ensures native.State() == RenderTrace(old(native.State()), objects, window, lists, layout, indexSize)
    {
      native.Render();
      var saved := BackupState();
      var vao := SetupRenderState(objects, window.fbWidth, window.fbHeight, layout);
      RenderDrawLists(objects, lists, window.fbHeight, indexSize, DrawType(indexSize));
      native.DeleteVertexArray(vao);
      RestoreState(saved);
    }

    /** Render's backup of the GL state. */
    method BackupState() returns (saved: Saved)
      modifies native
      ensures saved == Backup(old(native.gl))
      ensures native.State() == Issue(old(native.State()), Gl(ActiveTexture(TEXTURE0)))
    {
      var lastActiveTexture := native.gl.activeTexture;
      native.ActiveTexture(TEXTURE0);
      var s := native.gl;
      saved := Saved(lastActiveTexture, s.program, BoundTexture(s), BoundSampler(s),
                     s.arrayBuffer, s.elementArrayBuffer, s.vertexArray, s.polygonMode,
                     s.viewport, s.scissorBox,
                     s.blendSrcRgb, s.blendDstRgb, s.blendSrcAlpha, s.blendDstAlpha,
                     s.blendEquationRgb, s.blendEquationAlpha,
                     Enabled(s, Blend), Enabled(s, CullFace), Enabled(s, DepthTest), Enabled(s, ScissorTest));
    }

    /** Render's overlay state, program and vertex-array setup. */
    method SetupRenderState(objects: DeviceObjects, fbWidth: int, fbHeight: int, layout: VertexLayout) returns (vao: int)
      modifies native
      ensures vao == old(native.nextName)
      ensures native.State() == SetupTrace(old(native.State()), fbWidth, fbHeight, objects, vao, layout)
    {
      native.Enable(Blend);
      native.BlendEquation(FUNC_ADD);
      native.BlendFunc(SRC_ALPHA, ONE_MINUS_SRC_ALPHA);
      native.Disable(CullFace);
      native.Disable(DepthTest);
      native.Enable(ScissorTest);
      native.PolygonMode(FRONT_AND_BACK, FILL);
      native.Viewport(Rect(0, 0, fbWidth, fbHeight));

      native.UseProgram(objects.shaderHandle);
      native.Uniform1i(objects.attribLocationTex, 0);
      native.UniformProjection(objects.attribLocationProjMtx);
      native.BindSampler(0, 0);

      vao := SetupVertexArray(objects, layout);
    }

    /** The per-pass vertex array and its attribute layout. */
    method SetupVertexArray(objects: DeviceObjects, layout: VertexLayout) returns (vao: int)
      modifies native
      ensures vao == old(native.nextName)
      ensures native.State() == VertexArrayTrace(old(native.State()), objects, vao, layout)
    {
      vao := native.GenVertexArray();
      native.BindVertexArray(vao);
      native.BindBuffer(ArrayBuffer, objects.vboHandle);
      native.EnableVertexAttribArray(Uint32(objects.attribLocationPosition));
      native.EnableVertexAttribArray(Uint32(objects.attribLocationUV));
      native.EnableVertexAttribArray(Uint32(objects.attribLocationColor));
      native.VertexAttribPointer(Uint32(objects.attribLocationPosition), 2, FLOAT, false, layout.vertexSize, layout.offsetPos);
      native.VertexAttribPointer(Uint32(objects.attribLocationUV), 2, FLOAT, false, layout.vertexSize, layout.offsetUv);
      native.VertexAttribPointer(Uint32(objects.attribLocationColor), 4, UNSIGNED_BYTE, true, layout.vertexSize, layout.offsetCol);
    }

    /**
     * Render's draw loop: per list, upload its buffers and walk
     * its commands with an index-buffer offset that starts at 0 and advances
     * past every command, callback or not.
     */
    method RenderDrawLists(objects: DeviceObjects, lists: seq<CommandList>, fbHeight: int, indexSize: nat, drawType: int)
      modifies native
      ensures native.State() == ListsTrace(old(native.State()), lists, objects, fbHeight, drawType, indexSize)
    {
      ghost var t0 := native.State();
      var l := 0;
      while l < |lists|
        invariant 0 <= l <= |lists|
        invariant native.State() == ListsTrace(t0, lists[..l], objects, fbHeight, drawType, indexSize)
      {
        UploadBuffers(objects, lists[l]);
        RenderCommands(lists[l].commands, l, fbHeight, drawType, indexSize);
        assert lists[..l + 1][..l] == lists[..l];
        l := l + 1;
      }
      assert lists[..l] == lists;
    }

    /** The command walk of list l: the index offset starts at 0 and every command advances it. */
    method RenderCommands(cmds: seq<DrawCmd>, l: nat, fbHeight: int, drawType: int, indexSize: nat)
      modifies native
      ensures native.State() == CommandsTrace(old(native.State()), cmds, l, fbHeight, drawType, indexSize)
    {
      ghost var t0 := native.State();
      var indexBufferOffset: nat := 0;
      var c := 0;
      while c < |cmds|
        invariant 0 <= c <= |cmds|
        invariant indexBufferOffset == IndexBytes(cmds[..c], indexSize)
        invariant native.State() == CommandsTrace(t0, cmds[..c], l, fbHeight, drawType, indexSize)
      {
        RenderCommand(cmds[c], l, c, fbHeight, drawType, indexBufferOffset);
        indexBufferOffset := indexBufferOffset + cmds[c].elementCount * indexSize;
        assert cmds[..c + 1][..c] == cmds[..c];
        c := c + 1;
      }
      assert cmds[..c] == cmds;
    }

    /** The upload of one list's vertex and index buffers. */
    method UploadBuffers(objects: DeviceObjects, list: CommandList)
      modifies native
      ensures native.State() == UploadTrace(old(native.State()), list, objects)
    {
      native.BindBuffer(ArrayBuffer, objects.vboHandle);
      native.BufferData(ArrayBuffer, list.vertexBufferSize, STREAM_DRAW);
      native.BindBuffer(ElementArrayBuffer, objects.elementsHandle);
      native.BufferData(ElementArrayBuffer, list.indexBufferSize, STREAM_DRAW);
    }

    /** One draw command: its user callback, or texture, scissor box and draw. */
    method RenderCommand(cmd: DrawCmd, l: nat, c: nat, fbHeight: int, drawType: int, offset: nat)
      modifies native
      ensures native.State() == CmdTrace(old(native.State()), cmd, l, c, fbHeight, drawType, offset)
    {
      if cmd.hasUserCallback {
        native.UserCallback(l, c);
      } else {
        native.BindTexture(cmd.textureId);
        native.Scissor(ScissorBox(cmd.clipRect, fbHeight));
        native.DrawElements(TRIANGLES, cmd.elementCount, drawType, offset);
      }
    }

    /** Render's restore of the backed-up GL state. */
    method RestoreState(saved: Saved)
      modifies native
      ensures native.State() == RestoreRasterTrace(RestoreBindingsTrace(old(native.State()), saved), saved)
    {
      native.UseProgram(saved.program);
      native.BindTexture(saved.texture);
      native.BindSampler(0, saved.sampler);
      native.ActiveTexture(saved.activeTexture);
      native.BindVertexArray(saved.vertexArray);
      native.BindBuffer(ArrayBuffer, saved.arrayBuffer);
      native.BindBuffer(ElementArrayBuffer, saved.elementArrayBuffer);
      native.BlendEquationSeparate(saved.blendEquationRgb, saved.blendEquationAlpha);
      native.BlendFuncSeparate(saved.blendSrcRgb, saved.blendDstRgb, saved.blendSrcAlpha, saved.blendDstAlpha);
      RestoreCapability(Blend, saved.enableBlend);
      RestoreCapability(CullFace, saved.enableCullFace);
      RestoreCapability(DepthTest, saved.enableDepthTest);
      RestoreCapability(ScissorTest, saved.enableScissorTest);
      native.PolygonMode(FRONT_AND_BACK, saved.polygonMode);
      native.Viewport(saved.viewport);
      native.Scissor(saved.scissorBox);
    }

    /** Switches a capability back on or off as it was saved. */
    method RestoreCapability(cap: Cap, on: bool)
      modifies native
      ensures native.State() == Issue(old(native.State()), Gl(Capability(cap, on)))
    {
      if on {
        native.Enable(cap);
      } else {
        native.Disable(cap);
      }
    }

    /**
     * invalidateDeviceObjects: releases each handle only when it is non-zero,
     * detaching a shader only when the program is live too, and zeroes it.
     */
    method InvalidateDeviceObjects()
      modifies this`vboHandle, this`elementsHandle, this`vertHandle, this`fragHandle,
               this`shaderHandle, this`fontTexture, native
      ensures vboHandle == 0 && elementsHandle == 0 && vertHandle == 0 && fragHandle == 0
      ensures shaderHandle == 0 && fontTexture == 0
      ensures native.State() == TeardownTrace(old(native.State()), old(Objects()))
    {
      var h := Objects();
      DeleteBufferIfLive(h.vboHandle);
      vboHandle := 0;
      DeleteBufferIfLive(h.elementsHandle);
      elementsHandle := 0;
      ReleaseStage(h.shaderHandle, h.vertHandle);
      vertHandle := 0;
      ReleaseStage(h.shaderHandle, h.fragHandle);
      fragHandle := 0;
      DeleteProgramIfLive(h.shaderHandle);
      shaderHandle := 0;
      if fontTexture != 0 {
        ReleaseFontTexture(fontTexture);
        fontTexture := 0;
      }
    }

    /** A buffer's release: deleted only when live. */
    method DeleteBufferIfLive(buffer: nat)
      modifies native
      ensures native.State() == IssueIfLive(old(native.State()), buffer, Gl(DeleteBuffer(buffer)))
    {
      if buffer != 0 {
        native.DeleteBuffer(buffer);
      }
    }

    /** One shader stage's release: detached only when the program is live too. */
    method ReleaseStage(program: nat, stage: nat)
      modifies native
      ensures native.State() == StageTeardownTrace(old(native.State()), program, stage)
    {
      if program != 0 && stage != 0 {
        native.DetachShader(program, stage);
      }
      if stage != 0 {
        native.DeleteShader(stage);
      }
    }

    /** The program's release. */
    method DeleteProgramIfLive(program: nat)
      modifies native
      ensures native.State() == IssueIfLive(old(native.State()), program, Gl(DeleteProgram(program)))
    {
      if program != 0 {
        native.DeleteProgram(program);
      }
    }

    /** A live font texture's release: the texture and imgui's reference to it. */
    method ReleaseFontTexture(font: nat)
      requires font != 0
      modifies native
      ensures native.State() == FontTeardownTrace(old(native.State()), font)
    {
      native.DeleteTexture(font);
      native.SetFontTextureId(0);
    }
  }
}
