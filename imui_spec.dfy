/*
 * Pure specification of what the imgui/glfw backend (imui/imui.go) does:
 * the values it forwards to imgui, the GL and imgui calls it issues, and the
 * arithmetic of the draw-list walk. The class in imui.dfy is proved against
 * these functions; the lemmas in imui_props.dfy and imui_laws.dfy state what they guarantee.
 */
module ImuiSpec {
  import opened Native

  // ---- Mouse buttons ----

  /** imgui's button indices for the primary, secondary and tertiary button. */
  const MOUSE_BUTTON_PRIMARY: nat := 0
  const MOUSE_BUTTON_SECONDARY: nat := 1
  const MOUSE_BUTTON_TERTIARY: nat := 2

  /** glfwButtonIndexByID: the imgui index of each glfw button the backend knows. */
  const GlfwButtonIndexById: map<int, nat> :=
    map[MOUSE_BUTTON_1 := MOUSE_BUTTON_PRIMARY,
        MOUSE_BUTTON_2 := MOUSE_BUTTON_SECONDARY,
        MOUSE_BUTTON_3 := MOUSE_BUTTON_TERTIARY]

  /** glfwButtonIDByIndex: the glfw button behind each imgui index. */
  const GlfwButtonIdByIndex: map<nat, int> :=
    map[MOUSE_BUTTON_PRIMARY := MOUSE_BUTTON_1,
        MOUSE_BUTTON_SECONDARY := MOUSE_BUTTON_2,
        MOUSE_BUTTON_TERTIARY := MOUSE_BUTTON_3]

  /** math.MaxFloat32, the magnitude of imgui's "no mouse" position. */
  const MAX_FLOAT32: real := 340282346638528859811704183484516925440.0

  /** The cursor position forwarded while the window is unfocused. */
  const OFF_SCREEN: Vec2 := Vec2(-MAX_FLOAT32, -MAX_FLOAT32)

  /** The shading-language version the backend prefixes to its shaders. */
  const GLSL_VERSION: string := "#version 150"

  /**
   * What the backend queries from its glfw window: window and framebuffer
   * size, focus, cursor position, and which glfw buttons are held down.
   */
  datatype Window = Window(
    width: int,
    height: int,
    fbWidth: int,
    fbHeight: int,
    focused: bool,
    cursor: Vec2,
    pressedButtons: set<int>)

  /**
   * mouseButtonChange on the three-slot latch: a Press of a known button sets
   * that button's slot; nothing else changes it.
   */
  function PressLatch(latch: seq<bool>, rawButton: int, action: Action): (r: seq<bool>)
    requires |latch| == 3
    ensures |r| == 3
    ensures forall i :: 0 <= i < 3 ==>
      (r[i] <==> latch[i] || (action == Press && rawButton in GlfwButtonIndexById && GlfwButtonIndexById[rawButton] == i))
  {
    if rawButton in GlfwButtonIndexById && action == Press then
      latch[GlfwButtonIndexById[rawButton] := true]
    else
      latch
  }

  /** The down state NewFrame reports for each imgui button index. */
  function ReportedDown(latch: seq<bool>, pressed: set<int>): seq<bool>
    requires |latch| == 3
  {
    seq(3, i requires 0 <= i < 3 => latch[i] || GlfwButtonIdByIndex[i] in pressed)
  }

  /** The cursor position NewFrame forwards. */
  function MousePosition(window: Window): Vec2 {
    if window.focused then window.cursor else OFF_SCREEN
  }

  /** The display size NewFrame forwards. */
  function DisplaySize(window: Window): Vec2 {
    Vec2(window.width as real, window.height as real)
  }

  /*
   * The call sequences below are written as trace extensions: XTrace(t, ...)
   * is t after the calls X issues, in order, each taking its effect (Issue).
   */

  /** After SetMouseButtonDown for the first n buttons, in index order. */
  function ButtonsTrace(t: Trace, reported: seq<bool>, n: nat): Trace
    requires n <= |reported|
  {
    if n == 0 then t
    else Issue(ButtonsTrace(t, reported, n - 1), Imgui(SetMouseButtonDown(n - 1, reported[n - 1])))
  }

  /** After forwarding the time step: only when a previous timestamp exists. */
  function DeltaTrace(t: Trace, time: real, currentTime: real): Trace {
    if time > 0.0 then Issue(t, Imgui(SetDeltaTime(currentTime - time))) else t
  }

  /**
   * After NewFrame: display size, a delta time only when a previous
   * timestamp exists, cursor position, the three buttons, and imgui's NewFrame.
   */
  function FrameTrace(t: Trace, time: real, latch: seq<bool>, window: Window, currentTime: real): Trace
    requires |latch| == 3
  {
    var timed := DeltaTrace(Issue(t, Imgui(SetDisplaySize(DisplaySize(window)))), time, currentTime);
    Issue(ButtonsTrace(Issue(timed, Imgui(SetMousePosition(MousePosition(window)))),
                       ReportedDown(latch, window.pressedButtons), 3),
          Imgui(NewFrame))
  }

  /** imgui's button table after the first n buttons have been set from reported. */
  function MouseDownAfter(mouseDown: map<int, bool>, reported: seq<bool>, n: nat): map<int, bool>
    requires n <= |reported|
  {
    if n == 0 then mouseDown
    else MouseDownAfter(mouseDown, reported, n - 1)[n - 1 := reported[n - 1]]
  }

  /** The imgui IO record after NewFrame. */
  function FrameIo(io: IoState, time: real, latch: seq<bool>, window: Window, currentTime: real): IoState
    requires |latch| == 3
  {
    io.(displaySize := DisplaySize(window),
        deltaTime := if time > 0.0 then currentTime - time else io.deltaTime,
        mousePos := MousePosition(window),
        mouseDown := MouseDownAfter(io.mouseDown, ReportedDown(latch, window.pressedButtons), 3))
  }

  // ---- Keys ----

  /** After the key event itself: a press or a release of the key is forwarded, a repeat is not. */
  function KeyEventTrace(t: Trace, key: int, action: Action): Trace {
    var pressed := if action == Press then Issue(t, Imgui(KeyPress(key))) else t;
    if action == Release then Issue(pressed, Imgui(KeyRelease(key))) else pressed
  }

  /** After all four modifiers are recomputed from the left and right keys. */
  function ModifiersTrace(t: Trace): Trace {
    Issue(Issue(Issue(Issue(t,
      Imgui(KeyCtrl(KEY_LEFT_CONTROL, KEY_RIGHT_CONTROL))),
      Imgui(KeyShift(KEY_LEFT_SHIFT, KEY_RIGHT_SHIFT))),
      Imgui(KeyAlt(KEY_LEFT_ALT, KEY_RIGHT_ALT))),
      Imgui(KeySuper(KEY_LEFT_SUPER, KEY_RIGHT_SUPER)))
  }

  /** After keyChange: the key event, then all four modifiers recomputed. */
  function KeyTrace(t: Trace, key: int, action: Action): Trace {
    ModifiersTrace(KeyEventTrace(t, key, action))
  }

  /** imgui's key-down table after a key event. */
  function KeysAfter(keys: set<int>, key: int, action: Action): set<int> {
    var pressed := if action == Press then keys + {key} else keys;
    if action == Release then pressed - {key} else pressed
  }

  /** The modifiers read back from the key-down table: a modifier is down when its left or right key is. */
  function ModifiersIo(io: IoState): IoState {
    io.(keyCtrl := KEY_LEFT_CONTROL in io.keysDown || KEY_RIGHT_CONTROL in io.keysDown,
        keyShift := KEY_LEFT_SHIFT in io.keysDown || KEY_RIGHT_SHIFT in io.keysDown,
        keyAlt := KEY_LEFT_ALT in io.keysDown || KEY_RIGHT_ALT in io.keysDown,
        keySuper := KEY_LEFT_SUPER in io.keysDown || KEY_RIGHT_SUPER in io.keysDown)
  }

  /**
   * The imgui IO record after keyChange: the key table follows the action, and
   * each modifier is read back from the key table, never from the event.
   */
  function KeyIo(io: IoState, key: int, action: Action): (r: IoState)
    ensures r.keysDown == match action
                         case Press => io.keysDown + {key}
                         case Release => io.keysDown - {key}
                         case Repeat => io.keysDown
    ensures r.keyCtrl <==> KEY_LEFT_CONTROL in r.keysDown || KEY_RIGHT_CONTROL in r.keysDown
    ensures r.keyShift <==> KEY_LEFT_SHIFT in r.keysDown || KEY_RIGHT_SHIFT in r.keysDown
    ensures r.keyAlt <==> KEY_LEFT_ALT in r.keysDown || KEY_RIGHT_ALT in r.keysDown
    ensures r.keySuper <==> KEY_LEFT_SUPER in r.keysDown || KEY_RIGHT_SUPER in r.keysDown
    ensures r.(keysDown := io.keysDown, keyCtrl := io.keyCtrl, keyShift := io.keyShift,
               keyAlt := io.keyAlt, keySuper := io.keySuper) == io
  {
    ModifiersIo(io.(keysDown := KeysAfter(io.keysDown, key, action)))
  }

  // ---- Render: draw data ----

  /** An imgui clip rectangle (X, Y, Z, W) = (left, top, right, bottom), top-left origin. */
  datatype ClipRect = ClipRect(x: int, y: int, z: int, w: int)

  /** One imgui draw command. */
  datatype DrawCmd = DrawCmd(clipRect: ClipRect, textureId: int, elementCount: nat, hasUserCallback: bool)

  /** One imgui command list: its vertex and index buffer sizes in bytes and its commands. */
  datatype CommandList = CommandList(vertexBufferSize: nat, indexBufferSize: nat, commands: seq<DrawCmd>)

  /** imgui.VertexBufferLayout(): vertex size and the offsets of position, uv and colour. */
  datatype VertexLayout = VertexLayout(vertexSize: int, offsetPos: int, offsetUv: int, offsetCol: int)

  /** The GL objects and shader locations the backend owns. */
  datatype DeviceObjects = DeviceObjects(
    fontTexture: nat,
    shaderHandle: nat,
    vertHandle: nat,
    fragHandle: nat,
    attribLocationTex: int,
    attribLocationProjMtx: int,
    attribLocationPosition: int,
    attribLocationUV: int,
    attribLocationColor: int,
    vboHandle: nat,
    elementsHandle: nat)

  /** Render's early return: nothing is drawn into an empty framebuffer. */
  predicate Minimized(window: Window) {
    window.fbWidth <= 0 || window.fbHeight <= 0
  }

  /** Go's uint32(x) conversion of an int32 value. */
  function Uint32(x: int): int {
    x % 0x1_0000_0000
  }

  /** The GL row (bottom-left origin) that holds logical pixel row `row` of a framebuffer of height h. */
  function FlipRow(h: int, row: int): int {
    h - 1 - row
  }

  /** The clip rectangle a scissor box stands for, read back in top-left coordinates. */
  function ClipOf(box: Rect, fbHeight: int): ClipRect {
    ClipRect(box.x, fbHeight - box.y - box.height, box.x + box.width, fbHeight - box.y)
  }

  /**
   * The scissor box for a clip rectangle: GL's origin is bottom-left, so the
   * box starts at fbHeight - bottom. It covers exactly the clip rectangle's
   * columns and, flipped, its rows.
   */
  function ScissorBox(clip: ClipRect, fbHeight: int): (r: Rect)
    ensures ClipOf(r, fbHeight) == clip
    ensures r.x == clip.x && r.x + r.width == clip.z
    ensures forall row :: clip.y <= row < clip.w <==> r.y <= FlipRow(fbHeight, row) < r.y + r.height
  {
    Rect(clip.x, fbHeight - clip.w, clip.z - clip.x, clip.w - clip.y)
  }

  /** The index type of the draw calls: 32-bit exactly when indices are 4 bytes. */
  function DrawType(indexSize: int): (t: int)
    ensures t == UNSIGNED_INT || t == UNSIGNED_SHORT
    ensures t == UNSIGNED_INT <==> indexSize == 4
  {
    if indexSize == 4 then UNSIGNED_INT else UNSIGNED_SHORT
  }

  /** The byte offset in the index buffer after the given commands: every command advances it. */
  function IndexBytes(cmds: seq<DrawCmd>, indexSize: nat): nat {
    if cmds == [] then 0
    else IndexBytes(cmds[..|cmds| - 1], indexSize) + cmds[|cmds| - 1].elementCount * indexSize
  }

  /**
   * After command number c of list l: a user callback is invoked instead of
   * drawing; otherwise its texture is bound, its scissor box set and its
   * elements drawn from index-buffer byte offset `offset`.
   */
  function CmdTrace(t: Trace, cmd: DrawCmd, l: nat, c: nat, fbHeight: int, drawType: int, offset: nat): Trace {
    if cmd.hasUserCallback then
      Issue(t, Imgui(UserCallback(l, c)))
    else
      Issue(Issue(Issue(t,
        Gl(BindTexture(cmd.textureId))),
        Gl(Scissor(ScissorBox(cmd.clipRect, fbHeight)))),
        Gl(DrawElements(TRIANGLES, cmd.elementCount, drawType, offset)))
  }

  /** After the commands of list l, in order, each at the offset its predecessors reached. */
  function CommandsTrace(t: Trace, cmds: seq<DrawCmd>, l: nat, fbHeight: int, drawType: int, indexSize: nat): Trace {
    if cmds == [] then t
    else
      var n := |cmds| - 1;
      CmdTrace(CommandsTrace(t, cmds[..n], l, fbHeight, drawType, indexSize),
               cmds[n], l, n, fbHeight, drawType, IndexBytes(cmds[..n], indexSize))
  }

  /** The four calls that upload a list's vertex and index buffers. */
  function UploadTrace(t: Trace, list: CommandList, objects: DeviceObjects): Trace {
    Issue(Issue(Issue(Issue(t,
      Gl(BindBuffer(ArrayBuffer, objects.vboHandle))),
      Gl(BufferData(ArrayBuffer, list.vertexBufferSize, STREAM_DRAW))),
      Gl(BindBuffer(ElementArrayBuffer, objects.elementsHandle))),
      Gl(BufferData(ElementArrayBuffer, list.indexBufferSize, STREAM_DRAW)))
  }

  /** After list number l: upload its buffers, then walk its commands from offset 0. */
  function ListTrace(t: Trace, list: CommandList, l: nat, objects: DeviceObjects, fbHeight: int, drawType: int, indexSize: nat): Trace {
    CommandsTrace(UploadTrace(t, list, objects), list.commands, l, fbHeight, drawType, indexSize)
  }

  /** After all command lists, in order. */
  function ListsTrace(t: Trace, lists: seq<CommandList>, objects: DeviceObjects, fbHeight: int, drawType: int, indexSize: nat): Trace {
    if lists == [] then t
    else
      var n := |lists| - 1;
      ListTrace(ListsTrace(t, lists[..n], objects, fbHeight, drawType, indexSize),
                lists[n], n, objects, fbHeight, drawType, indexSize)
  }

  // ---- Render: GL state save, setup and restore ----

  /** The GL state Render backs up, as the queries return it. */
  datatype Saved = Saved(
    activeTexture: int,
    program: int,
    texture: int,
    sampler: int,
    arrayBuffer: int,
    elementArrayBuffer: int,
    vertexArray: int,
    polygonMode: int,
    viewport: Box,
    scissorBox: Box,
    blendSrcRgb: int,
    blendDstRgb: int,
    blendSrcAlpha: int,
    blendDstAlpha: int,
    blendEquationRgb: int,
    blendEquationAlpha: int,
    enableBlend: bool,
    enableCullFace: bool,
    enableDepthTest: bool,
    enableScissorTest: bool)

  /**
   * The backup taken of state s: the active unit first, then everything else
   * after switching to unit 0, so texture and sampler are unit 0's.
   */
  function Backup(s: PipelineState): Saved {
    var s0 := s.(activeTexture := TEXTURE0);
    Saved(s.activeTexture, s0.program, BoundTexture(s0), BoundSampler(s0),
          s0.arrayBuffer, s0.elementArrayBuffer, s0.vertexArray, s0.polygonMode,
          s0.viewport, s0.scissorBox,
          s0.blendSrcRgb, s0.blendDstRgb, s0.blendSrcAlpha, s0.blendDstAlpha,
          s0.blendEquationRgb, s0.blendEquationAlpha,
          s0.blend, s0.cullFace, s0.depthTest, s0.scissorTest)
  }

  /** After switching blending on with source-alpha-over factors. */
  function BlendStateTrace(t: Trace): Trace {
    Issue(Issue(Issue(t,
      Gl(Capability(Blend, true))),
      Gl(BlendEquation(FUNC_ADD))),
      Gl(BlendFunc(SRC_ALPHA, ONE_MINUS_SRC_ALPHA)))
  }

  /** After culling and depth test go off, scissor test on, filled polygons, and the viewport. */
  function RasterStateTrace(t: Trace, fbWidth: int, fbHeight: int): Trace {
    Issue(Issue(Issue(Issue(Issue(t,
      Gl(Capability(CullFace, false))),
      Gl(Capability(DepthTest, false))),
      Gl(Capability(ScissorTest, true))),
      Gl(PolygonMode(FRONT_AND_BACK, FILL))),
      Gl(Viewport(Rect(0, 0, fbWidth, fbHeight))))
  }

  /** After setting the overlay render state and the viewport. */
  function RenderStateTrace(t: Trace, fbWidth: int, fbHeight: int): Trace {
    RasterStateTrace(BlendStateTrace(t), fbWidth, fbHeight)
  }

  /** After binding the program and its uniforms and resetting unit 0's sampler. */
  function UniformsTrace(t: Trace, objects: DeviceObjects): Trace {
    Issue(Issue(Issue(Issue(t,
      Gl(UseProgram(objects.shaderHandle))),
      Gl(Uniform1i(objects.attribLocationTex, 0))),
      Gl(UniformProjection(objects.attribLocationProjMtx))),
      Gl(BindSampler(0, 0)))
  }

  /** After creating the per-pass vertex array `vao` and describing the vertex layout in it. */
  function VertexArrayTrace(t: Trace, objects: DeviceObjects, vao: int, layout: VertexLayout): Trace {
    Issue(Issue(Issue(Issue(Issue(Issue(Issue(Issue(Issue(t,
      Gl(GenVertexArray(vao))),
      Gl(BindVertexArray(vao))),
      Gl(BindBuffer(ArrayBuffer, objects.vboHandle))),
      Gl(EnableVertexAttribArray(Uint32(objects.attribLocationPosition)))),
      Gl(EnableVertexAttribArray(Uint32(objects.attribLocationUV)))),
      Gl(EnableVertexAttribArray(Uint32(objects.attribLocationColor)))),
      Gl(VertexAttribPointer(Uint32(objects.attribLocationPosition), 2, FLOAT, false, layout.vertexSize, layout.offsetPos))),
      Gl(VertexAttribPointer(Uint32(objects.attribLocationUV), 2, FLOAT, false, layout.vertexSize, layout.offsetUv))),
      Gl(VertexAttribPointer(Uint32(objects.attribLocationColor), 4, UNSIGNED_BYTE, true, layout.vertexSize, layout.offsetCol)))
  }

  /** After Render's whole setup: overlay state, program, and the vertex array `vao`. */
  function SetupTrace(t: Trace, fbWidth: int, fbHeight: int, objects: DeviceObjects, vao: int, layout: VertexLayout): Trace {
    VertexArrayTrace(UniformsTrace(RenderStateTrace(t, fbWidth, fbHeight), objects), objects, vao, layout)
  }

  /** After restoring the bindings and blend settings. */
  function RestoreBindingsTrace(t: Trace, saved: Saved): Trace {
    Issue(Issue(Issue(Issue(Issue(Issue(Issue(Issue(Issue(t,
      Gl(UseProgram(saved.program))),
      Gl(BindTexture(saved.texture))),
      Gl(BindSampler(0, saved.sampler))),
      Gl(ActiveTexture(saved.activeTexture))),
      Gl(BindVertexArray(saved.vertexArray))),
      Gl(BindBuffer(ArrayBuffer, saved.arrayBuffer))),
      Gl(BindBuffer(ElementArrayBuffer, saved.elementArrayBuffer))),
      Gl(BlendEquationSeparate(saved.blendEquationRgb, saved.blendEquationAlpha))),
      Gl(BlendFuncSeparate(saved.blendSrcRgb, saved.blendDstRgb, saved.blendSrcAlpha, saved.blendDstAlpha)))
  }

  /** After restoring the four capabilities, the polygon mode, viewport and scissor box. */
  function RestoreRasterTrace(t: Trace, saved: Saved): Trace {
    Issue(Issue(Issue(Issue(Issue(Issue(Issue(t,
      Gl(Capability(Blend, saved.enableBlend))),
      Gl(Capability(CullFace, saved.enableCullFace))),
      Gl(Capability(DepthTest, saved.enableDepthTest))),
      Gl(Capability(ScissorTest, saved.enableScissorTest))),
      Gl(PolygonMode(FRONT_AND_BACK, saved.polygonMode))),
      Gl(Viewport(saved.viewport))),
      Gl(Scissor(saved.scissorBox)))
  }

  /**
   * After a Render that gets past the early return: back up the state, set
   * up, draw every list with the vertex array named `vao`, delete it, restore.
   */
  function RenderTrace(t: Trace, objects: DeviceObjects, window: Window,
                       lists: seq<CommandList>, layout: VertexLayout, indexSize: nat): Trace
  {
    var vao := t.ctx.nextName;
    var begun := Issue(Issue(t, Imgui(Render)), Gl(ActiveTexture(TEXTURE0)));
    var setUp := SetupTrace(begun, window.fbWidth, window.fbHeight, objects, vao, layout);
    var drawn := ListsTrace(setUp, lists, objects, window.fbHeight, DrawType(indexSize), indexSize);
    var saved := Backup(t.ctx.gl);
    RestoreRasterTrace(RestoreBindingsTrace(Issue(drawn, Gl(DeleteVertexArray(vao))), saved), saved)
  }

  /**
   * The GL state the overlay is drawn with, set up from s on a framebuffer of
   * non-negative size: blending on (source alpha over), culling and depth
   * test off, scissor test on, filled polygons, a viewport covering the
   * framebuffer, the backend's program with unit 0's sampler reset, and a
   * fresh vertex array `vao` with the vertex buffer bound.
   */
  function OverlayState(s: PipelineState, fbWidth: int, fbHeight: int, objects: DeviceObjects, vao: int): PipelineState
    requires fbWidth >= 0 && fbHeight >= 0
  {
    s.(blend := true, cullFace := false, depthTest := false, scissorTest := true,
       blendEquationRgb := FUNC_ADD, blendEquationAlpha := FUNC_ADD,
       blendSrcRgb := SRC_ALPHA, blendSrcAlpha := SRC_ALPHA,
       blendDstRgb := ONE_MINUS_SRC_ALPHA, blendDstAlpha := ONE_MINUS_SRC_ALPHA,
       polygonMode := FILL, viewport := Rect(0, 0, fbWidth, fbHeight),
       program := objects.shaderHandle, samplers := s.samplers[0 := 0],
       vertexArray := vao, arrayBuffer := objects.vboHandle)
  }

  /**
   * The GL state after s has every backed-up value put back; the texture is
   * rebound on the unit that is active when restoring begins.
   */
  function RestoredState(s: PipelineState, saved: Saved): PipelineState {
    s.(program := saved.program,
       textures := s.textures[s.activeTexture := saved.texture],
       samplers := s.samplers[0 := saved.sampler],
       activeTexture := saved.activeTexture, vertexArray := saved.vertexArray,
       arrayBuffer := saved.arrayBuffer, elementArrayBuffer := saved.elementArrayBuffer,
       blendEquationRgb := saved.blendEquationRgb, blendEquationAlpha := saved.blendEquationAlpha,
       blendSrcRgb := saved.blendSrcRgb, blendDstRgb := saved.blendDstRgb,
       blendSrcAlpha := saved.blendSrcAlpha, blendDstAlpha := saved.blendDstAlpha,
       blend := saved.enableBlend, cullFace := saved.enableCullFace,
       depthTest := saved.enableDepthTest, scissorTest := saved.enableScissorTest,
       polygonMode := saved.polygonMode, viewport := saved.viewport, scissorBox := saved.scissorBox)
  }

  /**
   * Every piece of pipeline state Render saves is the same in `after` as in
   * `before`: the texture and sampler bindings of every unit included.
   */
  ghost predicate Restored(before: PipelineState, after: PipelineState) {
    after.activeTexture == before.activeTexture &&
    after.program == before.program &&
    (forall u :: Binding(after.textures, u) == Binding(before.textures, u)) &&
    (forall u :: Binding(after.samplers, u) == Binding(before.samplers, u)) &&
    after.arrayBuffer == before.arrayBuffer &&
    after.elementArrayBuffer == before.elementArrayBuffer &&
    after.vertexArray == before.vertexArray &&
    after.blendSrcRgb == before.blendSrcRgb &&
    after.blendDstRgb == before.blendDstRgb &&
    after.blendSrcAlpha == before.blendSrcAlpha &&
    after.blendDstAlpha == before.blendDstAlpha &&
    after.blendEquationRgb == before.blendEquationRgb &&
    after.blendEquationAlpha == before.blendEquationAlpha &&
    after.blend == before.blend &&
    after.cullFace == before.cullFace &&
    after.depthTest == before.depthTest &&
    after.scissorTest == before.scissorTest &&
    after.polygonMode == before.polygonMode &&
    after.viewport == before.viewport &&
    after.scissorBox == before.scissorBox
  }

  // ---- Teardown ----

  /** t after issuing c when `handle` names a live object (is non-zero), t itself otherwise. */
  function IssueIfLive(t: Trace, handle: int, c: Call): Trace {
    if handle != 0 then Issue(t, c) else t
  }

  /** After one shader stage's release: detached only when program and stage are both live, then deleted if live. */
  function StageTeardownTrace(t: Trace, program: int, stage: int): Trace {
    var detached := if program != 0 && stage != 0 then Issue(t, Gl(DetachShader(program, stage))) else t;
    IssueIfLive(detached, stage, Gl(DeleteShader(stage)))
  }

  /** After the font texture's release: deleted, and imgui's font id cleared, only when live. */
  function FontTeardownTrace(t: Trace, font: int): Trace {
    if font != 0 then Issue(Issue(t, Gl(DeleteTexture(font))), Imgui(SetFontTextureId(0))) else t
  }

  /** After invalidateDeviceObjects: each release guarded by its handle being non-zero. */
  function TeardownTrace(t: Trace, h: DeviceObjects): Trace {
    var buffers := IssueIfLive(IssueIfLive(t, h.vboHandle, Gl(DeleteBuffer(h.vboHandle))),
                               h.elementsHandle, Gl(DeleteBuffer(h.elementsHandle)));
    var stages := StageTeardownTrace(StageTeardownTrace(buffers, h.shaderHandle, h.vertHandle),
                                     h.shaderHandle, h.fragHandle);
    FontTeardownTrace(IssueIfLive(stages, h.shaderHandle, Gl(DeleteProgram(h.shaderHandle))), h.fontTexture)
  }

  /** The device objects with every GL handle released (shader locations are kept). */
  function Released(h: DeviceObjects): DeviceObjects {
    h.(fontTexture := 0, shaderHandle := 0, vertHandle := 0, fragHandle := 0,
       vboHandle := 0, elementsHandle := 0)
  }
}
