/*
 * The native libraries the imgui backend drives, seen from the backend:
 * the OpenGL pipeline state it saves and restores, the imgui IO record it
 * feeds, and a ghost log of every state-changing call issued to either
 * library. Only the part of each library's behaviour that the backend relies
 * on is modelled; queries (glGetIntegerv, glIsEnabled) read the state record.
 */
module Native {

  // ---- OpenGL 3.3 core enumerants used by the backend ----
  const TEXTURE0: int := 0x84C0
  const TRIANGLES: int := 0x0004
  const UNSIGNED_BYTE: int := 0x1401
  const UNSIGNED_SHORT: int := 0x1403
  const UNSIGNED_INT: int := 0x1405
  const FLOAT: int := 0x1406
  const FUNC_ADD: int := 0x8006
  const SRC_ALPHA: int := 0x0302
  const ONE_MINUS_SRC_ALPHA: int := 0x0303
  const FRONT_AND_BACK: int := 0x0408
  const FILL: int := 0x1B02
  const STREAM_DRAW: int := 0x88E0

  // ---- glfw constants used by the backend ----
  const MOUSE_BUTTON_1: int := 0
  const MOUSE_BUTTON_2: int := 1
  const MOUSE_BUTTON_3: int := 2
  const KEY_LEFT_SHIFT: int := 340
  const KEY_LEFT_CONTROL: int := 341
  const KEY_LEFT_ALT: int := 342
  const KEY_LEFT_SUPER: int := 343
  const KEY_RIGHT_SHIFT: int := 344
  const KEY_RIGHT_CONTROL: int := 345
  const KEY_RIGHT_ALT: int := 346
  const KEY_RIGHT_SUPER: int := 347

  /** glfw's button/key action codes (GLFW_RELEASE, GLFW_PRESS, GLFW_REPEAT). */
  datatype Action = Release | Press | Repeat

  /** An x/y/width/height rectangle as glViewport and glScissor take it. */
  datatype Rect = Rect(x: int, y: int, width: int, height: int)

  /** A rectangle GL can hold as viewport or scissor box: it never has a negative size. */
  type Box = r: Rect | r.width >= 0 && r.height >= 0 witness Rect(0, 0, 0, 0)

  /** The four capabilities the backend toggles with glEnable/glDisable. */
  datatype Cap = Blend | CullFace | DepthTest | ScissorTest

  /** The two buffer binding points the backend uses. */
  datatype BufferTarget = ArrayBuffer | ElementArrayBuffer

  /** An imgui 2-vector (positions and sizes in logical pixels). */
  datatype Vec2 = Vec2(x: real, y: real)

  /**
   * The part of the GL pipeline state that the backend reads and writes.
   * Texture bindings are per texture unit (keyed by the unit's enumerant,
   * TEXTURE0 + k); sampler bindings are per unit number k. A unit absent from
   * a map has the default binding 0.
   */
  datatype PipelineState = PipelineState(
    activeTexture: int,
    program: int,
    textures: map<int, int>,
    samplers: map<int, int>,
    arrayBuffer: int,
    elementArrayBuffer: int,
    vertexArray: int,
    blendSrcRgb: int,
    blendDstRgb: int,
    blendSrcAlpha: int,
    blendDstAlpha: int,
    blendEquationRgb: int,
    blendEquationAlpha: int,
    blend: bool,
    cullFace: bool,
    depthTest: bool,
    scissorTest: bool,
    polygonMode: int,
    viewport: Box,
    scissorBox: Box)

  /** The binding of a unit in a per-unit map, 0 when never bound. */
  function Binding(units: map<int, int>, unit: int): int {
    if unit in units then units[unit] else 0
  }

  /** What glGetIntegerv(GL_TEXTURE_BINDING_2D) returns: the active unit's texture. */
  function BoundTexture(s: PipelineState): int {
    Binding(s.textures, s.activeTexture)
  }

  /** What glGetIntegerv(GL_SAMPLER_BINDING) returns: the active unit's sampler. */
  function BoundSampler(s: PipelineState): int {
    Binding(s.samplers, s.activeTexture - TEXTURE0)
  }

  /** What glIsEnabled returns for a capability. */
  function Enabled(s: PipelineState, cap: Cap): bool {
    match cap
    case Blend => s.blend
    case CullFace => s.cullFace
    case DepthTest => s.depthTest
    case ScissorTest => s.scissorTest
  }

  function WithCap(s: PipelineState, cap: Cap, on: bool): (r: PipelineState)
    ensures Enabled(r, cap) == on
    ensures forall c :: c != cap ==> Enabled(r, c) == Enabled(s, c)
  {
    match cap
    case Blend => s.(blend := on)
    case CullFace => s.(cullFace := on)
    case DepthTest => s.(depthTest := on)
    case ScissorTest => s.(scissorTest := on)
  }

  /**
   * The imgui IO record as the backend feeds it. KeyCtrl/KeyShift/KeyAlt/KeySuper
   * set a modifier from the key-down table (left or right key down).
   */
  datatype IoState = IoState(
    displaySize: Vec2,
    deltaTime: real,
    mousePos: Vec2,
    mouseDown: map<int, bool>,
    keysDown: set<int>,
    keyCtrl: bool,
    keyShift: bool,
    keyAlt: bool,
    keySuper: bool,
    fontTextureId: int)

  /** One state-changing call, as recorded in the call log: into imgui or into GL. */
  datatype Call = Imgui(imguiCall: ImguiCall) | Gl(glCall: GlCall)

  /** The imgui entry points the backend calls that change imgui state or hand control to imgui. */
  datatype ImguiCall =
    | SetDisplaySize(displaySize: Vec2)
    | SetDeltaTime(dt: real)
    | SetMousePosition(pos: Vec2)
    | SetMouseButtonDown(button: int, down: bool)
    | NewFrame
    | Render
    | KeyPress(key: int)
    | KeyRelease(key: int)
    | KeyCtrl(leftCtrl: int, rightCtrl: int)
    | KeyShift(leftShift: int, rightShift: int)
    | KeyAlt(leftAlt: int, rightAlt: int)
    | KeySuper(leftSuper: int, rightSuper: int)
    | SetFontTextureId(id: int)
    | UserCallback(list: nat, command: nat)

  /** The GL entry points the backend calls that change GL state or draw. */
  datatype GlCall =
    | ActiveTexture(unit: int)
    | UseProgram(program: int)
    | BindTexture(texture: int)
    | BindSampler(samplerUnit: nat, sampler: int)
    | BindVertexArray(vertexArray: int)
    | BindBuffer(target: BufferTarget, buffer: int)
    | BufferData(dataTarget: BufferTarget, byteSize: nat, usage: int)
    // glEnable(cap) when on, glDisable(cap) otherwise
    | Capability(cap: Cap, on: bool)
    | BlendEquation(mode: int)
    | BlendFunc(sfactor: int, dfactor: int)
    | BlendEquationSeparate(modeRgb: int, modeAlpha: int)
    | BlendFuncSeparate(srcRgb: int, dstRgb: int, srcAlpha: int, dstAlpha: int)
    | PolygonMode(face: int, polygonMode: int)
    | Viewport(viewport: Rect)
    | Scissor(box: Rect)
    | Uniform1i(uniform: int, value: int)
    | UniformProjection(projUniform: int)
    | GenVertexArray(genName: int)
    | DeleteVertexArray(deletedName: int)
    | EnableVertexAttribArray(attrib: int)
    | VertexAttribPointer(pointerAttrib: int, components: nat, componentType: int, normalized: bool, stride: int, offset: int)
    | DrawElements(drawMode: int, count: nat, indexType: int, indexOffset: nat)
    | DeleteBuffer(deletedBuffer: int)
    | DetachShader(fromProgram: int, detached: int)
    | DeleteShader(shader: int)
    | DeleteProgram(deletedProgram: int)
    | DeleteTexture(deletedTexture: int)

  /** What the backend can observe of both libraries: GL state, imgui IO, and the next vertex-array name. */
  datatype Context = Context(gl: PipelineState, io: IoState, nextName: int)

  /** The effect of one call on the imgui IO record. */
  function ApplyIo(io: IoState, c: ImguiCall): IoState {
    match c
    case SetDisplaySize(v) => io.(displaySize := v)
    case SetDeltaTime(dt) => io.(deltaTime := dt)
    case SetMousePosition(p) => io.(mousePos := p)
    case SetMouseButtonDown(b, d) => io.(mouseDown := io.mouseDown[b := d])
    case KeyPress(k) => io.(keysDown := io.keysDown + {k})
    case KeyRelease(k) => io.(keysDown := io.keysDown - {k})
    case KeyCtrl(l, r) => io.(keyCtrl := l in io.keysDown || r in io.keysDown)
    case KeyShift(l, r) => io.(keyShift := l in io.keysDown || r in io.keysDown)
    case KeyAlt(l, r) => io.(keyAlt := l in io.keysDown || r in io.keysDown)
    case KeySuper(l, r) => io.(keySuper := l in io.keysDown || r in io.keysDown)
    case SetFontTextureId(id) => io.(fontTextureId := id)
    case _ => io
  }

  /**
   * The effect of one call on the GL pipeline state. glViewport and glScissor
   * with a negative size raise GL_INVALID_VALUE and change nothing.
   */
  function ApplyGl(s: PipelineState, c: GlCall): PipelineState {
    match c
    case ActiveTexture(u) => s.(activeTexture := u)
    case UseProgram(p) => s.(program := p)
    case BindTexture(t) => s.(textures := s.textures[s.activeTexture := t])
    case BindSampler(u, smp) => s.(samplers := s.samplers[u := smp])
    case BindVertexArray(a) => s.(vertexArray := a)
    case BindBuffer(target, b) =>
      if target == ArrayBuffer then s.(arrayBuffer := b) else s.(elementArrayBuffer := b)
    case Capability(cap, on) => WithCap(s, cap, on)
    case BlendEquation(m) => s.(blendEquationRgb := m, blendEquationAlpha := m)
    case BlendFunc(sf, df) =>
      s.(blendSrcRgb := sf, blendSrcAlpha := sf, blendDstRgb := df, blendDstAlpha := df)
    case BlendEquationSeparate(mr, ma) => s.(blendEquationRgb := mr, blendEquationAlpha := ma)
    case BlendFuncSeparate(sr, dr, sa, da) =>
      s.(blendSrcRgb := sr, blendDstRgb := dr, blendSrcAlpha := sa, blendDstAlpha := da)
    case PolygonMode(_, m) => s.(polygonMode := m)
    case Viewport(r) => if r.width >= 0 && r.height >= 0 then s.(viewport := r) else s
    case Scissor(r) => if r.width >= 0 && r.height >= 0 then s.(scissorBox := r) else s
    case DeleteVertexArray(a) => if s.vertexArray == a then s.(vertexArray := 0) else s
    case _ => s
  }

  /** The effect of one call on everything the backend can observe. */
  function Apply(ctx: Context, c: Call): Context {
    match c
    case Imgui(call) => ctx.(io := ApplyIo(ctx.io, call))
    case Gl(call) =>
      ctx.(gl := ApplyGl(ctx.gl, call), nextName := if call.GenVertexArray? then ctx.nextName + 1 else ctx.nextName)
  }

  /** The observable context together with the log of every call issued so far. */
  datatype Trace = Trace(ctx: Context, log: seq<Call>)

  /** Issuing call c: the context takes its effect and the log records it. */
  function Issue(t: Trace, c: Call): Trace {
    Trace(Apply(t.ctx, c), t.log + [c])
  }

  /**
   * The GL context and the imgui context the backend talks to. Every method
   * is one library entry point: it updates the state the way the library does,
   * which is Apply's effect, and appends itself to the ghost log.
   */
  class Host {
    var gl: PipelineState
    var io: IoState
    var nextName: int        // the next vertex-array name the driver hands out
    ghost var log: seq<Call>

    ghost function State(): Trace
      reads this
    {
      Trace(Context(gl, io, nextName), log)
    }

    constructor (gl: PipelineState, io: IoState)
      ensures State() == Trace(Context(gl, io, 1), [])
    {
      this.gl := gl;
      this.io := io;
      nextName := 1;
      log := [];
    }

    /** This method issued call c and nothing else. */
    twostate predicate Did(c: Call)
      reads this
    {
      State() == Issue(old(State()), c)
    }

    // ---- imgui ----

    method SetDisplaySize(size: Vec2)
      modifies this
      ensures Did(Imgui(ImguiCall.SetDisplaySize(size)))
    {
      io := io.(displaySize := size);
      log := log + [Imgui(ImguiCall.SetDisplaySize(size))];
    }

    method SetDeltaTime(dt: real)
      modifies this
      ensures Did(Imgui(ImguiCall.SetDeltaTime(dt)))
    {
      io := io.(deltaTime := dt);
      log := log + [Imgui(ImguiCall.SetDeltaTime(dt))];
    }

    method SetMousePosition(pos: Vec2)
      modifies this
      ensures Did(Imgui(ImguiCall.SetMousePosition(pos)))
    {
      io := io.(mousePos := pos);
      log := log + [Imgui(ImguiCall.SetMousePosition(pos))];
    }

    method SetMouseButtonDown(button: int, down: bool)
      modifies this
      ensures Did(Imgui(ImguiCall.SetMouseButtonDown(button, down)))
    {
      io := io.(mouseDown := io.mouseDown[button := down]);
      log := log + [Imgui(ImguiCall.SetMouseButtonDown(button, down))];
    }

    method NewFrame()
      modifies this
      ensures Did(Imgui(ImguiCall.NewFrame))
    {
      log := log + [Imgui(ImguiCall.NewFrame)];
    }

    method Render()
      modifies this
      ensures Did(Imgui(ImguiCall.Render))
    {
      log := log + [Imgui(ImguiCall.Render)];
    }

    method KeyPress(key: int)
      modifies this
      ensures Did(Imgui(ImguiCall.KeyPress(key)))
    {
      io := io.(keysDown := io.keysDown + {key});
      log := log + [Imgui(ImguiCall.KeyPress(key))];
    }

    method KeyRelease(key: int)
      modifies this
      ensures Did(Imgui(ImguiCall.KeyRelease(key)))
    {
      io := io.(keysDown := io.keysDown - {key});
      log := log + [Imgui(ImguiCall.KeyRelease(key))];
    }

    method KeyCtrl(left: int, right: int)
      modifies this
      ensures Did(Imgui(ImguiCall.KeyCtrl(left, right)))
    {
      io := io.(keyCtrl := left in io.keysDown || right in io.keysDown);
      log := log + [Imgui(ImguiCall.KeyCtrl(left, right))];
    }

    method KeyShift(left: int, right: int)
      modifies this
      ensures Did(Imgui(ImguiCall.KeyShift(left, right)))
    {
      io := io.(keyShift := left in io.keysDown || right in io.keysDown);
      log := log + [Imgui(ImguiCall.KeyShift(left, right))];
    }

    method KeyAlt(left: int, right: int)
      modifies this
      ensures Did(Imgui(ImguiCall.KeyAlt(left, right)))
    {
      io := io.(keyAlt := left in io.keysDown || right in io.keysDown);
      log := log + [Imgui(ImguiCall.KeyAlt(left, right))];
    }

    method KeySuper(left: int, right: int)
      modifies this
      ensures Did(Imgui(ImguiCall.KeySuper(left, right)))
    {
      io := io.(keySuper := left in io.keysDown || right in io.keysDown);
      log := log + [Imgui(ImguiCall.KeySuper(left, right))];
    }

    method SetFontTextureId(id: int)
      modifies this
      ensures Did(Imgui(ImguiCall.SetFontTextureId(id)))
    {
      io := io.(fontTextureId := id);
      log := log + [Imgui(ImguiCall.SetFontTextureId(id))];
    }

    /** A draw command's user callback; it is taken to leave GL and imgui state alone. */
    method UserCallback(list: nat, command: nat)
      modifies this
      ensures Did(Imgui(ImguiCall.UserCallback(list, command)))
    {
      log := log + [Imgui(ImguiCall.UserCallback(list, command))];
    }

    // ---- OpenGL ----

    method ActiveTexture(unit: int)
      modifies this
      ensures Did(Gl(GlCall.ActiveTexture(unit)))
    {
      gl := gl.(activeTexture := unit);
      log := log + [Gl(GlCall.ActiveTexture(unit))];
    }

    method UseProgram(program: int)
      modifies this
      ensures Did(Gl(GlCall.UseProgram(program)))
    {
      gl := gl.(program := program);
      log := log + [Gl(GlCall.UseProgram(program))];
    }

    /** glBindTexture(GL_TEXTURE_2D, t): binds t on the active unit. */
    method BindTexture(texture: int)
      modifies this
      ensures Did(Gl(GlCall.BindTexture(texture)))
    {
      gl := gl.(textures := gl.textures[gl.activeTexture := texture]);
      log := log + [Gl(GlCall.BindTexture(texture))];
    }

    method BindSampler(unit: nat, sampler: int)
      modifies this
      ensures Did(Gl(GlCall.BindSampler(unit, sampler)))
    {
      gl := gl.(samplers := gl.samplers[unit := sampler]);
      log := log + [Gl(GlCall.BindSampler(unit, sampler))];
    }

    method BindVertexArray(vertexArray: int)
      modifies this
      ensures Did(Gl(GlCall.BindVertexArray(vertexArray)))
    {
      gl := gl.(vertexArray := vertexArray);
      log := log + [Gl(GlCall.BindVertexArray(vertexArray))];
    }

    method BindBuffer(target: BufferTarget, buffer: int)
      modifies this
      ensures Did(Gl(GlCall.BindBuffer(target, buffer)))
    {
      if target == ArrayBuffer {
        gl := gl.(arrayBuffer := buffer);
      } else {
        gl := gl.(elementArrayBuffer := buffer);
      }
      log := log + [Gl(GlCall.BindBuffer(target, buffer))];
    }

    /** glBufferData: replaces the bound buffer's contents (not part of the state record). */
    method BufferData(target: BufferTarget, size: nat, usage: int)
      modifies this
      ensures Did(Gl(GlCall.BufferData(target, size, usage)))
    {
      log := log + [Gl(GlCall.BufferData(target, size, usage))];
    }

    method Enable(cap: Cap)
      modifies this
      ensures Did(Gl(GlCall.Capability(cap, true)))
    {
      gl := WithCap(gl, cap, true);
      log := log + [Gl(GlCall.Capability(cap, true))];
    }

    method Disable(cap: Cap)
      modifies this
      ensures Did(Gl(GlCall.Capability(cap, false)))
    {
      gl := WithCap(gl, cap, false);
      log := log + [Gl(GlCall.Capability(cap, false))];
    }

    method BlendEquation(mode: int)
      modifies this
      ensures Did(Gl(GlCall.BlendEquation(mode)))
    {
      gl := gl.(blendEquationRgb := mode, blendEquationAlpha := mode);
      log := log + [Gl(GlCall.BlendEquation(mode))];
    }

    method BlendFunc(sfactor: int, dfactor: int)
      modifies this
      ensures Did(Gl(GlCall.BlendFunc(sfactor, dfactor)))
    {
      gl := gl.(blendSrcRgb := sfactor, blendSrcAlpha := sfactor, blendDstRgb := dfactor, blendDstAlpha := dfactor);
      log := log + [Gl(GlCall.BlendFunc(sfactor, dfactor))];
    }

    method BlendEquationSeparate(modeRgb: int, modeAlpha: int)
      modifies this
      ensures Did(Gl(GlCall.BlendEquationSeparate(modeRgb, modeAlpha)))
    {
      gl := gl.(blendEquationRgb := modeRgb, blendEquationAlpha := modeAlpha);
      log := log + [Gl(GlCall.BlendEquationSeparate(modeRgb, modeAlpha))];
    }

    method BlendFuncSeparate(srcRgb: int, dstRgb: int, srcAlpha: int, dstAlpha: int)
      modifies this
      ensures Did(Gl(GlCall.BlendFuncSeparate(srcRgb, dstRgb, srcAlpha, dstAlpha)))
    {
      gl := gl.(blendSrcRgb := srcRgb, blendDstRgb := dstRgb, blendSrcAlpha := srcAlpha, blendDstAlpha := dstAlpha);
      log := log + [Gl(GlCall.BlendFuncSeparate(srcRgb, dstRgb, srcAlpha, dstAlpha))];
    }

    method PolygonMode(face: int, mode: int)
      modifies this
      ensures Did(Gl(GlCall.PolygonMode(face, mode)))
    {
      gl := gl.(polygonMode := mode);
      log := log + [Gl(GlCall.PolygonMode(face, mode))];
    }

    /** glViewport: a negative width or height is GL_INVALID_VALUE and changes nothing. */
    method Viewport(r: Rect)
      modifies this
      ensures Did(Gl(GlCall.Viewport(r)))
    {
      if r.width >= 0 && r.height >= 0 {
        gl := gl.(viewport := r);
      }
      log := log + [Gl(GlCall.Viewport(r))];
    }

    /** glScissor: a negative width or height is GL_INVALID_VALUE and changes nothing. */
    method Scissor(r: Rect)
      modifies this
      ensures Did(Gl(GlCall.Scissor(r)))
    {
      if r.width >= 0 && r.height >= 0 {
        gl := gl.(scissorBox := r);
      }
      log := log + [Gl(GlCall.Scissor(r))];
    }

    method Uniform1i(uniform: int, value: int)
      modifies this
      ensures Did(Gl(GlCall.Uniform1i(uniform, value)))
    {
      log := log + [Gl(GlCall.Uniform1i(uniform, value))];
    }

    /** glUniformMatrix4fv of the orthographic projection (its float entries are not modelled). */
    method UniformProjection(uniform: int)
      modifies this
      ensures Did(Gl(GlCall.UniformProjection(uniform)))
    {
      log := log + [Gl(GlCall.UniformProjection(uniform))];
    }

    /** glGenVertexArrays(1, &name): hands out a fresh name. */
    method GenVertexArray() returns (name: int)
      modifies this
      ensures name == old(nextName)
      ensures Did(Gl(GlCall.GenVertexArray(name)))
    {
      name := nextName;
      nextName := nextName + 1;
      log := log + [Gl(GlCall.GenVertexArray(name))];
    }

    /** glDeleteVertexArrays(1, &name): a deleted array that is bound reverts the binding to 0. */
    method DeleteVertexArray(name: int)
      modifies this
      ensures Did(Gl(GlCall.DeleteVertexArray(name)))
    {
      if gl.vertexArray == name {
        gl := gl.(vertexArray := 0);
      }
      log := log + [Gl(GlCall.DeleteVertexArray(name))];
    }

    method EnableVertexAttribArray(attrib: int)
      modifies this
      ensures Did(Gl(GlCall.EnableVertexAttribArray(attrib)))
    {
      log := log + [Gl(GlCall.EnableVertexAttribArray(attrib))];
    }

    method VertexAttribPointer(attrib: int, components: nat, componentType: int, normalized: bool, stride: int, offset: int)
      modifies this
      ensures Did(Gl(GlCall.VertexAttribPointer(attrib, components, componentType, normalized, stride, offset)))
    {
      log := log + [Gl(GlCall.VertexAttribPointer(attrib, components, componentType, normalized, stride, offset))];
    }

    method DrawElements(mode: int, count: nat, indexType: int, offset: nat)
      modifies this
      ensures Did(Gl(GlCall.DrawElements(mode, count, indexType, offset)))
    {
      log := log + [Gl(GlCall.DrawElements(mode, count, indexType, offset))];
    }

    method DeleteBuffer(buffer: int)
      modifies this
      ensures Did(Gl(GlCall.DeleteBuffer(buffer)))
    {
      log := log + [Gl(GlCall.DeleteBuffer(buffer))];
    }

    method DetachShader(program: int, shader: int)
      modifies this
      ensures Did(Gl(GlCall.DetachShader(program, shader)))
    {
      log := log + [Gl(GlCall.DetachShader(program, shader))];
    }

    method DeleteShader(shader: int)
      modifies this
      ensures Did(Gl(GlCall.DeleteShader(shader)))
    {
      log := log + [Gl(GlCall.DeleteShader(shader))];
    }

    method DeleteProgram(program: int)
      modifies this
      ensures Did(Gl(GlCall.DeleteProgram(program)))
    {
      log := log + [Gl(GlCall.DeleteProgram(program))];
    }

    method DeleteTexture(texture: int)
      modifies this
      ensures Did(Gl(GlCall.DeleteTexture(texture)))
    {
      log := log + [Gl(GlCall.DeleteTexture(texture))];
    }
  }
}
