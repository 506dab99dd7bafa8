# imui backend model

A Dafny model of `imui/imui.go`, glapp's bridge between a glfw window, Dear
ImGui (through imgui-go) and an OpenGL 3.3 core context. The model covers the
four things the backend does.

- **Input.** It forwards window, time, cursor and mouse/keyboard state to
  imgui. A mouse press is latched between frames, so that a click shorter
  than a frame is still seen.
- **Drawing.** It translates imgui's draw lists into GL calls: a scissor box
  flipped to GL's bottom-left origin, and an index-buffer offset that restarts
  at every list and advances past every command.
- **State restore.** It backs up the GL state before drawing and puts every
  saved piece back afterwards.
- **Teardown.** It releases its GL objects, touching only handles that are
  live.

The project has five modules.

- `Native` (`native.dfy`) is the two native libraries as the backend sees
  them:
  - a GL pipeline-state record (texture and sampler bindings per unit) and an
    imgui IO record;
  - every call the backend makes, as a datatype, with its effect on those
    records;
  - a `Host` object whose methods issue one call each. They append the call
    to a ghost log and apply its effect.
- `ImuiSpec` (`imui_spec.dfy`) is pure functions:
  - the latch;
  - the values forwarded to imgui;
  - the scissor and draw-type arithmetic;
  - the index offset;
  - the exact call sequence of each operation, as a trace extension;
  - the backup, overlay and restored GL states.
- `ImuiProps` (`imui_props.dfy`) gives the effect of each call sequence on
  the GL state and the imgui IO record. It ends in `RenderEffect`, the
  restore guarantee.
- `ImuiLaws` (`imui_laws.dfy`) holds the backend's promises about the calls
  it issues:
  - the button tables;
  - what a frame reports;
  - the index offsets against an independent element count;
  - that teardown releases exactly the live handles;
  - that a second teardown issues nothing;
  - that the restore relation is transitive, so consecutive Renders keep the state they started from.
- `Imui` (`imui.dfy`) is the `IMUI` struct as a class. Its methods update the
  latch array, the timestamp and the handle fields in place, and drive the
  `Host`. Each is proved to issue exactly the call sequence its `ImuiSpec`
  function describes.

## Model

| member | source | states |
|---|---|---|
| Imui.Imui.constructor | imui/imui.go:43-57 | A new backend has no timestamp, an all-clear three-slot latch, GLSL version "#version 150", and holds the device objects created for it. |
| Imui.Imui.NewFrame | imui/imui.go:60-87 | Issues exactly `FrameTrace`. It ends with every latch slot clear and the timestamp equal to the current time. |
| Imui.Imui.ForwardDeltaTime | imui/imui.go:66-70 | A delta time is forwarded only when a previous timestamp exists (> 0). The timestamp becomes the current time either way. |
| Imui.Imui.ForwardMouseButtons | imui/imui.go:80-84 | Sets buttons 0, 1, 2 in order, each down iff latched or held, and clears the whole latch. |
| ImuiProps.ButtonsEffect | imui/imui.go:80-84 | The button loop changes only imgui's button table, and only the first n entries of it. |
| ImuiProps.FrameEffect | imui/imui.go:60-87 | NewFrame leaves GL state and names alone. In imgui IO it sets the display size and the cursor (off-screen when unfocused). It sets a delta only when a timestamp exists, and sets the button table. |
| ImuiLaws.MouseDownAfterLookup | imui/imui.go:80-84 | After the loop, entries 0..n-1 hold the reported values. Every other button entry is kept, absent or present alike. |
| ImuiLaws.FrameReportsLatchOrHeld | imui/imui.go:81-82 | After NewFrame, each button i is down in imgui iff it was latched or its glfw button is held. |
| ImuiLaws.PressReportedOnce | imui/imui.go:81-83 | A press of a known button is reported down by the next frame even when already released. The frame after reports it up unless the button is held again. |
| ImuiLaws.ButtonMapsInverse | imui/imui.go:121-131 | glfwButtonIndexByID and glfwButtonIDByIndex are inverse bijections over buttons 0..2. |
| ImuiSpec.PressLatch | imui/imui.go:133-139 | After a button event, slot i is set iff it was set before or the event is a Press of the glfw button mapped to i. Unknown buttons, releases and repeats change nothing. |
| Imui.Imui.MouseButtonChange | imui/imui.go:133-139 | The latch array becomes `PressLatch` of its old contents. |
| Imui.Imui.KeyChange | imui/imui.go:145-158 | Issues exactly `KeyTrace`: a press or release of the key (never a repeat), then all four modifiers. |
| ImuiProps.KeyEventEffect | imui/imui.go:146-151 | The key event changes only imgui's key-down table. Press adds the key, release removes it, repeat leaves it. |
| ImuiProps.ModifiersEffect | imui/imui.go:154-157 | The modifier calls change only the four modifier flags. Each is recomputed from its left and right keys. |
| ImuiSpec.KeyIo | imui/imui.go:145-158 | After keyChange the key table follows the action. Each modifier flag is down iff its left or right key is down in the new table. Nothing else in imgui IO changes. |
| ImuiProps.KeyEffect | imui/imui.go:145-158 | keyChange leaves GL state and names alone and turns the imgui IO record into `KeyIo`. |
| Imui.Imui.Render | imui/imui.go:180-338 | With an empty framebuffer (width or height ≤ 0) no call at all is issued. Otherwise exactly `RenderTrace` is issued, with the device objects held at entry. |
| Imui.Imui.RenderDrawData | imui/imui.go:187-338 | Past the early return, Render issues imgui's Render, the backup's unit switch, the setup, the draw lists, the vertex-array deletion and the restore, in that order. |
| Imui.Imui.BackupState | imui/imui.go:195-232 | The returned backup is `Backup` of the state at entry: the active unit first, then the rest as unit 0 shows it. Only the switch to unit 0 is issued. |
| Imui.Imui.SetupRenderState | imui/imui.go:234-271 | Issues exactly `SetupTrace` and returns the vertex-array name it generated, the next unused name. |
| Imui.Imui.SetupVertexArray | imui/imui.go:258-271 | Generates the next vertex-array name, binds it with the vertex buffer, and describes position, uv and colour with the vertex layout. |
| ImuiProps.BlendStateEffect | imui/imui.go:235-237 | Blending goes on with equation FUNC_ADD and factors SRC_ALPHA / ONE_MINUS_SRC_ALPHA for colour and alpha. Nothing else changes. |
| ImuiProps.RasterStateEffect | imui/imui.go:238-246 | Culling and depth test go off, scissor test on, polygons are filled, and the viewport covers the framebuffer. Nothing else changes. |
| ImuiProps.UniformsEffect | imui/imui.go:253-256 | Only the current program and unit 0's sampler binding (reset to 0) change. |
| ImuiProps.VertexArrayEffect | imui/imui.go:261-271 | Only the vertex-array binding (the new name), the array-buffer binding (the vbo) and the name counter change. |
| ImuiProps.SetupEffect | imui/imui.go:234-271 | The whole setup turns the GL state into `OverlayState`, leaves imgui IO alone and uses up one name. |
| Imui.Imui.RenderDrawLists | imui/imui.go:279-302 | Issues exactly `ListsTrace`: per list in order, its uploads, then its command walk with the list's own index. |
| Imui.Imui.UploadBuffers | imui/imui.go:283-289 | Binds and fills the vertex buffer, then the index buffer, with the list's sizes and STREAM_DRAW. |
| Imui.Imui.RenderCommands | imui/imui.go:281-301 | Issues exactly `CommandsTrace`. The loop's offset restarts at 0 for the list and equals `IndexBytes` of the commands already walked. |
| Imui.Imui.RenderCommand | imui/imui.go:292-299 | A callback command only invokes the callback. Any other command binds its texture, sets its scissor box and draws its elements at the given offset. |
| ImuiSpec.ScissorBox | imui/imui.go:297 | The box covers exactly the clip rectangle's columns and, flipped to GL's bottom-left origin, exactly its rows. Reading it back gives the clip rectangle. |
| ImuiSpec.DrawType | imui/imui.go:272-277 | The index type is UNSIGNED_INT iff indices are 4 bytes, and UNSIGNED_SHORT otherwise. |
| ImuiLaws.IndexBytesIsElementTotal | imui/imui.go:281-301 | The offset reached after any commands, callbacks included, is their total element count (summed independently) times the index size. |
| ImuiLaws.IndexBytesMonotone | imui/imui.go:300 | The offset never decreases along a list. |
| ImuiLaws.DrawWithinIndexBuffer | imui/imui.go:287-300 | Suppose a list's uploaded index buffer holds the elements of all its commands, as imgui guarantees. Then command c reads from where command c-1's range ended up to a byte offset within that index buffer. |
| ImuiLaws.OffsetsExample | imui/imui.go:291-301 | With 2-byte indices, a list of a 6-element draw, a 12-element callback and a 3-element draw draws at offsets 0 and 36. The callback draws nothing but still advances the offset. |
| ImuiLaws.ThreeDrawsExample | imui/imui.go:291-301 | With 2-byte indices, three draws of 6, 12 and 3 elements are issued at byte offsets 0, 12 and 36, in that order. |
| ImuiLaws.ScissorExample | imui/imui.go:297 | Clip rows 10..50 in a 600-row framebuffer give a scissor box starting at GL row 550, 40 rows high. |
| ImuiProps.CmdEffect | imui/imui.go:292-299 | A command can change only the active unit's texture, the scissor box and the buffer bindings. |
| ImuiProps.CommandsEffect | imui/imui.go:291-301 | A list's command walk can change only the active unit's texture, the scissor box and the buffer bindings. |
| ImuiProps.ListsEffect | imui/imui.go:280-302 | All lists together can change only the active unit's texture, the scissor box and the buffer bindings. |
| Imui.Imui.RestoreState | imui/imui.go:305-337 | Issues exactly the restore calls for the backup, in source order. |
| Imui.Imui.RestoreCapability | imui/imui.go:315-334 | A saved capability is switched on if it was on and off if it was off. |
| ImuiProps.RestoreBindingsEffect | imui/imui.go:306-314 | Program, unit 0's sampler, active unit, vertex array, both buffers and the blend settings take their saved values. The saved texture is rebound on the unit active when restoring begins. |
| ImuiProps.RestoreRasterEffect | imui/imui.go:315-337 | The four capabilities, polygon mode, viewport and scissor box take their saved values. |
| ImuiProps.RestoreEffect | imui/imui.go:305-337 | The restore turns the GL state into `RestoredState` of the backup and leaves imgui IO and names alone. |
| ImuiProps.RenderPhases | imui/imui.go:195-337 | Backup, then overlay setup, drawing, vertex-array deletion and restore leave every saved piece of GL state as it was. That includes every unit's texture and sampler. |
| ImuiProps.RenderEffect | imui/imui.go:195-337 | A Render past the early return leaves every saved piece of GL state as it found it (`Restored`). It leaves imgui IO alone and uses up exactly one vertex-array name. |
| ImuiLaws.RestoredTransitive | imui/imui.go:305-337 | The restore relation is transitive, so consecutive Renders still restore the original state. |
| Imui.Imui.Dispose | imui/imui.go:175-177 | Every GL handle field is zero afterwards and the shader locations are kept. Exactly `TeardownTrace` of the handles held at entry is issued. |
| Imui.Imui.InvalidateDeviceObjects | imui/imui.go:410-446 | All six handle fields end zero, and exactly `TeardownTrace` of the entry handles is issued. |
| Imui.Imui.DeleteBufferIfLive | imui/imui.go:411-418 | A buffer is deleted iff its handle is non-zero. |
| Imui.Imui.ReleaseStage | imui/imui.go:420-434 | A stage is detached only when both program and stage are non-zero, and deleted iff it is non-zero. |
| Imui.Imui.DeleteProgramIfLive | imui/imui.go:436-439 | The program is deleted iff its handle is non-zero. |
| Imui.Imui.ReleaseFontTexture | imui/imui.go:441-445 | A live font texture is deleted and imgui's font id cleared. |
| ImuiProps.StageTeardownEffect | imui/imui.go:420-434 | Releasing a stage changes no GL state the backend observes. |
| ImuiProps.FontTeardownEffect | imui/imui.go:441-445 | Releasing the font changes only imgui's font id, to 0, and only when the texture is live. |
| ImuiProps.TeardownEffect | imui/imui.go:410-446 | Teardown changes no GL state and no name, and clears imgui's font id iff the font texture was live. |
| ImuiLaws.TeardownReleasesOnlyLive | imui/imui.go:410-446 | Teardown only appends to the log, and every appended call names non-zero handles only. A detach names a live program and a live stage. |
| ImuiLaws.TeardownReleasesEveryLive | imui/imui.go:410-446 | Counted with multiplicity, the calls teardown appends are exactly the releases of the live handles, one per live handle. |
| ImuiLaws.SecondTeardownIssuesNothing | imui/imui.go:410-446 | Releasing is idempotent, and teardown of released handles issues no call at all, so a second Dispose is harmless. |

## Left out

- Floating point:
  - the orthographic projection (lines 247-252) is one opaque uniform upload;
  - `ScaleClipRects` (lines 190-193) and the float32 conversions of sizes and positions are left out;
  - clip rectangles are integers already in framebuffer pixels, and time, cursor and sizes are reals.
- `createDeviceObjects` and `createFontsTexture` (lines 340-408) are not modelled. They compile shaders and upload the font atlas. The constructor takes the handles and locations they produce as a parameter.
- `setKeyMapping`, `installCallbacks`, `mouseScrollChange`, `charChange`, `Text` and `SetText` are not modelled. They are one-line forwards to imgui or glfw with no logic of the backend's own.
- The file that defines `mouseButtonPrimary`, `mouseButtonSecondary` and `mouseButtonTertiary` is not part of this model. They are taken as imgui's indices 0, 1 and 2.
- glfw, imgui and GL are modelled only as far as the backend relies on them:
  - a query returns the recorded state;
  - a call's effect is a record update;
  - buffer contents are their byte sizes;
  - a GL error (a negative viewport or scissor size) leaves the state unchanged.
- User callbacks are modelled as touching neither GL state nor imgui IO; what a callback does is outside the backend.
- The element-array binding is modelled as global state, not as part of the bound vertex array.
- Deleting a buffer, texture or shader does not unbind it in the model. The backend never uses a deleted object afterwards.
- glEnable and glDisable are one `Capability(cap, on)` call.
- Restoring is proved for the state the backend saves. State it never saves (bound textures of targets other than 2D, for example) is outside the record.
- Concurrency is not modelled: glfw callbacks and frames are sequential calls.
- InvalidateDeviceObjects: each guarded block of the source is a helper method on the handle value read at entry. A field is zeroed right after its block, as in the source. The font field is zeroed inside the guard, as in the source.
- DrawWithinIndexBuffer: it takes as a premise that imgui fills each list's index buffer with at least the elements its commands count. The backend trusts imgui for this and never checks it.
