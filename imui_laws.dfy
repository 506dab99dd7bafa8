/*
 * The promises imui/imui.go makes about the calls it issues: the button
 * tables, what a frame reports for each mouse button, the index-buffer
 * offsets of the draw walk, the guarded teardown, and the restore relation.
 */
module ImuiLaws {
  import opened Native
  import opened ImuiSpec

  // ---- Mouse buttons ----

  /** glfwButtonIndexByID and glfwButtonIDByIndex are inverse to each other over the three buttons. */
  lemma ButtonMapsInverse()
    ensures GlfwButtonIdByIndex.Keys == {0, 1, 2}
    ensures forall i :: i in GlfwButtonIdByIndex ==>
      GlfwButtonIdByIndex[i] in GlfwButtonIndexById && GlfwButtonIndexById[GlfwButtonIdByIndex[i]] == i
    ensures forall b :: b in GlfwButtonIndexById ==>
      GlfwButtonIndexById[b] in GlfwButtonIdByIndex && GlfwButtonIdByIndex[GlfwButtonIndexById[b]] == b
  {
  }

  /** Setting the first n buttons sets exactly those entries of imgui's table and keeps every other entry. */
  lemma {:induction false} MouseDownAfterLookup(mouseDown: map<int, bool>, reported: seq<bool>, n: nat)
    requires n <= |reported|
    ensures forall k :: 0 <= k < n ==>
      k in MouseDownAfter(mouseDown, reported, n) && MouseDownAfter(mouseDown, reported, n)[k] == reported[k]
    ensures forall k :: !(0 <= k < n) ==>
      (k in MouseDownAfter(mouseDown, reported, n) <==> k in mouseDown) &&
      (k in mouseDown ==> MouseDownAfter(mouseDown, reported, n)[k] == mouseDown[k])
  {
    if n > 0 {
      MouseDownAfterLookup(mouseDown, reported, n - 1);
    }
  }

  /** NewFrame reports each button down exactly when it was latched since the last frame or is held now. */
  lemma FrameReportsLatchOrHeld(io: IoState, time: real, latch: seq<bool>, window: Window, currentTime: real)
    requires |latch| == 3
    ensures forall i :: 0 <= i < 3 ==>
      i in FrameIo(io, time, latch, window, currentTime).mouseDown &&
      (FrameIo(io, time, latch, window, currentTime).mouseDown[i] <==> latch[i] || GlfwButtonIdByIndex[i] in window.pressedButtons)
  {
    MouseDownAfterLookup(io.mouseDown, ReportedDown(latch, window.pressedButtons), 3);
  }

  /**
   * A press of a known button is reported down by the next frame even when the
   * button is no longer held, and, since that frame clears the latch, not by
   * the frame after unless the button is held again.
   */
  lemma PressReportedOnce(latch: seq<bool>, rawButton: int, heldFirst: set<int>, heldSecond: set<int>)
    requires |latch| == 3 && rawButton in GlfwButtonIndexById
    requires rawButton !in heldSecond
    ensures ReportedDown(PressLatch(latch, rawButton, Press), heldFirst)[GlfwButtonIndexById[rawButton]]
    ensures !ReportedDown([false, false, false], heldSecond)[GlfwButtonIndexById[rawButton]]
  {
  }

  // ---- The draw walk ----

  /** The element count of a command list, summed from the front: a reference for the walk's offset. */
  function ElementTotal(cmds: seq<DrawCmd>): nat {
    if cmds == [] then 0 else cmds[0].elementCount + ElementTotal(cmds[1..])
  }

  lemma {:induction false} ElementTotalAppend(cmds: seq<DrawCmd>, cmd: DrawCmd)
    ensures ElementTotal(cmds + [cmd]) == ElementTotal(cmds) + cmd.elementCount
  {
    if cmds != [] {
      assert (cmds + [cmd])[1..] == cmds[1..] + [cmd];
      ElementTotalAppend(cmds[1..], cmd);
    }
  }

  /** After any prefix of commands the index offset is that prefix's element count times the index size. */
  lemma {:induction false} IndexBytesIsElementTotal(cmds: seq<DrawCmd>, indexSize: nat)
    ensures IndexBytes(cmds, indexSize) == ElementTotal(cmds) * indexSize
  {
    if cmds != [] {
      var n := |cmds| - 1;
      IndexBytesIsElementTotal(cmds[..n], indexSize);
      ElementTotalAppend(cmds[..n], cmds[n]);
      assert cmds[..n] + [cmds[n]] == cmds;
    }
  }

  /** The offset never moves backwards along a command list. */
  lemma {:induction false} IndexBytesMonotone(cmds: seq<DrawCmd>, indexSize: nat, i: nat, j: nat)
    requires i <= j <= |cmds|
    ensures IndexBytes(cmds[..i], indexSize) <= IndexBytes(cmds[..j], indexSize)
  {
    if i < j {
      IndexBytesMonotone(cmds, indexSize, i, j - 1);
      assert cmds[..j][..j - 1] == cmds[..j - 1];
    }
  }

  /**
   * With imgui's guarantee that a list's index buffer holds the elements of
   * all its commands, command c reads a byte range that starts where the
   * previous command's ended and ends inside the uploaded index buffer.
   */
  lemma DrawWithinIndexBuffer(list: CommandList, indexSize: nat, c: nat)
    requires c < |list.commands|
    requires ElementTotal(list.commands) * indexSize <= list.indexBufferSize
    ensures IndexBytes(list.commands[..c + 1], indexSize)
         == IndexBytes(list.commands[..c], indexSize) + list.commands[c].elementCount * indexSize
    ensures IndexBytes(list.commands[..c + 1], indexSize) <= list.indexBufferSize
  {
    var cmds := list.commands;
    assert cmds[..c + 1][..c] == cmds[..c];
    IndexBytesMonotone(cmds, indexSize, c + 1, |cmds|);
    assert cmds[..|cmds|] == cmds;
    IndexBytesIsElementTotal(cmds, indexSize);
  }

  /**
   * A list of a 6-element draw, a 12-element user callback and a 3-element
   * draw with 2-byte indices: the callback draws nothing but still advances
   * the offset, so the draws read from byte offsets 0 and 36.
   */
  lemma OffsetsExample(t: Trace, l: nat, fbHeight: int, clip: ClipRect)
    ensures var cmds := [DrawCmd(clip, 7, 6, false), DrawCmd(clip, 7, 12, true), DrawCmd(clip, 7, 3, false)];
      CommandsTrace(t, cmds, l, fbHeight, UNSIGNED_SHORT, 2).log
      == t.log + [Gl(BindTexture(7)), Gl(Scissor(ScissorBox(clip, fbHeight))), Gl(DrawElements(TRIANGLES, 6, UNSIGNED_SHORT, 0)),
                  Imgui(UserCallback(l, 1)),
                  Gl(BindTexture(7)), Gl(Scissor(ScissorBox(clip, fbHeight))), Gl(DrawElements(TRIANGLES, 3, UNSIGNED_SHORT, 36))]
  {
    var draw6, call12, draw3 := DrawCmd(clip, 7, 6, false), DrawCmd(clip, 7, 12, true), DrawCmd(clip, 7, 3, false);
    var cmds := [draw6, call12, draw3];
    assert cmds[..2] == [draw6, call12] && [draw6, call12][..1] == [draw6] && [draw6][..0] == [];
    assert IndexBytes([draw6], 2) == 12;
    assert IndexBytes([draw6, call12], 2) == 36;
    var one := CommandsTrace(t, [draw6], l, fbHeight, UNSIGNED_SHORT, 2);
    assert CommandsTrace(t, [], l, fbHeight, UNSIGNED_SHORT, 2) == t && IndexBytes([], 2) == 0;
    assert one == CmdTrace(t, draw6, l, 0, fbHeight, UNSIGNED_SHORT, 0);
    var two := CommandsTrace(t, [draw6, call12], l, fbHeight, UNSIGNED_SHORT, 2);
    assert two == CmdTrace(one, call12, l, 1, fbHeight, UNSIGNED_SHORT, 12);
  }

  /** Three draws of 6, 12 and 3 elements with 2-byte indices read from byte offsets 0, 12 and 36. */
  lemma ThreeDrawsExample(t: Trace, l: nat, fbHeight: int, clip: ClipRect)
    ensures var cmds := [DrawCmd(clip, 7, 6, false), DrawCmd(clip, 7, 12, false), DrawCmd(clip, 7, 3, false)];
      CommandsTrace(t, cmds, l, fbHeight, UNSIGNED_SHORT, 2).log
      == t.log + [Gl(BindTexture(7)), Gl(Scissor(ScissorBox(clip, fbHeight))), Gl(DrawElements(TRIANGLES, 6, UNSIGNED_SHORT, 0)),
                  Gl(BindTexture(7)), Gl(Scissor(ScissorBox(clip, fbHeight))), Gl(DrawElements(TRIANGLES, 12, UNSIGNED_SHORT, 12)),
                  Gl(BindTexture(7)), Gl(Scissor(ScissorBox(clip, fbHeight))), Gl(DrawElements(TRIANGLES, 3, UNSIGNED_SHORT, 36))]
  {
    var draw6, draw12, draw3 := DrawCmd(clip, 7, 6, false), DrawCmd(clip, 7, 12, false), DrawCmd(clip, 7, 3, false);
    var cmds := [draw6, draw12, draw3];
    assert cmds[..2] == [draw6, draw12] && [draw6, draw12][..1] == [draw6] && [draw6][..0] == [];
    assert IndexBytes([draw6], 2) == 12;
    assert IndexBytes([draw6, draw12], 2) == 36;
    assert CommandsTrace(t, [], l, fbHeight, UNSIGNED_SHORT, 2) == t && IndexBytes([], 2) == 0;
    var one := CommandsTrace(t, [draw6], l, fbHeight, UNSIGNED_SHORT, 2);
    assert one == CmdTrace(t, draw6, l, 0, fbHeight, UNSIGNED_SHORT, 0);
    var two := CommandsTrace(t, [draw6, draw12], l, fbHeight, UNSIGNED_SHORT, 2);
    assert two == CmdTrace(one, draw12, l, 1, fbHeight, UNSIGNED_SHORT, 12);
  }

  /** The scissor box of a clip rectangle spanning rows 10 to 50 of a 600-row framebuffer starts at GL row 550. */
  lemma ScissorExample()
    ensures ScissorBox(ClipRect(20, 10, 120, 50), 600) == Rect(20, 550, 100, 40)
  {
  }

  // ---- Teardown ----

  /** A teardown call whose handle arguments are all live (non-zero); imgui's font id is only ever cleared. */
  predicate LiveRelease(c: Call) {
    match c
    case Gl(DeleteBuffer(b)) => b != 0
    case Gl(DetachShader(p, s)) => p != 0 && s != 0
    case Gl(DeleteShader(s)) => s != 0
    case Gl(DeleteProgram(p)) => p != 0
    case Gl(DeleteTexture(x)) => x != 0
    case Imgui(SetFontTextureId(id)) => id == 0
    case _ => false
  }

  /** `after` extends `before` with live releases only. */
  ghost predicate ReleasesLive(before: seq<Call>, after: seq<Call>) {
    |before| <= |after| && after[..|before|] == before &&
    forall i :: |before| <= i < |after| ==> LiveRelease(after[i])
  }

  lemma ReleasesLiveTransitive(a: seq<Call>, b: seq<Call>, c: seq<Call>)
    requires ReleasesLive(a, b) && ReleasesLive(b, c)
    ensures ReleasesLive(a, c)
  {
  }

  lemma IssueIfLiveReleases(t: Trace, handle: int, c: Call)
    requires handle != 0 ==> LiveRelease(c)
    ensures ReleasesLive(t.log, IssueIfLive(t, handle, c).log)
  {
  }

  lemma StageReleasesLive(t: Trace, program: int, stage: int)
    ensures ReleasesLive(t.log, StageTeardownTrace(t, program, stage).log)
  {
  }

  lemma BuffersReleaseLive(t: Trace, h: DeviceObjects)
    ensures ReleasesLive(t.log, IssueIfLive(IssueIfLive(t, h.vboHandle, Gl(DeleteBuffer(h.vboHandle))),
                                            h.elementsHandle, Gl(DeleteBuffer(h.elementsHandle))).log)
  {
  }

  lemma StagesReleaseLive(t: Trace, h: DeviceObjects)
    ensures ReleasesLive(t.log, StageTeardownTrace(StageTeardownTrace(t, h.shaderHandle, h.vertHandle),
                                                   h.shaderHandle, h.fragHandle).log)
  {
    var vert := StageTeardownTrace(t, h.shaderHandle, h.vertHandle);
    StageReleasesLive(t, h.shaderHandle, h.vertHandle);
    StageReleasesLive(vert, h.shaderHandle, h.fragHandle);
    ReleasesLiveTransitive(t.log, vert.log, StageTeardownTrace(vert, h.shaderHandle, h.fragHandle).log);
  }

  lemma ProgramAndFontReleaseLive(t: Trace, h: DeviceObjects)
    ensures ReleasesLive(t.log, FontTeardownTrace(IssueIfLive(t, h.shaderHandle, Gl(DeleteProgram(h.shaderHandle))), h.fontTexture).log)
  {
    var program := IssueIfLive(t, h.shaderHandle, Gl(DeleteProgram(h.shaderHandle)));
    IssueIfLiveReleases(t, h.shaderHandle, Gl(DeleteProgram(h.shaderHandle)));
    var font := FontTeardownTrace(program, h.fontTexture);
    if h.fontTexture != 0 {
      var deleted := Issue(program, Gl(DeleteTexture(h.fontTexture)));
      IssueIfLiveReleases(program, h.fontTexture, Gl(DeleteTexture(h.fontTexture)));
      IssueIfLiveReleases(deleted, 1, Imgui(SetFontTextureId(0)));
      ReleasesLiveTransitive(program.log, deleted.log, font.log);
    }
    ReleasesLiveTransitive(t.log, program.log, font.log);
  }

  /**
   * invalidateDeviceObjects only appends calls to the log, and each of them
   * releases a live handle: nothing is deleted or detached through a zero handle.
   */
  lemma TeardownReleasesOnlyLive(t: Trace, h: DeviceObjects)
    ensures ReleasesLive(t.log, TeardownTrace(t, h).log)
  {
    var buffers := IssueIfLive(IssueIfLive(t, h.vboHandle, Gl(DeleteBuffer(h.vboHandle))),
                               h.elementsHandle, Gl(DeleteBuffer(h.elementsHandle)));
    var stages := StageTeardownTrace(StageTeardownTrace(buffers, h.shaderHandle, h.vertHandle),
                                     h.shaderHandle, h.fragHandle);
    BuffersReleaseLive(t, h);
    StagesReleaseLive(buffers, h);
    ProgramAndFontReleaseLive(stages, h);
    ReleasesLiveTransitive(t.log, buffers.log, stages.log);
    ReleasesLiveTransitive(t.log, stages.log, TeardownTrace(t, h).log);
  }

  /** The calls appended to a log. */
  ghost function Added(before: seq<Call>, after: seq<Call>): multiset<Call>
    requires |before| <= |after|
  {
    multiset(after[|before|..])
  }

  lemma AddedSplit(a: seq<Call>, b: seq<Call>, c: seq<Call>)
    requires |a| <= |b| <= |c| && c[..|b|] == b
    ensures Added(a, c) == Added(a, b) + Added(b, c)
  {
    assert c[|a|..] == b[|a|..] + c[|b|..];
  }

  lemma IssueIfLiveAdds(t: Trace, handle: int, c: Call)
    ensures |t.log| <= |IssueIfLive(t, handle, c).log| && IssueIfLive(t, handle, c).log[..|t.log|] == t.log
    ensures Added(t.log, IssueIfLive(t, handle, c).log) == (if handle != 0 then multiset{c} else multiset{})
  {
    if handle != 0 {
      assert (t.log + [c])[|t.log|..] == [c];
      assert (t.log + [c])[..|t.log|] == t.log;
    } else {
      assert t.log[|t.log|..] == [];
    }
  }

  /** The release of each live handle, once each: the detach needs a live program and a live stage. */
  function LiveReleases(h: DeviceObjects): multiset<Call> {
    BufferReleases(h) + StageReleases(h) + ProgramAndFontReleases(h)
  }

  function BufferReleases(h: DeviceObjects): multiset<Call> {
    (if h.vboHandle != 0 then multiset{Gl(DeleteBuffer(h.vboHandle))} else multiset{}) +
    (if h.elementsHandle != 0 then multiset{Gl(DeleteBuffer(h.elementsHandle))} else multiset{})
  }

  function StageReleases(h: DeviceObjects): multiset<Call> {
    (if h.shaderHandle != 0 && h.vertHandle != 0 then multiset{Gl(DetachShader(h.shaderHandle, h.vertHandle))} else multiset{}) +
    (if h.vertHandle != 0 then multiset{Gl(DeleteShader(h.vertHandle))} else multiset{}) +
    (if h.shaderHandle != 0 && h.fragHandle != 0 then multiset{Gl(DetachShader(h.shaderHandle, h.fragHandle))} else multiset{}) +
    (if h.fragHandle != 0 then multiset{Gl(DeleteShader(h.fragHandle))} else multiset{})
  }

  function ProgramAndFontReleases(h: DeviceObjects): multiset<Call> {
    (if h.shaderHandle != 0 then multiset{Gl(DeleteProgram(h.shaderHandle))} else multiset{}) +
    (if h.fontTexture != 0 then multiset{Gl(DeleteTexture(h.fontTexture)), Imgui(SetFontTextureId(0))} else multiset{})
  }

  lemma StageAdds(t: Trace, program: int, stage: int)
    ensures |t.log| <= |StageTeardownTrace(t, program, stage).log| && StageTeardownTrace(t, program, stage).log[..|t.log|] == t.log
    ensures Added(t.log, StageTeardownTrace(t, program, stage).log)
         == (if program != 0 && stage != 0 then multiset{Gl(DetachShader(program, stage))} else multiset{}) +
            (if stage != 0 then multiset{Gl(DeleteShader(stage))} else multiset{})
  {
    var detached := if program != 0 && stage != 0 then Issue(t, Gl(DetachShader(program, stage))) else t;
    IssueIfLiveAdds(t, if program != 0 && stage != 0 then 1 else 0, Gl(DetachShader(program, stage)));
    IssueIfLiveAdds(detached, stage, Gl(DeleteShader(stage)));
    assert StageTeardownTrace(t, program, stage).log[..|detached.log|][..|t.log|] == t.log;
    AddedSplit(t.log, detached.log, StageTeardownTrace(t, program, stage).log);
  }

  lemma FontAdds(t: Trace, font: int)
    ensures |t.log| <= |FontTeardownTrace(t, font).log| && FontTeardownTrace(t, font).log[..|t.log|] == t.log
    ensures Added(t.log, FontTeardownTrace(t, font).log)
         == (if font != 0 then multiset{Gl(DeleteTexture(font)), Imgui(SetFontTextureId(0))} else multiset{})
  {
    if font != 0 {
      var deleted := Issue(t, Gl(DeleteTexture(font)));
      IssueIfLiveAdds(t, font, Gl(DeleteTexture(font)));
      IssueIfLiveAdds(deleted, 1, Imgui(SetFontTextureId(0)));
      assert FontTeardownTrace(t, font).log[..|deleted.log|][..|t.log|] == t.log;
      AddedSplit(t.log, deleted.log, FontTeardownTrace(t, font).log);
    }
  }

  lemma BuffersAdd(t: Trace, h: DeviceObjects)
    ensures var buffers := IssueIfLive(IssueIfLive(t, h.vboHandle, Gl(DeleteBuffer(h.vboHandle))),
                                       h.elementsHandle, Gl(DeleteBuffer(h.elementsHandle)));
      |t.log| <= |buffers.log| && buffers.log[..|t.log|] == t.log &&
      Added(t.log, buffers.log) == BufferReleases(h)
  {
    var vbo := IssueIfLive(t, h.vboHandle, Gl(DeleteBuffer(h.vboHandle)));
    var buffers := IssueIfLive(vbo, h.elementsHandle, Gl(DeleteBuffer(h.elementsHandle)));
    IssueIfLiveAdds(t, h.vboHandle, Gl(DeleteBuffer(h.vboHandle)));
    IssueIfLiveAdds(vbo, h.elementsHandle, Gl(DeleteBuffer(h.elementsHandle)));
    assert buffers.log[..|vbo.log|][..|t.log|] == t.log;
    AddedSplit(t.log, vbo.log, buffers.log);
  }

  lemma StagesAdd(t: Trace, h: DeviceObjects)
    ensures var stages := StageTeardownTrace(StageTeardownTrace(t, h.shaderHandle, h.vertHandle), h.shaderHandle, h.fragHandle);
      |t.log| <= |stages.log| && stages.log[..|t.log|] == t.log &&
      Added(t.log, stages.log) == StageReleases(h)
  {
    var vert := StageTeardownTrace(t, h.shaderHandle, h.vertHandle);
    var stages := StageTeardownTrace(vert, h.shaderHandle, h.fragHandle);
    StageAdds(t, h.shaderHandle, h.vertHandle);
    StageAdds(vert, h.shaderHandle, h.fragHandle);
    assert stages.log[..|vert.log|][..|t.log|] == t.log;
    AddedSplit(t.log, vert.log, stages.log);
  }

  lemma ProgramAndFontAdd(t: Trace, h: DeviceObjects)
    ensures var font := FontTeardownTrace(IssueIfLive(t, h.shaderHandle, Gl(DeleteProgram(h.shaderHandle))), h.fontTexture);
      |t.log| <= |font.log| && font.log[..|t.log|] == t.log &&
      Added(t.log, font.log) == ProgramAndFontReleases(h)
  {
    var program := IssueIfLive(t, h.shaderHandle, Gl(DeleteProgram(h.shaderHandle)));
    var font := FontTeardownTrace(program, h.fontTexture);
    IssueIfLiveAdds(t, h.shaderHandle, Gl(DeleteProgram(h.shaderHandle)));
    FontAdds(program, h.fontTexture);
    assert font.log[..|program.log|][..|t.log|] == t.log;
    AddedSplit(t.log, program.log, font.log);
  }

  /**
   * Conversely, invalidateDeviceObjects releases every live handle exactly
   * once, and issues nothing else.
   */
  lemma TeardownReleasesEveryLive(t: Trace, h: DeviceObjects)
    ensures |t.log| <= |TeardownTrace(t, h).log|
    ensures Added(t.log, TeardownTrace(t, h).log) == LiveReleases(h)
  {
    var buffers := IssueIfLive(IssueIfLive(t, h.vboHandle, Gl(DeleteBuffer(h.vboHandle))),
                               h.elementsHandle, Gl(DeleteBuffer(h.elementsHandle)));
    var stages := StageTeardownTrace(StageTeardownTrace(buffers, h.shaderHandle, h.vertHandle),
                                     h.shaderHandle, h.fragHandle);
    BuffersAdd(t, h);
    StagesAdd(buffers, h);
    ProgramAndFontAdd(stages, h);
    AddedSplit(t.log, buffers.log, stages.log);
    AddedSplit(t.log, stages.log, TeardownTrace(t, h).log);
  }

  /** Once every handle is released, invalidateDeviceObjects issues nothing: a second Dispose is harmless. */
  lemma SecondTeardownIssuesNothing(t: Trace, h: DeviceObjects)
    ensures Released(Released(h)) == Released(h)
    ensures TeardownTrace(t, Released(h)) == t
  {
  }

  // ---- The restore relation ----

  /** Restoring twice restores the original: the relation is transitive, so consecutive Renders keep the state they started from. */
  lemma RestoredTransitive(a: PipelineState, b: PipelineState, c: PipelineState)
    requires Restored(a, b) && Restored(b, c)
    ensures Restored(a, c)
  {
  }
}
