/** The `forge` application's entry point as a client of the subsystems:
    initialise the logger and the window, run the frame loop until the
    window is asked to close, then deinitialise. */
module Forge {
  import opened Errors
  import opened Math
  import opened Native
  import Log
  import opened Window

  /** What `main` asks for: an 800 by 600 window titled "forge". */
  const Settings: WindowSettings := WindowSettings(Dimensions(800, 600), "forge")

  /** The library calls of one frame: process events, present, ask again. */
  function FrameCalls(window: nat, close: bool): seq<GlfwCall> {
    [GlfwCall.PollEvents, GlfwCall.SwapBuffers(window), WindowShouldClose(window, close)]
  }

  /** The calls of the first `frames` frames of the loop, in order; the frame
      numbered `closeAfter` is the one whose final query sees the request. */
  function LoopCalls(window: nat, frames: nat, closeAfter: nat): seq<GlfwCall>
    decreases frames
  {
    if frames == 0 then []
    else LoopCalls(window, frames - 1, closeAfter) + FrameCalls(window, frames - 1 == closeAfter)
  }

  /** Whether `calls` neither start nor terminate the library and destroy no window. */
  predicate Neutral(calls: seq<GlfwCall>) {
    forall i :: 0 <= i < |calls| ==> !calls[i].Init? && !calls[i].Terminate? && !calls[i].DestroyWindow?
  }

  /** Appending neutral calls changes none of the counts. */
  lemma NeutralKeepsCounts(calls: seq<GlfwCall>, more: seq<GlfwCall>, window: nat)
    requires Neutral(more)
    ensures Starts(calls + more) == Starts(calls)
    ensures Terminations(calls + more) == Terminations(calls)
    ensures Destructions(calls + more, window) == Destructions(calls, window)
  {
    assert multiset(calls + more) == multiset(calls) + multiset(more);
    assert GlfwCall.Init(true) !in more;
    assert Terminate !in more;
    assert DestroyWindow(window) !in more;
  }

  /** A run that initialises, issues neutral calls and deinitialises is
      balanced: one start, one termination, one destruction of its window. */
  lemma InitLoopDeinitBalanced(before: seq<GlfwCall>, loopCalls: seq<GlfwCall>, window: nat, after: seq<GlfwCall>)
    requires window != 0 && Neutral(loopCalls)
    requires after == before + InitCalls(Settings, true, window, true) + loopCalls + DeinitCalls(window, true)
    ensures |before| <= |after| && after[..|before|] == before
    ensures var calls := after[|before|..];
      Starts(calls) == 1 && Terminations(calls) == 1 && Destructions(calls, window) == 1
  {
    var initCalls := InitCalls(Settings, true, window, true);
    var deinitCalls := DeinitCalls(window, true);
    InitUnwindsCompletedStages(Settings, true, window, true);
    NeutralKeepsCounts(initCalls, loopCalls, window);
    var calls := after[|before|..];
    assert calls == (initCalls + loopCalls) + deinitCalls;
    assert multiset(deinitCalls) == multiset{DestroyWindow(window), Terminate};
    assert multiset(calls) == multiset(initCalls + loopCalls) + multiset(deinitCalls);
  }

  /** The frame loop of `main`: while the window is not asked to close,
      process events and present. The user asks to close it during the
      event processing of frame number `closeAfter` (counting from 0), so the
      loop runs `closeAfter + 1` frames. It only records the close request
      and issues neutral calls. */
  method FrameLoop(w: WindowSubsystem, glfw: Glfw, closeAfter: nat) returns (frames: nat)
    requires glfw.Valid() && w.Valid(glfw) && w.initialized && w.window != 0
    requires w.window !in glfw.state.closeRequested
    modifies glfw
    ensures glfw.Valid() && w.Valid(glfw)
    ensures frames == closeAfter + 1
    ensures glfw.state == old(glfw.state).(closeRequested := old(glfw.state.closeRequested) + {w.window})
    ensures glfw.trace == old(glfw.trace) + [WindowShouldClose(w.window, false)] + LoopCalls(w.window, frames, closeAfter)
    ensures |old(glfw.trace)| <= |glfw.trace| && glfw.trace[..|old(glfw.trace)|] == old(glfw.trace)
    ensures Neutral(glfw.trace[|old(glfw.trace)|..])
  {
    frames := 0;
    var close := w.ShouldClose(glfw);
    while !close
      invariant glfw.Valid() && w.Valid(glfw)
      invariant frames <= closeAfter + 1
      invariant close <==> frames > closeAfter
      invariant glfw.state == old(glfw.state).(closeRequested :=
        if frames > closeAfter then old(glfw.state.closeRequested) + {w.window} else old(glfw.state.closeRequested))
      invariant glfw.trace == old(glfw.trace) + [WindowShouldClose(w.window, false)] + LoopCalls(w.window, frames, closeAfter)
      invariant |old(glfw.trace)| <= |glfw.trace| && glfw.trace[..|old(glfw.trace)|] == old(glfw.trace)
      invariant Neutral(glfw.trace[|old(glfw.trace)|..])
      decreases closeAfter + 1 - frames
    {
      ghost var before := glfw.trace;
      w.PollEvents(glfw);
      if frames == closeAfter {
        glfw.RequestClose(w.window);
      }
      w.SwapBuffers(glfw);
      close := w.ShouldClose(glfw);
      assert glfw.trace == before + FrameCalls(w.window, frames == closeAfter);
      frames := frames + 1;
    }
  }

  /** `main`: exit code 1 when either init fails, 0 after a full run. Every
      run that gets a window gives back everything it acquired from the
      library: it is started once and terminated once, and the window is
      created and destroyed once. A failed run leaves the library as it
      found it. */
  method RunForge(log: Log.LoggerSubsystem, w: WindowSubsystem, glfw: Glfw,
                  libraryStarts: bool, windowOpens: bool, loaderLoads: bool, closeAfter: nat)
      returns (exitCode: int)
    requires log.Valid() && glfw.Valid() && w.Valid(glfw)
    modifies log, w, glfw
    ensures exitCode == 0 || exitCode == 1
    ensures exitCode == 0 <==> !old(log.initialized) && !old(w.initialized) && libraryStarts && windowOpens && loaderLoads
    ensures exitCode == 1 ==> glfw.state == old(glfw.state)
    ensures exitCode == 0 ==>
      && glfw.state == InitialGlfw
      && |old(glfw.trace)| <= |glfw.trace| && glfw.trace[..|old(glfw.trace)|] == old(glfw.trace)
      && var calls := glfw.trace[|old(glfw.trace)|..];
         Starts(calls) == 1 && Terminations(calls) == 1 && Destructions(calls, old(glfw.nextWindow)) == 1
  {
    var logged := log.Init("forge", "forge.log");
    if !logged.IsOk() {
      exitCode := 1;
      return;
    }
    ghost var t0 := glfw.trace;
    ghost var handed := glfw.nextWindow;
    var e := w.Init(Settings, glfw, log, libraryStarts, windowOpens, loaderLoads);
    if !e.IsOk() {
      log.Emit(Log.ErrorLevel);
      exitCode := 1;
      return;
    }
    ghost var t1 := glfw.trace;
    var frames := FrameLoop(w, glfw, closeAfter);
    ghost var loopCalls := glfw.trace[|t1|..];
    w.Deinit(glfw);
    InitLoopDeinitBalanced(t0, loopCalls, handed, glfw.trace);
    exitCode := 0;
  }
}
