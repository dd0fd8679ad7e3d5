/** The process-wide window subsystem (`nx::sys::Window*`): one window with
    its GL context, brought up by a staged pipeline (library, window,
    context, GL loader) that unwinds the stages already completed when a
    later one fails. */
module Window {
  import opened Errors
  import opened Math
  import opened Native
  import Log

  /** `WindowErrorCode`, stored in one byte. */
  datatype WindowErrorCode =
    | Ok
    | AlreadyInitialized
    | FailedToInitializeGlfw
    | FailedToCreateGlfwWindow
    | FailedToInitializeGlad
  {
    function Code(): (c: uint8)
      ensures c == 0 <==> this == Ok
      ensures c < 5
    {
      match this
      case Ok => 0
      case AlreadyInitialized => 1
      case FailedToInitializeGlfw => 2
      case FailedToCreateGlfwWindow => 3
      case FailedToInitializeGlad => 4
    }
  }

  /** The five codes are pairwise distinct, so the `Error` a `WindowInit`
      returns identifies the stage that failed, and only `kOk` is ok. */
  lemma CodesDistinct(a: WindowErrorCode, b: WindowErrorCode)
    ensures a.Code() == b.Code() ==> a == b
    ensures CreateError(a.Code()).IsOk() <==> a == Ok
    ensures CreateError(a.Code()).GetCode() == a.Code()
  {
  }

  /** `WindowSettings`: the requested size and title. */
  datatype WindowSettings = WindowSettings(dimensions: Dimensions<int>, title: string)

  /** The library calls of a `WindowInit` that passes the already-initialised
      check, given whether the library starts, the window the library answers
      (0 when none is created) and whether the loader succeeds. */
  function InitCalls(settings: WindowSettings, libraryStarts: bool, window: nat, loaderLoads: bool): seq<GlfwCall> {
    if !libraryStarts then [GlfwCall.Init(false)]
    else
      [GlfwCall.Init(true), CreateWindow(settings.dimensions.width, settings.dimensions.height, settings.title, window)]
      + if window == 0 then [Terminate]
        else [MakeContextCurrent(window), LoadGl(loaderLoads)] + if loaderLoads then [] else [DestroyWindow(window), Terminate]
  }

  /** The library calls of `WindowDeinit`: destroy the window if there is one,
      then terminate if the subsystem ever initialised. */
  function DeinitCalls(window: nat, initialized: bool): seq<GlfwCall> {
    (if window != 0 then [DestroyWindow(window)] else []) + (if initialized then [Terminate] else [])
  }

  /** Counts of the library calls that acquire and give back: starting the
      library against terminating it, creating a window against destroying it. */
  function Starts(calls: seq<GlfwCall>): nat {
    multiset(calls)[GlfwCall.Init(true)]
  }

  function Terminations(calls: seq<GlfwCall>): nat {
    multiset(calls)[Terminate]
  }

  function Destructions(calls: seq<GlfwCall>, window: nat): nat {
    multiset(calls)[DestroyWindow(window)]
  }

  /** A failed init gives back everything it acquired: the library is
      terminated once if it was started, and a window it created is
      destroyed once. On success nothing is given back. */
  lemma InitUnwindsCompletedStages(settings: WindowSettings, libraryStarts: bool, window: nat, loaderLoads: bool)
    ensures var calls := InitCalls(settings, libraryStarts, window, loaderLoads);
      var succeeds := libraryStarts && window != 0 && loaderLoads;
      && Starts(calls) == (if libraryStarts then 1 else 0)
      && Terminations(calls) == (if libraryStarts && !succeeds then 1 else 0)
      && (window != 0 ==> Destructions(calls, window) == (if libraryStarts && !succeeds then 1 else 0))
  {
    var calls := InitCalls(settings, libraryStarts, window, loaderLoads);
    if libraryStarts && window != 0 {
      var tail := if loaderLoads then [] else [DestroyWindow(window), Terminate];
      assert calls == [GlfwCall.Init(true), CreateWindow(settings.dimensions.width, settings.dimensions.height, settings.title, window),
                       MakeContextCurrent(window), LoadGl(loaderLoads)] + tail;
    }
  }

  /** A successful init followed by deinit is balanced: the library is
      started once and terminated once, and the window created is destroyed
      once. */
  lemma SuccessfulInitThenDeinitBalanced(settings: WindowSettings, window: nat)
    requires window != 0
    ensures var calls := InitCalls(settings, true, window, true) + DeinitCalls(window, true);
      && Starts(calls) == 1 && Terminations(calls) == 1 && Destructions(calls, window) == 1
  {
    var init := InitCalls(settings, true, window, true);
    var create := CreateWindow(settings.dimensions.width, settings.dimensions.height, settings.title, window);
    assert init == [GlfwCall.Init(true), create, MakeContextCurrent(window), LoadGl(true)];
    assert multiset(init) == multiset{GlfwCall.Init(true), create, MakeContextCurrent(window), LoadGl(true)};
    var deinit := DeinitCalls(window, true);
    assert multiset(deinit) == multiset{DestroyWindow(window), Terminate};
    assert multiset(init + deinit) == multiset(init) + multiset(deinit);
  }

  /** `WindowSubsystem`: the window (0 for null), the tracked size and title,
      and the flag that makes init one-shot. */
  class WindowSubsystem {
    var window: nat
    var dimensions: Dimensions<int>
    var title: string
    var initialized: bool

    /** The subsystem is the library's only user: it holds a window exactly
      when the library is up, that window is then the only one and its
      context is current, and it holds one only once initialised. */
    ghost predicate Valid(glfw: Glfw)
      reads this, glfw
    {
      && (window != 0 ==> initialized && glfw.state.up && glfw.state.windows == {window} && glfw.state.current == window)
      && (window == 0 ==> !glfw.state.up)
    }

    /** The static instance before any call. */
    constructor ()
      ensures window == 0 && !initialized
      ensures dimensions == Dimensions(0, 0) && title == ""
    {
      window := 0;
      dimensions := Dimensions(0, 0);
      title := "";
      initialized := false;
    }

    /** `WindowInit`. A second init fails its assertion, which logs at the
        critical level (so the logger must exist), and then reports
        `kAlreadyInitialized` and touches nothing else. Otherwise each stage that fails yields its own code and
        undoes the stages before it, so a failed init leaves the library
        exactly as it found it and the subsystem uninitialised with no
        window; the settings are stored once the library has started. On
        success the subsystem is initialised with the new window current. */
    method Init(settings: WindowSettings, glfw: Glfw, log: Log.LoggerSubsystem,
                libraryStarts: bool, windowOpens: bool, loaderLoads: bool)
        returns (e: Error)
      requires glfw.Valid() && Valid(glfw)
      requires initialized ==> log.Ready()
      modifies this, glfw
      ensures glfw.Valid() && Valid(glfw)
      ensures e.IsOk() <==> !old(initialized) && libraryStarts && windowOpens && loaderLoads
      ensures old(initialized) ==>
        && e == CreateError(WindowErrorCode.AlreadyInitialized.Code())
        && window == old(window) && dimensions == old(dimensions) && title == old(title) && initialized
        && glfw.state == old(glfw.state) && glfw.trace == old(glfw.trace)
      ensures !old(initialized) ==>
        glfw.trace == old(glfw.trace) + InitCalls(settings, libraryStarts, if windowOpens then old(glfw.nextWindow) else 0, loaderLoads)
      ensures !old(initialized) && !libraryStarts ==>
        && e == CreateError(WindowErrorCode.FailedToInitializeGlfw.Code())
        && dimensions == old(dimensions) && title == old(title)
      ensures !old(initialized) && libraryStarts ==> dimensions == settings.dimensions && title == settings.title
      ensures !old(initialized) && libraryStarts && !windowOpens ==>
        e == CreateError(WindowErrorCode.FailedToCreateGlfwWindow.Code())
      ensures !old(initialized) && libraryStarts && windowOpens && !loaderLoads ==>
        e == CreateError(WindowErrorCode.FailedToInitializeGlad.Code())
      ensures !old(initialized) && !e.IsOk() ==>
        !initialized && window == 0 && glfw.state == old(glfw.state) && glfw.state == InitialGlfw
      ensures e.IsOk() ==>
        && e == CreateError(WindowErrorCode.Ok.Code())
        && initialized && window != 0 && window == old(glfw.nextWindow)
        && glfw.state == GlfwState(true, {window}, window, {})
    {
      if initialized {
        log.Emit(Log.CriticalLevel);
        e := CreateError(WindowErrorCode.AlreadyInitialized.Code());
        return;
      }
      var started := glfw.Init(libraryStarts);
      if !started {
        e := CreateError(WindowErrorCode.FailedToInitializeGlfw.Code());
        return;
      }
      dimensions := settings.dimensions;
      title := settings.title;
      window := glfw.CreateWindow(dimensions.width, dimensions.height, title, windowOpens);
      if window == 0 {
        glfw.Terminate();
        e := CreateError(WindowErrorCode.FailedToCreateGlfwWindow.Code());
        return;
      }
      glfw.MakeContextCurrent(window);
      var loaded := glfw.LoadGl(loaderLoads);
      if !loaded {
        glfw.DestroyWindow(window);
        window := 0;
        glfw.Terminate();
        e := CreateError(WindowErrorCode.FailedToInitializeGlad.Code());
        return;
      }
      initialized := true;
      e := CreateError(WindowErrorCode.Ok.Code());
    }

    /** `WindowDeinit`: destroys and forgets a window it holds, and terminates
        the library if the subsystem was initialised. It leaves `initialized`
        set, so a second call terminates again without destroying anything,
        and a later init reports `kAlreadyInitialized`. */
    method Deinit(glfw: Glfw)
      requires glfw.Valid() && Valid(glfw)
      modifies this, glfw
      ensures glfw.Valid() && Valid(glfw)
      ensures window == 0 && initialized == old(initialized)
      ensures dimensions == old(dimensions) && title == old(title)
      ensures glfw.trace == old(glfw.trace) + DeinitCalls(old(window), old(initialized))
      ensures glfw.state == if old(initialized) then InitialGlfw else old(glfw.state)
    {
      if window != 0 {
        glfw.DestroyWindow(window);
        window := 0;
      }
      if initialized {
        glfw.Terminate();
      }
    }

    /** `WindowShouldClose`: whether closing the window has been requested. The
        window must exist as well as the subsystem being initialised. */
    method ShouldClose(glfw: Glfw) returns (close: bool)
      requires glfw.Valid() && Valid(glfw)
      requires initialized && window != 0
      modifies glfw
      ensures glfw.Valid() && Valid(glfw)
      ensures close <==> window in glfw.state.closeRequested
      ensures glfw.state == old(glfw.state) && glfw.trace == old(glfw.trace) + [WindowShouldClose(window, close)]
    {
      close := glfw.WindowShouldClose(window);
    }

    /** `WindowPollEvents`: processes pending window events. */
    method PollEvents(glfw: Glfw)
      requires glfw.Valid() && Valid(glfw)
      requires initialized && window != 0
      modifies glfw
      ensures glfw.Valid() && Valid(glfw)
      ensures glfw.state == old(glfw.state) && glfw.trace == old(glfw.trace) + [GlfwCall.PollEvents]
    {
      glfw.PollEvents();
    }

    /** `WindowSwapBuffers`: presents the back buffer of the window. */
    method SwapBuffers(glfw: Glfw)
      requires glfw.Valid() && Valid(glfw)
      requires initialized && window != 0
      modifies glfw
      ensures glfw.Valid() && Valid(glfw)
      ensures glfw.state == old(glfw.state) && glfw.trace == old(glfw.trace) + [GlfwCall.SwapBuffers(window)]
    {
      glfw.SwapBuffers(window);
    }

    /** The window-size callback registered on the window: the tracked size
        becomes the new size; nothing else changes. */
    method Resize(width: int, height: int)
      requires window != 0
      modifies this
      ensures dimensions == Dimensions(width, height)
      ensures window == old(window) && title == old(title) && initialized == old(initialized)
    {
      dimensions := Dimensions(width, height);
    }

    /** `WindowGetDimensions`: the tracked size, asserting initialisation. */
    function GetDimensions(): (d: Dimensions<int>)
      requires initialized
      reads this
      ensures d.Equals(dimensions)
    {
      dimensions
    }

    /** `WindowGetTitle`: the stored title, asserting initialisation. */
    function GetTitle(): (t: string)
      requires initialized
      reads this
      ensures t == title
    {
      title
    }
  }

  /** After any failed init, deinit issues no library call at all, and the
      subsystem can be initialised again. */
  method FailedInitThenDeinit(w: WindowSubsystem, glfw: Glfw, log: Log.LoggerSubsystem, settings: WindowSettings,
                              libraryStarts: bool, windowOpens: bool, loaderLoads: bool)
      returns (e: Error)
    requires glfw.Valid() && w.Valid(glfw) && !w.initialized
    requires !(libraryStarts && windowOpens && loaderLoads)
    modifies w, glfw
    ensures !e.IsOk() && !w.initialized && w.window == 0
    ensures glfw.state == InitialGlfw && glfw.Valid() && w.Valid(glfw)
    ensures glfw.trace == old(glfw.trace) + InitCalls(settings, libraryStarts, if windowOpens then old(glfw.nextWindow) else 0, loaderLoads)
  {
    e := w.Init(settings, glfw, log, libraryStarts, windowOpens, loaderLoads);
    ghost var afterInit := glfw.trace;
    w.Deinit(glfw);
    assert DeinitCalls(0, false) == [];
    assert glfw.trace == afterInit;
  }
}
