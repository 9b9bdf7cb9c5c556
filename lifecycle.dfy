/** The platform session of the X11 port (`_glfwLibrary`): ordered
    acquisition in `_glfwPlatformInit`, guarded release in
    `_glfwPlatformTerminate`. */
module Lifecycle {
  import opened Platform
  import opened Probe
  import opened Gamma
  import opened Libraries

  /** The extension records of a library that was never initialized. */
  const FreshRandR := RandRRecord(false, 0, 0, 0, 0, false)
  const FreshVidMode := VidModeRecord(false, 0, 0)

  /** The calls made after a successful probe: gamma detection, the blank
      cursor, the libGL search, joysticks and timer, in that order. */
  function StartupTrace(cfg: Config, d: Detection, srv: Server): seq<Call>
  {
    d.trace + [CreateCursor] + LibrarySearch(cfg, srv.libraries)
    + [InitJoysticks, InitTimer]
  }

  /** The loader calls of `initLibraries`: the libGL search when the build
      loads libGL at run time, nothing otherwise. */
  function LibrarySearch(cfg: Config, libs: map<string, nat>): seq<Call>
  {
    if cfg.dlopenLibGL then LoadTrace(LibGLNames, libs) else []
  }

  lemma StartupLog(o: seq<Call>, cfg: Config, d: Detection, srv: Server)
    ensures o + d.trace + [CreateCursor] + LibrarySearch(cfg, srv.libraries) + [InitJoysticks, InitTimer]
         == o + StartupTrace(cfg, d, srv)
  {
    var libs := LibrarySearch(cfg, srv.libraries);
    AppendRegroup(o, d.trace, [CreateCursor]);
    AppendRegroup(o, d.trace + [CreateCursor], libs);
    AppendRegroup(o, d.trace + [CreateCursor] + libs, [InitJoysticks, InitTimer]);
  }

  /** The gamma detection `_glfwPlatformInit` runs on a session whose RandR
      record, VidMode record and ramp size were `randR`, `vidMode` and
      `rampSize` before the probe. */
  function InitDetection(cfg: Config, randR: RandRRecord, vidMode: VidModeRecord, rampSize: nat, srv: Server)
    : Detection
  {
    DetectGamma(cfg, ProbedRandR(cfg, randR, srv), ProbedVidMode(cfg, vidMode, srv).available, rampSize, srv)
  }

  /** The calls `_glfwPlatformInit` makes. */
  function InitTrace(cfg: Config, randR: RandRRecord, vidMode: VidModeRecord, rampSize: nat, srv: Server)
    : (t: seq<Call>)
    ensures |t| > 0 && t[0] == OpenDisplay
    // a failed probe ends init: only the probe's own calls are made
    ensures !ProbeSucceeds(srv) ==> t == ProbeTrace(cfg, srv)
    // a successful init always ends by starting the timer
    ensures ProbeSucceeds(srv) ==> t[|t| - 1] == InitTimer
    ensures ProbeSucceeds(srv) ==> GetGammaRamp in t && CreateCursor in t && InitJoysticks in t
  {
    if !ProbeSucceeds(srv) then ProbeTrace(cfg, srv)
    else ProbeTrace(cfg, srv) + StartupTrace(cfg, InitDetection(cfg, randR, vidMode, rampSize, srv), srv)
  }

  /** Init starts the libGL search, with the first name of the list, exactly
      when the probe succeeds and the build loads libGL at run time. */
  lemma InitTraceSearchesLibGL(cfg: Config, randR: RandRRecord, vidMode: VidModeRecord, rampSize: nat, srv: Server)
    ensures DlOpen(LibGLNames[0]) in InitTrace(cfg, randR, vidMode, rampSize, srv)
        <==> ProbeSucceeds(srv) && cfg.dlopenLibGL
  {
    var first := DlOpen(LibGLNames[0]);
    var probe := ProbeTrace(cfg, srv);
    ProbeTraceOrdered(cfg, srv);
    NotInPhases(probe, 0, 5, first);
    if ProbeSucceeds(srv) {
      var d := InitDetection(cfg, randR, vidMode, rampSize, srv);
      NotInPhases(d.trace, 6, 8, first);
      var libs := LibrarySearch(cfg, srv.libraries);
      assert first in libs <==> cfg.dlopenLibGL by {
        if cfg.dlopenLibGL {
          assert libs[0] == first;
        }
      }
      var startup := StartupTrace(cfg, d, srv);
      assert first in startup <==> first in libs;
      assert InitTrace(cfg, randR, vidMode, rampSize, srv) == probe + startup;
    }
  }

  lemma StartupTraceOrdered(cfg: Config, d: Detection, srv: Server)
    requires InPhaseOrder(d.trace) && PhasesWithin(d.trace, 6, 8)
    ensures InPhaseOrder(StartupTrace(cfg, d, srv)) && PhasesWithin(StartupTrace(cfg, d, srv), 6, 12)
  {
    var libs := LibrarySearch(cfg, srv.libraries);
    assert InPhaseOrder(libs) && PhasesWithin(libs, 10, 10);
    OrderedConcat(d.trace, [CreateCursor], 6, 8, 9);
    OrderedConcat(d.trace + [CreateCursor], libs, 6, 9, 10);
    OrderedConcat(d.trace + [CreateCursor] + libs, [InitJoysticks, InitTimer], 6, 10, 12);
  }

  /** Init never goes back in the source's order, and a failed init makes no
      call after the probe. */
  lemma InitTraceOrdered(cfg: Config, randR: RandRRecord, vidMode: VidModeRecord, rampSize: nat, srv: Server)
    ensures InPhaseOrder(InitTrace(cfg, randR, vidMode, rampSize, srv))
    ensures PhasesWithin(InitTrace(cfg, randR, vidMode, rampSize, srv), 0, 12)
    ensures !ProbeSucceeds(srv) ==> PhasesWithin(InitTrace(cfg, randR, vidMode, rampSize, srv), 0, 5)
  {
    ProbeTraceOrdered(cfg, srv);
    if ProbeSucceeds(srv) {
      var d := InitDetection(cfg, randR, vidMode, rampSize, srv);
      StartupTraceOrdered(cfg, d, srv);
      OrderedConcat(ProbeTrace(cfg, srv), StartupTrace(cfg, d, srv), 0, 5, 12);
    }
  }

  function CursorRelease(cursor: nat): seq<Call>
  {
    if cursor != 0 then [FreeCursor(cursor)] else []
  }

  function RampRestore(rampSize: nat, ramp: GammaRamp): seq<Call>
  {
    if rampSize != 0 then [SetGammaRamp(ramp)] else []
  }

  function DisplayClose(display: nat): seq<Call>
  {
    if display != 0 then [CloseDisplay(display)] else []
  }

  function LibraryRelease(cfg: Config, libGL: nat): seq<Call>
  {
    if cfg.dlopenLibGL && libGL != 0 then [DlClose(libGL)] else []
  }

  /** The calls `_glfwPlatformTerminate` makes on a session holding `cursor`,
      `display` and `libGL`, with ramp size `rampSize` and saved `ramp`. */
  function ReleaseTrace(cfg: Config, cursor: nat, rampSize: nat, ramp: GammaRamp, display: nat, libGL: nat)
    : (t: seq<Call>)
    // each step is guarded by the presence of what it releases
    ensures FreeCursor(cursor) in t <==> cursor != 0
    ensures SetGammaRamp(ramp) in t <==> rampSize != 0
    ensures CloseDisplay(display) in t <==> display != 0
    ensures DlClose(libGL) in t <==> cfg.dlopenLibGL && libGL != 0
    ensures TerminateJoysticks in t
    // nothing but the session's own resources is released
    ensures forall c :: c in t ==> c == FreeCursor(cursor) || c == SetGammaRamp(ramp) || c == CloseDisplay(display)
                                   || c == TerminateJoysticks || c == DlClose(libGL)
  {
    CursorRelease(cursor) + RampRestore(rampSize, ramp) + DisplayClose(display) + [TerminateJoysticks]
    + LibraryRelease(cfg, libGL)
  }

  /** Terminate releases each resource at most once, cursor first, then the
      ramp, then the display, joysticks and libGL. */
  lemma ReleaseTraceOrdered(cfg: Config, cursor: nat, rampSize: nat, ramp: GammaRamp, display: nat, libGL: nat)
    ensures InStrictPhaseOrder(ReleaseTrace(cfg, cursor, rampSize, ramp, display, libGL))
    ensures PhasesWithin(ReleaseTrace(cfg, cursor, rampSize, ramp, display, libGL), 13, 17)
  {
    var c, r, d, l := CursorRelease(cursor), RampRestore(rampSize, ramp), DisplayClose(display), LibraryRelease(cfg, libGL);
    StrictOrderedConcat(c, r, 13, 13, 14);
    StrictOrderedConcat(c + r, d, 13, 14, 15);
    StrictOrderedConcat(c + r + d, [TerminateJoysticks], 13, 15, 16);
    StrictOrderedConcat(c + r + d + [TerminateJoysticks], l, 13, 16, 17);
  }

  /** Terminate writes the saved ramp back exactly once when a ramp size was
      found, and writes no ramp otherwise. */
  lemma ReleaseWritesSavedRamp(cfg: Config, cursor: nat, rampSize: nat, ramp: GammaRamp, display: nat, libGL: nat)
    ensures RampWrites(ReleaseTrace(cfg, cursor, rampSize, ramp, display, libGL))
         == if rampSize != 0 then [ramp] else []
  {
    var t := ReleaseTrace(cfg, cursor, rampSize, ramp, display, libGL);
    if rampSize != 0 {
      ReleaseTraceOrdered(cfg, cursor, rampSize, ramp, display, libGL);
      RampWritesOfTeardown(t, ramp);
    } else {
      forall i | 0 <= i < |t| ensures !t[i].SetGammaRamp? {
        assert t[i] in t;
      }
      NoWrites(t);
    }
  }

  /** A second terminate finds no handle left to release; it only restores
      the ramp again, since the saved size is never cleared. */
  lemma TerminateTwice(cfg: Config, rampSize: nat, ramp: GammaRamp, libGL: nat)
    requires cfg.dlopenLibGL ==> libGL == 0
    ensures ReleaseTrace(cfg, 0, rampSize, ramp, 0, libGL) == RampRestore(rampSize, ramp) + [TerminateJoysticks]
  {
  }

  /** The process-wide `_glfwLibrary` record, as far as the X11 start-up and
      shut-down code uses it, together with the last-error sink and the log
      of foreign calls. */
  class Library {
    const config: Config
    var display: nat
    var screen: int
    var root: nat
    var vidMode: VidModeRecord
    var randR: RandRRecord
    var glxMajor: int
    var glxMinor: int
    var originalRampSize: nat
    var originalRamp: GammaRamp
    var cursor: nat
    var libGL: nat
    var lastError: ErrorCode
    var calls: seq<Call>

    /** No display connection, cursor or loaded libGL is held. */
    predicate Released()
      reads this
    {
      display == 0 && cursor == 0 && (config.dlopenLibGL ==> libGL == 0)
    }

    /** The zero-filled record a process starts with. */
    constructor (config: Config)
      ensures this.config == config && Released() && libGL == 0
      ensures vidMode == FreshVidMode && randR == FreshRandR
      ensures originalRampSize == 0 && originalRamp == EmptyRamp
      ensures lastError == NoError && calls == []
    {
      this.config := config;
      display, screen, root := 0, 0, 0;
      vidMode := FreshVidMode;
      randR := FreshRandR;
      glxMajor, glxMinor := 0, 0;
      originalRampSize, originalRamp := 0, EmptyRamp;
      cursor, libGL := 0, 0;
      lastError := NoError;
      calls := [];
    }

    /** `initDisplay`: open the display, probe the optional extensions, then
        require GLX and its version. */
    method InitDisplay(srv: Server) returns (ok: bool)
      modifies this`display, this`screen, this`root, this`vidMode, this`randR, this`glxMajor, this`glxMinor
      modifies this`lastError, this`calls
      // fails exactly on the three fatal conditions; RandR and VidMode never matter
      ensures ok <==> ProbeSucceeds(srv)
      ensures lastError == if ok then old(lastError) else OpenGLUnavailable
      ensures display == srv.display
      ensures calls == old(calls) + ProbeTrace(config, srv)
      ensures srv.display == 0 ==>
                screen == old(screen) && root == old(root) && vidMode == old(vidMode) && randR == old(randR)
      ensures srv.display != 0 ==>
                screen == srv.defaultScreen && root == srv.rootWindow
                && vidMode == ProbedVidMode(config, old(vidMode), srv)
                && randR == ProbedRandR(config, old(randR), srv)
      ensures ok ==> glxMajor == srv.glxVersion.value.major && glxMinor == srv.glxVersion.value.minor
      ensures !ok ==> glxMajor == old(glxMajor) && glxMinor == old(glxMinor)
    {
      calls := calls + [OpenDisplay];
      display := srv.display;
      if display == 0 {
        lastError := OpenGLUnavailable;
        return false;
      }
      screen := srv.defaultScreen;
      root := srv.rootWindow;
      ProbeExtensions(srv);
      ok := ProbeGlx(srv);
    }

    /** The optional-extension part of `initDisplay`: XF86VidMode, then RandR
        and its version; none of it can fail. */
    method ProbeExtensions(srv: Server)
      modifies this`vidMode, this`randR, this`calls
      ensures vidMode == ProbedVidMode(config, old(vidMode), srv)
      ensures randR == ProbedRandR(config, old(randR), srv)
      ensures calls == old(calls) + VidModeQueries(config) + RandRQueries(config)
    {
      if config.hasXF86VidMode {
        calls := calls + [QueryVidModeExtension];
        vidMode := VidModeRecord(srv.vidMode.present, srv.vidMode.eventBase, srv.vidMode.errorBase);
      } else {
        vidMode := vidMode.(available := false);
      }
      if config.hasXRandR {
        calls := calls + [QueryRandRExtension];
        randR := randR.(available := srv.randR.present, eventBase := srv.randR.eventBase,
                        errorBase := srv.randR.errorBase);
        calls := calls + [QueryRandRVersion];
        if srv.randRVersion.Some? {
          randR := randR.(majorVersion := srv.randRVersion.value.major,
                          minorVersion := srv.randRVersion.value.minor);
        }
      } else {
        randR := randR.(available := false);
      }
    }

    /** The GLX part of `initDisplay`: both the extension and its version are
        required. */
    method ProbeGlx(srv: Server) returns (ok: bool)
      modifies this`glxMajor, this`glxMinor, this`lastError, this`calls
      ensures ok <==> srv.glx && srv.glxVersion.Some?
      ensures lastError == if ok then old(lastError) else OpenGLUnavailable
      ensures calls == old(calls) + GlxQueries(srv.glx)
      ensures ok ==> glxMajor == srv.glxVersion.value.major && glxMinor == srv.glxVersion.value.minor
      ensures !ok ==> glxMajor == old(glxMajor) && glxMinor == old(glxMinor)
    {
      calls := calls + [QueryGlxExtension];
      if !srv.glx {
        lastError := OpenGLUnavailable;
        return false;
      }
      calls := calls + [QueryGlxVersion];
      if srv.glxVersion.None? {
        lastError := OpenGLUnavailable;
        return false;
      }
      glxMajor, glxMinor := srv.glxVersion.value.major, srv.glxVersion.value.minor;
      ok := true;
    }

    /** `initGammaRamp`: RandR 1.2+ size, broken-gamma detection, XF86VidMode
        while the size is zero, then the read of the original ramp. */
    method InitGammaRamp(srv: Server)
      modifies this`originalRampSize, this`randR, this`originalRamp, this`calls
      ensures var d := DetectGamma(config, old(randR), old(vidMode).available, old(originalRampSize), srv);
              originalRampSize == d.rampSize
              && randR == (if d.flagsBroken then old(randR).(gammaBroken := true) else old(randR))
              && calls == old(calls) + d.trace
      ensures originalRamp == srv.currentRamp
    {
      if config.hasXRandR
         && randR.available
         && (randR.majorVersion > 1 || (randR.majorVersion == 1 && randR.minorVersion >= 2))
      {
        calls := calls + [GetCrtcGammaSize];
        originalRampSize := srv.crtcGammaSize;
        if originalRampSize == 0 {
          randR := randR.(gammaBroken := true);
        }
      }
      if config.hasXF86VidMode && vidMode.available && originalRampSize == 0 {
        calls := calls + [GetVidModeGammaRampSize];
        originalRampSize := srv.vidModeGammaSize;
      }
      calls := calls + [GetGammaRamp];
      originalRamp := srv.currentRamp;
    }

    /** `createNULLCursor`, kept as the acquisition of an opaque handle. */
    method CreateNullCursor(srv: Server) returns (c: nat)
      modifies this`calls
      ensures c == srv.nullCursor
      ensures calls == old(calls) + [CreateCursor]
    {
      calls := calls + [CreateCursor];
      c := srv.nullCursor;
    }

    /** `initLibraries`: try each libGL name in turn and keep the first
        handle that is not NULL. */
    method InitLibraries(srv: Server)
      modifies this`libGL, this`calls
      ensures libGL == if config.dlopenLibGL then LoadedHandle(LibGLNames, srv.libraries) else old(libGL)
      ensures calls == old(calls) + LibrarySearch(config, srv.libraries)
    {
      if config.dlopenLibGL {
        libGL := 0;
        var i := 0;
        while i < |LibGLNames|
          invariant 0 <= i <= |LibGLNames|
          invariant libGL == 0
          invariant forall j :: 0 <= j < i ==> Dlopen(srv.libraries, LibGLNames[j]) == 0
          invariant calls == old(calls) + Attempts(LibGLNames[..i])
        {
          assert LibGLNames[..i + 1] == LibGLNames[..i] + [LibGLNames[i]];
          AttemptsAppend(LibGLNames[..i], LibGLNames[i]);
          AppendRegroup(old(calls), Attempts(LibGLNames[..i]), [DlOpen(LibGLNames[i])]);
          calls := calls + [DlOpen(LibGLNames[i])];
          libGL := Dlopen(srv.libraries, LibGLNames[i]);
          if libGL != 0 {
            assert FirstLoadable(LibGLNames, srv.libraries) == Some(i);
            assert LoadTrace(LibGLNames, srv.libraries) == Attempts(LibGLNames[..i + 1]);
            break;
          }
          i := i + 1;
        }
        if libGL == 0 {
          assert FirstLoadable(LibGLNames, srv.libraries) == None;
          assert LibGLNames[..i] == LibGLNames;
        }
      } else {
        assert calls == old(calls) + [];
      }
    }

    /** `terminateDisplay`: restore the saved ramp when a size was found, then
        close the display when one is open. */
    method TerminateDisplay()
      modifies this`display, this`calls
      ensures display == 0
      ensures calls == old(calls) + RampRestore(originalRampSize, originalRamp) + DisplayClose(old(display))
    {
      if originalRampSize != 0 {
        calls := calls + [SetGammaRamp(originalRamp)];
      }
      if display != 0 {
        calls := calls + [CloseDisplay(display)];
        display := 0;
      }
    }

    /** The steps of `_glfwPlatformInit` after a successful probe: gamma
        detection, the blank cursor, the libGL search, joysticks and timer. */
    method Startup(srv: Server)
      modifies this`originalRampSize, this`randR, this`originalRamp, this`cursor, this`libGL, this`calls
      ensures var d := DetectGamma(config, old(randR), old(vidMode).available, old(originalRampSize), srv);
              originalRampSize == d.rampSize
              && randR == (if d.flagsBroken then old(randR).(gammaBroken := true) else old(randR))
              && calls == old(calls) + StartupTrace(config, d, srv)
      ensures originalRamp == srv.currentRamp && cursor == srv.nullCursor
      ensures libGL == if config.dlopenLibGL then LoadedHandle(LibGLNames, srv.libraries) else old(libGL)
    {
      ghost var d := DetectGamma(config, randR, vidMode.available, originalRampSize, srv);
      ghost var libs := LibrarySearch(config, srv.libraries);
      InitGammaRamp(srv);
      ghost var afterGamma := calls;
      cursor := CreateNullCursor(srv);
      InitLibraries(srv);
      calls := calls + [InitJoysticks, InitTimer];
      assert calls == afterGamma + [CreateCursor] + libs + [InitJoysticks, InitTimer];
      StartupLog(old(calls), config, d, srv);
    }

    /** `_glfwPlatformInit`: the probe, and only when it succeeds gamma
        detection, the blank cursor, the libGL search, joysticks and timer. */
    method PlatformInit(srv: Server) returns (ok: bool)
      modifies this
      ensures ok <==> ProbeSucceeds(srv)
      ensures calls == old(calls) + InitTrace(config, old(randR), old(vidMode), old(originalRampSize), srv)
      ensures lastError == if ok then old(lastError) else OpenGLUnavailable
      ensures display == srv.display
      ensures srv.display == 0 ==> screen == old(screen) && root == old(root) && vidMode == old(vidMode)
      ensures srv.display != 0 ==>
                screen == srv.defaultScreen && root == srv.rootWindow
                && vidMode == ProbedVidMode(config, old(vidMode), srv)
      ensures ok ==> glxMajor == srv.glxVersion.value.major && glxMinor == srv.glxVersion.value.minor
      ensures !ok ==> glxMajor == old(glxMajor) && glxMinor == old(glxMinor)
      // a failed probe leaves every later resource as it was (no unwinding either)
      ensures !ok ==> randR == (if srv.display == 0 then old(randR) else ProbedRandR(config, old(randR), srv))
      ensures !ok ==>
                originalRampSize == old(originalRampSize) && originalRamp == old(originalRamp)
                && cursor == old(cursor) && libGL == old(libGL)
      ensures ok ==> var probed := ProbedRandR(config, old(randR), srv);
                     var d := InitDetection(config, old(randR), old(vidMode), old(originalRampSize), srv);
                     originalRampSize == d.rampSize && originalRamp == srv.currentRamp
                     && randR == (if d.flagsBroken then probed.(gammaBroken := true) else probed)
                     && cursor == srv.nullCursor
                     && libGL == (if config.dlopenLibGL then LoadedHandle(LibGLNames, srv.libraries) else old(libGL))
    {
      ok := InitDisplay(srv);
      if !ok {
        return;
      }
      ghost var d := InitDetection(config, old(randR), old(vidMode), old(originalRampSize), srv);
      assert d == DetectGamma(config, randR, vidMode.available, originalRampSize, srv);
      Startup(srv);
      AppendRegroup(old(calls), ProbeTrace(config, srv), StartupTrace(config, d, srv));
      ok := true;
    }

    /** `_glfwPlatformTerminate`: free the cursor, restore the ramp, close the
        display, stop the joysticks and unload libGL, each only when present;
        always succeeds and leaves no handle behind. */
    method PlatformTerminate() returns (ok: bool)
      modifies this`cursor, this`display, this`libGL, this`calls
      ensures ok && Released()
      ensures calls == old(calls) + ReleaseTrace(config, old(cursor), originalRampSize, originalRamp, old(display), old(libGL))
      ensures libGL == if config.dlopenLibGL then 0 else old(libGL)
    {
      ghost var c, r, d, l := CursorRelease(cursor), RampRestore(originalRampSize, originalRamp),
                              DisplayClose(display), LibraryRelease(config, libGL);
      if cursor != 0 {
        calls := calls + [FreeCursor(cursor)];
        cursor := 0;
      }
      TerminateDisplay();
      calls := calls + [TerminateJoysticks];
      if config.dlopenLibGL && libGL != 0 {
        calls := calls + [DlClose(libGL)];
        libGL := 0;
      }
      assert calls == old(calls) + c + r + d + [TerminateJoysticks] + l;
      AppendRegroup(old(calls), c, r);
      AppendRegroup(old(calls), c + r, d);
      AppendRegroup(old(calls), c + r + d, [TerminateJoysticks]);
      AppendRegroup(old(calls), c + r + d + [TerminateJoysticks], l);
      ok := true;
    }
  }

  /** A session's calls: init of a fresh library, then terminate of what
      init left.  `cursor`, `rampSize`, `ramp` and `libGL` are what init
      stored. */
  function SessionCalls(cfg: Config, srv: Server, cursor: nat, rampSize: nat, ramp: GammaRamp, libGL: nat)
    : seq<Call>
  {
    InitTrace(cfg, FreshRandR, FreshVidMode, 0, srv)
    + ReleaseTrace(cfg, cursor, rampSize, ramp, srv.display, libGL)
  }

  /** A session starts by opening the display and never goes back in the
      source's order; a failed init is followed directly by terminate. */
  lemma SessionOrdered(cfg: Config, srv: Server, cursor: nat, rampSize: nat, ramp: GammaRamp, libGL: nat)
    ensures var t := SessionCalls(cfg, srv, cursor, rampSize, ramp, libGL);
            |t| > 0 && t[0] == OpenDisplay && InPhaseOrder(t)
            && (!ProbeSucceeds(srv) ==> forall i :: 0 <= i < |t| ==> Phase(t[i]) <= 5 || Phase(t[i]) >= 13)
  {
    var init := InitTrace(cfg, FreshRandR, FreshVidMode, 0, srv);
    var release := ReleaseTrace(cfg, cursor, rampSize, ramp, srv.display, libGL);
    InitTraceOrdered(cfg, FreshRandR, FreshVidMode, 0, srv);
    ReleaseTraceOrdered(cfg, cursor, rampSize, ramp, srv.display, libGL);
    OrderedConcat(init, release, 0, 12, 17);
    var t := init + release;
    assert t[0] == init[0];
    if !ProbeSucceeds(srv) {
      forall i | 0 <= i < |t| ensures Phase(t[i]) <= 5 || Phase(t[i]) >= 13 {
        if i >= |init| { assert t[i] == release[i - |init|]; } else { assert t[i] == init[i]; }
      }
    }
  }

  /** Over a whole session the ramp saved by init is written back once,
      exactly when a ramp size was found, and no other ramp is written. */
  lemma SessionRampRoundTrip(cfg: Config, srv: Server, cursor: nat, rampSize: nat, ramp: GammaRamp, libGL: nat)
    ensures RampWrites(SessionCalls(cfg, srv, cursor, rampSize, ramp, libGL)) == if rampSize != 0 then [ramp] else []
  {
    var init := InitTrace(cfg, FreshRandR, FreshVidMode, 0, srv);
    var release := ReleaseTrace(cfg, cursor, rampSize, ramp, srv.display, libGL);
    InitTraceOrdered(cfg, FreshRandR, FreshVidMode, 0, srv);
    NoRampWritesBeforeTeardown(init);
    RampWritesAppend(init, release);
    ReleaseWritesSavedRamp(cfg, cursor, rampSize, ramp, srv.display, libGL);
    assert [] + RampWrites(release) == RampWrites(release);
  }

  /** Over a whole session the display is closed exactly when it was opened,
      and the cursor init acquired is freed. */
  lemma SessionReleases(cfg: Config, srv: Server, cursor: nat, rampSize: nat, ramp: GammaRamp, libGL: nat)
    ensures CloseDisplay(srv.display) in SessionCalls(cfg, srv, cursor, rampSize, ramp, libGL) <==> srv.display != 0
    ensures cursor != 0 ==> FreeCursor(cursor) in SessionCalls(cfg, srv, cursor, rampSize, ramp, libGL)
  {
    var init := InitTrace(cfg, FreshRandR, FreshVidMode, 0, srv);
    InitTraceOrdered(cfg, FreshRandR, FreshVidMode, 0, srv);
    assert CloseDisplay(srv.display) in init ==> Phase(CloseDisplay(srv.display)) <= 12;
  }

  /** Gamma detection on a fresh library in three server set-ups: RandR 1.2
      with a 256-entry table, RandR 1.2 reporting size 0 next to XF86VidMode,
      and neither extension. */
  lemma FreshSessionGamma(cfg: Config, srv: Server)
    ensures var d := InitDetection(cfg, FreshRandR, FreshVidMode, 0, srv);
            && ((cfg.hasXRandR && srv.randR.present && srv.randRVersion == Some(Version(1, 2))
                 && srv.crtcGammaSize == 256) ==> d.rampSize == 256 && !d.flagsBroken)
            && ((cfg.hasXRandR && cfg.hasXF86VidMode && srv.randR.present && srv.vidMode.present
                 && srv.randRVersion == Some(Version(1, 2)) && srv.crtcGammaSize == 0)
                ==> d.rampSize == srv.vidModeGammaSize && d.flagsBroken)
            && (!srv.randR.present && !srv.vidMode.present ==> d.rampSize == 0 && !d.flagsBroken)
  {
    var randR := ProbedRandR(cfg, FreshRandR, srv);
    if cfg.hasXRandR && srv.randR.present && srv.randRVersion == Some(Version(1, 2)) {
      assert RandRGammaSupported(randR);
    }
    if !srv.randR.present {
      assert !RandRGammaSupported(randR);
    }
  }

  /** The calls of one session of a fresh library: init, then terminate of
      whatever init acquired. */
  function FreshSession(cfg: Config, srv: Server): seq<Call>
  {
    if !ProbeSucceeds(srv) then SessionCalls(cfg, srv, 0, 0, EmptyRamp, 0)
    else SessionCalls(cfg, srv, srv.nullCursor, InitDetection(cfg, FreshRandR, FreshVidMode, 0, srv).rampSize,
                      srv.currentRamp, if cfg.dlopenLibGL then LoadedHandle(LibGLNames, srv.libraries) else 0)
  }

  /** What a whole session guarantees: it starts by opening the display and
      keeps the source's order; the ramp read at init is written back once,
      exactly when a ramp size was found; a failed init is followed directly
      by terminate; the display is closed exactly when it was opened; an
      acquired cursor is freed. */
  lemma FreshSessionFacts(cfg: Config, srv: Server)
    ensures var t, d := FreshSession(cfg, srv), InitDetection(cfg, FreshRandR, FreshVidMode, 0, srv);
            && |t| > 0 && t[0] == OpenDisplay && InPhaseOrder(t)
            && RampWrites(t) == (if ProbeSucceeds(srv) && d.rampSize != 0 then [srv.currentRamp] else [])
            && (!ProbeSucceeds(srv) ==> forall i :: 0 <= i < |t| ==> Phase(t[i]) <= 5 || Phase(t[i]) >= 13)
            && (CloseDisplay(srv.display) in t <==> srv.display != 0)
            && (ProbeSucceeds(srv) && srv.nullCursor != 0 ==> FreeCursor(srv.nullCursor) in t)
  {
    var d := InitDetection(cfg, FreshRandR, FreshVidMode, 0, srv);
    var cursor, rampSize, ramp, libGL :=
      if ProbeSucceeds(srv) then srv.nullCursor else 0,
      if ProbeSucceeds(srv) then d.rampSize else 0,
      if ProbeSucceeds(srv) then srv.currentRamp else EmptyRamp,
      if ProbeSucceeds(srv) && cfg.dlopenLibGL then LoadedHandle(LibGLNames, srv.libraries) else 0;
    assert FreshSession(cfg, srv) == SessionCalls(cfg, srv, cursor, rampSize, ramp, libGL);
    SessionOrdered(cfg, srv, cursor, rampSize, ramp, libGL);
    SessionRampRoundTrip(cfg, srv, cursor, rampSize, ramp, libGL);
    SessionReleases(cfg, srv, cursor, rampSize, ramp, libGL);
  }

  /** One session from a fresh process: init, then terminate whatever init
      returned.  Reports init's outcome, the ramp size and broken flag init
      recorded, and every call made. */
  method RunSession(config: Config, srv: Server) returns (ok: bool, rampSize: nat, gammaBroken: bool, trace: seq<Call>)
    ensures ok <==> ProbeSucceeds(srv)
    ensures var d := InitDetection(config, FreshRandR, FreshVidMode, 0, srv);
            if ok then rampSize == d.rampSize && gammaBroken == d.flagsBroken
            else rampSize == 0 && !gammaBroken
    ensures trace == FreshSession(config, srv)
  {
    var lib := new Library(config);
    ok := lib.PlatformInit(srv);
    rampSize, gammaBroken := lib.originalRampSize, lib.randR.gammaBroken;
    ghost var init := InitTrace(config, FreshRandR, FreshVidMode, 0, srv);
    assert [] + init == init;
    var _ := lib.PlatformTerminate();
    trace := lib.calls;
  }
}
