# GLFW X11 platform start-up and shut-down

This project models the decision and bookkeeping layer of the X11 port of
GLFW (`src/x11/x11_init.c`). It covers the parts of the process-wide
`_glfwLibrary` record that this code acquires, records and releases.

- **`initDisplay`** opens the display connection. It then probes the optional
  XF86VidMode and XRandR extensions. Finally it requires GLX and a GLX
  version.
- **`initGammaRamp`** finds the size of the hardware gamma ramp. It tries RandR
  1.2 or later first, and flags a zero RandR size as a broken
  implementation. XF86VidMode is asked only while the size is still zero.
  It then saves the current ramp.
- **`initLibraries`** searches a fixed list of libGL names and keeps the first
  handle the loader returns.
- **`_glfwPlatformInit`** runs the probe and stops when the probe fails.
  Otherwise it runs gamma detection, the blank-cursor creation, the libGL
  search, joystick start and timer start, in that order.
- **`_glfwPlatformTerminate`** and **`terminateDisplay`** release each
  resource only when it is held, and clear each handle afterwards. They
  restore the saved ramp when a ramp size was found.

Every foreign call (Xlib, RandR, XF86VidMode, GLX, the dynamic loader,
joysticks, timer) is represented in two ways:

- **Its answer**: a field of the `Server` value, which plays the part of
  the display server and the system.
- **The fact that it was made**: an entry of the `calls` log kept by the
  session.

Each call kind has a position in the fixed order of init followed by
terminate (`Phase`). Ordering claims are stated as "the log never goes back
in that order".

The preprocessor switches `_GLFW_HAS_XRANDR`, `_GLFW_HAS_XF86VIDMODE` and
`_GLFW_DLOPEN_LIBGL` are the fields of a `Config` value that each session
holds. As a result, every build variant is covered by the same proofs.

Modules:

- `Platform` (platform.dfy) holds the value types, the call log, the phase
  order and the ramp writes a log contains.
- `Probe` (probe.dfy) holds what `initDisplay` records and calls.
- `Gamma` (gamma.dfy) holds the gamma size detection of `initGammaRamp`.
- `Libraries` (libraries.dfy) holds the first-match search of
  `initLibraries`.
- `Lifecycle` (lifecycle.dfy) holds the following:
  - The `Library` class is the `_glfwLibrary` session, and its methods are
    the C functions. They update its fields in place.
  - The trace functions specify what each method logs.
  - The lemmas cover a whole session.
  - `RunSession` runs one init followed by one terminate on a fresh record.

The constructor of `Library` stands for the zero-filled static record a
process starts with.

Behaviour the model follows from the code:

- **The ramp read is unconditional.** The original ramp is read after size
  detection even when no size was found (lines 181-182).
- **Nothing is unwound on a failed probe.** When GLX or its version is
  missing, `initDisplay` returns failure and the display stays open until
  terminate (lines 112-127). After a failed probe, `InitDisplay` leaves
  `display == srv.display`. `FreshSessionFacts` then shows that terminate
  closes it.
- **`originalRampSize` and `gammaBroken` are never reset by init.** Init
  starts from whatever values the record holds. That is why the gamma
  functions take the prior size and record as inputs. It is also why a
  second terminate restores the ramp again (`TerminateTwice`).
- **`XRRQueryVersion` is independent of `XRRQueryExtension`.** It is made
  whenever RandR support is compiled in, whatever the extension query
  answered. The version fields after a failed version query are
  unspecified in C; the model keeps the previous version there (see
  "## Left out").

## Model

| member | source | states |
|---|---|---|
| Libraries.FirstLoadable | src/x11/x11_init.c:54-60 | finds the first name, in list order, that the loader opens: every earlier name fails to open; there is no result exactly when no name opens |
| Libraries.LoadedHandle | src/x11/x11_init.c:54-60 | the kept handle is NULL exactly when no name opens; otherwise it is the handle the loader gave for the first name, in list order, that opens |
| Libraries.LoadTrace | src/x11/x11_init.c:55-60 | the loader is called for a prefix of the list, in list order: every name tried before the last one failed; the search stops early only on a success, and the handle kept is the one from the last name tried; only loader calls are made |
| Libraries.LaterNamesIgnored | src/x11/x11_init.c:55-59 | once some name opens, appending more names to the list changes nothing, because the search stops at the first success |
| Probe.ProbedVidMode | src/x11/x11_init.c:86-93 | XF86VidMode is recorded available exactly when support is compiled in and the server has the extension; without the support the event and error bases are left untouched |
| Probe.ProbedRandR | src/x11/x11_init.c:96-110 | RandR is recorded available exactly when support is compiled in and the server has the extension; the version comes from the version query only when support is compiled in and the query succeeds, otherwise it is kept as it was; the broken-gamma flag is untouched |
| Probe.ProbeTrace | src/x11/x11_init.c:69-130 | the probe always begins by opening the display; nothing else is called when the display does not open; XF86VidMode and RandR (extension and version) are queried exactly when compiled in and the display is open; GLX is always queried on an open display; its version is queried only when GLX is present |
| Probe.ProbeTraceOrdered | src/x11/x11_init.c:71-127 | the probe makes each of its calls at most once, in source order, and makes none that belongs to a later step |
| Gamma.DetectGamma | src/x11/x11_init.c:137-183 | RandR is asked for a size exactly when compiled in, available and at version 1.2 or later; the broken flag is raised exactly when RandR was asked and gave 0; XF86VidMode is asked exactly when compiled in, available and the size is still 0; a positive RandR size is never overwritten; a RandR size that XF86VidMode is not asked to replace is kept, 0 included; with neither source asked the prior size is kept; the ramp is read last whatever the size; the calls go strictly forward |
| Gamma.BrokenRandRFallsBackToVidMode | src/x11/x11_init.c:153-175 | on a session with no size yet, a RandR 1.2 size of 0 raises the broken flag and leaves the XF86VidMode path open, so the size becomes what XF86VidMode reports |
| Gamma.NoGammaSource | src/x11/x11_init.c:137-179 | with no RandR 1.2 and no XF86VidMode, a fresh session ends with size 0 and no broken flag |
| Lifecycle.InitTrace | src/x11/x11_init.c:241-259 | init begins by opening the display; a failed probe ends init with only the probe's calls; a successful init reads the ramp, creates the cursor and starts the joysticks, and ends by starting the timer |
| Lifecycle.InitTraceSearchesLibGL | src/x11/x11_init.c:243-251 | init tries the first libGL name exactly when the probe succeeds and the build loads libGL at run time, so the libGL search is one of the steps a successful init runs |
| Lifecycle.StartupTraceOrdered | src/x11/x11_init.c:246-256 | after the probe, gamma detection, cursor, libGL search, joysticks and timer come in that order |
| Lifecycle.InitTraceOrdered | src/x11/x11_init.c:243-256 | init never goes back in the source's order; a failed init makes no call after the probe |
| Lifecycle.ReleaseTrace | src/x11/x11_init.c:266-288 | terminate frees the cursor exactly when one is held, writes the saved ramp exactly when the ramp size is not 0, closes the display exactly when one is open and unloads libGL exactly when loaded at run time and held; it always stops the joysticks; it releases nothing but the session's own resources |
| Lifecycle.ReleaseTraceOrdered | src/x11/x11_init.c:268-284 | terminate releases each resource at most once: cursor first, then the ramp, the display, the joysticks and libGL |
| Lifecycle.ReleaseWritesSavedRamp | src/x11/x11_init.c:222-223 | terminate writes back the saved ramp exactly once when a ramp size was found, and writes no ramp otherwise |
| Lifecycle.TerminateTwice | src/x11/x11_init.c:266-288 | terminate on a session holding no handles releases nothing; it restores the ramp again and stops the joysticks |
| Lifecycle.Library.InitDisplay | src/x11/x11_init.c:69-130 | fails exactly on the three fatal conditions (no display, no GLX, no GLX version), and each failure records the OpenGL-unavailable error; the display handle is kept even on failure; screen, root and both extension records are set only on an open display; the GLX version is stored only on success; the call log grows by the probe's calls |
| Lifecycle.Library.ProbeExtensions | src/x11/x11_init.c:85-110 | sets the XF86VidMode and RandR records as the probe functions say; the log grows by the queries for what is compiled in |
| Lifecycle.Library.ProbeGlx | src/x11/x11_init.c:112-127 | succeeds exactly when GLX and its version are both present; both failures record the OpenGL-unavailable error |
| Lifecycle.Library.InitGammaRamp | src/x11/x11_init.c:137-183 | sets the ramp size and the RandR broken flag as the gamma detection decides; the log grows by its calls; the saved ramp is the one the server holds, read unconditionally |
| Lifecycle.Library.CreateNullCursor | src/x11/x11_init.c:190-213 | returns the cursor handle the server creates and logs its creation |
| Lifecycle.Library.InitLibraries | src/x11/x11_init.c:41-62 | when libGL is loaded at run time, keeps the first handle that opens (NULL when none does) and logs exactly the attempts of the first-match search; otherwise it changes nothing |
| Lifecycle.Library.TerminateDisplay | src/x11/x11_init.c:220-230 | writes the saved ramp back exactly when the size is not 0, then closes the display when one is open; the display is cleared afterwards |
| Lifecycle.Library.Startup | src/x11/x11_init.c:246-256 | the steps after a successful probe: ramp size and broken flag from gamma detection, saved ramp, cursor handle and libGL handle, with the log grown by exactly those calls in source order |
| Lifecycle.Library.PlatformInit | src/x11/x11_init.c:241-259 | succeeds exactly when the probe does; the log grows by the init calls; on failure no later step runs (ramp size, saved ramp, cursor, libGL unchanged); on success the ramp size, broken flag, saved ramp, cursor and libGL are those the steps produce |
| Lifecycle.Library.PlatformTerminate | src/x11/x11_init.c:266-288 | always returns true; leaves no display, cursor or run-time loaded libGL; the log grows by the guarded releases |
| Lifecycle.SessionOrdered | src/x11/x11_init.c:241-288 | a session begins by opening the display and never goes back in the source's order; a failed init is followed directly by terminate's releases |
| Lifecycle.SessionRampRoundTrip | src/x11/x11_init.c:178-223 | over a session the ramp saved by init is written back once, exactly when a size was found, and no other ramp is ever written |
| Lifecycle.SessionReleases | src/x11/x11_init.c:266-274 | over a session the display is closed exactly when it was opened, and a cursor init acquired is freed |
| Lifecycle.FreshSessionGamma | src/x11/x11_init.c:137-183 | on a fresh record: RandR 1.2 with a 256-entry table gives size 256 and no broken flag; RandR 1.2 with size 0 next to XF86VidMode gives the XF86VidMode size and the broken flag; with neither extension the size is 0 and there is no broken flag |
| Lifecycle.FreshSessionFacts | src/x11/x11_init.c:241-288 | a fresh session opens the display first and keeps the source's order; it writes back exactly the ramp read at init, once, exactly when a size was found; after a failed init only terminate follows; the display is closed exactly when it was opened; an acquired cursor is freed |
| Lifecycle.RunSession | src/x11/x11_init.c:241-288 | init on a fresh record succeeds exactly when the probe does; the ramp size and broken flag are those of gamma detection on success and 0 and false on failure; the whole session's log is the fresh-session trace |

## Left out

- The Xlib, RandR, XF86VidMode and GLX calls themselves are not modelled. Their answers are fields of `Server`; their effects beyond those answers are not modelled.
- `XRRGetScreenResources` and `XRRFreeScreenResources` (lines 150-151 and 163) are not logged. The size query stands for the first CRTC of those resources. A screen with no CRTC, which the code does not guard against, is not modelled.
- The pixel content of the blank cursor (lines 200-210) is not modelled. Cursor creation is one opaque step that yields the server's handle.
- `dlopen` and `dlclose` are not modelled beyond a map from names to handles and a logged release. The `RTLD_LAZY | RTLD_GLOBAL` flags are not modelled.
- The joystick and timer subsystems (lines 253-256 and 276) are recorded only as calls in the log.
- The ramp read and write primitives are not part of this model. Ramp contents are opaque values that are only stored and passed on; `x11_gamma.c` is not part of this model.
- `_glfwPlatformGetVersionString` (lines 295-325) is left out. It is a string literal assembled at compile time, with no run-time logic.
- The `fprintf(stderr, …)` diagnostics are left out. They are output and do not affect control flow.
- The process-wide error sink is reduced to the one code this file records (`GLFW_OPENGL_UNAVAILABLE`).
- Lifecycle.Library.InitDisplay: leaves the GLX version fields unchanged when the version query fails. In C they are out-parameters whose content after a failed query is unspecified.
- Probe.ProbedRandR: keeps the previous version when the RandR version query fails. In C those out-parameters are unspecified after a failed query.
