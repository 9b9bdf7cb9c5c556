/** Values that the X11 start-up and shut-down code reads, keeps and exchanges
    with the display server, the GLX layer and the dynamic loader.  Every
    foreign call is modelled by the answer it gives (a field of `Server`) and
    by the fact that it was made (an entry of a `Call` log). */
module Platform {

  datatype Option<T> = None | Some(value: T)

  /** Which optional code the build compiled in (_GLFW_HAS_XRANDR,
      _GLFW_HAS_XF86VIDMODE, _GLFW_DLOPEN_LIBGL). */
  datatype Config = Config(hasXRandR: bool, hasXF86VidMode: bool, dlopenLibGL: bool)

  datatype Version = Version(major: int, minor: int)

  /** Answer of an extension query: presence and the event and error bases. */
  datatype ExtensionReply = ExtensionReply(present: bool, eventBase: int, errorBase: int)

  /** A hardware gamma ramp; its contents are only stored and passed on. */
  datatype GammaRamp = GammaRamp(red: seq<int>, green: seq<int>, blue: seq<int>)

  const EmptyRamp := GammaRamp([], [], [])

  /** What each foreign call answers.  Handles are naturals, 0 standing for
      NULL (or for the Cursor value 0). */
  datatype Server = Server(
    display: nat,                   // XOpenDisplay
    defaultScreen: int,             // DefaultScreen
    rootWindow: nat,                // RootWindow
    vidMode: ExtensionReply,        // XF86VidModeQueryExtension
    randR: ExtensionReply,          // XRRQueryExtension
    randRVersion: Option<Version>,  // XRRQueryVersion, None when it fails
    glx: bool,                      // glXQueryExtension
    glxVersion: Option<Version>,    // glXQueryVersion, None when it fails
    crtcGammaSize: nat,             // XRRGetCrtcGammaSize of the first CRTC
    vidModeGammaSize: nat,          // what XF86VidModeGetGammaRampSize stores
    currentRamp: GammaRamp,         // what the ramp-read primitive returns
    nullCursor: nat,                // the cursor XCreatePixmapCursor returns
    libraries: map<string, nat>)    // dlopen: names absent from the map give NULL

  /** The XF86VidMode record of the session. */
  datatype VidModeRecord = VidModeRecord(available: bool, eventBase: int, errorBase: int)

  /** The RandR record of the session, with the broken-gamma flag. */
  datatype RandRRecord = RandRRecord(
    available: bool, eventBase: int, errorBase: int,
    majorVersion: int, minorVersion: int, gammaBroken: bool)

  /** The process-wide last-error sink. */
  datatype ErrorCode = NoError | OpenGLUnavailable

  /** The foreign calls the core makes, as they are logged. */
  datatype Call =
    | OpenDisplay
    | QueryVidModeExtension
    | QueryRandRExtension
    | QueryRandRVersion
    | QueryGlxExtension
    | QueryGlxVersion
    | GetCrtcGammaSize
    | GetVidModeGammaRampSize
    | GetGammaRamp
    | CreateCursor
    | DlOpen(name: string)
    | InitJoysticks
    | InitTimer
    | FreeCursor(cursor: nat)
    | SetGammaRamp(ramp: GammaRamp)
    | CloseDisplay(display: nat)
    | TerminateJoysticks
    | DlClose(handle: nat)

  /** Position of each call in the fixed order of init (0..12) followed by
      terminate (13..17). */
  function Phase(c: Call): nat
  {
    match c
    case OpenDisplay => 0
    case QueryVidModeExtension => 1
    case QueryRandRExtension => 2
    case QueryRandRVersion => 3
    case QueryGlxExtension => 4
    case QueryGlxVersion => 5
    case GetCrtcGammaSize => 6
    case GetVidModeGammaRampSize => 7
    case GetGammaRamp => 8
    case CreateCursor => 9
    case DlOpen(_) => 10
    case InitJoysticks => 11
    case InitTimer => 12
    case FreeCursor(_) => 13
    case SetGammaRamp(_) => 14
    case CloseDisplay(_) => 15
    case TerminateJoysticks => 16
    case DlClose(_) => 17
  }

  /** The calls of `t` never go back in the fixed order. */
  predicate InPhaseOrder(t: seq<Call>)
  {
    forall i, j :: 0 <= i < j < |t| ==> Phase(t[i]) <= Phase(t[j])
  }

  /** The calls of `t` go strictly forward: each phase occurs at most once. */
  predicate InStrictPhaseOrder(t: seq<Call>)
  {
    forall i, j :: 0 <= i < j < |t| ==> Phase(t[i]) < Phase(t[j])
  }

  predicate PhasesWithin(t: seq<Call>, lo: nat, hi: nat)
  {
    forall i :: 0 <= i < |t| ==> lo <= Phase(t[i]) <= hi
  }

  lemma OrderedConcat(a: seq<Call>, b: seq<Call>, lo: nat, mid: nat, hi: nat)
    requires lo <= mid <= hi
    requires InPhaseOrder(a) && PhasesWithin(a, lo, mid)
    requires InPhaseOrder(b) && PhasesWithin(b, mid, hi)
    ensures InPhaseOrder(a + b) && PhasesWithin(a + b, lo, hi)
  {
    forall i, j | 0 <= i < j < |a + b|
      ensures Phase((a + b)[i]) <= Phase((a + b)[j])
    {
      if j < |a| {
      } else if i >= |a| {
        assert (a + b)[i] == b[i - |a|] && (a + b)[j] == b[j - |a|];
      }
    }
    forall i | 0 <= i < |a + b| ensures lo <= Phase((a + b)[i]) <= hi {
      if i < |a| { assert (a + b)[i] == a[i]; } else { assert (a + b)[i] == b[i - |a|]; }
    }
  }

  lemma StrictOrderedConcat(a: seq<Call>, b: seq<Call>, lo: nat, mid: nat, hi: nat)
    requires lo <= mid < hi
    requires InStrictPhaseOrder(a) && PhasesWithin(a, lo, mid)
    requires InStrictPhaseOrder(b) && PhasesWithin(b, mid + 1, hi)
    ensures InStrictPhaseOrder(a + b) && PhasesWithin(a + b, lo, hi)
  {
    forall i, j | 0 <= i < j < |a + b|
      ensures Phase((a + b)[i]) < Phase((a + b)[j])
    {
      if j < |a| {
        assert (a + b)[i] == a[i] && (a + b)[j] == a[j];
      } else if i >= |a| {
        assert (a + b)[i] == b[i - |a|] && (a + b)[j] == b[j - |a|];
      } else {
        assert (a + b)[i] == a[i] && (a + b)[j] == b[j - |a|];
      }
    }
    forall i | 0 <= i < |a + b| ensures lo <= Phase((a + b)[i]) <= hi {
      if i < |a| { assert (a + b)[i] == a[i]; } else { assert (a + b)[i] == b[i - |a|]; }
    }
  }

  /** A log confined to phases `lo..hi` holds no call of another phase. */
  lemma NotInPhases(t: seq<Call>, lo: nat, hi: nat, c: Call)
    requires PhasesWithin(t, lo, hi) && !(lo <= Phase(c) <= hi)
    ensures c !in t
  {
  }

  /** Regroups appends, so that a log grown call by call can be matched
      against a trace assembled piece by piece. */
  lemma AppendRegroup<T>(o: seq<T>, a: seq<T>, b: seq<T>)
    ensures o + a + b == o + (a + b)
  {
  }

  /** The ramps written to the hardware, in the order of `t`. */
  function RampWrites(t: seq<Call>): (w: seq<GammaRamp>)
    ensures |w| <= |t|
    ensures forall k :: 0 <= k < |w| ==> SetGammaRamp(w[k]) in t
  {
    if t == [] then []
    else (if t[0].SetGammaRamp? then [t[0].ramp] else []) + RampWrites(t[1..])
  }

  lemma {:induction false} RampWritesAppend(a: seq<Call>, b: seq<Call>)
    ensures RampWrites(a + b) == RampWrites(a) + RampWrites(b)
  {
    if a == [] {
      assert a + b == b;
    } else {
      assert (a + b)[0] == a[0] && (a + b)[1..] == a[1..] + b;
      RampWritesAppend(a[1..], b);
    }
  }

  /** Nothing before the teardown phases writes the hardware ramp. */
  lemma {:induction false} NoRampWritesBeforeTeardown(t: seq<Call>)
    requires PhasesWithin(t, 0, 12)
    ensures RampWrites(t) == []
  {
    if t != [] {
      assert Phase(t[0]) <= 12;
      assert PhasesWithin(t[1..], 0, 12) by {
        forall i | 0 <= i < |t[1..]| ensures Phase(t[1..][i]) <= 12 { assert t[1..][i] == t[i + 1]; }
      }
      NoRampWritesBeforeTeardown(t[1..]);
    }
  }

  /** The single-write case that the restore path produces. */
  lemma RampWritesOfTeardown(t: seq<Call>, ramp: GammaRamp)
    requires InStrictPhaseOrder(t)
    requires SetGammaRamp(ramp) in t
    ensures RampWrites(t) == [ramp]
  {
    var k :| 0 <= k < |t| && t[k] == SetGammaRamp(ramp);
    assert t == t[..k] + [t[k]] + t[k + 1..];
    var before, after := t[..k], t[k + 1..];
    forall i | 0 <= i < |before| ensures !before[i].SetGammaRamp? { assert Phase(t[i]) < Phase(t[k]); }
    forall i | 0 <= i < |after| ensures !after[i].SetGammaRamp? { assert Phase(t[k]) < Phase(t[k + 1 + i]); }
    NoWrites(before);
    NoWrites(after);
    RampWritesAppend(t[..k] + [t[k]], t[k + 1..]);
    RampWritesAppend(t[..k], [t[k]]);
  }

  lemma {:induction false} NoWrites(t: seq<Call>)
    requires forall i :: 0 <= i < |t| ==> !t[i].SetGammaRamp?
    ensures RampWrites(t) == []
  {
    if t != [] {
      assert forall i :: 0 <= i < |t[1..]| ==> t[1..][i] == t[i + 1];
      NoWrites(t[1..]);
    }
  }
}
