/** Gamma-ramp size detection of `initGammaRamp`: RandR 1.2 or later first,
    XF86VidMode while the size is still zero, then the read of the original
    ramp. */
module Gamma {
  import opened Platform

  /** RandR offers per-CRTC gamma from version 1.2 on. */
  predicate RandRGammaSupported(randR: RandRRecord)
  {
    randR.available && (randR.majorVersion > 1 || (randR.majorVersion == 1 && randR.minorVersion >= 2))
  }

  /** The outcome of size detection: the new `originalRampSize`, whether the
      RandR gamma support is flagged broken, and the calls made. */
  datatype Detection = Detection(rampSize: nat, flagsBroken: bool, trace: seq<Call>)

  /** Size detection from the RandR record and VidMode availability left by
      the probe and the ramp size the session held before. */
  function DetectGamma(cfg: Config, randR: RandRRecord, vidModeAvailable: bool, priorSize: nat, srv: Server)
    : (d: Detection)
    // RandR is asked only when compiled in and at version 1.2 or later
    ensures GetCrtcGammaSize in d.trace <==> cfg.hasXRandR && RandRGammaSupported(randR)
    // a zero size from RandR marks its gamma support broken
    ensures d.flagsBroken <==> GetCrtcGammaSize in d.trace && srv.crtcGammaSize == 0
    // XF86VidMode is asked exactly when available and the size is still zero
    ensures GetVidModeGammaRampSize in d.trace
        <==> cfg.hasXF86VidMode && vidModeAvailable
             && (if GetCrtcGammaSize in d.trace then srv.crtcGammaSize else priorSize) == 0
    // a positive RandR size is never overwritten
    ensures GetCrtcGammaSize in d.trace && srv.crtcGammaSize > 0 ==> d.rampSize == srv.crtcGammaSize
    // a RandR size XF86VidMode does not replace is kept, a broken 0 included
    ensures GetCrtcGammaSize in d.trace && GetVidModeGammaRampSize !in d.trace ==> d.rampSize == srv.crtcGammaSize
    ensures GetVidModeGammaRampSize in d.trace ==> d.rampSize == srv.vidModeGammaSize
    // with neither source asked, the size the session held is kept
    ensures GetCrtcGammaSize !in d.trace && GetVidModeGammaRampSize !in d.trace ==> d.rampSize == priorSize
    // the original ramp is read last, whatever the size
    ensures |d.trace| > 0 && d.trace[|d.trace| - 1] == GetGammaRamp
    ensures InStrictPhaseOrder(d.trace) && PhasesWithin(d.trace, 6, 8)
  {
    var fromRandR := cfg.hasXRandR && RandRGammaSupported(randR);
    var size := if fromRandR then srv.crtcGammaSize else priorSize;
    var fromVidMode := cfg.hasXF86VidMode && vidModeAvailable && size == 0;
    Detection(
      if fromVidMode then srv.vidModeGammaSize else size,
      fromRandR && srv.crtcGammaSize == 0,
      (if fromRandR then [GetCrtcGammaSize] else [])
      + (if fromVidMode then [GetVidModeGammaRampSize] else [])
      + [GetGammaRamp])
  }

  /** On a session whose size is still zero, a zero RandR size leaves the
      XF86VidMode path open: the size becomes whatever XF86VidMode reports. */
  lemma BrokenRandRFallsBackToVidMode(cfg: Config, randR: RandRRecord, srv: Server)
    requires cfg.hasXRandR && cfg.hasXF86VidMode && RandRGammaSupported(randR)
    requires srv.crtcGammaSize == 0
    ensures DetectGamma(cfg, randR, true, 0, srv).flagsBroken
    ensures DetectGamma(cfg, randR, true, 0, srv).rampSize == srv.vidModeGammaSize
  {
  }

  /** With neither RandR 1.2 nor XF86VidMode available, a fresh session
      records no gamma support. */
  lemma NoGammaSource(cfg: Config, randR: RandRRecord, srv: Server)
    requires !RandRGammaSupported(randR)
    ensures DetectGamma(cfg, randR, false, 0, srv).rampSize == 0
    ensures !DetectGamma(cfg, randR, false, 0, srv).flagsBroken
  {
  }
}
