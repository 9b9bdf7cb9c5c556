/** The capability probe of `initDisplay`: which calls it makes, what it
    records about the optional extensions, and when it fails. */
module Probe {
  import opened Platform

  /** The three fatal conditions are absent: the display opens, GLX is
      present and its version can be queried. */
  predicate ProbeSucceeds(srv: Server)
  {
    srv.display != 0 && srv.glx && srv.glxVersion.Some?
  }

  /** The XF86VidMode record after the probe of an opened display. */
  function ProbedVidMode(cfg: Config, prior: VidModeRecord, srv: Server): (r: VidModeRecord)
    ensures r.available <==> cfg.hasXF86VidMode && srv.vidMode.present
    ensures !cfg.hasXF86VidMode ==> r.eventBase == prior.eventBase && r.errorBase == prior.errorBase
  {
    if cfg.hasXF86VidMode then VidModeRecord(srv.vidMode.present, srv.vidMode.eventBase, srv.vidMode.errorBase)
    else prior.(available := false)
  }

  /** The RandR record after the probe of an opened display.  The version
      query is made whether or not the extension is present, and a failed
      query leaves the recorded version as it was. */
  function ProbedRandR(cfg: Config, prior: RandRRecord, srv: Server): (r: RandRRecord)
    ensures r.available <==> cfg.hasXRandR && srv.randR.present
    ensures r.gammaBroken == prior.gammaBroken
    ensures (r.majorVersion, r.minorVersion)
         == if cfg.hasXRandR && srv.randRVersion.Some?
            then (srv.randRVersion.value.major, srv.randRVersion.value.minor)
            else (prior.majorVersion, prior.minorVersion)
  {
    if !cfg.hasXRandR then prior.(available := false)
    else
      var r := prior.(available := srv.randR.present, eventBase := srv.randR.eventBase,
                      errorBase := srv.randR.errorBase);
      match srv.randRVersion
      case Some(v) => r.(majorVersion := v.major, minorVersion := v.minor)
      case None => r
  }

  /** The calls `initDisplay` makes. */
  function ProbeTrace(cfg: Config, srv: Server): (t: seq<Call>)
    ensures |t| > 0 && t[0] == OpenDisplay
    // nothing is queried on a display that did not open
    ensures srv.display == 0 ==> t == [OpenDisplay]
    // the optional extensions are queried exactly when compiled in
    ensures QueryVidModeExtension in t <==> srv.display != 0 && cfg.hasXF86VidMode
    ensures QueryRandRExtension in t <==> srv.display != 0 && cfg.hasXRandR
    ensures QueryRandRVersion in t <==> srv.display != 0 && cfg.hasXRandR
    // GLX is always required; its version is asked only when it is present
    ensures QueryGlxExtension in t <==> srv.display != 0
    ensures QueryGlxVersion in t <==> srv.display != 0 && srv.glx
  {
    if srv.display == 0 then [OpenDisplay]
    else [OpenDisplay] + VidModeQueries(cfg) + RandRQueries(cfg) + GlxQueries(srv.glx)
  }

  function VidModeQueries(cfg: Config): seq<Call>
  {
    if cfg.hasXF86VidMode then [QueryVidModeExtension] else []
  }

  function RandRQueries(cfg: Config): seq<Call>
  {
    if cfg.hasXRandR then [QueryRandRExtension, QueryRandRVersion] else []
  }

  function GlxQueries(glx: bool): seq<Call>
  {
    if glx then [QueryGlxExtension, QueryGlxVersion] else [QueryGlxExtension]
  }

  /** The probe makes each of its calls at most once, in source order, and
      none of them belongs to a later step. */
  lemma ProbeTraceOrdered(cfg: Config, srv: Server)
    ensures InStrictPhaseOrder(ProbeTrace(cfg, srv)) && PhasesWithin(ProbeTrace(cfg, srv), 0, 5)
  {
    if srv.display != 0 {
      var vid, rr := VidModeQueries(cfg), RandRQueries(cfg);
      StrictOrderedConcat([OpenDisplay], vid, 0, 0, 1);
      StrictOrderedConcat([OpenDisplay] + vid, rr, 0, 1, 3);
      StrictOrderedConcat([OpenDisplay] + vid + rr, GlxQueries(srv.glx), 0, 3, 5);
    }
  }
}
