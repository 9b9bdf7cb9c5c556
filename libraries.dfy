/** The first-match search of `initLibraries` over the fixed list of libGL
    names. */
module Libraries {
  import opened Platform

  /** The candidate names, in the order they are tried. */
  const LibGLNames: seq<string> := ["libGL.so", "libGL.so.1", "/usr/lib/libGL.so", "/usr/lib/libGL.so.1"]

  /** The handle the loader returns for `name`; 0 is NULL. */
  function Dlopen(libs: map<string, nat>, name: string): nat
  {
    if name in libs then libs[name] else 0
  }

  /** Index of the first name that opens. */
  function FirstLoadable(names: seq<string>, libs: map<string, nat>): (r: Option<nat>)
    ensures r.Some? ==> r.value < |names| && Dlopen(libs, names[r.value]) != 0
    ensures r.Some? ==> forall j :: 0 <= j < r.value ==> Dlopen(libs, names[j]) == 0
    ensures r.None? ==> forall j :: 0 <= j < |names| ==> Dlopen(libs, names[j]) == 0
  {
    if names == [] then None
    else if Dlopen(libs, names[0]) != 0 then Some(0)
    else match FirstLoadable(names[1..], libs)
      case Some(k) => Some(k + 1)
      case None => None
  }

  /** The handle the search keeps: that of the first name that opens, or NULL. */
  function LoadedHandle(names: seq<string>, libs: map<string, nat>): (h: nat)
    ensures h == 0 <==> forall j :: 0 <= j < |names| ==> Dlopen(libs, names[j]) == 0
    ensures h != 0 ==> exists i :: 0 <= i < |names| && h == Dlopen(libs, names[i])
                                 && forall j :: 0 <= j < i ==> Dlopen(libs, names[j]) == 0
  {
    match FirstLoadable(names, libs)
    case Some(i) => Dlopen(libs, names[i])
    case None => 0
  }

  /** One loader call per name, in list order. */
  function Attempts(names: seq<string>): seq<Call>
  {
    seq(|names|, j requires 0 <= j < |names| => DlOpen(names[j]))
  }

  lemma AttemptsAppend(names: seq<string>, name: string)
    ensures Attempts(names + [name]) == Attempts(names) + [DlOpen(name)]
  {
  }

  /** The loader calls the search makes. */
  function LoadTrace(names: seq<string>, libs: map<string, nat>): (t: seq<Call>)
    // the names are tried in list order, from the first one on
    ensures |t| <= |names| && (|names| > 0 ==> |t| > 0)
    ensures forall j :: 0 <= j < |t| ==> t[j] == DlOpen(names[j])
    // every name tried before the last one failed to open
    ensures forall j :: 0 <= j < |t| - 1 ==> Dlopen(libs, names[j]) == 0
    // the search stops early only on a success, and keeps that handle
    ensures |t| < |names| ==> Dlopen(libs, names[|t| - 1]) != 0
    ensures LoadedHandle(names, libs) != 0 ==> LoadedHandle(names, libs) == Dlopen(libs, names[|t| - 1])
    ensures InPhaseOrder(t) && PhasesWithin(t, 10, 10)
  {
    var n := match FirstLoadable(names, libs) case Some(i) => i + 1 case None => |names|;
    Attempts(names[..n])
  }

  /** Names after the first one that opens never matter. */
  lemma LaterNamesIgnored(names: seq<string>, more: seq<string>, libs: map<string, nat>)
    requires FirstLoadable(names, libs).Some?
    ensures FirstLoadable(names + more, libs) == FirstLoadable(names, libs)
  {
    var i := FirstLoadable(names, libs).value;
    assert (names + more)[i] == names[i];
    assert forall j :: 0 <= j < i ==> (names + more)[j] == names[j];
  }
}
