/**
 * The core slice of the Redux store (src/state/redux-slices/core/slice.ts):
 * the initial state, with the hosting address derived from the page's
 * origin, and the reducers, each of which assigns one field in place.
 */
module CoreSlice {

  import opened Wrappers
  import opened Strings

  datatype AppRuntime = Tauri | Remote
  datatype PitchAlgorithm = Autocorrelation | McLeod
  datatype Pitch = Pitch(pitch: real, clarity: real)

  /** The whole `CoreState` as a value, to say what one reducer changes. */
  datatype CoreState = CoreState(
    appRuntime: AppRuntime,
    hostingAddress: Option<string>,
    pitchDetectionAlgorithm: PitchAlgorithm,
    windowSize: int,
    clarityThreshold: real,
    powerThreshold: real,
    currentPitch: Pitch,
    activeAudioDevice: Option<string>,
    workerCacheKey: Option<int>,
    inErrorState: bool)

  /** The first position at which `pat` occurs in `s`. */
  function FirstOccurrence(s: string, pat: string): (r: Option<nat>)
    requires |pat| > 0
    ensures r.Some? ==> OccursAt(s, pat, r.value) && forall j :: 0 <= j < r.value ==> !OccursAt(s, pat, j)
    ensures r.None? ==> forall j :: 0 <= j <= |s| ==> !OccursAt(s, pat, j)
    decreases |s|
  {
    if |s| < |pat| then None
    else if s[..|pat|] == pat then Some(0)
    else
      var r := FirstOccurrence(s[1..], pat);
      assert forall j :: 1 <= j <= |s| ==> (OccursAt(s, pat, j) <==> OccursAt(s[1..], pat, j - 1)) by {
        forall j | 1 <= j <= |s| ensures OccursAt(s, pat, j) <==> OccursAt(s[1..], pat, j - 1) {
          OccursAtTail(s, pat, j);
        }
      }
      if r.None? then None else Some(r.value + 1)
  }

  /** An occurrence at `j >= 1` is an occurrence at `j - 1` in the text without its first character. */
  lemma OccursAtTail(s: string, pat: string, j: nat)
    requires 1 <= j <= |s|
    ensures OccursAt(s, pat, j) <==> OccursAt(s[1..], pat, j - 1)
  {
    assert |s[1..]| == |s| - 1;
    if j + |pat| <= |s| {
      assert s[j..j + |pat|] == s[1..][j - 1..j - 1 + |pat|];
    }
  }

  /** Replacing inside the tail and putting the head back is replacing one place further on. */
  lemma ReplaceUnderHead(s: string, i: nat, n: nat, rep: string)
    requires i + 1 + n <= |s|
    ensures [s[0]] + (s[1..][..i] + rep + s[1..][i + n..]) == s[..i + 1] + rep + s[i + 1 + n..]
  {
    assert s[..i + 1] == [s[0]] + s[1..][..i];
    assert s[i + 1 + n..] == s[1..][i + n..];
  }

  /**
   * JavaScript `s.replace(pat, rep)` with a string pattern: the first
   * occurrence of `pat` replaced, the text around it kept.
   */
  function ReplaceFirst(s: string, pat: string, rep: string): (r: string)
    requires |pat| > 0
    ensures FirstOccurrence(s, pat).None? ==> r == s
    ensures FirstOccurrence(s, pat).Some? ==>
              var i := FirstOccurrence(s, pat).value;
              r == s[..i] + rep + s[i + |pat|..]
    decreases |s|
  {
    if |s| < |pat| then s
    else if s[..|pat|] == pat then rep + s[|pat|..]
    else
      var o := FirstOccurrence(s[1..], pat);
      if o.Some? then
        ReplaceUnderHead(s, o.value, |pat|, rep);
        [s[0]] + ReplaceFirst(s[1..], pat, rep)
      else
        [s[0]] + ReplaceFirst(s[1..], pat, rep)
  }

  const DevPort := ":1420"
  const HostPort := ":9527"

  /**
   * The initial `hostingAddress`: an origin ending in `:1420` (the
   * development server) has its first `:1420` replaced by `:9527`; any other
   * origin is the address itself. Either way the length is kept.
   */
  function InitialHostingAddress(origin: string): (a: string)
    ensures !EndsWith(origin, DevPort) ==> a == origin
    ensures |a| == |origin|
    ensures EndsWith(origin, DevPort) ==>
              FirstOccurrence(origin, DevPort).Some? &&
              var i := FirstOccurrence(origin, DevPort).value;
              a[..i] == origin[..i] && a[i..i + 5] == HostPort && a[i + 5..] == origin[i + 5..]
  {
    if EndsWith(origin, DevPort) then
      assert OccursAt(origin, DevPort, |origin| - 5);
      ReplaceFirst(origin, DevPort, HostPort)
    else origin
  }

  /** An occurrence with none before it is the first occurrence. */
  lemma FirstOccurrenceIs(s: string, pat: string, i: nat)
    requires |pat| > 0 && OccursAt(s, pat, i)
    requires forall j :: 0 <= j < i ==> !OccursAt(s, pat, j)
    ensures FirstOccurrence(s, pat) == Some(i)
  {
  }

  /** When the final `:1420` is the only one, the address is the origin with its port changed to 9527. */
  lemma DevOriginGetsHostPort(prefix: string)
    requires forall j :: 0 <= j < |prefix| ==> !OccursAt(prefix + DevPort, DevPort, j)
    ensures InitialHostingAddress(prefix + DevPort) == prefix + HostPort
  {
    var s := prefix + DevPort;
    assert OccursAt(s, DevPort, |prefix|);
    FirstOccurrenceIs(s, DevPort, |prefix|);
    assert s[..|prefix|] == prefix;
  }

  /**
   * Only the first `:1420` is replaced: when the host text itself contains
   * `:1420` (an IPv6 address such as `[::1420]`), that is what is rewritten
   * and the development port stays.
   */
  lemma EarlierDevPortIsRewritten(prefix: string, i: nat)
    requires i + 5 <= |prefix| && OccursAt(prefix, DevPort, i)
    requires forall j :: 0 <= j < i ==> !OccursAt(prefix + DevPort, DevPort, j)
    ensures InitialHostingAddress(prefix + DevPort) == prefix[..i] + HostPort + prefix[i + 5..] + DevPort
  {
    var s := prefix + DevPort;
    assert s[i..i + 5] == prefix[i..i + 5];
    FirstOccurrenceIs(s, DevPort, i);
    assert EndsWith(s, DevPort);
    assert InitialHostingAddress(s) == ReplaceFirst(s, DevPort, HostPort);
    assert ReplaceFirst(s, DevPort, HostPort) == s[..i] + HostPort + s[i + 5..];
    assert s[..i] == prefix[..i];
    assert s[i + 5..] == prefix[i + 5..] + DevPort;
  }

  /** The Redux core state, updated in place by its reducers. */
  class CoreStore {
    var appRuntime: AppRuntime
    var hostingAddress: Option<string>
    var pitchDetectionAlgorithm: PitchAlgorithm
    var windowSize: int
    var clarityThreshold: real
    var powerThreshold: real
    var currentPitch: Pitch
    var activeAudioDevice: Option<string>
    var workerCacheKey: Option<int>
    var inErrorState: bool

    function State(): CoreState
      reads this
    {
      CoreState(appRuntime, hostingAddress, pitchDetectionAlgorithm, windowSize, clarityThreshold,
                powerThreshold, currentPitch, activeAudioDevice, workerCacheKey, inErrorState)
    }

    /**
     * The initial state for a page at `origin`; `inTauri` says whether the
     * Tauri internals are present in the window.
     */
    constructor (origin: string, inTauri: bool)
      ensures State() == CoreState(
                if inTauri then Tauri else Remote,
                Some(InitialHostingAddress(origin)),
                McLeod, 2048, 0.5, 0.015, Pitch(0.0, 0.0), None, None, false)
    {
      appRuntime := if inTauri then Tauri else Remote;
      hostingAddress := Some(InitialHostingAddress(origin));
      pitchDetectionAlgorithm := McLeod;
      windowSize := 2048;
      clarityThreshold := 0.5;
      powerThreshold := 0.015;
      currentPitch := Pitch(0.0, 0.0);
      activeAudioDevice := None;
      workerCacheKey := None;
      inErrorState := false;
    }

    method SetPitchDetectionAlgorithm(algorithm: PitchAlgorithm)
      modifies this
      ensures State() == old(State()).(pitchDetectionAlgorithm := algorithm)
    {
      pitchDetectionAlgorithm := algorithm;
    }

    method SetWindowSize(size: int)
      modifies this
      ensures State() == old(State()).(windowSize := size)
    {
      windowSize := size;
    }

    method SetClarityThreshold(threshold: real)
      modifies this
      ensures State() == old(State()).(clarityThreshold := threshold)
    {
      clarityThreshold := threshold;
    }

    method SetPowerThreshold(threshold: real)
      modifies this
      ensures State() == old(State()).(powerThreshold := threshold)
    {
      powerThreshold := threshold;
    }

    method SetCurrentPitch(pitch: Pitch)
      modifies this
      ensures State() == old(State()).(currentPitch := pitch)
    {
      currentPitch := pitch;
    }

    method SetActiveAudioDevice(device: Option<string>)
      modifies this
      ensures State() == old(State()).(activeAudioDevice := device)
    {
      activeAudioDevice := device;
    }

    method SetWorkerCacheKey(key: int)
      modifies this
      ensures State() == old(State()).(workerCacheKey := Some(key))
    {
      workerCacheKey := Some(key);
    }

    method SetInErrorState(inError: bool)
      modifies this
      ensures State() == old(State()).(inErrorState := inError)
    {
      inErrorState := inError;
    }

    /** `_setHostingAddress`; None is JavaScript `undefined`, which the reducer accepts. */
    method SetHostingAddress(address: Option<string>)
      modifies this
      ensures State() == old(State()).(hostingAddress := address)
    {
      hostingAddress := address;
    }
  }
}
