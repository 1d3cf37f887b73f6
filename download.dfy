/**
 * The download page (src/pages/Download.jsx): four platform cards whose buttons walk a
 * per-platform status through no status -> downloading -> completed -> no status, the
 * two later steps run by timer callbacks, plus a stable/beta selector and a hover panel.
 *
 * The status dictionary is a map from platform name to an optional status: a name that
 * is not a key is a platform never clicked, a key mapped to `None` is one whose status
 * was cleared; both read as "no status".
 */
module Download {
  import opened Wrappers
  import opened Records

  datatype Status = Downloading | Completed

  datatype Platform = Platform(name: string, version: string, size: string, requirements: string, features: seq<string>)

  const Platforms: seq<Platform> := [
    Platform("Windows", "2.1.0", "64.5 MB", "Windows 10 or later",
             ["Auto-updates", "Native notifications", "Windows integration"]),
    Platform("macOS", "2.1.0", "68.2 MB", "macOS 10.15 or later",
             ["Apple Silicon support", "Touch Bar support", "iCloud sync"]),
    Platform("Linux", "2.1.0", "61.8 MB", "Ubuntu 20.04 or equivalent",
             ["AppImage format", "System tray support", "Native notifications"]),
    Platform("Mobile", "2.1.0", "45.3 MB", "iOS 14+ / Android 8+",
             ["Cross-platform sync", "Offline mode", "Touch ID/Face ID"])
  ]

  const Stable: string := "stable"
  const Beta: string := "beta"

  /** `downloadStatus[name]`, with a missing key read as no status. */
  function StatusOf(m: map<string, Option<Status>>, name: string): Option<Status> {
    if name in m then m[name] else None
  }

  /** `{...prev, [name]: s}`: platform `name` now has status `s` and no other platform changes. */
  function SetStatus(m: map<string, Option<Status>>, name: string, s: Option<Status>): (r: map<string, Option<Status>>)
    ensures r.Keys == m.Keys + {name}
    ensures StatusOf(r, name) == s
    ensures forall other :: other != name ==> StatusOf(r, other) == StatusOf(m, other)
  {
    WithField(m, name, s)
  }

  /** The text of a platform button for a given status. */
  function Label(s: Option<Status>): (text: string)
    ensures text == "Downloading..." <==> s == Some(Downloading)
    ensures text == "Downloaded!" <==> s == Some(Completed)
    ensures text == "Download" <==> s == None
  {
    assert |"Downloading..."| == 14 && |"Downloaded!"| == 11 && |"Download"| == 8;
    match s
    case Some(Downloading) => "Downloading..."
    case Some(Completed) => "Downloaded!"
    case None => "Download"
  }

  /** A timer callback scheduled by a click and not yet run. */
  datatype Timer =
    | MarkCompleted(platform: string)   // the outer `setTimeout`
    | ClearStatus(platform: string)     // the inner one, scheduled by the outer

  /** The status change a timer callback makes when it runs. */
  function Effect(t: Timer): (r: Option<Status>)
    ensures r.Some? <==> t.MarkCompleted?
    ensures r.Some? ==> r.value == Completed
  {
    if t.MarkCompleted? then Some(Completed) else None
  }

  /** The callbacks a timer callback schedules when it runs. */
  function Follows(t: Timer): (r: seq<Timer>)
    ensures |r| <= 1 && (|r| == 1 <==> t.MarkCompleted?)
    ensures forall u :: u in r ==> u.ClearStatus? && u.platform == t.platform
  {
    if t.MarkCompleted? then [ClearStatus(t.platform)] else []
  }

  class DownloadPage {
    var hoveredPlatform: Option<string>
    var selectedVersion: string
    var downloadStatus: map<string, Option<Status>>
    /** The callbacks handed to `setTimeout` that have not run yet, in the order they were scheduled. */
    var pending: seq<Timer>

    ghost predicate Valid()
      reads this
    {
      selectedVersion == Stable || selectedVersion == Beta
    }

    constructor ()
      ensures Valid()
      ensures hoveredPlatform == None && selectedVersion == Stable && downloadStatus == map[] && pending == []
    {
      hoveredPlatform := None;
      selectedVersion := Stable;
      downloadStatus := map[];
      pending := [];
    }

    /** A click on the button of platform `p`: it is marked downloading and its first timer is set. */
    method HandleDownload(p: Platform)
      requires Valid()
      modifies this
      ensures Valid()
      ensures downloadStatus == SetStatus(old(downloadStatus), p.name, Some(Downloading))
      ensures pending == old(pending) + [MarkCompleted(p.name)]
      ensures hoveredPlatform == old(hoveredPlatform) && selectedVersion == old(selectedVersion)
    {
      downloadStatus := downloadStatus[p.name := Some(Downloading)];
      pending := pending + [MarkCompleted(p.name)];
    }

    /** The "Download Now" call to action, which always downloads the first platform. */
    method DownloadNow()
      requires Valid()
      modifies this
      ensures Valid()
      ensures downloadStatus == SetStatus(old(downloadStatus), "Windows", Some(Downloading))
      ensures pending == old(pending) + [MarkCompleted("Windows")]
      ensures hoveredPlatform == old(hoveredPlatform) && selectedVersion == old(selectedVersion)
    {
      HandleDownload(Platforms[0]);
    }

    /**
     * Pending callback number `i` runs: it sets its platform's status (completed for the
     * first timer, cleared for the second) and the first timer schedules the second.
     */
    method RunTimer(i: int)
      requires Valid()
      requires 0 <= i < |pending|
      modifies this
      ensures Valid()
      ensures downloadStatus == SetStatus(old(downloadStatus), old(pending[i]).platform, Effect(old(pending[i])))
      ensures pending == old(pending[..i] + pending[i + 1..]) + Follows(old(pending[i]))
      ensures hoveredPlatform == old(hoveredPlatform) && selectedVersion == old(selectedVersion)
    {
      var t := pending[i];
      downloadStatus := downloadStatus[t.platform := Effect(t)];
      pending := pending[..i] + pending[i + 1..] + Follows(t);
    }

    /** The "Stable Release" button. */
    method SelectStable()
      modifies this
      ensures Valid()
      ensures selectedVersion == Stable
      ensures hoveredPlatform == old(hoveredPlatform) && downloadStatus == old(downloadStatus) && pending == old(pending)
    {
      selectedVersion := Stable;
    }

    /** The "Beta Version" button. */
    method SelectBeta()
      modifies this
      ensures Valid()
      ensures selectedVersion == Beta
      ensures hoveredPlatform == old(hoveredPlatform) && downloadStatus == old(downloadStatus) && pending == old(pending)
    {
      selectedVersion := Beta;
    }

    /** The pointer enters the card of platform `p`. */
    method HoverStart(p: Platform)
      requires Valid()
      modifies this
      ensures Valid()
      ensures hoveredPlatform == Some(p.name)
      ensures selectedVersion == old(selectedVersion) && downloadStatus == old(downloadStatus) && pending == old(pending)
    {
      hoveredPlatform := Some(p.name);
    }

    /** The pointer leaves a card, whichever card it is. */
    method HoverEnd()
      requires Valid()
      modifies this
      ensures Valid()
      ensures hoveredPlatform == None
      ensures selectedVersion == old(selectedVersion) && downloadStatus == old(downloadStatus) && pending == old(pending)
    {
      hoveredPlatform := None;
    }

    /** The text on platform `p`'s button. */
    function ButtonLabel(p: Platform): (text: string)
      reads this
      ensures text == "Downloading..." <==> StatusOf(downloadStatus, p.name) == Some(Downloading)
      ensures text == "Downloaded!" <==> StatusOf(downloadStatus, p.name) == Some(Completed)
      ensures text == "Download" <==> StatusOf(downloadStatus, p.name) == None
    {
      Label(StatusOf(downloadStatus, p.name))
    }

    /** Platform `p`'s button ignores clicks exactly while its label reads "Downloading...". */
    predicate ButtonDisabled(p: Platform)
      reads this
      ensures ButtonDisabled(p) <==> ButtonLabel(p) == "Downloading..."
    {
      StatusOf(downloadStatus, p.name) == Some(Downloading)
    }

    /** The requirements panel of platform `p` is open. */
    predicate ShowsRequirements(p: Platform)
      reads this
    {
      hoveredPlatform == Some(p.name)
    }
  }

  /** The four platforms have different names, so each card has a status of its own. */
  lemma PlatformNamesDistinct()
    ensures forall i, j :: 0 <= i < j < |Platforms| ==> Platforms[i].name != Platforms[j].name
  {
  }

  /** The platform names are distinct, so at most one requirements panel is open at a time. */
  lemma AtMostOneRequirementsPanel(page: DownloadPage, i: int, j: int)
    requires 0 <= i < j < |Platforms|
    ensures !(page.ShowsRequirements(Platforms[i]) && page.ShowsRequirements(Platforms[j]))
  {
    PlatformNamesDistinct();
  }

  /** Before any click every platform button reads "Download" and is enabled. */
  lemma InitialLabels(p: Platform)
    ensures Label(StatusOf(map[], p.name)) == "Download"
    ensures StatusOf(map[], p.name) != Some(Downloading)
  {
  }

  /**
   * A click and its two timers, run without other clicks on the same platform in between,
   * take its button from whatever it showed through "Downloading..." and "Downloaded!"
   * back to "Download"; every other platform's status is the same at each step.
   */
  lemma Lifecycle(m: map<string, Option<Status>>, name: string, other: string)
    requires other != name
    ensures Label(StatusOf(SetStatus(m, name, Some(Downloading)), name)) == "Downloading..."
    ensures Label(StatusOf(SetStatus(SetStatus(m, name, Some(Downloading)), name, Some(Completed)), name)) == "Downloaded!"
    ensures StatusOf(SetStatus(SetStatus(SetStatus(m, name, Some(Downloading)), name, Some(Completed)), name, None), name) == None
    ensures StatusOf(SetStatus(SetStatus(SetStatus(m, name, Some(Downloading)), name, Some(Completed)), name, None), other)
         == StatusOf(m, other)
  {
  }

  /**
   * The timers of one click are not tied to it. Once a download of `p` shows
   * "Downloaded!", the button accepts a second click; if the first click's clearing
   * timer runs next, the second download's "Downloading..." state is cleared while its
   * own first timer is still pending, so the button reads "Download" and is enabled
   * again in the middle of that download.
   */
  method StaleClearScenario(page: DownloadPage, p: Platform)
    requires page.Valid()
    modifies page
    ensures page.Valid()
    ensures page.pending == old(page.pending) + [MarkCompleted(p.name)]
    ensures page.ButtonLabel(p) == "Download" && !page.ButtonDisabled(p)
  {
    var n := |page.pending|;
    page.HandleDownload(p);
    page.RunTimer(n);
    assert page.pending == old(page.pending) + [ClearStatus(p.name)];
    assert page.ButtonLabel(p) == "Downloaded!" && !page.ButtonDisabled(p);
    page.HandleDownload(p);
    assert page.pending[n] == ClearStatus(p.name);
    page.RunTimer(n);
  }
}
