/** The `version` package: the build tag, the update check against the
    latest published release, the display version, and the build
    provenance report. The release registry, the tolerant semantic-version
    parser and the host probes (`go version`, `uname -a`, the working
    directory, the runtime's OS and architecture, embedded build settings)
    are inputs. */
module Version {
  import opened Base
  import opened Text
  import SemVer

  /** The two build tags that are not releases. */
  const VersionDev := "development"
  const VersionNightly := "nightly"

  predicate IsSentinel(version: string)
  {
    version == VersionDev || version == VersionNightly
  }

  /** What the release registry answers for the latest release: a release
      with a tag name, a release without one, or a failure. */
  datatype Release = Tagged(tagName: string) | Untagged | Unreachable(failure: Error)

  /** A tolerant semantic-version parser, as `semver.ParseTolerant`. */
  type Parser = string -> Result<SemVer.Version>

  /** `getLatestReleaseTag`: a release without a tag name is the empty tag,
      not an error; only a failing registry is an error. */
  function LatestReleaseTag(release: Release): (r: Result<string>)
    ensures r.Err? <==> release.Unreachable?
    ensures r.Err? ==> r.error == release.failure
    ensures release.Untagged? ==> r == Ok("")
    ensures release.Tagged? ==> r == Ok(release.tagName)
  {
    match release
    case Tagged(t) => Ok(t)
    case Untagged => Ok("")
    case Unreachable(e) => Err(e)
  }

  /** The `(isAvailable, version, err)` triple `CheckNext` returns. */
  datatype CheckResult = CheckResult(isAvailable: bool, version: string, err: Option<Error>)

  /** `CheckNext`: whether the latest release has strictly higher
      precedence than the running build, and that release's raw tag. */
  function CheckNext(version: string, release: Release, parse: Parser): (r: CheckResult)
    ensures IsSentinel(version) ==> r == CheckResult(false, "", None)
    ensures r.err.Some? ==> !r.isAvailable && r.version == ""
    ensures !IsSentinel(version) && release.Unreachable? ==> r.err == Some(release.failure)
    ensures !IsSentinel(version) && !release.Unreachable? && parse(version).Err?
      ==> r.err == Some(parse(version).error)
    ensures !IsSentinel(version) && !release.Unreachable? && parse(version).Ok?
      && parse(LatestReleaseTag(release).value).Err?
      ==> r.err == Some(parse(LatestReleaseTag(release).value).error)
    ensures !IsSentinel(version) && !release.Unreachable? && parse(version).Ok?
            && parse(LatestReleaseTag(release).value).Ok?
      ==> r.err.None?
    ensures r.err.None? && !IsSentinel(version) ==>
      && LatestReleaseTag(release).Ok?
      && var tag := LatestReleaseTag(release).value;
      && parse(version).Ok? && parse(tag).Ok?
      && r.version == tag
      && (r.isAvailable <==> SemVer.GT(parse(tag).value, parse(version).value))
  {
    if IsSentinel(version) then CheckResult(false, "", None)
    else match LatestReleaseTag(release)
      case Err(e) => CheckResult(false, "", Some(e))
      case Ok(tagName) =>
        match parse(version)
        case Err(e) => CheckResult(false, "", Some(e))
        case Ok(current) =>
          match parse(tagName)
          case Err(e) => CheckResult(false, "", Some(e))
          case Ok(latest) => CheckResult(SemVer.GT(latest, current), tagName, None)
  }

  /** A sentinel build never looks at the registry. */
  lemma SentinelIgnoresRegistry(version: string, a: Release, b: Release, parse: Parser)
    requires IsSentinel(version)
    ensures CheckNext(version, a, parse) == CheckNext(version, b, parse)
  {
  }

  /** A release of equal precedence, build metadata aside, is no update. */
  lemma EqualVersionIsNoUpdate(version: string, tag: string, parse: Parser)
    requires !IsSentinel(version)
    requires parse(version).Ok? && parse(tag).Ok?
    requires SemVer.SamePrecedence(parse(version).value, parse(tag).value)
    ensures CheckNext(version, Tagged(tag), parse) == CheckResult(false, tag, None)
  {
    SemVer.CompareAntisymmetric(parse(version).value, parse(tag).value);
  }

  /** An update from `a` to `b` rules out one from `b` to `a`. */
  lemma UpdateIsOneWay(a: string, b: string, parse: Parser)
    requires CheckNext(a, Tagged(b), parse).isAvailable
    ensures !CheckNext(b, Tagged(a), parse).isAvailable
  {
    SemVer.GTAsymmetric(parse(b).value, parse(a).value);
  }

  /** A release without a tag name is checked as the empty tag, which a
      parser that refuses the empty string turns into an error. */
  lemma UntaggedReleaseIsParsedAsEmpty(version: string, parse: Parser)
    requires !IsSentinel(version) && parse(version).Ok? && parse("").Err?
    ensures CheckNext(version, Untagged, parse) == CheckResult(false, "", Some(parse("").error))
  {
  }

  /** `fromSource`. */
  predicate FromSource(version: string)
  {
    version == VersionDev
  }

  /** `resolveDevVersion`: the version shown to the user. */
  function ResolveDevVersion(version: string, release: Release): (r: string)
    ensures !IsSentinel(version) ==> r == version
    ensures IsSentinel(version) && release.Unreachable? ==> r == version
    ensures version == VersionDev && !release.Unreachable?
      ==> r == LatestReleaseTag(release).value + "-dev"
    ensures version == VersionNightly && !release.Unreachable?
      ==> r == LatestReleaseTag(release).value + "-nightly"
  {
    if !IsSentinel(version) then version
    else match LatestReleaseTag(release)
      case Err(_) => version
      case Ok(tag) =>
        if version == VersionDev then tag + "-dev"
        else if version == VersionNightly then tag + "-nightly"
        else version
  }

  /** Once the registry answers, the shown version is never a sentinel, so
      resolving it again changes nothing. */
  lemma ResolvedIsNotSentinel(version: string, release: Release)
    requires !release.Unreachable?
    ensures !IsSentinel(ResolveDevVersion(version, release))
  {
    var r := ResolveDevVersion(version, release);
    if IsSentinel(version) {
      var tag := LatestReleaseTag(release).value;
      if version == VersionDev {
        assert r[|r| - 1] == 'v';
      } else {
        assert |r| == |tag| + 8 && r[|r| - 2] == 'l';
      }
    }
  }

  lemma ResolveIdempotent(version: string, first: Release, second: Release)
    requires !first.Unreachable?
    ensures ResolveDevVersion(ResolveDevVersion(version, first), second)
      == ResolveDevVersion(version, first)
  {
    ResolvedIsNotSentinel(version, first);
  }

  /** An offline sentinel build shows the sentinel itself; resolving that
      again once the registry answers gives the "-dev" version, so
      resolving is idempotent only after a registry answer. */
  lemma OfflineBuildShowsSentinel(e: Error, tag: string)
    ensures ResolveDevVersion(VersionDev, Unreachable(e)) == VersionDev
    ensures ResolveDevVersion(VersionNightly, Unreachable(e)) == VersionNightly
    ensures ResolveDevVersion(ResolveDevVersion(VersionDev, Unreachable(e)), Tagged(tag)) == tag + "-dev"
    ensures ResolveDevVersion(ResolveDevVersion(VersionDev, Unreachable(e)), Tagged(tag))
      != ResolveDevVersion(VersionDev, Unreachable(e))
  {
    var shown := tag + "-dev";
    assert |shown| >= 4 && shown[|shown| - 4..] == "-dev";
    assert VersionDev[|VersionDev| - 4..] != "-dev";
  }

  /** One embedded build setting, a key and its value. */
  datatype Setting = Setting(key: string, value: string)

  const KeyRevision := "vcs.revision"
  const KeyTime := "vcs.time"
  const KeyModified := "vcs.modified"
  const Undefined := "undefined"

  /** The value of the last setting with `key`, if any. */
  function LastValue(settings: seq<Setting>, key: string): Option<string>
  {
    if settings == [] then None
    else if settings[|settings| - 1].key == key then Some(settings[|settings| - 1].value)
    else LastValue(settings[..|settings| - 1], key)
  }

  /** The last occurrence wins: `LastValue` gives `v` exactly when some
      setting is `key = v` and no later one has `key`. */
  lemma {:induction false} LastValueIsLastOccurrence(settings: seq<Setting>, key: string, v: string)
    ensures LastValue(settings, key) == Some(v) <==>
      exists i :: 0 <= i < |settings| && settings[i] == Setting(key, v)
        && forall j :: i < j < |settings| ==> settings[j].key != key
    decreases |settings|
  {
    if settings != [] {
      var n := |settings| - 1;
      var init := settings[..n];
      LastValueIsLastOccurrence(init, key, v);
      if settings[n].key == key {
        if LastValue(settings, key) == Some(v) {
          assert settings[n] == Setting(key, v);
        }
      } else {
        if exists i :: 0 <= i < |settings| && settings[i] == Setting(key, v)
            && forall j :: i < j < |settings| ==> settings[j].key != key {
          var i :| 0 <= i < |settings| && settings[i] == Setting(key, v)
            && forall j :: i < j < |settings| ==> settings[j].key != key;
          assert i < n && init[i] == settings[i];
          assert forall j :: i < j < |init| ==> init[j].key != key by {
            forall j | i < j < |init| ensures init[j].key != key { assert init[j] == settings[j]; }
          }
        }
        if LastValue(init, key) == Some(v) {
          var i :| 0 <= i < |init| && init[i] == Setting(key, v)
            && forall j :: i < j < |init| ==> init[j].key != key;
          assert settings[i] == init[i];
          assert forall j :: i < j < |settings| ==> settings[j].key != key by {
            forall j | i < j < |settings| ensures settings[j].key != key {
              if j < n { assert settings[j] == init[j]; }
            }
          }
        }
      }
    }
  }

  /** No setting with `key` means no value. */
  lemma {:induction false} LastValueAbsent(settings: seq<Setting>, key: string)
    ensures LastValue(settings, key).None? <==> forall i :: 0 <= i < |settings| ==> settings[i].key != key
    decreases |settings|
  {
    if settings != [] {
      var n := |settings| - 1;
      LastValueAbsent(settings[..n], key);
      assert forall i :: 0 <= i < n ==> settings[..n][i] == settings[i];
    }
  }

  /** The tree is dirty iff the last `vcs.modified` setting is exactly
      "true". */
  predicate Dirty(settings: seq<Setting>)
  {
    LastValue(settings, KeyModified) == Some("true")
  }

  /** The settings loop of `GetInfo`: the last revision, the last commit
      time ("undefined" when absent) and the last dirty flag. */
  method FoldSettings(settings: seq<Setting>) returns (head: string, date: string, modified: bool)
    ensures head == LastValue(settings, KeyRevision).GetOr(Undefined)
    ensures date == LastValue(settings, KeyTime).GetOr(Undefined)
    ensures modified == Dirty(settings)
  {
    head, date, modified := Undefined, Undefined, false;
    for i := 0 to |settings|
      invariant head == LastValue(settings[..i], KeyRevision).GetOr(Undefined)
      invariant date == LastValue(settings[..i], KeyTime).GetOr(Undefined)
      invariant modified == Dirty(settings[..i])
    {
      var kv := settings[i];
      assert settings[..i + 1][..i] == settings[..i];
      if kv.key == KeyRevision {
        head := kv.value;
      } else if kv.key == KeyTime {
        date := kv.value;
      } else if kv.key == KeyModified {
        modified := kv.value == "true";
      }
    }
    assert settings[..|settings|] == settings;
  }

  /** The source hash `GetInfo` reports: the revision, with one "*"
      appended when the tree is dirty; "undefined" without build info. */
  function SourceHash(buildInfo: Option<seq<Setting>>): string
  {
    match buildInfo
    case None => Undefined
    case Some(s) => LastValue(s, KeyRevision).GetOr(Undefined) + (if Dirty(s) then "*" else "")
  }

  function BuildDate(buildInfo: Option<seq<Setting>>): string
  {
    match buildInfo
    case None => Undefined
    case Some(s) => LastValue(s, KeyTime).GetOr(Undefined)
  }

  /** A later `vcs.modified` overrides an earlier one, and only the exact
      value "true" makes the tree dirty. */
  lemma DirtyFollowsLastFlag(settings: seq<Setting>, v: string)
    ensures Dirty(settings + [Setting(KeyModified, v)]) <==> v == "true"
  {
  }

  /** The dirty marker is exactly one trailing "*" on the revision. */
  lemma SourceHashMarksDirty(settings: seq<Setting>)
    ensures var h, rev := SourceHash(Some(settings)), LastValue(settings, KeyRevision).GetOr(Undefined);
      && |h| == |rev| + (if Dirty(settings) then 1 else 0)
      && h[..|rev|] == rev
      && (Dirty(settings) ==> h[|rev|] == '*')
  {
  }

  /** What `GetInfo` learns from outside the program. */
  datatype Host = Host(
    buildInfo: Option<seq<Setting>>,   // debug.ReadBuildInfo
    goVersion: Result<string>,         // output of `go version`
    unameAvailable: bool,              // is `uname` on the path
    uname: Result<string>,             // output of `uname -a`
    os: string,                        // runtime.GOOS
    arch: string,                      // runtime.GOARCH
    cwd: Result<string>)               // os.Getwd

  /** The `Info` record. */
  datatype Info = Info(
    version: string,
    goVersion: string,
    buildDate: string,
    sourceHash: string,
    os: string,
    arch: string,
    uname: string,
    cwd: string,
    buildFromSource: bool)

  /** What `GetInfo` answers: failing `go version`, or `uname -a` when
      `uname` exists, is an error; a missing working directory is not. */
  function ExpectedInfo(version: string, release: Release, host: Host): Result<Info>
  {
    if host.goVersion.Err? then Err(host.goVersion.error)
    else if host.unameAvailable && host.uname.Err? then Err(host.uname.error)
    else Ok(Info(
      version := ResolveDevVersion(version, release),
      goVersion := TrimSpace(host.goVersion.value),
      buildDate := BuildDate(host.buildInfo),
      sourceHash := SourceHash(host.buildInfo),
      os := host.os,
      arch := host.arch,
      uname := if host.unameAvailable then TrimSpace(host.uname.value) else "",
      cwd := if host.cwd.Ok? then host.cwd.value else "",
      buildFromSource := FromSource(version)))
  }

  /** A build from source reports a "-dev" version once the registry
      answers, and never a sentinel. */
  lemma FromSourceShowsDevSuffix(version: string, release: Release, host: Host)
    requires ExpectedInfo(version, release, host).Ok?
    requires !release.Unreachable?
    ensures var info := ExpectedInfo(version, release, host).value;
      && (info.buildFromSource <==> version == VersionDev)
      && !IsSentinel(info.version)
      && (info.buildFromSource ==> |info.version| >= 4 && info.version[|info.version| - 4..] == "-dev")
  {
    ResolvedIsNotSentinel(version, release);
  }

  /** `GetInfo`. */
  method GetInfo(version: string, release: Release, host: Host) returns (r: Result<Info>)
    ensures r == ExpectedInfo(version, release, host)
  {
    var modified := false;
    var date, head := Undefined, Undefined;
    if host.buildInfo.Some? {
      head, date, modified := FoldSettings(host.buildInfo.value);
      if modified {
        head := head + "*";
      }
    }

    if host.goVersion.Err? {
      return Err(host.goVersion.error);
    }

    var uname := "";
    if host.unameAvailable {
      if host.uname.Err? {
        return Err(host.uname.error);
      }
      uname := TrimSpace(host.uname.value);
    }

    assert head == SourceHash(host.buildInfo) && date == BuildDate(host.buildInfo);
    var info := Info("", "", "", "", "", "", "", "", false);
    info := info.(uname := uname);
    info := info.(version := ResolveDevVersion(version, release));
    info := info.(buildDate := date);
    info := info.(sourceHash := head);
    info := info.(os := host.os);
    info := info.(arch := host.arch);
    info := info.(goVersion := TrimSpace(host.goVersion.value));
    info := info.(buildFromSource := FromSource(version));
    if host.cwd.Ok? {
      info := info.(cwd := host.cwd.value);
    }
    return Ok(info);
  }

  /** One `key: value` line of the `Long` report. */
  datatype Line = Line(key: string, value: string)

  const CwdKey := "Your cwd"

  /** The report of `info`: version, build date, source hash, OS, arch, go
      version and uname, in that order, then the working directory only
      when it is known. */
  function Report(info: Info): seq<Line>
  {
    [Line("Version", info.version), Line("Build date", info.buildDate),
     Line("Source hash", info.sourceHash), Line("Your OS", info.os), Line("Your arch", info.arch),
     Line("Your go version", info.goVersion), Line("Your uname -a", info.uname)]
    + (if info.cwd != "" then [Line(CwdKey, info.cwd)] else [])
  }

  /** The writes of `Long`, one line after another. */
  method WriteReport(info: Info) returns (lines: seq<Line>)
    ensures lines == Report(info)
  {
    lines := [];
    lines := lines + [Line("Version", info.version)];
    lines := lines + [Line("Build date", info.buildDate)];
    lines := lines + [Line("Source hash", info.sourceHash)];
    lines := lines + [Line("Your OS", info.os)];
    lines := lines + [Line("Your arch", info.arch)];
    lines := lines + [Line("Your go version", info.goVersion)];
    lines := lines + [Line("Your uname -a", info.uname)];
    if info.cwd != "" {
      lines := lines + [Line(CwdKey, info.cwd)];
    }
  }

  /** `Long`: a failure to gather the information is passed on; otherwise
      the report of that information. */
  method Long(version: string, release: Release, host: Host) returns (r: Result<seq<Line>>)
    ensures ExpectedInfo(version, release, host).Err? ==> r == Err(ExpectedInfo(version, release, host).error)
    ensures ExpectedInfo(version, release, host).Ok? ==> r == Ok(Report(ExpectedInfo(version, release, host).value))
  {
    var got := GetInfo(version, release, host);
    if got.Err? {
      return Err(got.error);
    }
    var lines := WriteReport(got.value);
    return Ok(lines);
  }

  /** The report names each reported field once, under its own key, so every
      value can be found by its key; the working directory appears, last,
      exactly when it is known. The from-source flag is not reported. */
  lemma ReportKeysDistinct(info: Info)
    ensures var r := Report(info);
      && (forall i, j :: 0 <= i < j < |r| ==> r[i].key != r[j].key)
      && Line("Version", info.version) in r && Line("Build date", info.buildDate) in r
      && Line("Source hash", info.sourceHash) in r && Line("Your OS", info.os) in r
      && Line("Your arch", info.arch) in r && Line("Your go version", info.goVersion) in r
      && Line("Your uname -a", info.uname) in r
      && (Line(CwdKey, info.cwd) in r <==> info.cwd != "")
      && (info.cwd != "" ==> |r| == 8 && r[7] == Line(CwdKey, info.cwd))
      && (info.cwd == "" ==> |r| == 7)
      && r == Report(info.(buildFromSource := !info.buildFromSource))
  {
    var r := Report(info);
    assert r[0].key == "Version" && r[1].key == "Build date" && r[2].key == "Source hash";
    assert r[3].key == "Your OS" && r[4].key == "Your arch" && r[5].key == "Your go version";
    assert r[6].key == "Your uname -a";
  }
}
