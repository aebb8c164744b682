/** The root command's decisions: whether the pre-run hook checks for a new
    version, whether the advisory is printed and what it says, and the
    status the version endpoint answers with. */
module Root {
  import opened Base
  import opened Text
  import opened Version

  /** Cobra's name for the hidden command that answers completion requests,
      and the name of the completion-script command. */
  const ShellCompRequestCmd := "__complete"
  const CompletionCmd := "completion"

  /** The pre-run guard as written: `Use != "completion" ||
      !HasPrefix(Use, "__complete")`. */
  predicate ShouldCheckVersion(use: string)
  {
    use != CompletionCmd || !HasPrefix(use, ShellCompRequestCmd)
  }

  /** The two disjuncts can never both be false, since "completion" does
      not start with "__complete": the check runs for every command. */
  lemma GuardAlwaysHolds(use: string)
    ensures ShouldCheckVersion(use)
  {
    if use == CompletionCmd {
      assert use[0] != ShellCompRequestCmd[0];
    }
  }

  /** The guard the comment beside it describes: no check while completion
      scripts or completion answers are produced. */
  predicate ShouldCheckVersionIntended(use: string)
  {
    use != CompletionCmd && !HasPrefix(use, ShellCompRequestCmd)
  }

  /** The intended guard skips the completion command and every command
      whose name starts with "__complete", and keeps the others, among them
      "version" and the root command. */
  lemma IntendedGuardSkipsCompletion()
    ensures !ShouldCheckVersionIntended(CompletionCmd)
    // the `Use` cobra gives its completion-request command
    ensures !ShouldCheckVersionIntended(ShellCompRequestCmd + " [command-line]")
    ensures forall use :: HasPrefix(use, ShellCompRequestCmd) ==> !ShouldCheckVersionIntended(use)
    ensures ShouldCheckVersionIntended("version") && ShouldCheckVersionIntended("faucet")
    ensures ShouldCheckVersion(CompletionCmd) && !ShouldCheckVersionIntended(CompletionCmd)
  {
    var req := ShellCompRequestCmd + " [command-line]";
    assert req[..|ShellCompRequestCmd|] == ShellCompRequestCmd;
    assert "version"[0] != ShellCompRequestCmd[0];
    assert "faucet"[0] != ShellCompRequestCmd[0];
    GuardAlwaysHolds(CompletionCmd);
  }

  const AdvisoryHead := "\U{2B06}\U{FE0F} Gex "
  const AdvisoryMiddle := " is available! To upgrade: https://github.com/ignite/gex/releases/"

  /** The advisory line, with the release tag in both of its places. */
  function AdvisoryMessage(next: string): string
  {
    AdvisoryHead + next + AdvisoryMiddle + next
  }

  lemma AdvisoryNamesTagTwice(next: string)
    ensures var m, h := AdvisoryMessage(next), |AdvisoryHead|;
      && |m| == h + |AdvisoryMiddle| + 2 * |next|
      && m[h..h + |next|] == next
      && m[|m| - |next|..] == next
  {
    var m, h := AdvisoryMessage(next), |AdvisoryHead|;
    assert m == (AdvisoryHead + next) + (AdvisoryMiddle + next);
    assert (AdvisoryHead + next)[h..] == next;
  }

  /** `checkNewVersion`: prints the advisory only when the check succeeds
      and reports an update. */
  function CheckNewVersion(version: string, release: Release, parse: Parser): (printed: Option<string>)
    ensures printed.Some? <==> CheckNext(version, release, parse).err.None? && CheckNext(version, release, parse).isAvailable
    ensures printed.Some? ==> printed.value == AdvisoryMessage(CheckNext(version, release, parse).version)
  {
    var c := CheckNext(version, release, parse);
    if c.err.Some? || !c.isAvailable then None
    else Some(AdvisoryMessage(c.version))
  }

  /** An advisory appears exactly when the latest tag has higher
      precedence than a tagged build; it names that tag. Sentinel builds,
      registry failures and unparsable tags print nothing. */
  lemma AdvisoryExactlyForNewerRelease(version: string, release: Release, parse: Parser)
    ensures IsSentinel(version) || release.Unreachable? ==> CheckNewVersion(version, release, parse).None?
    ensures CheckNewVersion(version, release, parse).Some? <==>
      && !IsSentinel(version) && !release.Unreachable?
      && var tag := LatestReleaseTag(release).value;
      && parse(version).Ok? && parse(tag).Ok?
      && SemVer.GT(parse(tag).value, parse(version).value)
    ensures CheckNewVersion(version, release, parse).Some? ==>
      CheckNewVersion(version, release, parse).value == AdvisoryMessage(LatestReleaseTag(release).value)
  {
  }

  /** What the pre-run hook does: the advisory it may print, and its error. */
  datatype PreRunOutcome = PreRunOutcome(printed: Option<string>, err: Option<Error>)

  /** `PersistentPreRunE`, as written: it never fails a command, and its
      guard being always true, every command gets the update check. */
  function PersistentPreRun(use: string, version: string, release: Release, parse: Parser): (r: PreRunOutcome)
    ensures r.err.None?
    ensures r.printed == CheckNewVersion(version, release, parse)
  {
    GuardAlwaysHolds(use);
    if ShouldCheckVersion(use) then PreRunOutcome(CheckNewVersion(version, release, parse), None)
    else PreRunOutcome(None, None)
  }

  /** What the version endpoint writes: a status code and a JSON body. */
  datatype Body = ErrorBody(error: string) | InfoBody(info: Info)
  datatype Response = Response(status: int, body: Body)

  const StatusOK := 200
  const StatusBadRequest := 400

  /** `responseError`. */
  function ResponseError(code: int, err: Error): Response
  {
    Response(code, ErrorBody(err.message))
  }

  /** `responseSuccess`. */
  function ResponseSuccess(info: Info): Response
  {
    Response(StatusOK, InfoBody(info))
  }

  /** `versionHTTP`: 400 with the error's text when the build information
      cannot be gathered, else 200 with the information. */
  method VersionHTTP(version: string, release: Release, host: Host) returns (resp: Response)
    ensures resp.status == StatusOK <==> ExpectedInfo(version, release, host).Ok?
    ensures resp.status == StatusOK || resp.status == StatusBadRequest
    ensures ExpectedInfo(version, release, host).Err? ==>
      resp.body == ErrorBody(ExpectedInfo(version, release, host).error.message)
    ensures ExpectedInfo(version, release, host).Ok? ==>
      resp.body == InfoBody(ExpectedInfo(version, release, host).value)
  {
    var info := GetInfo(version, release, host);
    if info.Err? {
      resp := ResponseError(StatusBadRequest, info.error);
      return;
    }
    resp := ResponseSuccess(info.value);
  }
}
