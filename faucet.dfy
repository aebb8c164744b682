/** `runCmdHandler` of the root command: turns the settings read from flags
    and environment into the runner options and the faucet options. */
module Faucet {
  import opened Base
  import opened Text
  import opened Options

  /** The settings `runCmdHandler` reads; the amounts are read as `int64`. */
  datatype Config = Config(
    port: int,
    keyringBackend: string,
    sdkVersion: string,
    accountName: string,
    mnemonic: string,
    keyringPassword: string,
    cliName: string,
    denoms: string,
    creditAmount: Int64,
    maxCredit: Int64,
    feeAmount: Int64,
    node: string,
    coinType: string,
    home: string)

  /** `chaincmd.KeyringBackendFromString`. */
  type BackendParser = string -> Result<KeyringBackend>

  /** `cosmosver.Parse`. */
  type SdkParser = string -> Result<SdkVersion>

  /** The runner options, in order: password, backend, automatic chain-ID
      detection, node, SDK version, and last a home override only when one
      is given. */
  predicate IsRunnerOptions(opts: seq<RunnerOption>, cfg: Config, backend: KeyringBackend, version: SdkVersion)
  {
    && |opts| == (if cfg.home != "" then 6 else 5)
    && opts[0] == WithKeyringPassword(cfg.keyringPassword)
    && opts[1] == WithKeyringBackend(backend)
    && opts[2] == WithAutoChainIdDetection
    && opts[3] == WithNodeAddress(cfg.node)
    && opts[4] == WithVersion(version)
    && (cfg.home != "" ==> opts[5] == WithHome(cfg.home))
  }

  /** The faucet options, in order: the SDK version, the account, the fee on
      the first denomination, then one coin per denomination of the list. */
  predicate IsFaucetOptions(opts: seq<FaucetOption>, cfg: Config, version: SdkVersion)
  {
    var coins := Split(cfg.denoms, DenomSeparator);
    && |opts| == 3 + |coins|
    && opts[0] == FaucetVersion(version)
    && opts[1] == Account(cfg.accountName, cfg.mnemonic, cfg.coinType)
    && opts[2] == FeeAmount(cfg.feeAmount, coins[0])
    && forall i :: 3 <= i < |opts| ==> opts[i] == Coin(cfg.creditAmount, cfg.maxCredit, coins[i - 3])
  }

  /** `runCmdHandler` up to the runner and faucet factories: a backend name
      or SDK version that does not parse is the error; otherwise the options
      are compiled, and no other error can arise here. */
  method RunCmdHandler(cfg: Config, backendFromString: BackendParser, parseSdk: SdkParser)
    returns (r: Result<Compiled>)
    ensures backendFromString(cfg.keyringBackend).Err? ==> r == Err(backendFromString(cfg.keyringBackend).error)
    ensures backendFromString(cfg.keyringBackend).Ok? && parseSdk(cfg.sdkVersion).Err?
      ==> r == Err(parseSdk(cfg.sdkVersion).error)
    ensures r.Ok? <==> backendFromString(cfg.keyringBackend).Ok? && parseSdk(cfg.sdkVersion).Ok?
    ensures r.Ok? ==>
      && r.value.cliName == cfg.cliName && r.value.port == cfg.port
      && IsRunnerOptions(r.value.runnerOptions, cfg, backendFromString(cfg.keyringBackend).value,
                         parseSdk(cfg.sdkVersion).value)
      && IsFaucetOptions(r.value.faucetOptions, cfg, parseSdk(cfg.sdkVersion).value)
  {
    var configKeyringBackend := backendFromString(cfg.keyringBackend);
    if configKeyringBackend.Err? {
      return Err(configKeyringBackend.error);
    }
    var version := parseSdk(cfg.sdkVersion);
    if version.Err? {
      return Err(version.error);
    }

    var ccoptions := [
      WithKeyringPassword(cfg.keyringPassword),
      WithKeyringBackend(configKeyringBackend.value),
      WithAutoChainIdDetection,
      WithNodeAddress(cfg.node),
      WithVersion(version.value)
    ];
    if cfg.home != "" {
      ccoptions := ccoptions + [WithHome(cfg.home)];
    }

    var coins := Split(cfg.denoms, DenomSeparator);
    if |coins| == 0 {
      return Err(Error("empty denoms"));
    }

    var faucetOptions := [
      FaucetVersion(version.value),
      Account(cfg.accountName, cfg.mnemonic, cfg.coinType),
      FeeAmount(cfg.feeAmount, coins[0])
    ];
    for i := 0 to |coins|
      invariant |faucetOptions| == 3 + i
      invariant faucetOptions[0] == FaucetVersion(version.value)
      invariant faucetOptions[1] == Account(cfg.accountName, cfg.mnemonic, cfg.coinType)
      invariant faucetOptions[2] == FeeAmount(cfg.feeAmount, coins[0])
      invariant forall j :: 3 <= j < |faucetOptions| ==> faucetOptions[j] == Coin(cfg.creditAmount, cfg.maxCredit, coins[j - 3])
    {
      faucetOptions := faucetOptions + [Coin(cfg.creditAmount, cfg.maxCredit, coins[i])];
    }

    return Ok(Compiled(cfg.cliName, ccoptions, faucetOptions, cfg.port));
  }

  /** The coin options name the split denominations, so joining them with
      the separator gives back the configured list, and the fee is paid in
      the first coin's denomination. */
  lemma DenomsRoundTrip(opts: seq<FaucetOption>, cfg: Config, version: SdkVersion)
    requires IsFaucetOptions(opts, cfg, version)
    ensures CoinDenoms(opts) == Split(cfg.denoms, DenomSeparator)
    ensures Join(CoinDenoms(opts), DenomSeparator) == cfg.denoms
    ensures opts[2] == FeeAmount(cfg.feeAmount, CoinDenoms(opts)[0])
  {
    var coins := Split(cfg.denoms, DenomSeparator);
    CoinDenomsOfCoinRun(opts, 3, coins);
    JoinSplit(cfg.denoms, DenomSeparator);
  }

  /** Two denominations give two coins with the configured amounts, and the
      fee in the first. */
  lemma TwoDenominations(opts: seq<FaucetOption>, cfg: Config, version: SdkVersion)
    requires cfg.denoms == "uatom,stake" && cfg.creditAmount == 100 && cfg.maxCredit == 1000
    requires IsFaucetOptions(opts, cfg, version)
    ensures opts[3..] == [Coin(100, 1000, "uatom"), Coin(100, 1000, "stake")]
    ensures opts[2] == FeeAmount(cfg.feeAmount, "uatom")
  {
    var coins := Split(cfg.denoms, DenomSeparator);
    assert coins == ["uatom", "stake"] by { SplitTwoDenominations(); }
    assert |opts| == 5;
    assert opts[3] == Coin(100, 1000, coins[0]);
    assert opts[4] == Coin(100, 1000, coins[1]);
    assert opts[3..] == [opts[3], opts[4]];
  }

  lemma SplitTwoDenominations()
    ensures Split("uatom,stake", DenomSeparator) == ["uatom", "stake"]
  {
    assert "uatom,stake" == "uatom" + [DenomSeparator] + "stake";
    SplitAfterPiece("uatom", DenomSeparator, "stake");
    SplitNoSeparator("stake", DenomSeparator);
  }
}
