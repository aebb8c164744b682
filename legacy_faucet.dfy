/** The older entry point `main` of the `faucet` command: the same
    compilation as `runCmdHandler`, with the options in another order, the
    latest SDK version always, and the `uint64` amounts converted to
    `int64`. */
module LegacyFaucet {
  import opened Base
  import opened Text
  import opened Options
  import Faucet

  /** The package-level settings `main` reads; the amounts are `uint64`. The
      `sdkVersion` setting is registered but never used. */
  datatype LegacyConfig = LegacyConfig(
    port: int,
    keyringBackend: string,
    sdkVersion: string,
    keyName: string,
    keyMnemonic: string,
    keyringPassword: string,
    appCli: string,
    defaultDenoms: string,
    creditAmount: Uint64,
    maxCredit: Uint64,
    feeAmount: Uint64,
    nodeAddress: string,
    coinType: string,
    home: string)

  /** Password, backend, automatic chain-ID detection, node, then a home
      override only when given, and the latest SDK version last. */
  predicate IsLegacyRunnerOptions(opts: seq<RunnerOption>, cfg: LegacyConfig, backend: KeyringBackend, latest: SdkVersion)
  {
    && |opts| == (if cfg.home != "" then 6 else 5)
    && opts[0] == WithKeyringPassword(cfg.keyringPassword)
    && opts[1] == WithKeyringBackend(backend)
    && opts[2] == WithAutoChainIdDetection
    && opts[3] == WithNodeAddress(cfg.nodeAddress)
    && (cfg.home != "" ==> opts[4] == WithHome(cfg.home))
    && opts[|opts| - 1] == WithVersion(latest)
  }

  /** One coin per denomination first, then the account, then the fee on
      the first denomination; amounts pass through `int64(...)`. */
  predicate IsLegacyFaucetOptions(opts: seq<FaucetOption>, cfg: LegacyConfig)
  {
    var coins := Split(cfg.defaultDenoms, DenomSeparator);
    && |opts| == |coins| + 2
    && (forall i :: 0 <= i < |coins| ==>
          opts[i] == Coin(ToInt64(cfg.creditAmount), ToInt64(cfg.maxCredit), coins[i]))
    && opts[|coins|] == Account(cfg.keyName, cfg.keyMnemonic, cfg.coinType)
    && opts[|coins| + 1] == FeeAmount(ToInt64(cfg.feeAmount), coins[0])
  }

  /** `main` up to the runner and faucet factories: only an unknown keyring
      backend fails; there is no empty-denomination check, and none is
      needed. */
  method LegacyMain(cfg: LegacyConfig, backendFromString: Faucet.BackendParser, latest: SdkVersion)
    returns (r: Result<Compiled>)
    ensures backendFromString(cfg.keyringBackend).Err? ==> r == Err(backendFromString(cfg.keyringBackend).error)
    ensures r.Ok? <==> backendFromString(cfg.keyringBackend).Ok?
    ensures r.Ok? ==>
      && r.value.cliName == cfg.appCli && r.value.port == cfg.port
      && IsLegacyRunnerOptions(r.value.runnerOptions, cfg, backendFromString(cfg.keyringBackend).value, latest)
      && IsLegacyFaucetOptions(r.value.faucetOptions, cfg)
  {
    var configKeyringBackend := backendFromString(cfg.keyringBackend);
    if configKeyringBackend.Err? {
      return Err(configKeyringBackend.error);
    }

    var ccoptions := [
      WithKeyringPassword(cfg.keyringPassword),
      WithKeyringBackend(configKeyringBackend.value),
      WithAutoChainIdDetection,
      WithNodeAddress(cfg.nodeAddress)
    ];
    if cfg.home != "" {
      ccoptions := ccoptions + [WithHome(cfg.home)];
    }
    ccoptions := ccoptions + [WithVersion(latest)];

    var coins := Split(cfg.defaultDenoms, DenomSeparator);

    var faucetOptions := new FaucetOption[|coins|];
    for i := 0 to |coins|
      invariant forall j :: 0 <= j < i ==>
        faucetOptions[j] == Coin(ToInt64(cfg.creditAmount), ToInt64(cfg.maxCredit), coins[j])
    {
      var creditAmount := ToInt64(cfg.creditAmount);
      var maxCredit := ToInt64(cfg.maxCredit);
      faucetOptions[i] := Coin(creditAmount, maxCredit, coins[i]);
    }

    var opts := faucetOptions[..] + [Account(cfg.keyName, cfg.keyMnemonic, cfg.coinType)];
    opts := opts + [FeeAmount(ToInt64(cfg.feeAmount), coins[0])];
    return Ok(Compiled(cfg.appCli, ccoptions, opts, cfg.port));
  }

  /** The coin options reproduce the denomination list here too, and the
      fee is paid in the first coin's denomination. */
  lemma LegacyDenomsRoundTrip(opts: seq<FaucetOption>, cfg: LegacyConfig)
    requires IsLegacyFaucetOptions(opts, cfg)
    ensures CoinDenoms(opts) == Split(cfg.defaultDenoms, DenomSeparator)
    ensures Join(CoinDenoms(opts), DenomSeparator) == cfg.defaultDenoms
    ensures opts[|opts| - 1] == FeeAmount(ToInt64(cfg.feeAmount), CoinDenoms(opts)[0])
  {
    var coins := Split(cfg.defaultDenoms, DenomSeparator);
    LegacyCoinDenoms(opts, cfg);
    JoinSplit(cfg.defaultDenoms, DenomSeparator);
    assert opts[|opts| - 1] == opts[|coins| + 1];
  }

  lemma LegacyCoinDenoms(opts: seq<FaucetOption>, cfg: LegacyConfig)
    requires IsLegacyFaucetOptions(opts, cfg)
    ensures CoinDenoms(opts) == Split(cfg.defaultDenoms, DenomSeparator)
  {
    var coins := Split(cfg.defaultDenoms, DenomSeparator);
    forall i | 0 <= i < |coins| ensures opts[i].Coin? && opts[i].denom == coins[i] {
      assert opts[i] == Coin(ToInt64(cfg.creditAmount), ToInt64(cfg.maxCredit), coins[i]);
    }
    assert !opts[|coins|].Coin? && !opts[|coins| + 1].Coin?;
    CoinDenomsOfCoinRun(opts, 0, coins);
  }

  /** An amount above 2^63 - 1 reaches the faucet as a negative number. */
  lemma LargeAmountsWrap(opts: seq<FaucetOption>, cfg: LegacyConfig)
    requires IsLegacyFaucetOptions(opts, cfg)
    requires cfg.creditAmount > 0x7FFF_FFFF_FFFF_FFFF
    ensures opts[0].Coin? && opts[0].amount < 0
    ensures opts[0].amount == cfg.creditAmount - 0x1_0000_0000_0000_0000
  {
  }

  /** The settings the two variants share, under their two sets of names. */
  predicate SameSettings(newCfg: Faucet.Config, cfg: LegacyConfig)
  {
    && newCfg.denoms == cfg.defaultDenoms && newCfg.home == cfg.home && newCfg.node == cfg.nodeAddress
    && newCfg.keyringPassword == cfg.keyringPassword
    && newCfg.accountName == cfg.keyName && newCfg.mnemonic == cfg.keyMnemonic && newCfg.coinType == cfg.coinType
    && newCfg.creditAmount == cfg.creditAmount && newCfg.maxCredit == cfg.maxCredit
    && newCfg.feeAmount == cfg.feeAmount
  }

  /** With the same settings, amounts that fit in `int64`, and the latest
      SDK version requested of the newer handler, the two variants pass
      the same options, only reordered, except that the older one has no
      faucet version option. */
  lemma VariantsAgree(
    newCfg: Faucet.Config, newRunner: seq<RunnerOption>, newFaucet: seq<FaucetOption>,
    cfg: LegacyConfig, oldRunner: seq<RunnerOption>, oldFaucet: seq<FaucetOption>,
    backend: KeyringBackend, latest: SdkVersion)
    requires SameSettings(newCfg, cfg)
    requires Faucet.IsRunnerOptions(newRunner, newCfg, backend, latest)
    requires Faucet.IsFaucetOptions(newFaucet, newCfg, latest)
    requires IsLegacyRunnerOptions(oldRunner, cfg, backend, latest)
    requires IsLegacyFaucetOptions(oldFaucet, cfg)
    ensures oldFaucet == newFaucet[3..] + [newFaucet[1], newFaucet[2]]
    ensures multiset(oldRunner) == multiset(newRunner)
  {
    FaucetOptionsAgree(newCfg, newFaucet, cfg, oldFaucet, latest);
    RunnerOptionsAgree(newCfg, newRunner, cfg, oldRunner, backend, latest);
  }

  /** The older faucet options are the newer ones without the version
      option, with the coins moved to the front. */
  lemma FaucetOptionsAgree(
    newCfg: Faucet.Config, newFaucet: seq<FaucetOption>,
    cfg: LegacyConfig, oldFaucet: seq<FaucetOption>, latest: SdkVersion)
    requires SameSettings(newCfg, cfg)
    requires Faucet.IsFaucetOptions(newFaucet, newCfg, latest)
    requires IsLegacyFaucetOptions(oldFaucet, cfg)
    ensures oldFaucet == newFaucet[3..] + [newFaucet[1], newFaucet[2]]
  {
    assert ToInt64(cfg.creditAmount) == newCfg.creditAmount;
    assert ToInt64(cfg.maxCredit) == newCfg.maxCredit;
    assert ToInt64(cfg.feeAmount) == newCfg.feeAmount;
    var coins := Split(cfg.defaultDenoms, DenomSeparator);
    var reordered := newFaucet[3..] + [newFaucet[1], newFaucet[2]];
    assert |reordered| == |oldFaucet|;
    forall i | 0 <= i < |coins| ensures oldFaucet[i] == reordered[i] {
      assert reordered[i] == newFaucet[i + 3];
    }
  }

  /** The older runner options are the newer ones, with the home override
      and the SDK version swapped when a home is given. */
  lemma RunnerOptionsAgree(
    newCfg: Faucet.Config, newRunner: seq<RunnerOption>,
    cfg: LegacyConfig, oldRunner: seq<RunnerOption>,
    backend: KeyringBackend, latest: SdkVersion)
    requires SameSettings(newCfg, cfg)
    requires Faucet.IsRunnerOptions(newRunner, newCfg, backend, latest)
    requires IsLegacyRunnerOptions(oldRunner, cfg, backend, latest)
    ensures cfg.home == "" ==> oldRunner == newRunner
    ensures cfg.home != "" ==> oldRunner == newRunner[..4] + [newRunner[5], newRunner[4]]
    ensures multiset(oldRunner) == multiset(newRunner)
  {
    if cfg.home != "" {
      assert oldRunner == newRunner[..4] + [newRunner[5], newRunner[4]];
      assert newRunner == newRunner[..4] + [newRunner[4], newRunner[5]];
    }
  }
}
