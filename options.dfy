/** The options the faucet hands to its two external collaborators, as tags:
    the `chaincmd.With*` runner options and the `cosmosfaucet` options. The
    keyring backend and the SDK version are values those libraries parse;
    here they are opaque. */
module Options {
  /** A keyring backend the chain-command library recognised. */
  datatype KeyringBackend = KeyringBackend(name: string)

  /** A Cosmos SDK version the version library parsed. */
  datatype SdkVersion = SdkVersion(text: string)

  datatype RunnerOption =
    | WithKeyringPassword(password: string)
    | WithKeyringBackend(backend: KeyringBackend)
    | WithAutoChainIdDetection
    | WithNodeAddress(address: string)
    | WithVersion(version: SdkVersion)
    | WithHome(home: string)

  /** `cosmosfaucet.Version`, `Account`, `FeeAmount` and `Coin`; amounts are
      exact integers, as `sdkmath.Int` is. */
  datatype FaucetOption =
    | FaucetVersion(version: SdkVersion)
    | Account(name: string, mnemonic: string, coinType: string)
    | FeeAmount(amount: int, denom: string)
    | Coin(amount: int, maxAmount: int, denom: string)

  /** The separator of the denomination list. */
  const DenomSeparator := ','

  /** What starting the faucet hands to the runner and faucet factories and
      to the listener. */
  datatype Compiled = Compiled(
    cliName: string,
    runnerOptions: seq<RunnerOption>,
    faucetOptions: seq<FaucetOption>,
    port: int)

  /** The denominations of the `Coin` options, in order. */
  function CoinDenoms(opts: seq<FaucetOption>): seq<string>
  {
    if opts == [] then []
    else (if opts[0].Coin? then [opts[0].denom] else []) + CoinDenoms(opts[1..])
  }

  /** Options of which exactly those at `k` up to `k + |denoms|` are coins,
      the one at `i` on `denoms[i - k]`, name exactly `denoms` as coin
      denominations. */
  lemma {:induction false} CoinDenomsOfCoinRun(opts: seq<FaucetOption>, k: nat, denoms: seq<string>)
    requires k + |denoms| <= |opts|
    requires forall i :: 0 <= i < |opts| && !(k <= i < k + |denoms|) ==> !opts[i].Coin?
    requires forall i :: k <= i < k + |denoms| ==> opts[i].Coin? && opts[i].denom == denoms[i - k]
    ensures CoinDenoms(opts) == denoms
    decreases |opts|
  {
    if opts != [] {
      var tail := opts[1..];
      assert forall i :: 0 <= i < |tail| ==> tail[i] == opts[i + 1];
      if k > 0 {
        CoinDenomsOfCoinRun(tail, k - 1, denoms);
      } else if denoms == [] {
        CoinDenomsOfCoinRun(tail, 0, denoms);
      } else {
        CoinDenomsOfCoinRun(tail, 0, denoms[1..]);
        assert [denoms[0]] + denoms[1..] == denoms;
      }
    }
  }
}
