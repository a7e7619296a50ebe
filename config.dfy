/** The environment variables and clock readings the modelled code consults. */
module Config {
  import opened Wrappers
  import opened Text

  /** `process.env`: each variable may be unset. */
  datatype Env = Env(
    blockchainNetwork: Option<string>,
    blockchainExplorerUrl: Option<string>,
    nextAuthUrl: Option<string>,
    useRealBlockchain: Option<string>,
    polygonContractAddress: Option<string>,
    polygonPrivateKey: Option<string>,
    polygonRpcUrl: Option<string>)

  /** One reading of the clock: `Date.now()` and `new Date().toISOString()` of the same instant. */
  datatype Clock = Clock(ms: nat, iso: string)

  const DefaultNetwork := "grain-trust-testnet"
  const DefaultExplorerUrl := "https://explorer.graintrust.io"
  const DefaultBaseUrl := "http://localhost:3005"

  /** `process.env.BLOCKCHAIN_NETWORK || 'grain-trust-testnet'`. */
  function Network(env: Env): (n: string)
    ensures Truthy(env.blockchainNetwork) ==> n == env.blockchainNetwork.value
    ensures !Truthy(env.blockchainNetwork) ==> n == DefaultNetwork
  {
    OrElse(env.blockchainNetwork, DefaultNetwork)
  }

  /** `process.env.BLOCKCHAIN_EXPLORER_URL || 'https://explorer.graintrust.io'`. */
  function ExplorerUrl(env: Env): (u: string)
    ensures Truthy(env.blockchainExplorerUrl) ==> u == env.blockchainExplorerUrl.value
    ensures !Truthy(env.blockchainExplorerUrl) ==> u == DefaultExplorerUrl
  {
    OrElse(env.blockchainExplorerUrl, DefaultExplorerUrl)
  }

  /** `process.env.NEXTAUTH_URL || 'http://localhost:3005'`. */
  function BaseUrl(env: Env): (u: string)
    ensures Truthy(env.nextAuthUrl) ==> u == env.nextAuthUrl.value
    ensures !Truthy(env.nextAuthUrl) ==> u == DefaultBaseUrl
  {
    OrElse(env.nextAuthUrl, DefaultBaseUrl)
  }

  /** `process.env.USE_REAL_BLOCKCHAIN === 'true'`. */
  predicate UseRealBlockchain(env: Env) {
    env.useRealBlockchain == Some("true")
  }
}
