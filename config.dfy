/**
 * The agent's configuration as read from its process environment: contract
 * addresses with fallbacks, boolean switches choosing which pipeline branch
 * runs, numeric settings with defaults, and the table of crop names.
 */
module Config {
  import opened Text

  /** The process environment after `.env` loading: variable name to value. */
  type ProcessEnv = map<string, string>

  /** `process.env[name] || fallback`: the variable when it is set to a non-empty value, else the fallback. */
  function EnvOr(env: ProcessEnv, name: string, fallback: string): (r: string)
    ensures name in env && env[name] != "" ==> r == env[name]
    ensures !(name in env && env[name] != "") ==> r == fallback
  {
    if name in env && env[name] != "" then env[name] else fallback
  }

  /** `/^true$/i.test(v)`: the whole value is "true" in any mix of upper and lower case. */
  predicate IsTrueFlag(v: string) {
    ToLower(v) == "true"
  }

  /** The anchors admit nothing around the word: a matching value has exactly four characters. */
  lemma TrueFlagIsExact(v: string)
    ensures IsTrueFlag(v) ==> |v| == 4
    ensures IsTrueFlag("TRUE") && IsTrueFlag("True") && IsTrueFlag("true")
    ensures !IsTrueFlag("true ") && !IsTrueFlag("yes") && !IsTrueFlag("1") && !IsTrueFlag("")
  {
    assert ToLower("TRUE") == "true";
    assert ToLower("True") == "true";
    assert ToLower("true") == "true";
  }

  /** A JavaScript `Number(...)` of a configuration value: a natural, or a text this model does not convert. */
  datatype Number = Int(value: nat) | Unparsed(text: string)

  /** `Number(s)` for a string of decimal digits; any other text is left unconverted. */
  function ParseNumber(s: string): (n: Number)
    ensures IsDecimal(s) ==> n == Int(DecimalValue(s))
    ensures !IsDecimal(s) ==> n == Unparsed(s)
  {
    if IsDecimal(s) then Int(DecimalValue(s)) else Unparsed(s)
  }

  /** `Number(process.env[name] || fallback)` with a numeric fallback. */
  function EnvNumberOr(env: ProcessEnv, name: string, fallback: nat): (n: Number)
    ensures !(name in env && env[name] != "") ==> n == Int(fallback)
    ensures name in env && env[name] != "" ==> n == ParseNumber(env[name])
  {
    if name in env && env[name] != "" then ParseNumber(env[name]) else Int(fallback)
  }

  datatype ChainConfig = ChainConfig(name: string, chainId: nat, rpcUrl: string)

  const DefaultRpc: string := "https://sepolia.infura.io/v3/YOUR_KEY"
  const SepoliaChainId: nat := 11155111

  function LoadChainConfig(env: ProcessEnv): (c: ChainConfig)
    ensures c.name == "sepolia" && c.chainId == SepoliaChainId
    ensures c.rpcUrl == EnvOr(env, "SEPOLIA_RPC_URL", DefaultRpc)
  {
    ChainConfig("sepolia", SepoliaChainId, EnvOr(env, "SEPOLIA_RPC_URL", DefaultRpc))
  }

  datatype ContractAddresses = ContractAddresses(
    farmerRegistry: string,
    weatherOracle: string,
    eligibilityEngine: string,
    subsidyDistributor: string)

  const FallbackFarmerRegistry: string := "0x022fFe571Dd0d4886a0661eB5d98465F477f7422"
  const FallbackWeatherOracle: string := "0xB5746a9441CbA4E0011C1f191Dc68AF8549b5250"
  const FallbackEligibilityEngine: string := "0x3f7CB167B7Bbe639053c16286dD2C2B0f86F4D81"
  const FallbackSubsidyDistributor: string := "0x9b003ee4E761355c716867089afb6373f23B8fc0"

  /** Each address is its environment variable when that is non-empty, else the deployed fallback. */
  function LoadContractAddresses(env: ProcessEnv): (a: ContractAddresses)
    ensures a.farmerRegistry == EnvOr(env, "FARMER_REGISTRY_ADDRESS", FallbackFarmerRegistry)
    ensures a.weatherOracle == EnvOr(env, "WEATHER_ORACLE_ADDRESS", FallbackWeatherOracle)
    ensures a.eligibilityEngine == EnvOr(env, "ELIGIBILITY_ENGINE_ADDRESS", FallbackEligibilityEngine)
    ensures a.subsidyDistributor == EnvOr(env, "SUBSIDY_DISTRIBUTOR_ADDRESS", FallbackSubsidyDistributor)
  {
    ContractAddresses(
      EnvOr(env, "FARMER_REGISTRY_ADDRESS", FallbackFarmerRegistry),
      EnvOr(env, "WEATHER_ORACLE_ADDRESS", FallbackWeatherOracle),
      EnvOr(env, "ELIGIBILITY_ENGINE_ADDRESS", FallbackEligibilityEngine),
      EnvOr(env, "SUBSIDY_DISTRIBUTOR_ADDRESS", FallbackSubsidyDistributor))
  }

  /** With no address variables set, the four deployed fallbacks are used. */
  lemma UnsetAddressesFallBack(env: ProcessEnv)
    requires "FARMER_REGISTRY_ADDRESS" !in env && "WEATHER_ORACLE_ADDRESS" !in env
    requires "ELIGIBILITY_ENGINE_ADDRESS" !in env && "SUBSIDY_DISTRIBUTOR_ADDRESS" !in env
    ensures LoadContractAddresses(env) == ContractAddresses(
      FallbackFarmerRegistry, FallbackWeatherOracle, FallbackEligibilityEngine, FallbackSubsidyDistributor)
  {
  }

  datatype RuntimeConfig = RuntimeConfig(
    defaultSchemeId: string,
    pollIntervalMs: Number,
    port: Number,
    autoExecuteTx: bool,
    autoPayments: bool,
    groqApiKey: string,
    agentPrivateKey: string)
  {
    /** A signing wallet exists exactly when a private key is configured. */
    predicate HasSigner() { agentPrivateKey != "" }
    /** The summarizer client exists exactly when an API key is configured. */
    predicate HasGroq() { groqApiKey != "" }
    /** Eligibility decisions are written on-chain (otherwise they are simulated). */
    predicate WritesEligibility() { autoExecuteTx && HasSigner() }
    /** Payments are executed on-chain (otherwise they are simulated). */
    predicate ExecutesPayments() { autoPayments && HasSigner() }
  }

  /**
   * The runtime settings: the two switches are on exactly when their variable
   * reads "true" in any case; every other setting is its variable when that
   * is set and non-empty, else its default.
   */
  function LoadRuntimeConfig(env: ProcessEnv): (c: RuntimeConfig)
    ensures c.autoExecuteTx <==> "AUTO_EXECUTE_TX" in env && ToLower(env["AUTO_EXECUTE_TX"]) == "true"
    ensures c.autoPayments <==> "AUTO_PAYMENTS" in env && ToLower(env["AUTO_PAYMENTS"]) == "true"
    ensures "DEFAULT_SCHEME_ID" !in env ==> c.defaultSchemeId == "scheme-001"
    ensures "POLL_INTERVAL_MS" !in env ==> c.pollIntervalMs == Int(15000)
    ensures "PORT" !in env ==> c.port == Int(4001)
    ensures c.defaultSchemeId == EnvOr(env, "DEFAULT_SCHEME_ID", "scheme-001")
    ensures c.pollIntervalMs == EnvNumberOr(env, "POLL_INTERVAL_MS", 15000)
    ensures c.port == EnvNumberOr(env, "PORT", 4001)
    ensures c.groqApiKey == EnvOr(env, "GROQ_API_KEY", "")
    ensures c.agentPrivateKey == EnvOr(env, "AGENT_PRIVATE_KEY", "")
    ensures c.HasSigner() <==> "AGENT_PRIVATE_KEY" in env && env["AGENT_PRIVATE_KEY"] != ""
    ensures c.HasGroq() <==> "GROQ_API_KEY" in env && env["GROQ_API_KEY"] != ""
  {
    var execTx := EnvOr(env, "AUTO_EXECUTE_TX", "false");
    var pay := EnvOr(env, "AUTO_PAYMENTS", "false");
    assert ToLower("false") != "true" by { assert ToLower("false")[0] == 'f'; }
    RuntimeConfig(
      EnvOr(env, "DEFAULT_SCHEME_ID", "scheme-001"),
      EnvNumberOr(env, "POLL_INTERVAL_MS", 15000),
      EnvNumberOr(env, "PORT", 4001),
      IsTrueFlag(execTx),
      IsTrueFlag(pay),
      EnvOr(env, "GROQ_API_KEY", ""),
      EnvOr(env, "AGENT_PRIVATE_KEY", ""))
  }

  /** With an empty environment the agent neither writes decisions nor pays: both branches simulate. */
  lemma EmptyEnvironmentSimulates()
    ensures !LoadRuntimeConfig(map[]).WritesEligibility()
    ensures !LoadRuntimeConfig(map[]).ExecutesPayments()
    ensures !LoadRuntimeConfig(map[]).HasGroq()
  {
  }

  const CropTypes: seq<string> := ["RICE", "WHEAT", "CORN", "SUGARCANE", "COTTON", "SOYBEAN", "OTHER"]

  /** `cropTypes[index] || "UNKNOWN"`: the crop's name, or UNKNOWN outside the table. */
  function CropName(index: int): (r: string)
    ensures 0 <= index < |CropTypes| ==> r == CropTypes[index]
    ensures !(0 <= index < |CropTypes|) ==> r == "UNKNOWN"
    ensures r in CropTypes || r == "UNKNOWN"
  {
    if 0 <= index < |CropTypes| && CropTypes[index] != "" then CropTypes[index] else "UNKNOWN"
  }

  /** The table has seven entries and UNKNOWN is not one of them, so CropName tells the two cases apart. */
  lemma CropNameKnownIffInRange(index: int)
    ensures |CropTypes| == 7
    ensures CropName(index) != "UNKNOWN" <==> 0 <= index < 7
  {
  }
}
