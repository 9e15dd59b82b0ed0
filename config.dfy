/**
 * Application configuration (src/config.rs): merging an environment-specific
 * configuration over the defaults, validating the result, and looking up the
 * configured tokens.
 */
module AppConfig {
  import opened Wrappers

  /** `u16`. */
  type Port = x: int | 0 <= x < 0x1_0000

  datatype ServerConfig = ServerConfig(host: string, port: Port, workers: Option<nat>)

  datatype TokenConfig = TokenConfig(symbol: string, basePrice: real, volatility: real)

  datatype TokensConfig = TokensConfig(supportedTokens: seq<TokenConfig>)

  datatype LoggingConfig = LoggingConfig(level: string, fileOutput: bool)

  datatype PerformanceConfig = PerformanceConfig(
    workerThreads: nat,
    websocketHeartbeatInterval: nat,
    clientTimeout: nat,
    klineRetentionHours: nat,
    maxWebsocketConnections: nat)

  datatype DataGenerationConfig = DataGenerationConfig(
    enabled: bool,
    intervalMs: nat,
    volatility: real,
    volumeRange: (real, real))

  datatype Config = Config(
    server: ServerConfig,
    tokens: TokensConfig,
    logging: LoggingConfig,
    performance: PerformanceConfig,
    dataGeneration: DataGenerationConfig)

  const PortMessage := "Server port must be greater than 0"
  const VolatilityMessage := "Volatility must be between 0.0 and 1.0"
  const VolumeRangeMessage := "Volume range minimum must be less than maximum"

  /**
   * `merge_with`: `other` takes precedence. Host and port always come from
   * `other`; workers only when `other` sets them; the token list only when
   * `other`'s is non-empty; logging, performance and data generation always.
   * Everything `validate` looks at therefore comes from `other`.
   */
  method MergeWith(base: Config, other: Config) returns (merged: Config)
    ensures merged.server.host == other.server.host
    ensures merged.server.port == other.server.port
    ensures merged.server.workers == if other.server.workers.Some? then other.server.workers else base.server.workers
    ensures merged.tokens == if other.tokens.supportedTokens != [] then other.tokens else base.tokens
    ensures merged.logging == other.logging
    ensures merged.performance == other.performance
    ensures merged.dataGeneration == other.dataGeneration
    ensures Validate(merged) == Validate(other)
  {
    merged := base;
    if other.server.host != merged.server.host {
      merged := merged.(server := merged.server.(host := other.server.host));
    }
    if other.server.port != merged.server.port {
      merged := merged.(server := merged.server.(port := other.server.port));
    }
    if other.server.workers.Some? {
      merged := merged.(server := merged.server.(workers := other.server.workers));
    }
    if other.tokens.supportedTokens != [] {
      merged := merged.(tokens := other.tokens);
    }
    merged := merged.(logging := other.logging);
    merged := merged.(performance := other.performance);
    merged := merged.(dataGeneration := other.dataGeneration);
  }

  /**
   * `validate`: the port must be non-zero, the generation volatility within
   * [0, 1], and the volume range's minimum below its maximum; the first check
   * that fails gives the error.
   */
  function Validate(c: Config): (r: Result<(), string>)
    ensures r.Err? <==>
      c.server.port == 0
      || c.dataGeneration.volatility < 0.0 || c.dataGeneration.volatility > 1.0
      || c.dataGeneration.volumeRange.0 >= c.dataGeneration.volumeRange.1
    ensures c.server.port == 0 ==> r == Err(PortMessage)
    ensures c.server.port != 0 && !(0.0 <= c.dataGeneration.volatility <= 1.0) ==> r == Err(VolatilityMessage)
    ensures (c.server.port != 0 && 0.0 <= c.dataGeneration.volatility <= 1.0
             && c.dataGeneration.volumeRange.0 >= c.dataGeneration.volumeRange.1) ==> r == Err(VolumeRangeMessage)
  {
    if c.server.port == 0 then Err(PortMessage)
    else if c.dataGeneration.volatility < 0.0 || c.dataGeneration.volatility > 1.0 then Err(VolatilityMessage)
    else if c.dataGeneration.volumeRange.0 >= c.dataGeneration.volumeRange.1 then Err(VolumeRangeMessage)
    else Ok(())
  }

  /** The symbols of a token list, in order. */
  function Symbols(tokens: seq<TokenConfig>): (symbols: seq<string>)
    ensures |symbols| == |tokens|
    ensures forall i :: 0 <= i < |tokens| ==> symbols[i] == tokens[i].symbol
  {
    if tokens == [] then [] else [tokens[0].symbol] + Symbols(tokens[1..])
  }

  /** `get_supported_tokens`: the configured symbols, in configured order. */
  function GetSupportedTokens(c: Config): (symbols: seq<string>)
    ensures |symbols| == |c.tokens.supportedTokens|
    ensures forall i :: 0 <= i < |symbols| ==> symbols[i] == c.tokens.supportedTokens[i].symbol
  {
    Symbols(c.tokens.supportedTokens)
  }

  /** The first entry of a token list with the given symbol. */
  function Find(tokens: seq<TokenConfig>, symbol: string): (r: Option<TokenConfig>)
    ensures r.None? <==> forall i :: 0 <= i < |tokens| ==> tokens[i].symbol != symbol
    ensures r.Some? ==> exists i :: 0 <= i < |tokens| && tokens[i] == r.value && r.value.symbol == symbol &&
                                    (forall j :: 0 <= j < i ==> tokens[j].symbol != symbol)
  {
    if tokens == [] then None
    else if tokens[0].symbol == symbol then Some(tokens[0])
    else
      var rest := Find(tokens[1..], symbol);
      assert forall i :: 0 < i < |tokens| ==> tokens[i] == tokens[1..][i - 1];
      if rest.Some? then
        ghost var i :| 0 <= i < |tokens[1..]| && tokens[1..][i] == rest.value && rest.value.symbol == symbol &&
          forall j :: 0 <= j < i ==> tokens[1..][j].symbol != symbol;
        assert tokens[i + 1] == rest.value;
        rest
      else rest
  }

  /** `get_token_info`: the first configured token with that symbol, if any. */
  function GetTokenInfo(c: Config, symbol: string): (r: Option<TokenConfig>)
    ensures r.None? <==> symbol !in GetSupportedTokens(c)
    ensures r.Some? ==> exists i :: 0 <= i < |c.tokens.supportedTokens| &&
                                    c.tokens.supportedTokens[i] == r.value && r.value.symbol == symbol &&
                                    (forall j :: 0 <= j < i ==> c.tokens.supportedTokens[j].symbol != symbol)
  {
    var r := Find(c.tokens.supportedTokens, symbol);
    var symbols := GetSupportedTokens(c);
    assert symbol in symbols ==> exists i :: 0 <= i < |symbols| && symbols[i] == symbol;
    r
  }

  /** `Config::default()`. */
  function DefaultConfig(): Config
  {
    Config(
      ServerConfig("127.0.0.1", 8080, None),
      TokensConfig([
        TokenConfig("DOGE", 0.15, 5.0),
        TokenConfig("SHIB", 0.00005, 8.0),
        TokenConfig("PEPE", 0.000008, 10.0)]),
      LoggingConfig("info", false),
      PerformanceConfig(4, 5, 10, 24, 1000),
      DataGenerationConfig(true, 100, 0.02, (100.0, 1000.0)))
  }

  /**
   * The default configuration passes validation; with port 0 it fails with the
   * port message.
   */
  lemma DefaultValidates()
    ensures Validate(DefaultConfig()) == Ok(())
    ensures var c := DefaultConfig(); Validate(c.(server := c.server.(port := 0))) == Err(PortMessage)
  {
  }

  /** The default tokens are DOGE, SHIB and PEPE, in that order, and DOGE's base price is 0.15. */
  lemma DefaultTokens()
    ensures GetSupportedTokens(DefaultConfig()) == ["DOGE", "SHIB", "PEPE"]
    ensures GetTokenInfo(DefaultConfig(), "DOGE") == Some(TokenConfig("DOGE", 0.15, 5.0))
  {
    var c := DefaultConfig();
    var symbols := GetSupportedTokens(c);
    assert symbols[0] == "DOGE" && symbols[1] == "SHIB" && symbols[2] == "PEPE";
    assert Find(c.tokens.supportedTokens, "DOGE") == Some(TokenConfig("DOGE", 0.15, 5.0));
  }
}
