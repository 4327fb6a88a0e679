/**
 * The application configuration the manager reads: a default gateway name
 * and one entry per configured gateway, each naming a driver and the options
 * to apply to its instances.
 */
module OmnipayConfig {
  import opened Wrappers

  /** A configuration or call argument value. */
  datatype Value = Null | Bool(b: bool) | Int(i: int) | Str(s: string)

  /** One gateway entry: the driver the factory instantiates and its options, in array order. */
  datatype GatewayConfig = GatewayConfig(driver: string, options: seq<(string, Value)>)

  /**
   * The configuration repository, reduced to what the manager reads:
   * `entries` maps a full dotted key to the gateway entry stored under it,
   * `default` is the value of `omnipay.default`.
   */
  datatype Repository = Repository(entries: map<string, GatewayConfig>, default: Option<string>)

  /**
   * The key `getConfig` looks up. The key is written in single quotes, so PHP
   * does not interpolate `$name`: the same literal text is used for every
   * gateway name.
   */
  function GatewayKey(name: string): string {
    "omnipay.gateways.{$name}"
  }

  /** The configured entry for a gateway, or null when there is none. */
  function GetConfig(repo: Repository, name: string): Option<GatewayConfig> {
    var key := GatewayKey(name);
    if key in repo.entries then Some(repo.entries[key]) else None
  }

  /** The configured default gateway name, possibly null. */
  function GetDefault(repo: Repository): Option<string> {
    repo.default
  }

  /** Every gateway name reads the one entry stored under the literal key. */
  lemma GetConfigIgnoresName(repo: Repository, a: string, b: string)
    ensures GetConfig(repo, a) == GetConfig(repo, b)
    ensures GetConfig(repo, a).Some? <==> "omnipay.gateways.{$name}" in repo.entries
  {
  }

  /**
   * An entry stored under the key with the name really interpolated is not
   * found: adding it leaves the gateway unconfigured.
   */
  lemma InterpolatedEntryIgnored(repo: Repository, name: string, entry: GatewayConfig)
    requires "omnipay.gateways.{$name}" !in repo.entries
    requires name != "{$name}"
    ensures GetConfig(repo.(entries := repo.entries["omnipay.gateways." + name := entry]), name) == None
  {
    var interpolated := "omnipay.gateways." + name;
    assert interpolated[17..] == name;
    assert GatewayKey(name)[17..] == "{$name}";
  }
}
