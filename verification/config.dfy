/** Process-wide collector configuration: host and port taken from the
    environment with `||` defaults, fixed once at startup. */
module Config {
  import opened Js

  const DefaultHost := "localhost"
  const DefaultPort := "44444"

  datatype FlumeConfig = FlumeConfig(host: string, port: string)

  /** `process.env.FLUME_HOST || 'localhost'` and
      `process.env.FLUME_PORT || '44444'`; an unset variable is `None`. */
  function LoadConfig(hostEnv: Option<string>, portEnv: Option<string>): (cfg: FlumeConfig)
    ensures cfg.host != "" && cfg.port != ""
    ensures hostEnv.None? || hostEnv == Some("") ==> cfg.host == DefaultHost
    ensures portEnv.None? || portEnv == Some("") ==> cfg.port == DefaultPort
    ensures hostEnv.Some? && hostEnv.value != "" ==> cfg.host == hostEnv.value
    ensures portEnv.Some? && portEnv.value != "" ==> cfg.port == portEnv.value
  {
    FlumeConfig(StringOr(hostEnv, DefaultHost), StringOr(portEnv, DefaultPort))
  }

  /** Position of the last occurrence of `c` in `s`. */
  function LastIndexOf(s: string, c: char): (r: Option<nat>)
    ensures r.None? <==> c !in s
    ensures r.Some? ==> r.value < |s| && s[r.value] == c && c !in s[r.value + 1..]
    decreases |s|
  {
    if s == [] then None
    else if s[|s| - 1] == c then Some(|s| - 1)
    else
      var r := LastIndexOf(s[..|s| - 1], c);
      assert r.Some? ==> s[r.value + 1..] == s[..|s| - 1][r.value + 1..] + [s[|s| - 1]];
      assert s == s[..|s| - 1] + [s[|s| - 1]];
      r
  }

  /** Splits an address at its last colon into host and port. */
  function SplitAddress(a: string): Option<(string, string)> {
    match LastIndexOf(a, ':')
    case None => None
    case Some(i) => Some((a[..i], a[i + 1..]))
  }

  /** The `host:port` text reported by the health endpoint and used in the
      collector URL. A port without a colon can be read back from it. */
  function AgentAddress(cfg: FlumeConfig): (a: string)
    ensures |a| == |cfg.host| + 1 + |cfg.port|
    ensures a[..|cfg.host|] == cfg.host && a[|cfg.host|] == ':' && a[|cfg.host| + 1..] == cfg.port
    ensures ':' !in cfg.port ==> SplitAddress(a) == Some((cfg.host, cfg.port))
  {
    var a := cfg.host + ":" + cfg.port;
    assert a[|cfg.host|] == ':';
    assert a[|cfg.host| + 1..] == cfg.port;
    assert a[..|cfg.host|] == cfg.host;
    a
  }

  /** The URL the single outbound POST goes to. */
  function CollectorUrl(cfg: FlumeConfig): string {
    "http://" + AgentAddress(cfg)
  }
}
