/** The parsed configuration, src/config.rs. */
module Config {
  import opened Basics
  import opened Net
  import opened Router

  datatype SecurityConfig = SecurityConfig(
    proxyProtocol: bool, trustedUpstream: IpAddr, timeoutMs: nat, maxTlsFailures: nat, banDurationSec: nat,
    rateLimitRpm: nat, forwardAuth: Option<string>, maxBodySize: nat, maxHeaderSize: nat)

  datatype CacheConfig = CacheConfig(
    enabled: bool, maxCapacityBytes: nat, maxFileSizeBytes: nat, defaultTtlSec: nat)

  datatype ProxyConfig = ProxyConfig(
    listenPort: nat, routes: seq<Route>, workers: nat, logfile: Option<string>,
    security: Option<SecurityConfig>, cache: Option<CacheConfig>, interceptErrors: Option<bool>)
}
