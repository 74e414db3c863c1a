/** Read-only settings of the proxy, established at start-up and shared by every request. */
module ProxyConfig {

  /** Longest hostname (name + "." + domain) that the container daemon accepts. */
  const MaxDockerHostname: nat := 64

  /** The wrapper command: never empty, because its first token is the idempotence marker. */
  type Tokens = s: seq<string> | |s| > 0 witness [""]

  /** The settings the create-container interceptor consults.
      `hostnameRewrite` is the configured regular-expression replace-all (pattern and
      replacement fixed at start-up), kept uninterpreted. */
  datatype Config = Config(
    weaveWaitVolume: string,
    weaveWaitEntrypoint: Tokens,
    hostnameFromLabel: string,
    hostnameRewrite: string -> string,
    withDNS: bool,
    withoutDNS: bool,
    dockerBridgeIP: string)
}
