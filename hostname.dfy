/** The hostname resolver: the container's name from the request, optionally overridden by a
    label, passed through the configured rewrite. */
module Hostname {
  import opened ProxyConfig
  import opened Document

  /** The candidate hostname after the label override: the label's value when the label is
      present and not null, `hostname` when it is absent or null. A label that is not a string
      is a wrong-type error naming the label, and so is a Labels field that is not an object. */
  function HostnameFromLabel(cfg: Config, hostname: string, d: Doc): Result<string>
  {
    match LookupObject(d, "Labels")
    case Err(e) => Err(e)
    case Ok(labels) =>
      var key := cfg.hostnameFromLabel;
      if key !in labels || labels[key].JNull? then Ok(hostname)
      else if labels[key].JStr? then Ok(labels[key].s)
      else Err(WrongType(key, "string", labels[key]))
  }

  /** The hostname derived for the container from `name`, the request's `name` query value. */
  function ContainerHostname(cfg: Config, name: string, d: Doc): Result<string>
  {
    if cfg.hostnameFromLabel == "" then Ok(cfg.hostnameRewrite(name))
    else
      match HostnameFromLabel(cfg, name, d)
      case Err(e) => Err(e)
      case Ok(candidate) => Ok(cfg.hostnameRewrite(candidate))
  }

  /** Without a configured label key the body is not consulted at all: the hostname is the
      rewritten query name, even when Labels is malformed. */
  lemma HostnameWithoutLabelKey(cfg: Config, name: string, d: Doc)
    requires cfg.hostnameFromLabel == ""
    ensures ContainerHostname(cfg, name, d) == Ok(cfg.hostnameRewrite(name))
  {
  }

  /** With a label key configured: a string label replaces the query name, an absent or null
      label keeps it, a label of another type fails naming the label key, and a Labels field
      that is not an object fails naming Labels. */
  lemma HostnameWithLabelKey(cfg: Config, name: string, d: Doc)
    requires cfg.hostnameFromLabel != ""
    ensures var key := cfg.hostnameFromLabel;
      match LookupObject(d, "Labels")
      case Err(e) => ContainerHostname(cfg, name, d) == Err(WrongType("Labels", "object", d["Labels"]))
      case Ok(labels) =>
        && (key !in labels || labels[key].JNull? ==> ContainerHostname(cfg, name, d) == Ok(cfg.hostnameRewrite(name)))
        && (key in labels && labels[key].JStr? ==> ContainerHostname(cfg, name, d) == Ok(cfg.hostnameRewrite(labels[key].s)))
        && (key in labels && !labels[key].JNull? && !labels[key].JStr? ==>
              ContainerHostname(cfg, name, d) == Err(WrongType(key, "string", labels[key])))
  {
  }
}
