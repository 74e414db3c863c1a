/** The DNS configurator: points the container at the overlay network's DNS server and,
    when a hostname is available and short enough, gives it a hostname in the DNS domain. */
module Dns {
  import opened ProxyConfig
  import opened Document

  /** What probing the network agent gave: its DNS domain (or the default domain) and whether
      the agent answered. */
  datatype DnsFact = DnsFact(domain: string, running: bool)

  /** The domain with one trailing "." removed, if it has one. */
  function TrimDot(s: string): string
  {
    if |s| > 0 && s[|s| - 1] == '.' then s[..|s| - 1] else s
  }

  /** Exactly one trailing dot goes: a domain with a dot added trims back to itself, and a
      domain without a trailing dot is left alone. */
  lemma TrimDotOnce(s: string)
    ensures TrimDot(s + ".") == s
    ensures (|s| == 0 || s[|s| - 1] != '.') ==> TrimDot(s) == s
    ensures |s| > 0 && s[|s| - 1] == '.' ==> TrimDot(s) + "." == s
  {
  }

  /** Whether DNS is configured at all for this request. */
  predicate DnsEnabled(cfg: Config, fact: DnsFact)
  {
    !cfg.withoutDNS && (fact.running || cfg.withDNS)
  }

  /** Whether the configurator gives the container `name` as its hostname: the request has no
      Hostname of its own, the name is non-empty and name + "." + trimmed domain fits. */
  predicate SetsHostname(fact: DnsFact, name: string, d: Doc)
  {
    && LookupString(d, "Hostname") == Ok("")
    && name != ""
    && |name| + 1 + |TrimDot(fact.domain)| <= MaxDockerHostname
  }

  /** What the DNS configurator does to the body for the derived hostname `name`. */
  function DnsStep(cfg: Config, fact: DnsFact, name: string, d: Doc): (Doc, Option<Error>)
  {
    if !DnsEnabled(cfg, fact) then (d, None)
    else
      match LookupObject(d, "HostConfig")
      case Err(e) => (d, Some(e))
      case Ok(hostConfig) =>
        match LookupStringArray(hostConfig, "Dns")
        case Err(e) => (d, Some(e))
        case Ok(dns) =>
          var hostConfig1 := hostConfig["Dns" := StrArr(dns + [cfg.dockerBridgeIP])];
          var d1 := AttachHostConfig(d, hostConfig1);
          match LookupString(d1, "Hostname")
          case Err(e) => (d1, Some(e))
          case Ok(hostname) =>
            var trimmed := TrimDot(fact.domain);
            var setName := hostname == "" && name != "" && |name| + 1 + |trimmed| <= MaxDockerHostname;
            var d2 := if setName then d1["Hostname" := JStr(name)]["Domainname" := JStr(trimmed)] else d1;
            var hostname2 := if setName then name else hostname;
            match LookupStringArray(hostConfig1, "DnsSearch")
            case Err(e) => (d2, Some(e))
            case Ok(dnsSearch) =>
              if |dnsSearch| == 0 then
                var search := if hostname2 == "" then [fact.domain] else ["."];
                (AttachHostConfig(d2, hostConfig1["DnsSearch" := StrArr(search)]), None)
              else (d2, None)
  }

  /** With DNS disabled, or with the agent not running and DNS not forced on, the body is
      left exactly as it was. */
  lemma DnsStepOff(cfg: Config, fact: DnsFact, name: string, d: Doc)
    requires cfg.withoutDNS || (!fact.running && !cfg.withDNS)
    ensures DnsStep(cfg, fact, name, d) == (d, None)
  {
  }

  /** The configurator fails exactly when DNS is on and one of the fields it reads is of the
      wrong type: HostConfig, HostConfig.Dns, Hostname or HostConfig.DnsSearch, and the error
      is that of the first one in this order. A name too long for a hostname is never an
      error: whether and how the step fails does not depend on the name. */
  lemma DnsStepFails(cfg: Config, fact: DnsFact, name: string, other: string, d: Doc)
    ensures var hostConfig := LookupObject(d, "HostConfig");
      var err := DnsStep(cfg, fact, name, d).1;
      && (err.Some? <==>
            && DnsEnabled(cfg, fact)
            && (|| hostConfig.Err?
                || LookupStringArray(hostConfig.value, "Dns").Err?
                || LookupString(d, "Hostname").Err?
                || LookupStringArray(hostConfig.value, "DnsSearch").Err?))
      && (err.Some? && hostConfig.Err? ==> err == Some(hostConfig.error))
      && (err.Some? && hostConfig.Ok? && LookupStringArray(hostConfig.value, "Dns").Ok?
          && LookupString(d, "Hostname").Ok? ==>
            err == Some(LookupStringArray(hostConfig.value, "DnsSearch").error))
      && err == DnsStep(cfg, fact, other, d).1
  {
  }

  /** Whatever the outcome, only HostConfig, Hostname and Domainname of the body can change,
      a HostConfig object stays an object, and inside it only Dns and DnsSearch can change. */
  lemma DnsStepFrame(cfg: Config, fact: DnsFact, name: string, d: Doc)
    ensures var (d', _) := DnsStep(cfg, fact, name, d);
      && SameExcept(d, d', {"HostConfig", "Hostname", "Domainname"})
      && (!("HostConfig" in d && d["HostConfig"].JObj?) ==>
            ("HostConfig" in d <==> "HostConfig" in d') && ("HostConfig" in d ==> d'["HostConfig"] == d["HostConfig"]))
      && ("HostConfig" in d && d["HostConfig"].JObj? ==>
            && "HostConfig" in d' && d'["HostConfig"].JObj?
            && SameExcept(d["HostConfig"].fields, d'["HostConfig"].fields, {"Dns", "DnsSearch"}))
  {
  }

  /** When DNS is on, the bridge address is appended to HostConfig.Dns after every entry the
      client gave, whatever happens afterwards. */
  lemma DnsStepAppendsBridge(cfg: Config, fact: DnsFact, name: string, d: Doc)
    requires DnsEnabled(cfg, fact)
    requires "HostConfig" in d && d["HostConfig"].JObj?
    requires LookupStringArray(d["HostConfig"].fields, "Dns").Ok?
    ensures var (d', _) := DnsStep(cfg, fact, name, d);
      && "HostConfig" in d' && d'["HostConfig"].JObj?
      && LookupStringArray(d'["HostConfig"].fields, "Dns")
         == Ok(LookupStringArray(d["HostConfig"].fields, "Dns").value + [cfg.dockerBridgeIP])
  {
    var dns := LookupStringArray(d["HostConfig"].fields, "Dns").value;
    StringListOfStrArr("Dns", dns + [cfg.dockerBridgeIP]);
  }

  /** On success Hostname and Domainname are set to the name and the trimmed domain exactly
      when SetsHostname holds, and are left as they were otherwise. */
  lemma DnsStepHostname(cfg: Config, fact: DnsFact, name: string, d: Doc)
    requires DnsEnabled(cfg, fact)
    requires DnsStep(cfg, fact, name, d).1.None?
    ensures var (d', _) := DnsStep(cfg, fact, name, d);
      && (SetsHostname(fact, name, d) ==>
            && "Hostname" in d' && d'["Hostname"] == JStr(name)
            && "Domainname" in d' && d'["Domainname"] == JStr(TrimDot(fact.domain)))
      && (!SetsHostname(fact, name, d) ==>
            && ("Hostname" in d <==> "Hostname" in d') && ("Hostname" in d ==> d'["Hostname"] == d["Hostname"])
            && ("Domainname" in d <==> "Domainname" in d') && ("Domainname" in d ==> d'["Domainname"] == d["Domainname"]))
  {
  }

  /** On success a DnsSearch the client left empty becomes `[domain]` (untrimmed) when the
      container still has no hostname and `["."]` when it has one; a non-empty DnsSearch is
      kept. */
  lemma DnsStepSearch(cfg: Config, fact: DnsFact, name: string, d: Doc)
    requires DnsEnabled(cfg, fact)
    requires "HostConfig" in d && d["HostConfig"].JObj?
    requires DnsStep(cfg, fact, name, d).1.None?
    ensures var (d', _) := DnsStep(cfg, fact, name, d);
      var search := LookupStringArray(d["HostConfig"].fields, "DnsSearch");
      && search.Ok?
      && "HostConfig" in d' && d'["HostConfig"].JObj?
      && (|search.value| == 0 ==>
            LookupStringArray(d'["HostConfig"].fields, "DnsSearch")
            == Ok(if LookupString(d', "Hostname") == Ok("") then [fact.domain] else ["."]))
      && (|search.value| > 0 ==>
            ("DnsSearch" in d'["HostConfig"].fields
             && d'["HostConfig"].fields["DnsSearch"] == d["HostConfig"].fields["DnsSearch"]))
  {
    var (d', _) := DnsStep(cfg, fact, name, d);
    StringListOfStrArr("DnsSearch", [fact.domain]);
    StringListOfStrArr("DnsSearch", ["."]);
  }

  /** The configurator on the shared body. */
  method SetWeaveDNS(cfg: Config, fact: DnsFact, c: Container, name: string) returns (err: Option<Error>)
    modifies c
    ensures (c.doc, err) == DnsStep(cfg, fact, name, old(c.doc))
  {
    if cfg.withoutDNS {
      return None;
    }
    if !(fact.running || cfg.withDNS) {
      return None;
    }

    var lookedUp := LookupObject(c.doc, "HostConfig");
    if lookedUp.Err? {
      return Some(lookedUp.error);
    }
    var hostConfig := lookedUp.value;
    var dns := LookupStringArray(hostConfig, "Dns");
    if dns.Err? {
      return Some(dns.error);
    }
    hostConfig := hostConfig["Dns" := StrArr(dns.value + [cfg.dockerBridgeIP])];
    c.doc := AttachHostConfig(c.doc, hostConfig);

    var current := LookupString(c.doc, "Hostname");
    if current.Err? {
      return Some(current.error);
    }
    var hostname := current.value;
    if hostname == "" && name != "" {
      var trimmedDomain := TrimDot(fact.domain);
      if |name| + 1 + |trimmedDomain| <= MaxDockerHostname {
        hostname := name;
        c.doc := c.doc["Hostname" := JStr(name)];
        c.doc := c.doc["Domainname" := JStr(trimmedDomain)];
      }
    }

    var dnsSearch := LookupStringArray(hostConfig, "DnsSearch");
    if dnsSearch.Err? {
      return Some(dnsSearch.error);
    }
    if |dnsSearch.value| == 0 {
      if hostname == "" {
        hostConfig := hostConfig["DnsSearch" := StrArr([fact.domain])];
      } else {
        hostConfig := hostConfig["DnsSearch" := StrArr(["."])];
      }
      c.doc := AttachHostConfig(c.doc, hostConfig);
    }
    err := None;
  }
}
