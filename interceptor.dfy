/** The create-container interceptor: asks the network-membership resolver whether the
    container joins the overlay network and, if it does, runs the four policies in order. */
module Interceptor {
  import opened ProxyConfig
  import opened Document
  import opened Volume
  import opened Entrypoint
  import opened Hostname
  import opened Dns

  /** The resolver's verdict on a container's NetworkMode and Env. */
  datatype Verdict = Disabled(reason: string) | Enabled(cidrs: seq<string>)

  /** The answers of the collaborators outside this component: the resolver, the daemon's
      image inspection, and the probe of the network agent for its DNS domain. */
  datatype Collaborators = Collaborators(
    resolve: (string, seq<string>) -> Verdict,
    inspectImage: string -> ImageResult,
    dns: DnsFact)

  /** How a request ends: left alone (the original body is forwarded), rewritten (the
      body is replaced by the mutated document), or failed. */
  datatype Outcome = Untouched | Rewritten | Failed(err: Error)

  /** Whether the fields the resolver needs read without a type error: Config and HostConfig
      are objects (or absent), NetworkMode a string and Env a list of strings. */
  predicate GateReadable(d: Doc)
  {
    && LookupObject(d, "Config").Ok?
    && LookupObject(d, "HostConfig").Ok?
    && LookupString(LookupObject(d, "HostConfig").value, "NetworkMode").Ok?
    && LookupStringArray(LookupObject(d, "Config").value, "Env").Ok?
  }

  /** Whether the resolver is asked and says that the container joins the network. */
  predicate Joins(ext: Collaborators, d: Doc)
  {
    && GateReadable(d)
    && ext.resolve(LookupString(LookupObject(d, "HostConfig").value, "NetworkMode").value,
                   LookupStringArray(LookupObject(d, "Config").value, "Env").value).Enabled?
  }

  /** The rewriting of one request whose query `name` value is `name`: the outcome and the
      document as the interceptor leaves it. */
  function Intercept(cfg: Config, ext: Collaborators, name: string, d: Doc): (Outcome, Doc)
  {
    match LookupObject(d, "Config")
    case Err(e) => (Failed(e), d)
    case Ok(config) =>
      match LookupObject(d, "HostConfig")
      case Err(e) => (Failed(e), d)
      case Ok(hostConfig) =>
        match LookupString(hostConfig, "NetworkMode")
        case Err(e) => (Failed(e), d)
        case Ok(networkMode) =>
          match LookupStringArray(config, "Env")
          case Err(e) => (Failed(e), d)
          case Ok(env) =>
            match ext.resolve(networkMode, env)
            case Disabled(_) => (Untouched, d)
            case Enabled(_) =>
              var (d1, err1) := VolumeStep(cfg, hostConfig, d);
              if err1.Some? then (Failed(err1.value), d1)
              else
                var (d2, err2) := EntrypointStep(cfg, ext.inspectImage, d1);
                if err2.Some? then (Failed(err2.value), d2)
                else
                  match ContainerHostname(cfg, name, d2)
                  case Err(e) => (Failed(e), d2)
                  case Ok(hostname) =>
                    var (d3, err3) := DnsStep(cfg, ext.dns, hostname, d2);
                    if err3.Some? then (Failed(err3.value), d3)
                    else (Rewritten, d3)
  }

  /** The body is left untouched exactly when the fields the resolver reads are well typed and
      the resolver says the container stays off the network; the document is then unchanged. */
  lemma InterceptGate(cfg: Config, ext: Collaborators, name: string, d: Doc)
    ensures var (outcome, d') := Intercept(cfg, ext, name, d);
      && (outcome == Untouched <==> (GateReadable(d) && !Joins(ext, d)))
      && (outcome == Untouched ==> d' == d)
  {
  }

  /** The gate runs first: for a container that does not join the network the outcome does not
      depend on the image, the network agent or the query name, so neither is consulted. */
  lemma InterceptGateFirst(cfg: Config, ext: Collaborators, name: string, d: Doc,
                           inspect: string -> ImageResult, fact: DnsFact, other: string)
    requires !Joins(ext, d)
    ensures Intercept(cfg, ext, name, d) == Intercept(cfg, ext.(inspectImage := inspect, dns := fact), other, d)
  {
  }

  /** The body after the volume injector and the entrypoint wrapper. */
  function AfterWrapper(cfg: Config, ext: Collaborators, d: Doc): Doc
    requires LookupObject(d, "HostConfig").Ok?
  {
    EntrypointStep(cfg, ext.inspectImage, VolumeStep(cfg, LookupObject(d, "HostConfig").value, d).0).0
  }

  /** A rewritten request went through every policy without error, and its body is the one the
      four policies produce one after the other. */
  lemma RewrittenChain(cfg: Config, ext: Collaborators, name: string, d: Doc)
    requires Intercept(cfg, ext, name, d).0 == Rewritten
    ensures LookupObject(d, "HostConfig").Ok?
    ensures var hostConfig := LookupObject(d, "HostConfig").value;
      var d1 := VolumeStep(cfg, hostConfig, d).0;
      var d2 := AfterWrapper(cfg, ext, d);
      && VolumeStep(cfg, hostConfig, d).1.None?
      && EntrypointStep(cfg, ext.inspectImage, d1).1.None?
      && ContainerHostname(cfg, name, d2).Ok?
      && Intercept(cfg, ext, name, d).1 == DnsStep(cfg, ext.dns, ContainerHostname(cfg, name, d2).value, d2).0
  {
  }

  /** A rewritten body differs from the request only in Cmd, Entrypoint, HostConfig, Hostname
      and Domainname, and its Entrypoint reads back as the wrapped effective entrypoint. */
  lemma InterceptRewrittenEntrypoint(cfg: Config, ext: Collaborators, name: string, d: Doc)
    requires Intercept(cfg, ext, name, d).0 == Rewritten
    ensures var d' := Intercept(cfg, ext, name, d).1;
      && SameExcept(d, d', {"Cmd", "Entrypoint", "HostConfig", "Hostname", "Domainname"})
      && LookupStringArray(d, "Entrypoint").Ok?
      && LookupStringArray(d', "Entrypoint") == Ok(Wrap(cfg, EffectiveEntrypoint(ext.inspectImage, d)))
      && Wrapped(cfg, LookupStringArray(d', "Entrypoint").value)
  {
    RewrittenChain(cfg, ext, name, d);
    var hostConfig := LookupObject(d, "HostConfig").value;
    var d1 := VolumeStep(cfg, hostConfig, d).0;
    VolumeStepEffect(cfg, hostConfig, d);
    EntrypointInputsAgree(ext.inspectImage, d, d1);
    var d2 := AfterWrapper(cfg, ext, d);
    EntrypointStepWraps(cfg, ext.inspectImage, d1);
    var hostname := ContainerHostname(cfg, name, d2).value;
    var d3 := DnsStep(cfg, ext.dns, hostname, d2).0;
    DnsStepFrame(cfg, ext.dns, hostname, d2);
    assert "Entrypoint" in d3 <==> "Entrypoint" in d2;
    assert "Entrypoint" in d2 ==> d3["Entrypoint"] == d2["Entrypoint"];
    assert LookupStringArray(d3, "Entrypoint") == LookupStringArray(d2, "Entrypoint");
    WrapShape(cfg, EffectiveEntrypoint(ext.inspectImage, d));
  }

  /** Bodies that differ only in HostConfig read the same Entrypoint and Image, so they have
      the same effective entrypoint. */
  lemma EntrypointInputsAgree(inspect: string -> ImageResult, a: Doc, b: Doc)
    requires SameExcept(a, b, {"HostConfig"})
    ensures LookupStringArray(b, "Entrypoint") == LookupStringArray(a, "Entrypoint")
    ensures LookupStringArray(a, "Entrypoint").Ok? ==>
      EffectiveEntrypoint(inspect, b) == EffectiveEntrypoint(inspect, a)
  {
    assert "Entrypoint" in a <==> "Entrypoint" in b;
    assert "Image" in a <==> "Image" in b;
  }

  /** In a rewritten body whose HostConfig is an object, HostConfig.Binds is the injected list
      and HostConfig differs from the request's only in Binds, Dns and DnsSearch. */
  lemma InterceptRewrittenHostConfig(cfg: Config, ext: Collaborators, name: string, d: Doc)
    requires Intercept(cfg, ext, name, d).0 == Rewritten
    requires "HostConfig" in d && d["HostConfig"].JObj?
    ensures var d' := Intercept(cfg, ext, name, d).1;
      var hostConfig := d["HostConfig"].fields;
      && LookupStringArray(hostConfig, "Binds").Ok?
      && "HostConfig" in d' && d'["HostConfig"].JObj?
      && SameExcept(hostConfig, d'["HostConfig"].fields, {"Binds", "Dns", "DnsSearch"})
      && LookupStringArray(d'["HostConfig"].fields, "Binds")
         == Ok(WithWaitVolume(LookupStringArray(hostConfig, "Binds").value, cfg.weaveWaitVolume))
  {
    RewrittenChain(cfg, ext, name, d);
    var hostConfig := d["HostConfig"].fields;
    var d1 := VolumeStep(cfg, hostConfig, d).0;
    VolumeStepEffect(cfg, hostConfig, d);
    var d2 := AfterWrapper(cfg, ext, d);
    EntrypointStepWraps(cfg, ext.inspectImage, d1);
    assert d2["HostConfig"] == d1["HostConfig"];
    var hostname := ContainerHostname(cfg, name, d2).value;
    var d3 := DnsStep(cfg, ext.dns, hostname, d2).0;
    DnsStepFrame(cfg, ext.dns, hostname, d2);
    var h1, h3 := d1["HostConfig"].fields, d3["HostConfig"].fields;
    assert "Binds" in h1 <==> "Binds" in h3;
    assert "Binds" in h1 ==> h3["Binds"] == h1["Binds"];
    assert LookupStringArray(h3, "Binds") == LookupStringArray(h1, "Binds");
  }

  /** The interceptor on the shared body: the gate, then volume, entrypoint, hostname and DNS
      in that order, stopping at the first error. */
  method InterceptRequest(cfg: Config, ext: Collaborators, name: string, c: Container) returns (outcome: Outcome)
    modifies c
    ensures (outcome, c.doc) == Intercept(cfg, ext, name, old(c.doc))
  {
    var config := LookupObject(c.doc, "Config");
    if config.Err? {
      return Failed(config.error);
    }
    var hostConfig := LookupObject(c.doc, "HostConfig");
    if hostConfig.Err? {
      return Failed(hostConfig.error);
    }
    var networkMode := LookupString(hostConfig.value, "NetworkMode");
    if networkMode.Err? {
      return Failed(networkMode.error);
    }
    var env := LookupStringArray(config.value, "Env");
    if env.Err? {
      return Failed(env.error);
    }

    var verdict := ext.resolve(networkMode.value, env.value);
    if verdict.Disabled? {
      return Untouched;
    }
    var err := AddWeaveWaitVolume(cfg, hostConfig.value, c);
    if err.Some? {
      return Failed(err.value);
    }
    err := SetWeaveWaitEntrypoint(cfg, ext.inspectImage, c);
    if err.Some? {
      return Failed(err.value);
    }
    var hostname := ContainerHostname(cfg, name, c.doc);
    if hostname.Err? {
      return Failed(hostname.error);
    }
    err := SetWeaveDNS(cfg, ext.dns, c, hostname.value);
    if err.Some? {
      return Failed(err.value);
    }
    return Rewritten;
  }
}
