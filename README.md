# Create-container request rewriter (Weave proxy), modelled in Dafny

The Weave Docker API proxy sits between Docker clients and the Docker daemon. It intercepts
"create container" requests, and when a container should join the Weave overlay network it
rewrites the request body before forwarding it. The rewrite runs four policies, in a fixed order:

1. **Volume injector.** Every bind whose target is `/w` is dropped, and `<weaveWaitVolume>:/w:ro`
   is appended.
2. **Entrypoint wrapper.** The container's entrypoint is made to start with the `weavewait`
   wrapper command. When the request has no entrypoint, the image's defaults are used.
3. **Hostname resolver.** The hostname is derived from the request's `name`, an optional label
   and a configured rewrite.
4. **DNS configurator.** The bridge address is added as a DNS server. The resolver then sets
   `Hostname`/`Domainname` and `DnsSearch`.

The model follows the Go source file by file:

- `proxy_config.dfy` (module `ProxyConfig`): the read-only proxy settings and the
  `MaxDockerHostname` constant (64).
- `document.dfy` (module `Document`): the decoded JSON body, the errors, the type-checked field
  accessors, and the class `Container`. The class holds the body map that the policies update
  in place.
- `volume.dfy`, `entrypoint.dfy`, `hostname.dfy`, `dns.dfy`: one module per policy.
- `interceptor.dfy` (module `Interceptor`): the network-membership gate and the ordering of the
  policies.

Each policy that changes the body is modelled twice:

- a pure function (`VolumeStep`, `EntrypointStep`, `DnsStep`, `Intercept`) that gives the new
  body and the error, if any;
- an imperative method on the shared `Container` (`AddWeaveWaitVolume`,
  `SetWeaveWaitEntrypoint`, `SetWeaveDNS`, `InterceptRequest`). The method's postcondition equates
  the new body and the returned error with that function applied to the old body.

The properties are lemmas about these functions. The two loops of the source are read-only
methods proved against specification functions: the bind filter (`KeepNonWaitBinds`) and the
entrypoint normalisation (`NormaliseEntrypoint`).

The component's collaborators are inputs to the model:

- the network-membership resolver, as a function from `NetworkMode` and `Env` to a verdict;
- the daemon's image inspection, as a function from an image name to an answer;
- the probe of the `weave` container for its DNS domain, as a `(domain, running)` pair;
- the request's `name` query value, as a string;
- the hostname regular-expression replace-all, as an uninterpreted `string -> string` in the
  configuration.

When the entrypoint is empty, `Image` is read with the lenient string accessor (:159). An
absent `Image` reads as `""` and the daemon is asked about `""`; no missing-field error is
raised.

## Model

| member | source | states |
|---|---|---|
| Document.LookupObject | proxy/create_container_interceptor.go:42-50 | a nested object reads as its fields; absent or null reads as the empty object; any other value is a WrongType error naming the key, "object" and the value |
| Document.LookupString | proxy/create_container_interceptor.go:52-55 | a string field reads as its text; absent or null reads as ""; any other value is a WrongType error naming the key |
| Document.LookupStringArray | proxy/create_container_interceptor.go:153-156 | for any key: absent or null reads as []; a string s reads as [s]; an array of strings reads as its texts, same length and order; an array holding a non-string, and every other shape, is a WrongType error naming the key, "string or array of strings" and the value |
| Document.StringListOfStrArr | proxy/create_container_interceptor.go:128 | a string list written into the body (Binds, Dns, DnsSearch, Cmd, Entrypoint) reads back as exactly that list |
| Document.AttachHostConfig | proxy/create_container_interceptor.go:128 | nothing outside HostConfig changes; when HostConfig is an object in the body it stays one and reads back as the written object; otherwise the body is unchanged |
| Volume.SplitFieldsFree | proxy/create_container_interceptor.go:122 | no field produced by splitting a bind at ":" contains ":" |
| Volume.JoinSplit | proxy/create_container_interceptor.go:122 | joining the fields of a split bind with ":" gives the bind back |
| Volume.SplitWithoutSep | proxy/create_container_interceptor.go:122 | a string without ":" splits into itself alone |
| Volume.SplitAfterField | proxy/create_container_interceptor.go:122 | a ":"-free prefix followed by ":" is exactly the first field of the split |
| Volume.SplitJoin | proxy/create_container_interceptor.go:122 | splitting the join of ":"-free fields gives back the fields (Split and Join are inverse) |
| Volume.WaitBindIsWaitBind | proxy/create_container_interceptor.go:123-128 | the appended `<volume>:/w:ro` has second field `/w` when the volume name has no ":" |
| Volume.WaitBindWithColonIsNotWaitBind | proxy/create_container_interceptor.go:123-128 | with volume "a:b" the appended bind's second field is not `/w`, so the idempotence below needs a ":"-free volume |
| Volume.WithoutWaitBindsAppend | proxy/create_container_interceptor.go:120-127 | filtering distributes over concatenation, so the kept binds stay in their original relative order |
| Volume.WithoutWaitBindsMembers | proxy/create_container_interceptor.go:120-127 | a bind is kept exactly when it was in the input and its second field is not `/w` |
| Volume.WithoutWaitBindsIdempotent | proxy/create_container_interceptor.go:120-127 | filtering an already filtered list changes nothing |
| Volume.WithWaitVolumeShape | proxy/create_container_interceptor.go:114-128 | after injection the last bind is `<volume>:/w:ro` and is the only bind targeting `/w`; every other bind that did not target `/w` is still there |
| Volume.WithWaitVolumeIdempotent | proxy/create_container_interceptor.go:121-128 | injecting twice gives the same Binds as injecting once, for a ":"-free volume |
| Volume.KeepNonWaitBinds | proxy/create_container_interceptor.go:120-127 | the filtering loop returns the input binds without those targeting `/w`, in order |
| Volume.VolumeStepEffect | proxy/create_container_interceptor.go:114-130 | a wrong-typed Binds is an error and changes nothing; an absent or null HostConfig leaves the body unchanged; otherwise only HostConfig.Binds changes, and it becomes the filtered list plus the wait bind |
| Volume.AddWeaveWaitVolume | proxy/create_container_interceptor.go:114-130 | the in-place injector leaves the body and error that VolumeStep gives |
| Entrypoint.WrapShape | proxy/create_container_interceptor.go:186-188 | the result starts with the wrapper's first token and ends with the original entrypoint; the wrapper is prepended exactly when the entrypoint does not already start with that token |
| Entrypoint.WrapIdempotent | proxy/create_container_interceptor.go:186-188 | wrapping a wrapped entrypoint changes nothing |
| Entrypoint.EntrypointShapes | proxy/create_container_interceptor.go:133-151 | absent or null gives []; a string s reads exactly like the array [s]; an array holding a non-string, and any other shape, is a WrongType error on Entrypoint |
| Entrypoint.NormaliseEntrypoint | proxy/create_container_interceptor.go:133-151 | the normalisation loop computes the string-or-array reading of Entrypoint, error included |
| Entrypoint.EntrypointStepWraps | proxy/create_container_interceptor.go:132-191 | only Cmd and Entrypoint change; on success Entrypoint reads back as the wrapped effective entrypoint (the request's own, or the image's when the request has none) |
| Entrypoint.EntrypointStepIgnoresImage | proxy/create_container_interceptor.go:158-180 | with a non-empty entrypoint the image inspection is not consulted |
| Entrypoint.EntrypointStepKeepsCmd | proxy/create_container_interceptor.go:153-174 | when the request has a non-empty entrypoint, Cmd is present afterwards exactly when it was before, with the same value, whether the step succeeds or fails |
| Entrypoint.EntrypointStepNoSuchImage | proxy/create_container_interceptor.go:159-166 | an unknown image fails with NoSuchImage carrying exactly the Image string, and the body is unchanged |
| Entrypoint.EntrypointStepImageCmd | proxy/create_container_interceptor.go:171-174 | with an empty entrypoint, Cmd takes the image's command only when the request's Cmd is empty, and stays as it was otherwise |
| Entrypoint.EntrypointStepNoCommand | proxy/create_container_interceptor.go:171-184 | NoCommandSpecified exactly when neither the request nor the image gives an entrypoint or a command; Entrypoint is then left empty, not wrapped |
| Entrypoint.EntrypointStepIdempotent | proxy/create_container_interceptor.go:132-191 | running the wrapper again on a body it handled succeeds and changes nothing, whatever the image answer |
| Entrypoint.SetWeaveWaitEntrypoint | proxy/create_container_interceptor.go:132-191 | the in-place wrapper leaves the body and error that EntrypointStep gives |
| Hostname.HostnameWithoutLabelKey | proxy/create_container_interceptor.go:86-93 | with no label key configured, the hostname is the rewritten query name and Labels is not read |
| Hostname.HostnameWithLabelKey | proxy/create_container_interceptor.go:86-112 | a string label replaces the query name; an absent or null label keeps it; a non-string label is WrongType naming the label key; a non-object Labels is WrongType naming Labels; the rewrite applies last |
| Dns.TrimDotOnce | proxy/create_container_interceptor.go:219-220 | exactly one trailing "." is removed from the domain, and a domain without one is unchanged |
| Dns.DnsStepOff | proxy/create_container_interceptor.go:194-201 | with WithoutDNS, or with the agent not running and WithDNS unset, the body is untouched |
| Dns.DnsStepFails | proxy/create_container_interceptor.go:193-243 | the step fails exactly when DNS is on and HostConfig, HostConfig.Dns, Hostname or HostConfig.DnsSearch is wrong-typed, with the first such error; the error does not depend on the name, so an over-long name is never an error |
| Dns.DnsStepFrame | proxy/create_container_interceptor.go:193-243 | only HostConfig, Hostname and Domainname change, and inside HostConfig only Dns and DnsSearch |
| Dns.DnsStepAppendsBridge | proxy/create_container_interceptor.go:203-211 | HostConfig.Dns becomes the old list followed by the bridge IP |
| Dns.DnsStepHostname | proxy/create_container_interceptor.go:213-228 | Hostname and Domainname (the trimmed domain) are set exactly when Hostname was empty, the name is non-empty and name + 1 + trimmed domain <= 64; otherwise both are left as they were |
| Dns.DnsStepSearch | proxy/create_container_interceptor.go:230-240 | an empty DnsSearch becomes [domain] (untrimmed) when the resulting Hostname is empty and ["."] otherwise; a non-empty DnsSearch is kept |
| Dns.SetWeaveDNS | proxy/create_container_interceptor.go:193-243 | the in-place configurator leaves the body and error that DnsStep gives |
| Interceptor.InterceptGate | proxy/create_container_interceptor.go:42-83 | the body is left untouched exactly when Config, HostConfig, NetworkMode and Env are well typed and the resolver says the container does not join; the document is then unchanged |
| Interceptor.InterceptGateFirst | proxy/create_container_interceptor.go:57-83 | for a container that does not join, the outcome does not depend on the image, the DNS probe or the query name |
| Interceptor.RewrittenChain | proxy/create_container_interceptor.go:62-80 | a rewritten request passed the volume injector, the entrypoint wrapper, the hostname resolver and the DNS configurator without error, and its body is what those four produce one after the other |
| Interceptor.InterceptRewrittenEntrypoint | proxy/create_container_interceptor.go:62-80 | a rewritten body differs only in Cmd, Entrypoint, HostConfig, Hostname and Domainname, and its Entrypoint starts with the wrapper |
| Interceptor.InterceptRewrittenHostConfig | proxy/create_container_interceptor.go:47-80 | in a rewritten body, HostConfig.Binds is the injected list and the rest of HostConfig differs only in Dns and DnsSearch |
| Interceptor.InterceptRequest | proxy/create_container_interceptor.go:36-84 | the in-place interceptor gives the outcome and body that Intercept gives: gate, then volume, entrypoint, hostname and DNS, stopping at the first error |

## Left out

- Reading and writing the HTTP body (:37-38, :80). The model takes the decoded document and
  returns the outcome. `Rewritten` means the mutated document is re-encoded as the new body.
  Encoding failures are not modelled.
- `getDNSDomain` (:245-267) inspects the `weave` container and makes an HTTP GET. Its result is
  the input `DnsFact(domain, running)`, with the default-domain fallback already applied.
- The daemon's `InspectImage` (:164) is the input function `inspectImage`. Any error other than
  "no such image" becomes `InspectFailed` carrying a reason string.
- `weaveCIDRsFromConfig` (:62) is not part of this model. It is the input function `resolve`, and
  the CIDRs it returns are only logged.
- The regular-expression replace-all (:91) is the uninterpreted `Config.hostnameRewrite`.
- Logging (:63, :65, :222) and the pass-through `InterceptResponse` (:269-271) are not modelled.
- `append(weaveWaitEntrypoint, ...)` (:187) may share the backing array of the wrapper slice.
  The model uses plain sequence concatenation.
- `lookupObject`, `lookupString` and `lookupStringArray` are defined outside
  `create_container_interceptor.go`, and their Go definitions are not part of this model. The
  model gives them this behaviour: an absent or null field reads as the zero value (empty
  object, `""`, empty list), and any other shape than the expected one is `WrongType`.
  `lookupStringArray` is taken to accept a single string as a one-element list, as the file
  itself does for Entrypoint (:133-151).
- A found image whose `Config` is nil makes the Go code panic at :172 or :177. The
  model's `ImageFound` always carries a command and an entrypoint list, so that panic is not
  modelled.
- An absent or null HostConfig: the accessor returns an object that is not part of the body, so
  the model drops the writes to Binds, Dns and DnsSearch. If the real accessor returns Go's nil
  map, the original panics on the write instead. That case is not modelled. As a consequence,
  a `Rewritten` body whose HostConfig was absent or null has the wrapped entrypoint but no `/w`
  bind and no DNS entries; this is why `InterceptRewrittenHostConfig` requires HostConfig to be
  an object.
- A nil Go slice is written to JSON as `null`, for example an image without a default command
  at :172-173. The model writes an empty array instead. Both read back as the empty list.
- The check `entrypoint == nil` (:176) is modelled as "the entrypoint is empty". For a decoded
  body the two coincide: a string gives one token, and an empty array builds no slice.
- Hostname lengths (:221) are counted in characters. Go counts UTF-8 bytes. The two agree on
  ASCII names.
- JSON numbers are kept only as a shape that is neither string, array, object nor null.
- Error messages are not modelled. `WrongType` carries the field, the expected type and the
  value found, and `NoSuchImage` carries the image name.
