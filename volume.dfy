/** The volume injector: every bind that mounts something at the wrapper's mount point `/w`
    is dropped and exactly one `<weaveWaitVolume>:/w:ro` bind is appended. */
module Volume {
  import opened ProxyConfig
  import opened Document

  /** Splitting a string at every occurrence of `sep`, as Go's strings.Split does for a
      one-character separator: the empty string gives one empty field. */
  function Split(s: string, sep: char): (fields: seq<string>)
    ensures |fields| >= 1
    decreases |s|
  {
    if s == [] then [""]
    else
      var rest := Split(s[1..], sep);
      if s[0] == sep then [""] + rest
      else [[s[0]] + rest[0]] + rest[1..]
  }

  /** Joining fields with `sep` between them; the inverse of Split. */
  function Join(fields: seq<string>, sep: char): string
    requires |fields| >= 1
  {
    if |fields| == 1 then fields[0] else fields[0] + [sep] + Join(fields[1..], sep)
  }

  /** No field produced by Split contains the separator. */
  lemma {:induction false} SplitFieldsFree(s: string, sep: char)
    ensures forall i :: 0 <= i < |Split(s, sep)| ==> sep !in Split(s, sep)[i]
    decreases |s|
  {
    if s != [] {
      SplitFieldsFree(s[1..], sep);
    }
  }

  /** Joining what Split produced gives back the string. */
  lemma {:induction false} JoinSplit(s: string, sep: char)
    ensures Join(Split(s, sep), sep) == s
    decreases |s|
  {
    if s != [] {
      var rest := Split(s[1..], sep);
      JoinSplit(s[1..], sep);
      if s[0] == sep {
        assert Split(s, sep)[1..] == rest;
      } else {
        var f := Split(s, sep);
        assert f[1..] == rest[1..];
        if |rest| > 1 {
          assert Join(rest, sep) == rest[0] + [sep] + Join(rest[1..], sep);
          assert Join(f, sep) == [s[0]] + rest[0] + [sep] + Join(rest[1..], sep);
        }
        assert s == [s[0]] + s[1..];
      }
    }
  }

  /** A string without the separator is a single field. */
  lemma {:induction false} SplitWithoutSep(a: string, sep: char)
    requires sep !in a
    ensures Split(a, sep) == [a]
    decreases |a|
  {
    if a != [] {
      SplitWithoutSep(a[1..], sep);
      assert [a[0]] + a[1..] == a;
    }
  }

  /** A separator-free prefix followed by the separator is exactly the first field. */
  lemma {:induction false} SplitAfterField(a: string, sep: char, b: string)
    requires sep !in a
    ensures Split(a + [sep] + b, sep) == [a] + Split(b, sep)
    decreases |a|
  {
    var s := a + [sep] + b;
    if a == [] {
      assert s[0] == sep && s[1..] == b;
    } else {
      assert s[0] == a[0] && s[1..] == a[1..] + [sep] + b;
      SplitAfterField(a[1..], sep, b);
      assert [a[0]] + a[1..] == a;
    }
  }

  /** Splitting what Join produced from separator-free fields gives back the fields. */
  lemma {:induction false} SplitJoin(fields: seq<string>, sep: char)
    requires |fields| >= 1
    requires forall i :: 0 <= i < |fields| ==> sep !in fields[i]
    ensures Split(Join(fields, sep), sep) == fields
    decreases |fields|
  {
    if |fields| == 1 {
      SplitWithoutSep(fields[0], sep);
    } else {
      SplitJoin(fields[1..], sep);
      SplitAfterField(fields[0], sep, Join(fields[1..], sep));
      assert [fields[0]] + fields[1..] == fields;
    }
  }

  /** A bind (`source:target[:mode]`) whose second `:`-separated field is the mount point `/w`. */
  predicate IsWaitBind(bind: string)
  {
    var s := Split(bind, ':');
    |s| >= 2 && s[1] == "/w"
  }

  /** The bind the injector appends. */
  function WaitBind(volume: string): string
  {
    volume + ":/w:ro"
  }

  /** The appended bind is itself recognised as a wait bind when the volume has no `:`. */
  lemma WaitBindIsWaitBind(volume: string)
    requires ':' !in volume
    ensures IsWaitBind(WaitBind(volume))
  {
    var fields := [volume, "/w", "ro"];
    assert Join(fields, ':') == WaitBind(volume) by {
      assert Join(fields[1..], ':') == "/w" + [':'] + "ro";
    }
    SplitJoin(fields, ':');
  }

  /** With a `:` in the volume name the appended bind is not recognised, so a second
      injection would keep it and add another one. */
  lemma WaitBindWithColonIsNotWaitBind()
    ensures !IsWaitBind(WaitBind("a:b"))
  {
  }

  /** The binds with every wait bind removed, in their original order. */
  function WithoutWaitBinds(binds: seq<string>): seq<string>
  {
    if binds == [] then []
    else (if IsWaitBind(binds[0]) then [] else [binds[0]]) + WithoutWaitBinds(binds[1..])
  }

  /** Filtering distributes over concatenation: the relative order of the kept binds is the
      order of the input. */
  lemma {:induction false} WithoutWaitBindsAppend(a: seq<string>, b: seq<string>)
    ensures WithoutWaitBinds(a + b) == WithoutWaitBinds(a) + WithoutWaitBinds(b)
    decreases |a|
  {
    if a != [] {
      assert (a + b)[0] == a[0] && (a + b)[1..] == a[1..] + b;
      WithoutWaitBindsAppend(a[1..], b);
    } else {
      assert a + b == b;
    }
  }

  /** A bind survives the filter exactly when it was in the input and is not a wait bind. */
  lemma {:induction false} WithoutWaitBindsMembers(binds: seq<string>, x: string)
    ensures x in WithoutWaitBinds(binds) <==> x in binds && !IsWaitBind(x)
    decreases |binds|
  {
    if binds != [] {
      WithoutWaitBindsMembers(binds[1..], x);
      assert binds == [binds[0]] + binds[1..];
    }
  }

  /** Filtering a filtered list changes nothing. */
  lemma {:induction false} WithoutWaitBindsIdempotent(binds: seq<string>)
    ensures WithoutWaitBinds(WithoutWaitBinds(binds)) == WithoutWaitBinds(binds)
    decreases |binds|
  {
    if binds != [] {
      var head := if IsWaitBind(binds[0]) then [] else [binds[0]];
      WithoutWaitBindsAppend(head, WithoutWaitBinds(binds[1..]));
      WithoutWaitBindsIdempotent(binds[1..]);
      if !IsWaitBind(binds[0]) {
        assert WithoutWaitBinds(head) == head by {
          assert head[1..] == [];
        }
      }
    }
  }

  /** The Binds list after injection. */
  function WithWaitVolume(binds: seq<string>, volume: string): seq<string>
  {
    WithoutWaitBinds(binds) + [WaitBind(volume)]
  }

  /** After injection the only wait bind is the last entry, `<volume>:/w:ro`, and every other
      bind of the input that does not target `/w` is still there. */
  lemma WithWaitVolumeShape(binds: seq<string>, volume: string)
    requires ':' !in volume
    ensures var r := WithWaitVolume(binds, volume);
      && |r| >= 1 && r[|r| - 1] == WaitBind(volume)
      && (forall i :: 0 <= i < |r| ==> (IsWaitBind(r[i]) <==> i == |r| - 1))
      && (forall x :: x in binds && !IsWaitBind(x) ==> x in r)
  {
    var r := WithWaitVolume(binds, volume);
    var kept := WithoutWaitBinds(binds);
    WaitBindIsWaitBind(volume);
    forall i | 0 <= i < |kept|
      ensures !IsWaitBind(r[i])
    {
      WithoutWaitBindsMembers(binds, kept[i]);
    }
    forall x | x in binds && !IsWaitBind(x)
      ensures x in r
    {
      WithoutWaitBindsMembers(binds, x);
    }
  }

  /** Injecting twice gives the same Binds as injecting once. */
  lemma WithWaitVolumeIdempotent(binds: seq<string>, volume: string)
    requires ':' !in volume
    ensures WithWaitVolume(WithWaitVolume(binds, volume), volume) == WithWaitVolume(binds, volume)
  {
    var kept := WithoutWaitBinds(binds);
    WithoutWaitBindsAppend(kept, [WaitBind(volume)]);
    WithoutWaitBindsIdempotent(binds);
    WaitBindIsWaitBind(volume);
    assert WithoutWaitBinds([WaitBind(volume)]) == [] by {
      assert [WaitBind(volume)][1..] == [];
    }
  }

  /** The filtering loop of the injector. */
  method KeepNonWaitBinds(configBinds: seq<string>) returns (binds: seq<string>)
    ensures binds == WithoutWaitBinds(configBinds)
  {
    binds := [];
    var i := 0;
    while i < |configBinds|
      invariant 0 <= i <= |configBinds|
      invariant binds == WithoutWaitBinds(configBinds[..i])
    {
      var bind := configBinds[i];
      WithoutWaitBindsAppend(configBinds[..i], [bind]);
      assert configBinds[..i + 1] == configBinds[..i] + [bind];
      assert [bind][1..] == [];
      var s := Split(bind, ':');
      if !(|s| >= 2 && s[1] == "/w") {
        binds := binds + [bind];
      }
      i := i + 1;
    }
    assert configBinds[..i] == configBinds;
  }

  /** What injection does to the body: a wrong-typed Binds is an error and changes nothing;
      otherwise HostConfig.Binds becomes WithWaitVolume of the old list. */
  function VolumeStep(cfg: Config, hostConfig: Doc, d: Doc): (Doc, Option<Error>)
  {
    match LookupStringArray(hostConfig, "Binds")
    case Err(e) => (d, Some(e))
    case Ok(binds) =>
      (AttachHostConfig(d, hostConfig["Binds" := StrArr(WithWaitVolume(binds, cfg.weaveWaitVolume))]), None)
  }

  /** On success the body's HostConfig (when it is an object) has its Binds replaced by the
      injected list and nothing else in the body changes. */
  lemma VolumeStepEffect(cfg: Config, hostConfig: Doc, d: Doc)
    requires LookupObject(d, "HostConfig") == Ok(hostConfig)
    ensures var (d', err) := VolumeStep(cfg, hostConfig, d);
      && SameExcept(d, d', {"HostConfig"})
      && (err.None? <==> LookupStringArray(hostConfig, "Binds").Ok?)
      && (err.Some? ==> d' == d)
      && (!("HostConfig" in d && d["HostConfig"].JObj?) ==> d' == d)
      && (err.None? && "HostConfig" in d && d["HostConfig"].JObj? ==>
            "HostConfig" in d' && d'["HostConfig"].JObj?
            && SameExcept(hostConfig, d'["HostConfig"].fields, {"Binds"})
            && LookupStringArray(d'["HostConfig"].fields, "Binds")
               == Ok(WithWaitVolume(LookupStringArray(hostConfig, "Binds").value, cfg.weaveWaitVolume)))
  {
    var binds := LookupStringArray(hostConfig, "Binds");
    if binds.Ok? {
      StringListOfStrArr("Binds", WithWaitVolume(binds.value, cfg.weaveWaitVolume));
    }
  }

  /** The injector on the shared body: `hostConfig` is the HostConfig object read from it. */
  method AddWeaveWaitVolume(cfg: Config, hostConfig: Doc, c: Container) returns (err: Option<Error>)
    requires LookupObject(c.doc, "HostConfig") == Ok(hostConfig)
    modifies c
    ensures (c.doc, err) == VolumeStep(cfg, hostConfig, old(c.doc))
  {
    var configBinds := LookupStringArray(hostConfig, "Binds");
    if configBinds.Err? {
      return Some(configBinds.error);
    }
    var binds := KeepNonWaitBinds(configBinds.value);
    c.doc := AttachHostConfig(c.doc, hostConfig["Binds" := StrArr(binds + [WaitBind(cfg.weaveWaitVolume)])]);
    err := None;
  }
}
