/** The entrypoint wrapper: the container's startup command is made to pass through the
    wrapper command, falling back to the image's defaults when the request gives no entrypoint. */
module Entrypoint {
  import opened ProxyConfig
  import opened Document

  /** What the container daemon answers when asked to inspect an image by name. */
  datatype ImageResult =
    | ImageNotFound
    | ImageError(reason: string)
    | ImageFound(cmd: seq<string>, entrypoint: seq<string>)

  /** An entrypoint counts as already wrapped when its first token is the wrapper's first token. */
  predicate Wrapped(cfg: Config, entrypoint: seq<string>)
  {
    |entrypoint| > 0 && entrypoint[0] == cfg.weaveWaitEntrypoint[0]
  }

  /** The entrypoint the container ends up with. */
  function Wrap(cfg: Config, entrypoint: seq<string>): seq<string>
  {
    if Wrapped(cfg, entrypoint) then entrypoint else cfg.weaveWaitEntrypoint + entrypoint
  }

  /** The wrapped entrypoint starts with the wrapper's first token and ends with the original
      entrypoint; an entrypoint that is not wrapped yet gets the whole wrapper in front. */
  lemma WrapShape(cfg: Config, entrypoint: seq<string>)
    ensures var r := Wrap(cfg, entrypoint);
      && Wrapped(cfg, r)
      && |r| >= |entrypoint|
      && r[|r| - |entrypoint|..] == entrypoint
      && (!Wrapped(cfg, entrypoint) ==> r == cfg.weaveWaitEntrypoint + entrypoint)
      && (Wrapped(cfg, entrypoint) ==> r == entrypoint)
  {
  }

  /** Wrapping an already wrapped entrypoint changes nothing. */
  lemma WrapIdempotent(cfg: Config, entrypoint: seq<string>)
    ensures Wrap(cfg, Wrap(cfg, entrypoint)) == Wrap(cfg, entrypoint)
  {
  }

  /** The four shapes of `Entrypoint`: absent or null is empty, a string `s` reads exactly
      like the array `[s]`, an array holding a non-string and every other shape are wrong-type
      errors naming Entrypoint. */
  lemma EntrypointShapes(d: Doc)
    ensures "Entrypoint" !in d || d["Entrypoint"].JNull? ==> LookupStringArray(d, "Entrypoint") == Ok([])
    ensures "Entrypoint" in d && d["Entrypoint"].JStr? ==>
      LookupStringArray(d, "Entrypoint") == LookupStringArray(d["Entrypoint" := JArr([d["Entrypoint"]])], "Entrypoint")
      == Ok([d["Entrypoint"].s])
    ensures "Entrypoint" in d && d["Entrypoint"].JArr? && !AllStrings(d["Entrypoint"].items) ==>
      LookupStringArray(d, "Entrypoint") == Err(WrongType("Entrypoint", StringOrArray, d["Entrypoint"]))
    ensures "Entrypoint" in d && !(d["Entrypoint"].JNull? || d["Entrypoint"].JStr? || d["Entrypoint"].JArr?) ==>
      LookupStringArray(d, "Entrypoint") == Err(WrongType("Entrypoint", StringOrArray, d["Entrypoint"]))
  {
    if "Entrypoint" in d && d["Entrypoint"].JStr? {
      var items := [d["Entrypoint"]];
      assert AllStrings(items);
      assert Texts(items) == [d["Entrypoint"].s];
    }
  }

  /** The normalisation loop over the `Entrypoint` field: absent or null is empty, a string is
      a one-token list, an array must hold only strings. */
  method NormaliseEntrypoint(d: Doc) returns (r: Result<seq<string>>)
    ensures r == LookupStringArray(d, "Entrypoint")
  {
    var entrypoint: seq<string> := [];
    if "Entrypoint" in d && !d["Entrypoint"].JNull? {
      var e := d["Entrypoint"];
      match e {
        case JStr(s) =>
          entrypoint := [s];
        case JArr(items) =>
          var i := 0;
          while i < |items|
            invariant 0 <= i <= |items|
            invariant AllStrings(items[..i])
            invariant entrypoint == Texts(items[..i])
          {
            if items[i].JStr? {
              entrypoint := entrypoint + [items[i].s];
            } else {
              assert !AllStrings(items);
              return Err(WrongType("Entrypoint", StringOrArray, e));
            }
            i := i + 1;
            assert items[..i] == items[..i - 1] + [items[i - 1]];
          }
          assert items[..i] == items;
        case _ =>
          return Err(WrongType("Entrypoint", StringOrArray, e));
      }
    }
    return Ok(entrypoint);
  }

  /** The last part of the policy, once the entrypoint and command are known: refuse a
      container with nothing to run, otherwise wrap the entrypoint unless it is wrapped. */
  function FinishEntrypoint(cfg: Config, entrypoint: seq<string>, cmd: seq<string>, d: Doc): (Doc, Option<Error>)
  {
    if |entrypoint| == 0 && |cmd| == 0 then (d, Some(NoCommandSpecified))
    else if Wrapped(cfg, entrypoint) then (d, None)
    else (d["Entrypoint" := StrArr(cfg.weaveWaitEntrypoint + entrypoint)], None)
  }

  /** What the wrapper policy does to the body, given how the daemon answers image
      inspections. The image is inspected only when the entrypoint is empty. */
  function EntrypointStep(cfg: Config, inspect: string -> ImageResult, d: Doc): (Doc, Option<Error>)
  {
    match LookupStringArray(d, "Entrypoint")
    case Err(e) => (d, Some(e))
    case Ok(entrypoint) =>
      match LookupStringArray(d, "Cmd")
      case Err(e) => (d, Some(e))
      case Ok(cmd) =>
        if |entrypoint| > 0 then FinishEntrypoint(cfg, entrypoint, cmd, d)
        else
          match LookupString(d, "Image")
          case Err(e) => (d, Some(e))
          case Ok(image) =>
            match inspect(image)
            case ImageNotFound => (d, Some(NoSuchImage(image)))
            case ImageError(reason) => (d, Some(InspectFailed(reason)))
            case ImageFound(imageCmd, imageEntrypoint) =>
              var cmd' := if |cmd| == 0 then imageCmd else cmd;
              var d1 := if |cmd| == 0 then d["Cmd" := StrArr(imageCmd)] else d;
              FinishEntrypoint(cfg, imageEntrypoint, cmd', d1["Entrypoint" := StrArr(imageEntrypoint)])
  }

  /** The entrypoint the request ends up running before wrapping: the request's own when it
      has one, otherwise the one of the image named by Image (empty if there is none). */
  function EffectiveEntrypoint(inspect: string -> ImageResult, d: Doc): seq<string>
    requires LookupStringArray(d, "Entrypoint").Ok?
  {
    var entrypoint := LookupStringArray(d, "Entrypoint").value;
    if |entrypoint| > 0 then entrypoint
    else match LookupString(d, "Image")
      case Ok(image) => if inspect(image).ImageFound? then inspect(image).entrypoint else []
      case Err(_) => []
  }

  /** On success the body's Entrypoint reads back as the wrapped effective entrypoint, and
      only Cmd and Entrypoint can have changed. */
  lemma EntrypointStepWraps(cfg: Config, inspect: string -> ImageResult, d: Doc)
    ensures var (d', err) := EntrypointStep(cfg, inspect, d);
      && SameExcept(d, d', {"Cmd", "Entrypoint"})
      && (err.None? ==>
            && LookupStringArray(d, "Entrypoint").Ok?
            && LookupStringArray(d', "Entrypoint") == Ok(Wrap(cfg, EffectiveEntrypoint(inspect, d))))
  {
    var (d', err) := EntrypointStep(cfg, inspect, d);
    if err.None? {
      var effective := EffectiveEntrypoint(inspect, d);
      StringListOfStrArr("Entrypoint", cfg.weaveWaitEntrypoint + effective);
      StringListOfStrArr("Entrypoint", effective);
    }
  }

  /** A non-empty entrypoint never consults the image: the outcome is the same whatever the
      daemon would answer. */
  lemma EntrypointStepIgnoresImage(cfg: Config, inspect: string -> ImageResult, other: string -> ImageResult, d: Doc)
    requires LookupStringArray(d, "Entrypoint").Ok? && |LookupStringArray(d, "Entrypoint").value| > 0
    ensures EntrypointStep(cfg, inspect, d) == EntrypointStep(cfg, other, d)
  {
  }

  /** A request with an entrypoint of its own keeps its Cmd exactly as it was, whether the
      wrapper succeeds or fails. */
  lemma EntrypointStepKeepsCmd(cfg: Config, inspect: string -> ImageResult, d: Doc)
    requires LookupStringArray(d, "Entrypoint").Ok? && |LookupStringArray(d, "Entrypoint").value| > 0
    ensures var (d', _) := EntrypointStep(cfg, inspect, d);
      && ("Cmd" in d <==> "Cmd" in d')
      && ("Cmd" in d ==> d'["Cmd"] == d["Cmd"])
  {
  }

  /** An image the daemon does not know fails with NoSuchImage carrying exactly the Image
      string, and nothing is written. */
  lemma EntrypointStepNoSuchImage(cfg: Config, inspect: string -> ImageResult, d: Doc)
    requires LookupStringArray(d, "Entrypoint") == Ok([])
    requires LookupStringArray(d, "Cmd").Ok?
    requires LookupString(d, "Image").Ok? && inspect(LookupString(d, "Image").value) == ImageNotFound
    ensures EntrypointStep(cfg, inspect, d) == (d, Some(NoSuchImage(LookupString(d, "Image").value)))
  {
  }

  /** With an empty entrypoint and a found image, Cmd takes the image's command only when the
      request's Cmd is empty, and is left as it was otherwise. */
  lemma EntrypointStepImageCmd(cfg: Config, inspect: string -> ImageResult, d: Doc)
    requires LookupStringArray(d, "Entrypoint") == Ok([])
    requires LookupStringArray(d, "Cmd").Ok?
    requires LookupString(d, "Image").Ok? && inspect(LookupString(d, "Image").value).ImageFound?
    ensures var (d', _) := EntrypointStep(cfg, inspect, d);
      var image := inspect(LookupString(d, "Image").value);
      && (|LookupStringArray(d, "Cmd").value| == 0 ==> LookupStringArray(d', "Cmd") == Ok(image.cmd))
      && (|LookupStringArray(d, "Cmd").value| > 0 ==> ("Cmd" in d' && d'["Cmd"] == d["Cmd"]))
  {
    StringListOfStrArr("Cmd", inspect(LookupString(d, "Image").value).cmd);
  }

  /** NoCommandSpecified happens exactly when the request has neither entrypoint nor command
      and the image supplies neither; the body is then left holding those empty lists,
      unwrapped. */
  lemma EntrypointStepNoCommand(cfg: Config, inspect: string -> ImageResult, d: Doc)
    requires LookupStringArray(d, "Entrypoint").Ok?
    requires LookupStringArray(d, "Cmd").Ok?
    requires LookupString(d, "Image").Ok?
    ensures var (d', err) := EntrypointStep(cfg, inspect, d);
      var image := inspect(LookupString(d, "Image").value);
      && (err == Some(NoCommandSpecified) <==>
            LookupStringArray(d, "Entrypoint") == Ok([]) && LookupStringArray(d, "Cmd") == Ok([])
            && image.ImageFound? && image.cmd == [] && image.entrypoint == [])
      && (err == Some(NoCommandSpecified) ==>
            LookupStringArray(d', "Entrypoint") == Ok([]) && LookupStringArray(d', "Cmd") == Ok([]))
  {
  }

  /** Running the wrapper again on a body it has already handled changes nothing and fails
      with nothing, whatever the daemon answers. */
  lemma EntrypointStepIdempotent(cfg: Config, inspect: string -> ImageResult, again: string -> ImageResult, d: Doc)
    requires EntrypointStep(cfg, inspect, d).1.None?
    ensures var d' := EntrypointStep(cfg, inspect, d).0;
      EntrypointStep(cfg, again, d') == (d', None)
  {
  }

  /** The wrapper on the shared body: reads Entrypoint and Cmd, consults the image only when
      the entrypoint is empty, and writes Cmd and Entrypoint in place. */
  method SetWeaveWaitEntrypoint(cfg: Config, inspect: string -> ImageResult, c: Container) returns (err: Option<Error>)
    modifies c
    ensures (c.doc, err) == EntrypointStep(cfg, inspect, old(c.doc))
  {
    var normalised := NormaliseEntrypoint(c.doc);
    if normalised.Err? {
      return Some(normalised.error);
    }
    var entrypoint := normalised.value;
    var lookedUp := LookupStringArray(c.doc, "Cmd");
    if lookedUp.Err? {
      return Some(lookedUp.error);
    }
    var cmd := lookedUp.value;

    if |entrypoint| == 0 {
      var containerImage := LookupString(c.doc, "Image");
      if containerImage.Err? {
        return Some(containerImage.error);
      }
      var image := inspect(containerImage.value);
      match image {
        case ImageNotFound =>
          return Some(NoSuchImage(containerImage.value));
        case ImageError(reason) =>
          return Some(InspectFailed(reason));
        case ImageFound(imageCmd, imageEntrypoint) =>
          if |cmd| == 0 {
            cmd := imageCmd;
            c.doc := c.doc["Cmd" := StrArr(cmd)];
          }
          entrypoint := imageEntrypoint;
          c.doc := c.doc["Entrypoint" := StrArr(entrypoint)];
      }
    }

    if |entrypoint| == 0 && |cmd| == 0 {
      return Some(NoCommandSpecified);
    }

    if |entrypoint| == 0 || entrypoint[0] != cfg.weaveWaitEntrypoint[0] {
      c.doc := c.doc["Entrypoint" := StrArr(cfg.weaveWaitEntrypoint + entrypoint)];
    }
    err := None;
  }
}
