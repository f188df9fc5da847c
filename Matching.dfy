/** The reuse check `matchInstance`: environment, then image, then flavor,
    each stage cheap-first (literal comparison) and resolving names through
    the provider only when the literal differs. The lookups a decision made
    are recorded so that the order and the skipped resolutions can be stated. */
module Matching {
  import opened Base
  import opened JavaText
  import opened Cloud

  /** A name-to-id resolution the matcher asked the provider for. */
  datatype Lookup =
    | ImageIdLookup(name: string)
    | PreviousImageIdLookup(name: string)
    | FlavorIdLookup(name: string)

  /** The provider's name resolution. `imageId` is None when it throws
      ImageNotFoundException; `previousImageId` is None when it returns null. */
  datatype Resolver = Resolver(
    imageId: string -> Option<string>,
    previousImageId: string -> Option<string>,
    flavorId: string -> string)

  /** What a job asks for: its environment (may be null) and the image and
      flavor names or ids chosen from its properties or the settings. */
  datatype Request = Request(
    environment: Option<string>,
    image: string,
    flavor: string,
    usePreviousImageId: bool)

  datatype Decision = Decision(matched: bool, lookups: seq<Lookup>)

  /** Environments agree after stripping (null as "") and ignoring case. */
  predicate EnvironmentsMatch(requested: Option<string>, agent: Option<string>) {
    EqualsIgnoreCase(StripToEmpty(requested), StripToEmpty(agent))
  }

  /** The image stage: literal, then resolved id, then (only when enabled)
      the previous image id. Image-not-found is a non-match. */
  function ImageStage(req: Request, inst: Instance, res: Resolver): Decision {
    if req.image == inst.imageIdOrName then Decision(true, [])
    else
      match res.imageId(req.image)
      case None => Decision(false, [ImageIdLookup(req.image)])
      case Some(id) =>
        if id == inst.imageIdOrName then Decision(true, [ImageIdLookup(req.image)])
        else if req.usePreviousImageId then
          var previous := StripToEmpty(res.previousImageId(req.image));
          Decision(previous == inst.imageIdOrName, [ImageIdLookup(req.image), PreviousImageIdLookup(req.image)])
        else Decision(false, [ImageIdLookup(req.image)])
  }

  /** The flavor stage: literal, then resolved id. */
  function FlavorStage(req: Request, inst: Instance, res: Resolver): Decision {
    if req.flavor == inst.flavorIdOrName then Decision(true, [])
    else Decision(res.flavorId(req.flavor) == inst.flavorIdOrName, [FlavorIdLookup(req.flavor)])
  }

  /** `matchInstance` on the registry's answer for the id. */
  function MatchFound(found: Option<Instance>, req: Request, res: Resolver): (d: Decision)
    ensures found.None? ==> !d.matched && d.lookups == []
    ensures found.Some? && !EnvironmentsMatch(req.environment, found.value.environment) ==>
              !d.matched && d.lookups == []
  {
    match found
    case None => Decision(false, [])
    case Some(inst) =>
      if !EnvironmentsMatch(req.environment, inst.environment) then Decision(false, [])
      else
        var image := ImageStage(req, inst, res);
        if !image.matched then image
        else
          var flavor := FlavorStage(req, inst, res);
          Decision(flavor.matched, image.lookups + flavor.lookups)
  }

  /** The image is acceptable: literally, by resolved id, or (when enabled and
      the image exists) by the previous image id. */
  predicate ImageAccepted(req: Request, inst: Instance, res: Resolver) {
    || req.image == inst.imageIdOrName
    || res.imageId(req.image) == Some(inst.imageIdOrName)
    || (req.usePreviousImageId && res.imageId(req.image).Some?
        && StripToEmpty(res.previousImageId(req.image)) == inst.imageIdOrName)
  }

  predicate FlavorAccepted(req: Request, inst: Instance, res: Resolver) {
    req.flavor == inst.flavorIdOrName || res.flavorId(req.flavor) == inst.flavorIdOrName
  }

  /** The staged chain accepts exactly when all three conditions hold. */
  lemma MatchExactlyWhenAllStagesAccept(inst: Instance, req: Request, res: Resolver)
    ensures MatchFound(Some(inst), req, res).matched <==>
              EnvironmentsMatch(req.environment, inst.environment)
              && ImageAccepted(req, inst, res) && FlavorAccepted(req, inst, res)
  {
  }

  /** A literal match skips name resolution completely. */
  lemma LiteralMatchResolvesNothing(inst: Instance, req: Request, res: Resolver)
    requires req.image == inst.imageIdOrName && req.flavor == inst.flavorIdOrName
    ensures MatchFound(Some(inst), req, res).lookups == []
  {
  }

  /** What the image stage may look up, and when. */
  lemma ImageStageLookups(req: Request, inst: Instance, res: Resolver)
    ensures forall l :: l in ImageStage(req, inst, res).lookups ==>
              !l.FlavorIdLookup? && req.image != inst.imageIdOrName
              && (l.PreviousImageIdLookup? ==>
                    req.usePreviousImageId && res.imageId(req.image).Some?
                    && res.imageId(req.image) != Some(inst.imageIdOrName))
  {
  }

  /** The previous image id is consulted only when the policy asks for it,
      only after the resolved id failed, and never for an unknown image; the
      image is resolved only when the literal differs; the flavor is resolved
      only once the image stage has passed and the literal flavor differs. */
  lemma LookupDiscipline(found: Option<Instance>, req: Request, res: Resolver)
    ensures forall l :: l in MatchFound(found, req, res).lookups ==>
              && found.Some?
              && (l.ImageIdLookup? ==> req.image != found.value.imageIdOrName)
              && (l.PreviousImageIdLookup? ==>
                    req.usePreviousImageId && res.imageId(req.image).Some?
                    && res.imageId(req.image) != Some(found.value.imageIdOrName))
              && (l.FlavorIdLookup? ==>
                    ImageAccepted(req, found.value, res) && req.flavor != found.value.flavorIdOrName)
  {
    if found.Some? && EnvironmentsMatch(req.environment, found.value.environment) {
      var inst := found.value;
      ImageStageLookups(req, inst, res);
      var image := ImageStage(req, inst, res);
      if image.matched {
        var flavor := FlavorStage(req, inst, res);
        assert MatchFound(found, req, res).lookups == image.lookups + flavor.lookups;
        assert ImageAccepted(req, inst, res);
      }
    }
  }

  /** Reflexivity: an instance matches a request asking again for its own
      environment, image and flavor. */
  lemma MatchesOwnRequest(inst: Instance, res: Resolver, usePrevious: bool)
    ensures MatchFound(Some(inst), Request(inst.environment, inst.imageIdOrName, inst.flavorIdOrName, usePrevious), res)
            == Decision(true, [])
  {
    EqualsIgnoreCaseIsEquivalence(StripToEmpty(inst.environment), StripToEmpty(inst.environment), StripToEmpty(inst.environment));
  }

  /** Two request environments that agree after stripping and case folding
      agree with every agent environment alike. */
  lemma EnvironmentsMatchRespectsFolding(x: Option<string>, y: Option<string>, agent: Option<string>)
    requires EqualsIgnoreCase(StripToEmpty(x), StripToEmpty(y))
    ensures EnvironmentsMatch(x, agent) <==> EnvironmentsMatch(y, agent)
  {
    var a := StripToEmpty(x);
    var b := StripToEmpty(y);
    var c := StripToEmpty(agent);
    EqualsIgnoreCaseIsEquivalence(a, b, c);
    EqualsIgnoreCaseIsEquivalence(b, a, c);
  }

  /** Only the environment's stripped, case-folded form matters: two request
      environments that agree that way get the same decision. */
  lemma EnvironmentCaseInsensitive(found: Option<Instance>, req: Request, env: Option<string>, res: Resolver)
    requires EqualsIgnoreCase(StripToEmpty(req.environment), StripToEmpty(env))
    ensures MatchFound(found, req, res) == MatchFound(found, req.(environment := env), res)
  {
    if found.Some? {
      var req' := req.(environment := env);
      EnvironmentsMatchRespectsFolding(req.environment, env, found.value.environment);
      assert ImageStage(req, found.value, res) == ImageStage(req', found.value, res);
      assert FlavorStage(req, found.value, res) == FlavorStage(req', found.value, res);
    }
  }

  /** An absent environment and an empty one are the same to the matcher. */
  lemma AbsentEnvironmentIsEmpty(found: Option<Instance>, req: Request, res: Resolver)
    requires req.environment.None?
    ensures MatchFound(found, req, res) == MatchFound(found, req.(environment := Some("")), res)
  {
    EnvironmentCaseInsensitive(found, req, Some(""), res);
  }

  /** " PROD " and "prod" name the same environment. */
  lemma PaddedUpperCaseEnvironmentMatches()
    ensures EnvironmentsMatch(Some(" PROD "), Some("prod"))
  {
    assert " PROD "[1..] == "PROD ";
    assert StripStart(" PROD ") == "PROD ";
    assert "PROD "[..4] == "PROD";
    assert StripEnd("PROD ") == "PROD";
    assert StripStart("prod") == "prod";
    assert StripEnd("prod") == "prod";
    EqualsIgnoreCaseByCharacters("PROD", "prod");
    assert ToLower('P') == 'p' && ToLower('R') == 'r' && ToLower('O') == 'o' && ToLower('D') == 'd';
    assert forall i :: 0 <= i < 4 ==> ToLower("PROD"[i]) == ToLower("prod"[i]);
  }

  /** A stored image "img-123" matches a request for "web-image" when
      "web-image" resolves to "img-123", without the previous-image fallback. */
  lemma ResolvedImageNameMatches(inst: Instance, res: Resolver)
    requires inst.imageIdOrName == "img-123" && inst.flavorIdOrName == "m1.small"
    requires inst.environment == Some("prod")
    requires res.imageId("web-image") == Some("img-123")
    ensures MatchFound(Some(inst), Request(Some(" PROD "), "web-image", "m1.small", true), res)
            == Decision(true, [ImageIdLookup("web-image")])
  {
    var req := Request(Some(" PROD "), "web-image", "m1.small", true);
    PaddedUpperCaseEnvironmentMatches();
    assert req.image != inst.imageIdOrName;
    assert ImageStage(req, inst, res) == Decision(true, [ImageIdLookup("web-image")]);
    assert FlavorStage(req, inst, res) == Decision(true, []);
  }
}
