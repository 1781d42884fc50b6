/**
 * Where the rackup script comes from (resolveRackupScript). The first candidate that
 * applies wins: the inline script; the configured path; a `config.ru` found below
 * `/WEB-INF/` at most one directory deep; `/config.ru` when its real path exists on disk.
 * A candidate path that cannot be read is fatal; no candidate at all is not an error.
 */
module RackupResolution {
  import opened Wrappers
  import opened Strings
  import opened RackContext
  import opened RackupSearch

  const SearchRoot: string := "/WEB-INF/"
  const RootConfigRu: string := "/config.ru"

  /** The resolved script text (null: none found) and its location label. */
  datatype ScriptLocation = ScriptLocation(script: Option<string>, location: Option<string>)

  /** RackInitializationException("failed to read rackup input") for the candidate `path`. */
  datatype ReadFailure = ReadFailure(path: string)

  /** `/config.ru` has a real path and a file exists there. */
  predicate RootConfigRuExists(ctx: ServletContext) {
    var realPath := GetRealPath(ctx, RootConfigRu);
    realPath.Some? && realPath.value in ctx.existingFiles
  }

  /** The directory `dir`, at most one level below `/WEB-INF/`, lists its `config.ru`. */
  ghost predicate SearchMatch(tree: ResourceTree, dir: string) {
    Within(tree, SearchRoot, dir, Budget(1)) && HasConfigRu(tree, dir)
  }

  /** The path of the script to read when no inline script is configured. */
  function RackupCandidate(ctx: ServletContext): (candidate: Option<string>)
    ensures candidate.Some? ==> candidate == ctx.config.rackupPath || EndsWith(candidate.value, ConfigRu)
  {
    if ctx.config.rackupPath.Some? then ctx.config.rackupPath
    else
      var found := Find(ctx.resourcePaths, SearchRoot, 1);
      if found.Some? then found
      else if RootConfigRuExists(ctx) then
        assert RootConfigRu == "/" + ConfigRu;
        EndsWithAppend("/", ConfigRu);
        Some(RootConfigRu)
      else None
  }

  /** The outcome of resolution: the script and its label, or the read failure that aborts it. */
  function Resolve(ctx: ServletContext): (r: Result<ScriptLocation, ReadFailure>)
    ensures r.Ok? && r.value.script.None? ==> r.value.location == Some(WebXml)
    ensures r.Err? ==> ctx.config.rackup.None? && RackupCandidate(ctx) == Some(r.error.path)
  {
    match ctx.config.rackup
    case Some(inline) => Ok(ScriptLocation(Some(inline), Some(WebXml)))
    case None =>
      match RackupCandidate(ctx)
      case None => Ok(ScriptLocation(None, Some(WebXml)))
      case Some(path) =>
        match ReadResource(ctx, path)
        case None => Err(ReadFailure(path))
        case Some(text) => Ok(ScriptLocation(Some(text), GetRealPath(ctx, path)))
  }

  /** An inline script wins over every other candidate, whatever the resources hold. */
  lemma InlineRackupWins(ctx: ServletContext)
    requires ctx.config.rackup.Some?
    ensures Resolve(ctx) == Ok(ScriptLocation(ctx.config.rackup, Some(WebXml)))
  {
  }

  /**
   * The order of the path candidates: the configured path; otherwise a `config.ru` in a
   * directory at most one level below `/WEB-INF/`; otherwise `/config.ru` if it exists.
   */
  lemma CandidatePrecedence(ctx: ServletContext)
    ensures ctx.config.rackupPath.Some? ==> RackupCandidate(ctx) == ctx.config.rackupPath
    ensures ctx.config.rackupPath.None? && (exists d :: SearchMatch(ctx.resourcePaths, d)) ==>
      exists d :: SearchMatch(ctx.resourcePaths, d) && RackupCandidate(ctx) == Some(d + ConfigRu)
    ensures ctx.config.rackupPath.None? && (forall d :: !SearchMatch(ctx.resourcePaths, d)) ==>
      RackupCandidate(ctx) == if RootConfigRuExists(ctx) then Some(RootConfigRu) else None
    ensures ctx.config.rackupPath.None? && RackupCandidate(ctx).None? <==>
      ctx.config.rackupPath.None? && !RootConfigRuExists(ctx) && forall d :: !SearchMatch(ctx.resourcePaths, d)
  {
    var tree := ctx.resourcePaths;
    if ctx.config.rackupPath.None? {
      var found := Find(tree, SearchRoot, 1);
      FindSucceedsIffWithinBudget(tree, SearchRoot, 1);
      if found.Some? {
        FindSound(tree, SearchRoot, 1);
        var d :| Within(tree, SearchRoot, d, Budget(1)) && HasConfigRu(tree, d) && found.value == d + ConfigRu;
        assert SearchMatch(tree, d) && RackupCandidate(ctx) == Some(d + ConfigRu);
      } else {
        assert RackupCandidate(ctx) == (if RootConfigRuExists(ctx) then Some(RootConfigRu) else None);
      }
    }
  }

  /**
   * Resolution fails exactly when no inline script is configured and the winning candidate
   * cannot be read; the failure names that candidate, so no later candidate is tried.
   */
  lemma ReadFailureIsFatal(ctx: ServletContext)
    ensures Resolve(ctx).Err? <==>
      ctx.config.rackup.None? && RackupCandidate(ctx).Some? && ReadResource(ctx, RackupCandidate(ctx).value).None?
    ensures Resolve(ctx).Err? ==> Some(Resolve(ctx).error.path) == RackupCandidate(ctx)
  {
  }

  /**
   * No script is found, which is not an error, exactly when nothing is configured, no
   * directory within one level of `/WEB-INF/` lists its `config.ru` and `/config.ru` does not
   * exist; the label then stays `<web.xml>`.
   */
  lemma NothingFoundIsNotAnError(ctx: ServletContext)
    ensures Resolve(ctx) == Ok(ScriptLocation(None, Some(WebXml))) <==>
      ctx.config.rackup.None? && ctx.config.rackupPath.None? && !RootConfigRuExists(ctx) &&
      forall d :: !SearchMatch(ctx.resourcePaths, d)
  {
    CandidatePrecedence(ctx);
  }

  /** A script read from a candidate path is labelled with that path's real path. */
  lemma ReadScriptIsLabelledWithRealPath(ctx: ServletContext)
    requires ctx.config.rackup.None? && Resolve(ctx).Ok? && Resolve(ctx).value.script.Some?
    ensures RackupCandidate(ctx).Some?
    ensures Resolve(ctx).value == ScriptLocation(ReadResource(ctx, RackupCandidate(ctx).value), GetRealPath(ctx, RackupCandidate(ctx).value))
  {
  }

  /** With a configured path, the resource tree and the file system are never consulted. */
  lemma ConfiguredPathIgnoresSearch(ctx: ServletContext, tree: ResourceTree, files: set<string>)
    requires ctx.config.rackupPath.Some?
    ensures Resolve(ctx) == Resolve(ctx.(resourcePaths := tree, existingFiles := files))
  {
  }

  /** A script found by the search is the text of a `config.ru` entry. */
  lemma SearchedScriptIsConfigRu(ctx: ServletContext)
    requires ctx.config.rackup.None? && ctx.config.rackupPath.None?
    requires Find(ctx.resourcePaths, SearchRoot, 1).Some?
    ensures EndsWith(RackupCandidate(ctx).value, ConfigRu)
    ensures Resolve(ctx) == (var path := RackupCandidate(ctx).value;
      if path in ctx.resources then Ok(ScriptLocation(Some(ctx.resources[path]), GetRealPath(ctx, path)))
      else Err(ReadFailure(path)))
  {
  }
}
