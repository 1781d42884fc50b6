/**
 * The shared error application: which script it runs (createErrorApplicationObject) and
 * what kind of application newErrorApplication hands back. Neither ever fails: a read
 * failure falls back to the built-in script, a construction failure to the minimal
 * application that has no runtime.
 */
module ErrorApplication {
  import opened Wrappers
  import opened RackContext
  import opened ServletWrapper

  /** The built-in error application script. */
  const DefaultErrorApp: string :=
    "require 'jruby/rack/error_app' \nuse Rack::ShowStatus \nrun JRuby::Rack::ErrorApp.new"

  /** The script of the error application and the file name it is evaluated under. */
  datatype ErrorScript = ErrorScript(script: string, fileName: Option<string>)

  /** What an error application object of this model is. */
  datatype AppKind =
    | MinimalErrorApp                       // DefaultErrorApplication without a runtime
    | RuntimeErrorApp(handler: Handler)     // an error application built from a script

  /** `jruby.rack.error` is set to false; absent or true leaves the error application enabled. */
  predicate ErrorAppDisabled(config: RackConfig) {
    config.errorEnabled == Some(false)
  }

  /** The source choice of the error application: inline, then path, then the built-in script. */
  function ErrorAppSource(ctx: ServletContext): (s: ErrorScript)
    ensures s.fileName.None? ==> ctx.config.errorApp.None? && ctx.config.errorAppPath.Some?
    ensures s.script == DefaultErrorApp || Some(s.script) == ctx.config.errorApp ||
      (ctx.config.errorAppPath.Some? && Some(s.script) == ReadResource(ctx, ctx.config.errorAppPath.value))
  {
    var config := ctx.config;
    if config.errorApp.Some? then ErrorScript(config.errorApp.value, Some(WebXml))
    else if config.errorAppPath.Some? then
      var path := config.errorAppPath.value;
      match ReadResource(ctx, path)
      case Some(text) => ErrorScript(text, GetRealPath(ctx, path))
      case None => ErrorScript(DefaultErrorApp, None)
    else ErrorScript(DefaultErrorApp, Some(WebXml))
  }

  /** The handler createErrorApplicationObject builds: the chosen script, wrapped, under its file name. */
  function ErrorApplicationHandler(ctx: ServletContext): (h: Handler)
    ensures ExtractRackup(h.source) == Some(ErrorAppSource(ctx).script)
    ensures h.fileName == ErrorAppSource(ctx).fileName
  {
    var chosen := ErrorAppSource(ctx);
    ExtractWrapperSource(chosen.script);
    Handler(WrapperSource(chosen.script), chosen.fileName)
  }

  /**
   * The error application newErrorApplication builds; `constructionFails` is whether
   * creating its runtime or evaluating its script throws.
   */
  function NewErrorApplicationKind(ctx: ServletContext, constructionFails: bool): (kind: AppKind)
    ensures kind.RuntimeErrorApp? ==> !ErrorAppDisabled(ctx.config) && !constructionFails
    ensures kind.RuntimeErrorApp? ==> ExtractRackup(kind.handler.source) == Some(ErrorAppSource(ctx).script)
  {
    if ErrorAppDisabled(ctx.config) then MinimalErrorApp
    else if constructionFails then MinimalErrorApp
    else RuntimeErrorApp(ErrorApplicationHandler(ctx))
  }

  /** An inline error application wins and is labelled `<web.xml>`. */
  lemma InlineErrorAppWins(ctx: ServletContext)
    requires ctx.config.errorApp.Some?
    ensures ErrorAppSource(ctx) == ErrorScript(ctx.config.errorApp.value, Some(WebXml))
  {
  }

  /** A readable configured path gives that resource's text, labelled with its real path. */
  lemma ErrorAppPathIsRead(ctx: ServletContext)
    requires ctx.config.errorApp.None? && ctx.config.errorAppPath.Some?
    requires ReadResource(ctx, ctx.config.errorAppPath.value).Some?
    ensures ErrorAppSource(ctx) ==
      ErrorScript(ReadResource(ctx, ctx.config.errorAppPath.value).value, GetRealPath(ctx, ctx.config.errorAppPath.value))
  {
  }

  /**
   * The built-in script is used whenever neither an inline script nor a readable path is
   * configured; its label is `<web.xml>` when no path was configured and null when the
   * configured path could not be read.
   */
  lemma ErrorAppFallsBackToDefault(ctx: ServletContext)
    requires ctx.config.errorApp.None?
    requires ctx.config.errorAppPath.None? || ReadResource(ctx, ctx.config.errorAppPath.value).None?
    ensures ErrorAppSource(ctx).script == DefaultErrorApp
    ensures ErrorAppSource(ctx).fileName == if ctx.config.errorAppPath.None? then Some(WebXml) else None
  {
  }

  /** The label is null only when the configured path is unreadable or has no real path. */
  lemma ErrorAppLabelIsNullOnlyForPath(ctx: ServletContext)
    ensures ErrorAppSource(ctx).fileName.None? <==>
      ctx.config.errorApp.None? && ctx.config.errorAppPath.Some? &&
      (ReadResource(ctx, ctx.config.errorAppPath.value).None? || GetRealPath(ctx, ctx.config.errorAppPath.value).None?)
  {
  }

  /**
   * The minimal application is built exactly when the error application is disabled or its
   * construction fails; otherwise the application runs the chosen script.
   */
  lemma MinimalExactlyWhenDisabledOrFailed(ctx: ServletContext, constructionFails: bool)
    ensures NewErrorApplicationKind(ctx, constructionFails) == MinimalErrorApp <==>
      ErrorAppDisabled(ctx.config) || constructionFails
    ensures NewErrorApplicationKind(ctx, constructionFails) != MinimalErrorApp ==>
      NewErrorApplicationKind(ctx, constructionFails) == RuntimeErrorApp(ErrorApplicationHandler(ctx))
  {
  }

  /** Disabling the error application means no script is chosen, whatever else is configured. */
  lemma DisabledIgnoresConstruction(ctx: ServletContext, fails1: bool, fails2: bool)
    requires ErrorAppDisabled(ctx.config)
    ensures NewErrorApplicationKind(ctx, fails1) == NewErrorApplicationKind(ctx, fails2) == MinimalErrorApp
  {
  }
}
