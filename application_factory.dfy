/**
 * DefaultRackApplicationFactory: the factory's own state (the servlet context, the resolved
 * rackup script and its location, the runtime configuration and the shared error
 * application) and the operations that update it. Runtimes are not modelled: an
 * application is an opaque object that counts the destroy() calls it receives.
 */
module ApplicationFactory {
  import opened Wrappers
  import opened RackContext
  import opened RackupSearch
  import opened RackupResolution
  import opened ErrorApplication
  import opened BufferDefaults
  import opened RuntimeSetup
  import opened ServletWrapper

  /** An application handed out by the factory. */
  class RackApplication {
    const kind: AppKind
    var destroyCalls: nat

    constructor (kind: AppKind)
      ensures this.kind == kind && destroyCalls == 0
    {
      this.kind := kind;
      destroyCalls := 0;
    }

    /** Tears the application's runtime down (a no-op for the minimal error application). */
    method Destroy()
      modifies this
      ensures destroyCalls == old(destroyCalls) + 1
    {
      destroyCalls := destroyCalls + 1;
    }
  }

  /** The process-wide settings init writes: the management system property and the buffer sizes. */
  datatype InitEffects = InitEffects(managementProperty: Option<string>, bufferSizes: BufferSizes)

  class DefaultRackApplicationFactory {
    var rackContext: Option<ServletContext>
    var rackupScript: Option<string>
    var rackupLocation: Option<string>
    var runtimeConfig: Option<RuntimeConfig>
    var errorApplication: Option<RackApplication>
    /** How many error applications newErrorApplication has built. */
    ghost var constructions: nat
    /** How many error applications destroy() has torn down. */
    ghost var teardowns: nat

    constructor ()
      ensures rackContext == None && rackupScript == None && rackupLocation == None
      ensures runtimeConfig == None && errorApplication == None
      ensures constructions == 0 && teardowns == 0
    {
      rackContext, rackupScript, rackupLocation := None, None, None;
      runtimeConfig, errorApplication := None, None;
      constructions, teardowns := 0, 0;
    }

    /**
     * init: resolve the rackup script, then build the runtime configuration and install the
     * buffer sizes. A rackup read failure is thrown before anything after it happens.
     */
    method Init(ctx: ServletContext, homeResource: Option<HomeResource>, managementProperty: Option<string>,
                bufferDefaults: BufferSizes)
      returns (result: Result<InitEffects, ReadFailure>)
      modifies this`rackContext, this`rackupScript, this`rackupLocation, this`runtimeConfig
      ensures rackContext == Some(ctx)
      ensures match Resolve(ctx)
        case Ok(found) =>
          rackupScript == found.script && rackupLocation == found.location &&
          runtimeConfig == Some(CreateRuntimeConfig(ctx.config, homeResource)) &&
          result == Ok(InitEffects(ManagementProperty(managementProperty), EffectiveBufferSizes(ctx.config, bufferDefaults)))
        case Err(failure) =>
          result == Err(failure) && rackupScript == old(rackupScript) &&
          rackupLocation == GetRealPath(ctx, failure.path) && runtimeConfig == old(runtimeConfig)
    {
      rackContext := Some(ctx);
      var resolved := ResolveRackupScript();
      if resolved.Err? {
        return Err(resolved.error);
      }
      var management := ManagementProperty(managementProperty);
      runtimeConfig := Some(CreateRuntimeConfig(ctx.config, homeResource));
      var sizes := ConfigureDefaults(ctx.config, bufferDefaults);
      result := Ok(InitEffects(management, sizes));
    }

    /** resolveRackupScript: the candidates in order; the script and its location are stored. */
    method ResolveRackupScript() returns (result: Result<Option<string>, ReadFailure>)
      requires rackContext.Some?
      modifies this`rackupScript, this`rackupLocation
      ensures match Resolve(rackContext.value)
        case Ok(found) => result == Ok(found.script) && rackupScript == found.script && rackupLocation == found.location
        case Err(failure) =>
          result == Err(failure) && rackupScript == old(rackupScript) &&
          rackupLocation == GetRealPath(rackContext.value, failure.path)
    {
      var ctx := rackContext.value;
      rackupLocation := Some(WebXml);
      var rackup := ctx.config.rackup;
      if rackup.None? {
        rackup := ctx.config.rackupPath;
        if rackup.None? {
          rackup := FindConfigRuPathInSubDirectories(ctx.resourcePaths, SearchRoot, 1);
        }
        if rackup.None? {
          var rackupPath := GetRealPath(ctx, RootConfigRu);
          if rackupPath.Some? && rackupPath.value in ctx.existingFiles {
            rackup := Some(RootConfigRu);
          }
        }
        if rackup.Some? {
          var path := rackup.value;
          rackupLocation := GetRealPath(ctx, path);
          var text := ReadResource(ctx, path);
          if text.None? {
            return Err(ReadFailure(path));
          }
          rackup := text;
        }
      }
      rackupScript := rackup;
      result := Ok(rackup);
    }

    /**
     * createApplicationObject: a missing rackup script becomes the empty script, for good.
     * With no script the source logs a warning through the context, so the context must be set.
     */
    method CreateApplicationObject() returns (handler: Handler)
      requires rackContext.Some? || rackupScript.Some?
      modifies this`rackupScript
      ensures rackupScript == Some(old(rackupScript).GetOr(""))
      ensures handler == Handler(WrapperSource(rackupScript.value), rackupLocation)
    {
      if rackupScript.None? {
        rackupScript := Some("");
      }
      handler := Handler(WrapperSource(rackupScript.value), rackupLocation);
    }

    /** finishedWithApplication: destroys the application once; null is ignored. */
    method FinishedWithApplication(app: Option<RackApplication>)
      modifies if app.Some? then {app.value} else {}
      ensures app.Some? ==> app.value.destroyCalls == old(app.value.destroyCalls) + 1
    {
      if app.Some? {
        app.value.Destroy();
      }
    }

    /** newErrorApplication: never fails; disabled or failed construction gives the minimal application. */
    method NewErrorApplication(constructionFails: bool) returns (app: RackApplication)
      requires rackContext.Some?
      modifies this`constructions
      ensures fresh(app) && app.destroyCalls == 0
      ensures app.kind == NewErrorApplicationKind(rackContext.value, constructionFails)
      ensures constructions == old(constructions) + 1
    {
      var ctx := rackContext.value;
      if ErrorAppDisabled(ctx.config) {
        app := new RackApplication(MinimalErrorApp);
      } else if constructionFails {
        app := new RackApplication(MinimalErrorApp);
      } else {
        app := new RackApplication(RuntimeErrorApp(ErrorApplicationHandler(ctx)));
      }
      constructions := constructions + 1;
    }

    /**
     * getErrorApplication: the stored error application, built on first use, for one caller
     * at a time. Under concurrency the source does not reduce to this: a `destroy()` racing
     * `getErrorApplication()` can make it return null, because line 128 reads the field
     * outside the lock.
     */
    method GetErrorApplication(constructionFails: bool) returns (app: RackApplication)
      requires errorApplication.Some? || rackContext.Some?
      modifies this`errorApplication, this`constructions
      ensures errorApplication == Some(app)
      ensures old(errorApplication).Some? ==> app == old(errorApplication).value && constructions == old(constructions)
      ensures old(errorApplication).None? ==>
        fresh(app) && app.destroyCalls == 0 && constructions == old(constructions) + 1 &&
        app.kind == NewErrorApplicationKind(rackContext.value, constructionFails)
    {
      if errorApplication.None? {
        var created := NewErrorApplication(constructionFails);
        errorApplication := Some(created);
      }
      app := errorApplication.value;
    }

    /** setErrorApplication: pre-seeds (or clears, with null) the error application. */
    method SetErrorApplication(app: Option<RackApplication>)
      modifies this`errorApplication
      ensures errorApplication == app
    {
      errorApplication := app;
    }

    /** destroy: the current error application, if any, is destroyed once and forgotten. */
    method Destroy()
      modifies this`errorApplication, this`teardowns, if errorApplication.Some? then {errorApplication.value} else {}
      ensures errorApplication == None
      ensures old(errorApplication).Some? ==>
        old(errorApplication).value.destroyCalls == old(errorApplication.value.destroyCalls) + 1 &&
        teardowns == old(teardowns) + 1
      ensures old(errorApplication).None? ==> teardowns == old(teardowns)
    {
      if errorApplication.Some? {
        errorApplication.value.Destroy();
        errorApplication := None;
        teardowns := teardowns + 1;
      }
    }
  }

  /**
   * A factory's error application over its life: built once on first use and shared by
   * later calls, destroyed exactly once by two destroy() calls, built anew afterwards.
   */
  method ErrorApplicationLifecycle(ctx: ServletContext) returns (first: RackApplication, again: RackApplication, rebuilt: RackApplication)
    ensures first == again && first != rebuilt
    ensures first.destroyCalls == 1 && rebuilt.destroyCalls == 0
    ensures first.kind == NewErrorApplicationKind(ctx, false) && rebuilt.kind == first.kind
  {
    var factory := new DefaultRackApplicationFactory();
    var _ := factory.Init(ctx, None, None, BufferSizes(0, 0));
    first := factory.GetErrorApplication(false);
    again := factory.GetErrorApplication(true);
    factory.Destroy();
    factory.Destroy();
    assert factory.teardowns == 1;
    rebuilt := factory.GetErrorApplication(false);
  }

  /** A pre-seeded error application is returned as it is, and nothing is built. */
  method SeededErrorApplication(seed: RackApplication, constructionFails: bool) returns (app: RackApplication, ghost built: nat)
    ensures app == seed
    ensures built == 0
  {
    var factory := new DefaultRackApplicationFactory();
    factory.SetErrorApplication(Some(seed));
    app := factory.GetErrorApplication(constructionFails);
    built := factory.constructions;
  }
}
