# DefaultRackApplicationFactory, modelled in Dafny

This project models the logic of jruby-rack's `DefaultRackApplicationFactory`. That is the
factory that resolves a web application's rackup script, sets up the runtime configuration
and the request-body buffer sizes, and owns the shared error application. The parts modelled:

- **Rackup resolution** (`rackup_search.dfy`, `rackup_resolution.dfy`). Candidates are tried
  in order: the inline script, the configured path, a `config.ru` search below `/WEB-INF/`
  at most one directory deep, then `/config.ru` if it exists on disk. The resource tree is a
  map from a directory path to its entries in enumeration order. Real paths, file existence
  and resource reads are oracles in `RackContext.ServletContext`. The search is a recursive
  method whose loop walks the entries. It is proved equal to the specification function
  `Find`, which the lemmas characterise:
  - soundness and completeness within the depth budget;
  - first match in enumeration order;
  - every result ends in `config.ru`.
- **Error application** (`error_application.dfy`). The script choice is inline, then path,
  then the built-in script. The kind of application built is the minimal one when disabled
  or when construction fails.
- **Factory state** (`application_factory.dfy`). A class with the factory's fields. Methods
  `Init`, `ResolveRackupScript`, `CreateApplicationObject`, `FinishedWithApplication`,
  `NewErrorApplication`, `GetErrorApplication`, `SetErrorApplication` and `Destroy` update
  those fields. Ghost counters record error-application constructions and teardowns.
  Applications are opaque objects that count the `destroy()` calls they receive.
- **Buffer sizes** (`buffer_defaults.dfy`): defaulting, then clamping initial to maximum.
- **Helpers**:
  - decorator unwrapping (`factory_chain.dfy`);
  - the servlet-handler source string (`servlet_wrapper.dfy`);
  - the `jruby.management.enabled` rule, the jruby.home trailing-slash trim and the runtime
    configuration (`runtime_setup.dfy`).

Two notes on what the code does:

- The error application's file name starts as `<web.xml>` (line 161 of
  `DefaultRackApplicationFactory.java`). For a configured path it becomes that path's real
  path, which is null when the path has no real path (line 165). It is set to null when the
  path cannot be read (the catch at line 173). So the built-in error script runs under the
  name `<web.xml>` when neither an inline script nor a path is configured.
- `finishedWithApplication` and `destroy` call `destroy()` on the application every time
  they reach it. Whether a second teardown of the same runtime is harmless is the runtime's
  business, so the model counts calls rather than assuming idempotence.

## Model

| member | source | states |
|---|---|---|
| RackupSearch.Find | src/main/java/org/jruby/rack/DefaultRackApplicationFactory.java:372-395 | every non-null search result ends in `config.ru` |
| RackupSearch.OwnConfigRuFirst | src/main/java/org/jruby/rack/DefaultRackApplicationFactory.java:376-379 | a directory listing its own `config.ru` yields `path + "config.ru"` at any level, before any subdirectory is searched |
| RackupSearch.FirstInSubdirs | src/main/java/org/jruby/rack/DefaultRackApplicationFactory.java:383-391 | every match returned by the walk over the entries ends in `config.ru` |
| RackupSearch.FindConfigRuPathInSubDirectories | src/main/java/org/jruby/rack/DefaultRackApplicationFactory.java:372-395 | the looping search returns exactly the specified result `Find` (null when the path has no entries, own `config.ru` first, then subdirectories in order) |
| RackupSearch.FindSound | src/main/java/org/jruby/rack/DefaultRackApplicationFactory.java:372-395 | a result is `d + "config.ru"` for a directory `d` that lists it and lies at most `level` directory entries below the start |
| RackupSearch.FirstInSubdirsSound | src/main/java/org/jruby/rack/DefaultRackApplicationFactory.java:383-391 | a match of the walk comes from a directory entry (one ending in `/`) and lies within the remaining depth |
| RackupSearch.FirstInSubdirsFinds | src/main/java/org/jruby/rack/DefaultRackApplicationFactory.java:383-391 | if any directory entry's own search succeeds, the walk returns a match |
| RackupSearch.FindComplete | src/main/java/org/jruby/rack/DefaultRackApplicationFactory.java:372-395 | a `config.ru` listed by a directory within `level` descents is always found |
| RackupSearch.FindSucceedsIffWithinBudget | src/main/java/org/jruby/rack/DefaultRackApplicationFactory.java:381-391 | the search succeeds if and only if some directory within `level` descents lists its `config.ru` (nothing deeper is found) |
| RackupSearch.FirstInSubdirsIsFirstMatch | src/main/java/org/jruby/rack/DefaultRackApplicationFactory.java:383-390 | the walk returns `r` if and only if `r` is the result of the first directory entry whose search succeeds, in enumeration order |
| RackupSearch.SearchFindsOneLevelBelow | src/main/java/org/jruby/rack/DefaultRackApplicationFactory.java:405 | starting at `/WEB-INF/` with level 1, a `config.ru` one directory below is found |
| RackupSearch.SearchMissesTwoLevelsBelow | src/main/java/org/jruby/rack/DefaultRackApplicationFactory.java:405 | starting at `/WEB-INF/` with level 1, a `config.ru` two directories below is not found (level 2 finds it) |
| RackupResolution.RackupCandidate | src/main/java/org/jruby/rack/DefaultRackApplicationFactory.java:401-413 | the path candidate: the configured path, or else a path ending in `config.ru` (the search result or `/config.ru`); its order is characterised by `CandidatePrecedence` |
| RackupResolution.Resolve | src/main/java/org/jruby/rack/DefaultRackApplicationFactory.java:397-428 | the outcome of resolution: a missing script always carries the location `<web.xml>`, and a failure only comes from the path candidate with no inline script; characterised by `InlineRackupWins`, `ReadFailureIsFatal`, `NothingFoundIsNotAnError`, `ReadScriptIsLabelledWithRealPath` and `ConfiguredPathIgnoresSearch` |
| RackupResolution.InlineRackupWins | src/main/java/org/jruby/rack/DefaultRackApplicationFactory.java:398-401 | an inline script is the result whatever else is configured, with location `<web.xml>` |
| RackupResolution.CandidatePrecedence | src/main/java/org/jruby/rack/DefaultRackApplicationFactory.java:401-413 | configured path first; else a `config.ru` within one level of `/WEB-INF/` when one exists; else `/config.ru` exactly when its real path exists; no candidate iff none of these applies |
| RackupResolution.ReadFailureIsFatal | src/main/java/org/jruby/rack/DefaultRackApplicationFactory.java:415-423 | resolution fails iff there is no inline script and the winning candidate cannot be read; the failure names that candidate, so no later one is tried |
| RackupResolution.NothingFoundIsNotAnError | src/main/java/org/jruby/rack/DefaultRackApplicationFactory.java:397-428 | a null script with location `<web.xml>` and no error is the result if and only if no candidate at all applies |
| RackupResolution.ReadScriptIsLabelledWithRealPath | src/main/java/org/jruby/rack/DefaultRackApplicationFactory.java:415-418 | a script read from a candidate path is that resource's text, located at the path's real path |
| RackupResolution.ConfiguredPathIgnoresSearch | src/main/java/org/jruby/rack/DefaultRackApplicationFactory.java:402-406 | with a configured path, neither the resource tree nor the file system affects the result |
| RackupResolution.SearchedScriptIsConfigRu | src/main/java/org/jruby/rack/DefaultRackApplicationFactory.java:404-423 | a script found by the search is read from a path ending in `config.ru`, or its read failure is fatal |
| ErrorApplication.ErrorAppSource | src/main/java/org/jruby/rack/DefaultRackApplicationFactory.java:159-182 | the error script is the built-in one, the inline one or the configured path's text, and a null file name only arises from a configured path; the order is characterised by `InlineErrorAppWins`, `ErrorAppPathIsRead`, `ErrorAppFallsBackToDefault` and `ErrorAppLabelIsNullOnlyForPath` |
| ErrorApplication.ErrorApplicationHandler | src/main/java/org/jruby/rack/DefaultRackApplicationFactory.java:183-184 | the error handler embeds the chosen script unchanged (it can be read back out) and is evaluated under the chosen file name |
| ErrorApplication.NewErrorApplicationKind | src/main/java/org/jruby/rack/DefaultRackApplicationFactory.java:187-207 | a runtime-backed error application is built only when enabled and construction succeeds, and then runs the chosen script; characterised by `MinimalExactlyWhenDisabledOrFailed` and `DisabledIgnoresConstruction` |
| ErrorApplication.InlineErrorAppWins | src/main/java/org/jruby/rack/DefaultRackApplicationFactory.java:160-162 | an inline error application is used, under the name `<web.xml>` |
| ErrorApplication.ErrorAppPathIsRead | src/main/java/org/jruby/rack/DefaultRackApplicationFactory.java:163-168 | otherwise a readable configured path gives its text, under the path's real path |
| ErrorApplication.ErrorAppFallsBackToDefault | src/main/java/org/jruby/rack/DefaultRackApplicationFactory.java:169-182 | with no inline script and no readable path the built-in script is used: named `<web.xml>` when no path was set, null when the path could not be read |
| ErrorApplication.ErrorAppLabelIsNullOnlyForPath | src/main/java/org/jruby/rack/DefaultRackApplicationFactory.java:160-177 | the file name is null iff a configured path (and no inline script) is unreadable or has no real path |
| ErrorApplication.MinimalExactlyWhenDisabledOrFailed | src/main/java/org/jruby/rack/DefaultRackApplicationFactory.java:187-207 | the minimal error application is built iff `jruby.rack.error` is false or construction throws; otherwise the application runs the handler of the chosen script |
| ErrorApplication.DisabledIgnoresConstruction | src/main/java/org/jruby/rack/DefaultRackApplicationFactory.java:188-191 | when disabled, nothing is constructed: the result is the minimal application whatever construction would do |
| BufferDefaults.EffectiveBufferSizes | src/main/java/org/jruby/rack/DefaultRackApplicationFactory.java:430-441 | the maximum is the configured one or its default and is never changed; the initial size is at most the maximum and at most the requested size, and equals one of them |
| BufferDefaults.ConfigureDefaults | src/main/java/org/jruby/rack/DefaultRackApplicationFactory.java:430-441 | the locals-reassigning procedure installs exactly `EffectiveBufferSizes` |
| BufferDefaults.ConsistentSizesAreKept | src/main/java/org/jruby/rack/DefaultRackApplicationFactory.java:437 | sizes with initial at most maximum are installed unchanged |
| BufferDefaults.ClampExample | src/main/java/org/jruby/rack/DefaultRackApplicationFactory.java:437 | initial 8192 with maximum 4096 gives initial 4096 |
| FactoryChain.GetRealFactory | src/main/java/org/jruby/rack/DefaultRackApplicationFactory.java:49-54 | the result is never a decorator, and the input is the result wrapped in exactly as many decorators as the input has |
| FactoryChain.UnwrapDecorated | src/main/java/org/jruby/rack/DefaultRackApplicationFactory.java:49-54 | unwrapping any number of decorators around a real (or null) factory gives that factory back |
| FactoryChain.RealFactoryIsIdempotent | src/main/java/org/jruby/rack/DefaultRackApplicationFactory.java:49-54 | unwrapping twice is unwrapping once |
| ServletWrapper.WrapperSource | src/main/java/org/jruby/rack/DefaultRackApplicationFactory.java:226-232 | the rackup script sits unchanged between the fixed `Rack::Builder` prefix and suffix; inverted by `ExtractRackup` (`ExtractWrapperSource`, `WrapperSourceOfExtract`) |
| ServletWrapper.ExtractWrapperSource | src/main/java/org/jruby/rack/DefaultRackApplicationFactory.java:226-232 | the rackup script is embedded unchanged: it can be recovered from the handler source |
| ServletWrapper.WrapperSourceOfExtract | src/main/java/org/jruby/rack/DefaultRackApplicationFactory.java:226-232 | every string of the handler's shape is the handler source of the script inside it |
| ServletWrapper.WrapperSourceInjective | src/main/java/org/jruby/rack/DefaultRackApplicationFactory.java:226-232 | different scripts give different handler sources |
| RuntimeSetup.ManagementProperty | src/main/java/org/jruby/rack/DefaultRackApplicationFactory.java:443-448 | the property is either left as it was or set to `true` |
| RuntimeSetup.ManagementDisabledOnlyByFalse | src/main/java/org/jruby/rack/DefaultRackApplicationFactory.java:443-448 | the property ends up other than `true` iff it already was `false` in some letter case |
| RuntimeSetup.ManagementPropertyIdempotent | src/main/java/org/jruby/rack/DefaultRackApplicationFactory.java:443-448 | applying the rule again changes nothing |
| RuntimeSetup.ManagementPropertyExamples | src/main/java/org/jruby/rack/DefaultRackApplicationFactory.java:445-446 | `FALSE` is kept, an absent property becomes `true` |
| RuntimeSetup.TrimTrailingSlash | src/main/java/org/jruby/rack/DefaultRackApplicationFactory.java:263-266 | a path ending in `/` loses that one character; any other path is unchanged |
| RuntimeSetup.TrimUndoesOneSlash | src/main/java/org/jruby/rack/DefaultRackApplicationFactory.java:263-266 | trimming undoes appending one `/`, and removes only one of two |
| RuntimeSetup.JRubyHome | src/main/java/org/jruby/rack/DefaultRackApplicationFactory.java:253-272 | jruby.home is set iff the resource exists and is a `jar:` URL; it is the trimmed URI part, or the URL path when the URI is invalid |
| RuntimeSetup.CreateRuntimeConfig | src/main/java/org/jruby/rack/DefaultRackApplicationFactory.java:238-275 | native ENV updates are always off; arguments and compatibility version come from the configuration; jruby.home as `JRubyHome` |
| ApplicationFactory.RackApplication.Destroy | src/main/java/org/jruby/rack/DefaultRackApplicationFactory.java:338-340 | each call is one more teardown of the application |
| ApplicationFactory.DefaultRackApplicationFactory.Init | src/main/java/org/jruby/rack/DefaultRackApplicationFactory.java:70-79 | the context is stored; on resolution success the script, location, runtime configuration and written settings are set as specified; on a read failure nothing after resolution happens |
| ApplicationFactory.DefaultRackApplicationFactory.ResolveRackupScript | src/main/java/org/jruby/rack/DefaultRackApplicationFactory.java:397-428 | the fields take the result of `Resolve`; on a read failure the script is unchanged, the location is the failing path's real path, and the failure is returned |
| ApplicationFactory.DefaultRackApplicationFactory.CreateApplicationObject | src/main/java/org/jruby/rack/DefaultRackApplicationFactory.java:150-157 | a null rackup script is replaced by the empty script for good; the handler is built from the script and its location |
| ApplicationFactory.DefaultRackApplicationFactory.FinishedWithApplication | src/main/java/org/jruby/rack/DefaultRackApplicationFactory.java:113-115 | a given application is destroyed once; null changes nothing |
| ApplicationFactory.DefaultRackApplicationFactory.NewErrorApplication | src/main/java/org/jruby/rack/DefaultRackApplicationFactory.java:187-207 | always returns a fresh application (never throws), of the kind `NewErrorApplicationKind` gives, and counts one construction |
| ApplicationFactory.DefaultRackApplicationFactory.GetErrorApplication | src/main/java/org/jruby/rack/DefaultRackApplicationFactory.java:120-129 | always returns an application and stores it; a stored one is returned without constructing; otherwise exactly one new one is built |
| ApplicationFactory.DefaultRackApplicationFactory.SetErrorApplication | src/main/java/org/jruby/rack/DefaultRackApplicationFactory.java:135-137 | the stored error application becomes the given one (or none) |
| ApplicationFactory.DefaultRackApplicationFactory.Destroy | src/main/java/org/jruby/rack/DefaultRackApplicationFactory.java:139-148 | a stored error application gets exactly one `destroy()` and is cleared; with none stored nothing happens |
| ApplicationFactory.ErrorApplicationLifecycle | src/main/java/org/jruby/rack/DefaultRackApplicationFactory.java:120-148 | repeated gets share one instance; two destroys tear it down once; a get after destroy builds a different one |
| ApplicationFactory.SeededErrorApplication | src/main/java/org/jruby/rack/DefaultRackApplicationFactory.java:120-137 | after pre-seeding, get returns the seeded application, and the factory's construction count stays 0 |

## Left out

- Runtime creation and script evaluation are not modelled. This covers `newRuntime`, `initializeRuntime`, `RackApplicationImpl`, `createErrorApplication`, `runtime.tearDown` and the `evalScriptlet` calls. They are calls into the JRuby interpreter. An application is an opaque object that counts `destroy()` calls, and a failed error-application construction is the `constructionFails` input.
- `newApplication` and `getApplication` are not modelled. `newApplication` creates a runtime-backed application; `getApplication` also calls its `init()`.
- `captureMessage` is not modelled. It reflectively calls Ruby methods on a raised exception and only logs its own failures.
- ApplicationFactory.DefaultRackApplicationFactory.GetErrorApplication, ApplicationFactory.DefaultRackApplicationFactory.NewErrorApplication and ApplicationFactory.DefaultRackApplicationFactory.CreateApplicationObject require an initialised context (or, for the first, a stored error application; for the last, a rackup script). Calling them on a factory that `init` never ran on throws a NullPointerException (line 188, or line 152 for `createApplicationObject`); the model excludes that call rather than modelling the exception.
- `synchronized` is not modelled. `GetErrorApplication` and `Destroy` are modelled for one caller at a time. Under concurrency the source does not reduce to this: a `destroy()` racing `getErrorApplication()` can make it return null, because line 128 reads the field outside the lock (and the field is not `volatile`, line 42).
- Logging is not modelled.
- The `getRackContext` and `getRackupScript` getters are not modelled. They return a field as it is.
- Resource reads (`getResourceAsStream` with `IOHelpers.inputStreamToString`) are a map from path to text. A path absent from the map is an `IOException`; a null stream is folded into that case. IOHelpers is not part of this model. If `inputStreamToString` returns null for a null stream instead of throwing, the model differs in two ways: a configured rackup path with no resource would give a null script, not a fatal error; and an error-app path with no resource would still get the built-in script (line 178), but under the path's real path rather than a null name.
- `getRealPath`, `getResourcePaths` and `File.exists` are oracles in `ServletContext`.
- The container's `Set` of entries is a sequence in its enumeration order.
- FactoryChain.Factory is an inductive datatype, so cyclic decorator chains are excluded. In the source, a decorator whose delegate chain leads back to itself makes the recursion at line 51 overflow the stack.
- The built-in sizes `RewindableInputStream.INI_BUFFER_SIZE` and `MAX_BUFFER_SIZE` are the `defaults` parameter. RewindableInputStream is not part of this model. Its static setters are the returned `InitEffects`.
- `System.getProperty` and `System.setProperty` are the input and the result of `ManagementProperty`.
- RuntimeSetup.ManagementProperty: compares with `false` using ASCII case folding only, because Java's `equalsIgnoreCase` also folds a few non-ASCII letters (such as the long s) that the model does not.
- RuntimeSetup.JRubyHome: the `catch (Exception)` around the jar lookup is not modelled beyond the `URISyntaxException` fallback, because the other exceptions come from class-loader and URL internals.
- RuntimeSetup.CreateRuntimeConfig: `processArguments` and `setCompatVersion` are recorded as their inputs, because their effect lies in RubyInstanceConfig. The context class loader passed to `setLoader` (line 241) is not recorded at all, because class loaders are JVM state.
- The request-environment adapter is not part of this model.
