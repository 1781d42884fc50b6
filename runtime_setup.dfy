/**
 * The runtime configuration built once by the factory (createRuntimeConfig) and the
 * `jruby.management.enabled` property rule applied beforehand (setupJRubyManagement).
 */
module RuntimeSetup {
  import opened Wrappers
  import opened Strings
  import opened RackContext

  /**
   * The new value of the `jruby.management.enabled` system property given its current one:
   * left alone when it is "false" in any letter case, otherwise set to "true".
   */
  function ManagementProperty(current: Option<string>): (next: Option<string>)
    ensures next == current || next == Some("true")
  {
    if current.Some? && EqualsIgnoreCase(current.value, "false") then current else Some("true")
  }

  /** Management ends up disabled exactly when the property already said "false". */
  lemma ManagementDisabledOnlyByFalse(current: Option<string>)
    ensures ManagementProperty(current) != Some("true") <==> current.Some? && EqualsIgnoreCase(current.value, "false")
  {
    if current.Some? && EqualsIgnoreCase(current.value, "false") {
      assert LowerAscii(current.value[0]) == 'f' != LowerAscii('t');
    }
  }

  /** Applying the rule a second time changes nothing. */
  lemma ManagementPropertyIdempotent(current: Option<string>)
    ensures ManagementProperty(ManagementProperty(current)) == ManagementProperty(current)
  {
    if !(current.Some? && EqualsIgnoreCase(current.value, "false")) {
      assert !EqualsIgnoreCase("true", "false") by {
        assert LowerAscii("true"[0]) != LowerAscii("false"[0]);
      }
    }
  }

  /** "FALSE" keeps management off; an absent property turns it on. */
  lemma ManagementPropertyExamples()
    ensures ManagementProperty(Some("FALSE")) == Some("FALSE")
    ensures ManagementProperty(None) == Some("true")
  {
    assert EqualsIgnoreCase("FALSE", "false") by {
      forall i | 0 <= i < 5 ensures LowerAscii("FALSE"[i]) == LowerAscii("false"[i]) {
      }
    }
  }

  /** Drops one trailing `/` from the jruby.home path (it confuses OSGi containers). */
  function TrimTrailingSlash(home: string): (r: string)
    ensures EndsWith(home, "/") ==> r + "/" == home
    ensures !EndsWith(home, "/") ==> r == home
  {
    if EndsWith(home, "/") then home[..|home| - 1] else home
  }

  /** Trimming undoes appending one slash, and only one: `a//` becomes `a/`. */
  lemma TrimUndoesOneSlash(home: string)
    ensures TrimTrailingSlash(home + "/") == home
    ensures TrimTrailingSlash(home + "//") == home + "/"
  {
    EndsWithAppend(home, "/");
    EndsWithAppend(home + "/", "/");
    assert home + "//" == (home + "/") + "/";
  }

  /**
   * The URL of `/META-INF/jruby.home` as the class loader reports it: its protocol, the
   * scheme-specific part of its URI (`None` when the URL is not a valid URI) and its path.
   */
  datatype HomeResource = HomeResource(protocol: string, schemeSpecificPart: Option<string>, path: string)

  /** The jruby.home taken from the jar, or `None` when it is left at JRuby's default. */
  function JRubyHome(resource: Option<HomeResource>): (home: Option<string>)
    ensures home.Some? <==> resource.Some? && resource.value.protocol == "jar"
    ensures home.Some? ==>
      home.value == TrimTrailingSlash(resource.value.schemeSpecificPart.GetOr(resource.value.path))
  {
    match resource
    case Some(url) =>
      if url.protocol == "jar" then Some(TrimTrailingSlash(url.schemeSpecificPart.GetOr(url.path))) else None
    case None => None
  }

  /** The RubyInstanceConfig every runtime of the factory is created from. */
  datatype RuntimeConfig = RuntimeConfig(
    arguments: seq<string>,
    compatVersion: Option<string>,    // None: the runtime's own default
    updateNativeEnv: bool,
    jrubyHome: Option<string>)        // None: the runtime's own default

  function CreateRuntimeConfig(config: RackConfig, homeResource: Option<HomeResource>): (rc: RuntimeConfig)
    ensures !rc.updateNativeEnv
    ensures rc.arguments == config.runtimeArguments && rc.compatVersion == config.compatVersion
    ensures rc.jrubyHome == JRubyHome(homeResource)
  {
    RuntimeConfig(config.runtimeArguments, config.compatVersion, false, JRubyHome(homeResource))
  }
}
