/**
 * What the factory reads from its servlet context: the `jruby.rack.*` configuration and
 * the web application's resources. Every container call the factory makes is an oracle
 * here, given as a map or a set that the caller chooses.
 */
module RackContext {
  import opened Wrappers

  /** The location label of a script that came from the configuration itself. */
  const WebXml: string := "<web.xml>"

  /** A directory path mapped to its entries, in the order the container enumerates them. */
  type ResourceTree = map<string, seq<string>>

  /** The settings read through `RackConfig`; `None` is a setting that is absent (null). */
  datatype RackConfig = RackConfig(
    rackup: Option<string>,            // inline rackup script
    rackupPath: Option<string>,        // path of the rackup script
    errorEnabled: Option<bool>,        // jruby.rack.error
    errorApp: Option<string>,          // jruby.rack.error.app
    errorAppPath: Option<string>,      // jruby.rack.error.app.path
    initialBufferSize: Option<int>,    // initial memory buffer size of a request body
    maximumBufferSize: Option<int>,    // maximum memory buffer size of a request body
    runtimeArguments: seq<string>,
    compatVersion: Option<string>)

  /** The servlet context as the factory sees it. */
  datatype ServletContext = ServletContext(
    config: RackConfig,
    resourcePaths: ResourceTree,       // getResourcePaths: a path absent here gives null
    realPaths: map<string, string>,    // getRealPath: a path absent here gives null
    resources: map<string, string>,    // text read from getResourceAsStream; absent = IOException
    existingFiles: set<string>)        // real paths for which File.exists() holds

  function GetRealPath(ctx: ServletContext, path: string): Option<string> {
    if path in ctx.realPaths then Some(ctx.realPaths[path]) else None
  }

  /** Reads a resource to a string: `None` when the read throws an IOException. */
  function ReadResource(ctx: ServletContext, path: string): Option<string> {
    if path in ctx.resources then Some(ctx.resources[path]) else None
  }
}
