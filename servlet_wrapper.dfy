/**
 * The Ruby source evaluated to build the Rack servlet handler (createRackServletWrapper):
 * the rackup script is placed inside a Rack::Builder block.
 */
module ServletWrapper {
  import opened Wrappers

  const WrapperPrefix: string := "Rack::Handler::Servlet.new( Rack::Builder.new { ("
  const WrapperSuffix: string := "\n) }.to_app )"

  /** The call the application object is built with: runtime.executeScript(source, fileName). */
  datatype Handler = Handler(source: string, fileName: Option<string>)

  /** The handler source for `rackup`: the script sits unchanged between the fixed prefix and suffix. */
  function WrapperSource(rackup: string): (source: string)
    ensures |source| == |WrapperPrefix| + |rackup| + |WrapperSuffix|
    ensures source[..|WrapperPrefix|] == WrapperPrefix
    ensures source[|WrapperPrefix|..|WrapperPrefix| + |rackup|] == rackup
    ensures source[|WrapperPrefix| + |rackup|..] == WrapperSuffix
  {
    WrapperPrefix + rackup + WrapperSuffix
  }

  /** The rackup script inside a handler source, if `source` has the handler's shape. */
  function ExtractRackup(source: string): Option<string> {
    if |source| >= |WrapperPrefix| + |WrapperSuffix|
       && source[..|WrapperPrefix|] == WrapperPrefix
       && source[|source| - |WrapperSuffix|..] == WrapperSuffix
    then Some(source[|WrapperPrefix|..|source| - |WrapperSuffix|])
    else None
  }

  /** The rackup script is embedded unchanged: it can be read back out of the handler source. */
  lemma ExtractWrapperSource(rackup: string)
    ensures ExtractRackup(WrapperSource(rackup)) == Some(rackup)
  {
    var s := WrapperSource(rackup);
    assert s[..|WrapperPrefix|] == WrapperPrefix;
    assert s[|s| - |WrapperSuffix|..] == WrapperSuffix;
    assert s[|WrapperPrefix|..|s| - |WrapperSuffix|] == rackup;
  }

  /** Every handler-shaped source is the handler source of the script it contains. */
  lemma WrapperSourceOfExtract(source: string)
    requires ExtractRackup(source).Some?
    ensures WrapperSource(ExtractRackup(source).value) == source
  {
    var rackup := ExtractRackup(source).value;
    assert source == source[..|WrapperPrefix|] + rackup + source[|source| - |WrapperSuffix|..];
  }

  /** Different scripts give different handler sources. */
  lemma WrapperSourceInjective(a: string, b: string)
    requires WrapperSource(a) == WrapperSource(b)
    ensures a == b
  {
    ExtractWrapperSource(a);
    ExtractWrapperSource(b);
  }
}
