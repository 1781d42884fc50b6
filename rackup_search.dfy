/**
 * The search for `config.ru` below a resource directory (findConfigRuPathInSubDirectories):
 * look for `<path>config.ru` among the entries of `path`; failing that, and while the level
 * budget lasts, descend into the entries that end in `/`, in enumeration order, and return
 * the first match.
 */
module RackupSearch {
  import opened Wrappers
  import opened Strings
  import opened RackContext

  const ConfigRu: string := "config.ru"

  /** A resource entry that names a directory. */
  predicate IsDirectory(entry: string) {
    EndsWith(entry, "/")
  }

  /** How many more directory levels a search with this `level` may descend. */
  function Budget(level: int): nat {
    if level > 0 then level else 0
  }

  /** The result of the search started at `path` with `level`. */
  function Find(tree: ResourceTree, path: string, level: int): (r: Option<string>)
    ensures r.Some? ==> EndsWith(r.value, ConfigRu)
    decreases Budget(level), 1
  {
    if path !in tree then None
    else if path + ConfigRu in tree[path] then
      EndsWithAppend(path, ConfigRu);
      Some(path + ConfigRu)
    else if level > 0 then FirstInSubdirs(tree, tree[path], level - 1)
    else None
  }

  /** The first successful search among the directory entries of `entries`, in order. */
  function FirstInSubdirs(tree: ResourceTree, entries: seq<string>, level: int): (r: Option<string>)
    ensures r.Some? ==> EndsWith(r.value, ConfigRu)
    decreases Budget(level) + 1, 0, |entries|
  {
    if entries == [] then None
    else
      var found := if IsDirectory(entries[0]) then Find(tree, entries[0], level) else None;
      if found.Some? then found else FirstInSubdirs(tree, entries[1..], level)
  }

  /** `to` can be reached from `from` by descending at most `steps` times into directory entries. */
  ghost predicate Within(tree: ResourceTree, from: string, to: string, steps: nat)
    decreases steps
  {
    from == to ||
    (steps > 0 && from in tree &&
     exists i :: 0 <= i < |tree[from]| && IsDirectory(tree[from][i]) && Within(tree, tree[from][i], to, steps - 1))
  }

  /** The directory `dir` lists its own `config.ru`. */
  ghost predicate HasConfigRu(tree: ResourceTree, dir: string) {
    dir in tree && dir + ConfigRu in tree[dir]
  }

  /** A directory listing its own `config.ru` yields it, before any subdirectory is searched. */
  lemma OwnConfigRuFirst(tree: ResourceTree, path: string, level: int)
    requires path in tree && path + ConfigRu in tree[path]
    ensures Find(tree, path, level) == Some(path + ConfigRu)
  {
  }

  /** The imperative search: the entries are walked with a loop, as findConfigRuPathInSubDirectories iterates over them. */
  method FindConfigRuPathInSubDirectories(tree: ResourceTree, path: string, level: int) returns (r: Option<string>)
    ensures r == Find(tree, path, level)
    decreases Budget(level)
  {
    if path !in tree {
      return None;
    }
    var entries := tree[path];
    var configRu := path + ConfigRu;
    if configRu in entries {
      return Some(configRu);
    }
    if level > 0 {
      var sublevel := level - 1;
      var i := 0;
      while i < |entries|
        invariant 0 <= i <= |entries|
        invariant FirstInSubdirs(tree, entries, sublevel) == FirstInSubdirs(tree, entries[i..], sublevel)
      {
        var subpath := entries[i];
        if IsDirectory(subpath) {
          var found := FindConfigRuPathInSubDirectories(tree, subpath, sublevel);
          if found.Some? {
            return found;
          }
        }
        i := i + 1;
      }
    }
    return None;
  }

  /** Every result is the `config.ru` of a directory at most `Budget(level)` levels below `path`. */
  lemma {:induction false} FindSound(tree: ResourceTree, path: string, level: int)
    ensures Find(tree, path, level).Some? ==>
      exists d :: Within(tree, path, d, Budget(level)) && HasConfigRu(tree, d) && Find(tree, path, level).value == d + ConfigRu
    decreases Budget(level), 1
  {
    if path in tree && path + ConfigRu in tree[path] {
      assert Within(tree, path, path, Budget(level));
    } else if path in tree && level > 0 {
      var entries := tree[path];
      FirstInSubdirsSound(tree, entries, level - 1);
      if Find(tree, path, level).Some? {
        var i, d :| 0 <= i < |entries| && IsDirectory(entries[i]) && Within(tree, entries[i], d, Budget(level - 1))
          && HasConfigRu(tree, d) && FirstInSubdirs(tree, entries, level - 1).value == d + ConfigRu;
        assert Within(tree, path, d, Budget(level));
      }
    }
  }

  lemma {:induction false} FirstInSubdirsSound(tree: ResourceTree, entries: seq<string>, level: int)
    ensures FirstInSubdirs(tree, entries, level).Some? ==>
      exists i, d :: 0 <= i < |entries| && IsDirectory(entries[i]) && Within(tree, entries[i], d, Budget(level))
        && HasConfigRu(tree, d) && FirstInSubdirs(tree, entries, level).value == d + ConfigRu
    decreases Budget(level) + 1, 0, |entries|
  {
    if entries != [] {
      if IsDirectory(entries[0]) && Find(tree, entries[0], level).Some? {
        FindSound(tree, entries[0], level);
        var d :| Within(tree, entries[0], d, Budget(level)) && HasConfigRu(tree, d) && Find(tree, entries[0], level).value == d + ConfigRu;
        assert IsDirectory(entries[0]) && Within(tree, entries[0], d, Budget(level));
      } else {
        FirstInSubdirsSound(tree, entries[1..], level);
        if FirstInSubdirs(tree, entries, level).Some? {
          var i, d :| 0 <= i < |entries[1..]| && IsDirectory(entries[1..][i]) && Within(tree, entries[1..][i], d, Budget(level))
            && HasConfigRu(tree, d) && FirstInSubdirs(tree, entries[1..], level).value == d + ConfigRu;
          assert entries[i + 1] == entries[1..][i];
        }
      }
    }
  }

  /** Every directory entry of `entries` whose own search succeeds makes the whole walk succeed. */
  lemma {:induction false} FirstInSubdirsFinds(tree: ResourceTree, entries: seq<string>, level: int, i: nat)
    requires i < |entries| && IsDirectory(entries[i]) && Find(tree, entries[i], level).Some?
    ensures FirstInSubdirs(tree, entries, level).Some?
    decreases i
  {
    if i > 0 && !(IsDirectory(entries[0]) && Find(tree, entries[0], level).Some?) {
      assert entries[1..][i - 1] == entries[i];
      FirstInSubdirsFinds(tree, entries[1..], level, i - 1);
    }
  }

  /** A `config.ru` in a directory at most `Budget(level)` levels below `path` is found. */
  lemma {:induction false} FindComplete(tree: ResourceTree, path: string, level: int, d: string)
    requires Within(tree, path, d, Budget(level)) && HasConfigRu(tree, d)
    ensures Find(tree, path, level).Some?
    decreases Budget(level)
  {
    if path != d && path + ConfigRu !in tree[path] {
      var entries := tree[path];
      var i :| 0 <= i < |entries| && IsDirectory(entries[i]) && Within(tree, entries[i], d, Budget(level) - 1);
      FindComplete(tree, entries[i], level - 1, d);
      FirstInSubdirsFinds(tree, entries, level - 1, i);
    }
  }

  /**
   * The search succeeds exactly when some directory at most `Budget(level)` levels below
   * `path` lists its `config.ru`: nothing deeper is ever found, nothing within reach is missed.
   */
  lemma FindSucceedsIffWithinBudget(tree: ResourceTree, path: string, level: int)
    ensures Find(tree, path, level).Some? <==> exists d :: Within(tree, path, d, Budget(level)) && HasConfigRu(tree, d)
  {
    FindSound(tree, path, level);
    if exists d :: Within(tree, path, d, Budget(level)) && HasConfigRu(tree, d) {
      var d :| Within(tree, path, d, Budget(level)) && HasConfigRu(tree, d);
      FindComplete(tree, path, level, d);
    }
  }

  /** The walk over the entries returns the match of the first directory entry whose search succeeds. */
  lemma {:induction false} FirstInSubdirsIsFirstMatch(tree: ResourceTree, entries: seq<string>, level: int, r: string)
    ensures FirstInSubdirs(tree, entries, level) == Some(r) <==>
      exists i :: 0 <= i < |entries| && IsDirectory(entries[i]) && Find(tree, entries[i], level) == Some(r) &&
        forall j :: 0 <= j < i && IsDirectory(entries[j]) ==> Find(tree, entries[j], level).None?
    decreases |entries|
  {
    if entries != [] {
      var tail := entries[1..];
      FirstInSubdirsIsFirstMatch(tree, tail, level, r);
      if IsDirectory(entries[0]) && Find(tree, entries[0], level).Some? {
        if FirstInSubdirs(tree, entries, level) == Some(r) {
          assert IsDirectory(entries[0]) && Find(tree, entries[0], level) == Some(r);
        }
      } else {
        if FirstInSubdirs(tree, entries, level) == Some(r) {
          var i :| 0 <= i < |tail| && IsDirectory(tail[i]) && Find(tree, tail[i], level) == Some(r) &&
            forall j :: 0 <= j < i && IsDirectory(tail[j]) ==> Find(tree, tail[j], level).None?;
          assert entries[i + 1] == tail[i];
          forall j | 0 <= j < i + 1 && IsDirectory(entries[j])
            ensures Find(tree, entries[j], level).None?
          {
            if j > 0 { assert entries[j] == tail[j - 1]; }
          }
        }
        if exists i :: 0 <= i < |entries| && IsDirectory(entries[i]) && Find(tree, entries[i], level) == Some(r) &&
            forall j :: 0 <= j < i && IsDirectory(entries[j]) ==> Find(tree, entries[j], level).None? {
          var i :| 0 <= i < |entries| && IsDirectory(entries[i]) && Find(tree, entries[i], level) == Some(r) &&
            forall j :: 0 <= j < i && IsDirectory(entries[j]) ==> Find(tree, entries[j], level).None?;
          assert i > 0;
          assert tail[i - 1] == entries[i];
          forall j | 0 <= j < i - 1 && IsDirectory(tail[j])
            ensures Find(tree, tail[j], level).None?
          {
            assert tail[j] == entries[j + 1];
          }
        }
      }
    }
  }

  /** The search rooted at `/WEB-INF/` with level 1, as the factory starts it, finds a `config.ru` one directory below. */
  lemma SearchFindsOneLevelBelow()
    ensures var tree := map["/WEB-INF/" := ["/WEB-INF/app/"], "/WEB-INF/app/" := ["/WEB-INF/app/config.ru"]];
      Find(tree, "/WEB-INF/", 1) == Some("/WEB-INF/app/config.ru")
  {
    var tree := map["/WEB-INF/" := ["/WEB-INF/app/"], "/WEB-INF/app/" := ["/WEB-INF/app/config.ru"]];
    assert "/WEB-INF/" + ConfigRu == "/WEB-INF/config.ru" != "/WEB-INF/app/";
    assert "/WEB-INF/app/" + ConfigRu == "/WEB-INF/app/config.ru";
    assert IsDirectory("/WEB-INF/app/") by { assert "/WEB-INF/app/"[12..] == "/"; }
    assert Find(tree, "/WEB-INF/app/", 0) == Some("/WEB-INF/app/config.ru");
  }

  /** A `config.ru` two directories below `/WEB-INF/` is not found with level 1; level 2 would reach it. */
  lemma SearchMissesTwoLevelsBelow()
    ensures var tree := map["/WEB-INF/" := ["/WEB-INF/a/"], "/WEB-INF/a/" := ["/WEB-INF/a/b/"],
                            "/WEB-INF/a/b/" := ["/WEB-INF/a/b/config.ru"]];
      Find(tree, "/WEB-INF/", 1) == None && Find(tree, "/WEB-INF/", 2) == Some("/WEB-INF/a/b/config.ru")
  {
    var tree := map["/WEB-INF/" := ["/WEB-INF/a/"], "/WEB-INF/a/" := ["/WEB-INF/a/b/"],
                    "/WEB-INF/a/b/" := ["/WEB-INF/a/b/config.ru"]];
    assert "/WEB-INF/" + ConfigRu == "/WEB-INF/config.ru" != "/WEB-INF/a/";
    assert "/WEB-INF/a/" + ConfigRu == "/WEB-INF/a/config.ru" != "/WEB-INF/a/b/";
    assert "/WEB-INF/a/b/" + ConfigRu == "/WEB-INF/a/b/config.ru";
    assert IsDirectory("/WEB-INF/a/") by { assert "/WEB-INF/a/"[10..] == "/"; }
    assert IsDirectory("/WEB-INF/a/b/") by { assert "/WEB-INF/a/b/"[12..] == "/"; }
    assert Find(tree, "/WEB-INF/a/", 0) == None;
    assert Find(tree, "/WEB-INF/a/b/", 0) == Some("/WEB-INF/a/b/config.ru");
    assert Find(tree, "/WEB-INF/a/", 1) == Some("/WEB-INF/a/b/config.ru");
  }
}
