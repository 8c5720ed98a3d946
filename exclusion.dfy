/** The exclusion filter: when a module or a function is skipped entirely. */
module Exclusion {

  /** `prefix` is a prefix of `s`, character by character (`StringRef::startswith`). */
  predicate IsPrefix(prefix: string, s: string)
  {
    |prefix| <= |s| && s[..|prefix|] == prefix
  }

  /** A module is excluded when some entry of the module list is a textual
      prefix of its resolved path. */
  predicate ModuleExcluded(list: seq<string>, path: string)
  {
    exists i :: 0 <= i < |list| && IsPrefix(list[i], path)
  }

  /** A function is excluded when some entry of the function list is exactly
      its name. */
  predicate FunctionExcluded(list: seq<string>, name: string)
  {
    exists i :: 0 <= i < |list| && list[i] == name
  }

  /** Appending an entry to the module list excludes exactly the paths it is a
      prefix of, on top of those already excluded. */
  lemma ModuleExclusionExtend(list: seq<string>, entry: string, path: string)
    ensures ModuleExcluded(list + [entry], path) <==> ModuleExcluded(list, path) || IsPrefix(entry, path)
  {
    var extended := list + [entry];
    if IsPrefix(entry, path) {
      assert extended[|list|] == entry;
    }
    if ModuleExcluded(list, path) {
      var i :| 0 <= i < |list| && IsPrefix(list[i], path);
      assert extended[i] == list[i];
    }
  }

  /** Appending an entry to the function list excludes exactly the function of
      that name, on top of those already excluded. */
  lemma FunctionExclusionExtend(list: seq<string>, entry: string, name: string)
    ensures FunctionExcluded(list + [entry], name) <==> FunctionExcluded(list, name) || entry == name
  {
    var extended := list + [entry];
    if entry == name {
      assert extended[|list|] == entry;
    }
    if FunctionExcluded(list, name) {
      var i :| 0 <= i < |list| && list[i] == name;
      assert extended[i] == list[i];
    }
  }

  /** A resolved path is absolute: it begins with '/'. An entry that does not
      begin with '/' is then never a prefix of it, so a relative entry of the
      module list excludes no module whose path resolved. */
  lemma RelativeEntryNeverMatches(list: seq<string>, path: string)
    requires |path| > 0 && path[0] == '/'
    requires forall i :: 0 <= i < |list| ==> |list[i]| > 0 && list[i][0] != '/'
    ensures !ModuleExcluded(list, path)
  {
    forall i | 0 <= i < |list| ensures !IsPrefix(list[i], path) {
      if |list[i]| <= |path| {
        assert path[..|list[i]|][0] == '/';
      }
    }
  }

  /** The empty entry is a prefix of every path, so it excludes every module,
      whether its path resolved or not. */
  lemma EmptyEntryExcludesAll(list: seq<string>, path: string)
    requires "" in list
    ensures ModuleExcluded(list, path)
  {
    var i :| 0 <= i < |list| && list[i] == "";
    assert IsPrefix(list[i], path);
  }

  /** When the path cannot be resolved the resolved path is empty, and then
      only an empty entry excludes the module. */
  lemma UnresolvedPathExclusion(list: seq<string>)
    ensures ModuleExcluded(list, "") <==> "" in list
  {
    if "" in list {
      var i :| 0 <= i < |list| && list[i] == "";
      assert IsPrefix(list[i], "");
    }
  }

  /** A mere prefix of a function's name does not exclude it, while the same
      entry excludes a module path it begins; the module test is textual, so
      "/src/lib" also excludes "/src/library/x.c". */
  lemma PrefixExcludesModuleNotFunction()
    ensures ModuleExcluded(["foo"], "foobar") && !FunctionExcluded(["foo"], "foobar")
    ensures ModuleExcluded(["/src/lib"], "/src/library/x.c")
  {
    assert IsPrefix(["foo"][0], "foobar");
    assert IsPrefix(["/src/lib"][0], "/src/library/x.c");
  }
}
