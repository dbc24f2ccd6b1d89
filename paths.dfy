/** The part of `pathlib.PurePosixPath` that `init` uses: the suffix of the last component. */
module Paths {

  /** The characters after the last '/' of `p`. */
  function LastSegment(p: string): (r: string)
    ensures '/' !in r
    decreases |p|
  {
    if p == [] || p[|p| - 1] == '/' then [] else LastSegment(p[..|p| - 1]) + [p[|p| - 1]]
  }

  /** `PurePosixPath(p).name`: the last component, trailing slashes and "." components dropped. */
  function BaseName(p: string): (r: string)
    ensures '/' !in r
    decreases |p|
  {
    if p == [] then []
    else if p[|p| - 1] == '/' then BaseName(p[..|p| - 1])
    else if LastSegment(p) == "." then BaseName(p[..|p| - 1])
    else LastSegment(p)
  }

  /** `name.rfind('.')`. */
  function LastDot(name: string): (i: int)
    ensures -1 <= i < |name|
    ensures i >= 0 ==> name[i] == '.'
    ensures forall j :: i < j < |name| ==> name[j] != '.'
    decreases |name|
  {
    if name == [] then -1
    else if name[|name| - 1] == '.' then |name| - 1
    else LastDot(name[..|name| - 1])
  }

  /** `PurePath.suffix` of a name: from its last dot on, unless that dot is its
      first or its last character. */
  function Suffix(name: string): (r: string) {
    var i := LastDot(name);
    if 0 < i < |name| - 1 then name[i..] else ""
  }

  /** The loader choice of config/__init__.py:100: `pathlib.Path(p).suffix == '.json'`. */
  predicate IsJsonPath(p: string) {
    Suffix(BaseName(p)) == ".json"
  }

  predicate EndsWithJson(name: string) {
    |name| >= 5 && name[|name| - 5..] == ".json"
  }

  /** A name has suffix ".json" exactly when it ends in ".json" after at least one
      other character; the comparison is case-sensitive and a hidden file named
      ".json" has no suffix. */
  lemma SuffixJsonIff(name: string)
    ensures Suffix(name) == ".json" <==> |name| > 5 && EndsWithJson(name)
  {
    var i := LastDot(name);
    if |name| > 5 && EndsWithJson(name) {
      var k := |name| - 5;
      assert name[k] == name[k..][0] == '.';
      forall j | k < j < |name| ensures name[j] != '.' {
        assert name[j] == name[k..][j - k];
      }
      assert i == k;
    }
    if Suffix(name) == ".json" {
      assert 0 < i < |name| - 1 && name[i..] == ".json";
      assert |name| - i == 5;
    }
  }

  /** The last component of `dir/name` is `name`. */
  lemma {:induction false} LastSegmentOfJoin(dir: string, name: string)
    requires '/' !in name
    ensures LastSegment(dir + "/" + name) == name
    decreases |name|
  {
    var p := dir + "/" + name;
    if name != [] {
      var n' := name[..|name| - 1];
      assert p[..|p| - 1] == dir + "/" + n';
      LastSegmentOfJoin(dir, n');
    } else {
      assert p[|p| - 1] == '/';
    }
  }

  /** `init` takes the JSON loader for `dir/name` exactly when `name` has the
      suffix ".json", whatever the directory. */
  lemma JsonPathIff(dir: string, name: string)
    requires '/' !in name && name != [] && name != "."
    ensures BaseName(dir + "/" + name) == name
    ensures IsJsonPath(dir + "/" + name) <==> |name| > 5 && EndsWithJson(name)
  {
    var p := dir + "/" + name;
    LastSegmentOfJoin(dir, name);
    assert p[|p| - 1] == name[|name| - 1] != '/' by {
      assert name[|name| - 1] in name;
    }
    assert BaseName(p) == name;
    SuffixJsonIff(name);
  }

  /** A name without a '/' is its own last component. */
  lemma {:induction false} LastSegmentOfName(name: string)
    requires '/' !in name
    ensures LastSegment(name) == name
    decreases |name|
  {
    if name != [] {
      var n' := name[..|name| - 1];
      assert name[|name| - 1] in name;
      LastSegmentOfName(n');
    }
  }

  /** The same choice for a path that is a bare file name, such as "config.json". */
  lemma JsonNameIff(name: string)
    requires '/' !in name && name != [] && name != "."
    ensures IsJsonPath(name) <==> |name| > 5 && EndsWithJson(name)
  {
    BaseNameOfName(name);
    SuffixJsonIff(name);
  }

  /** `PurePosixPath(name).name` of a bare file name is the name itself. */
  lemma BaseNameOfName(name: string)
    requires '/' !in name && name != [] && name != "."
    ensures BaseName(name) == name
  {
    LastSegmentOfName(name);
    assert name[|name| - 1] in name;
  }
}
