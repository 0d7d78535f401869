/**
 * The part of Go's `path/filepath` package used by the prompt-template
 * handlers: `Join`, `Base`, and `Glob` with the pattern `*.prompt` in the
 * template directory. The directory itself is a map from file name to
 * content (see module SystemPrompt); `Glob` reads its names, keeps those
 * the pattern matches and returns them sorted, each joined to the
 * directory.
 */
module FilePath {
  import opened GoStrings

  /** The template directory, `filepath.Join("static", "document")`. */
  const DocumentDir := "static/document"

  /** The suffix every template name carries. */
  const PromptSuffix := ".prompt"

  /** `filepath.Join(dir, name)`, for a relative `name` that is already clean. */
  function Join(dir: string, name: string): (p: string)
    ensures HasPrefix(p, dir + "/") && HasSuffix(p, name)
    ensures |p| == |dir| + 1 + |name|
  {
    dir + "/" + name
  }

  /** Drops every trailing '/' (the first loop of `filepath.Base`). */
  function StripTrailingSlashes(p: string): (r: string)
    ensures |r| <= |p| && r == p[..|r|]
    ensures r == [] || r[|r| - 1] != '/'
    ensures forall i :: |r| <= i < |p| ==> p[i] == '/'
  {
    if |p| > 0 && p[|p| - 1] == '/' then StripTrailingSlashes(p[..|p| - 1]) else p
  }

  /** What follows the last '/' (the second loop of `filepath.Base`). */
  function LastElement(p: string): string
  {
    if |p| == 0 || p[|p| - 1] == '/' then [] else LastElement(p[..|p| - 1]) + [p[|p| - 1]]
  }

  /** The last element is a suffix of the path without any separator. */
  lemma {:induction false} LastElementIsSuffix(p: string)
    ensures var r := LastElement(p); '/' !in r && HasSuffix(p, r)
    ensures var r := LastElement(p); |r| == |p| || p[|p| - |r| - 1] == '/'
  {
    if |p| > 0 && p[|p| - 1] != '/' {
      var init := p[..|p| - 1];
      LastElementIsSuffix(init);
      var r := LastElement(init);
      assert p[|p| - 1 - |r|..] == init[|init| - |r|..] + [p[|p| - 1]];
    }
  }

  /** `filepath.Base(p)` on a path with no volume name. */
  function Base(p: string): (r: string)
    ensures r != []
    ensures p == [] ==> r == "."
  {
    if p == [] then "."
    else
      var q := StripTrailingSlashes(p);
      if q == [] then "/"
      else
        assert q[|q| - 1] != '/';
        LastElement(q)
  }

  /** A path made only of separators has the base name "/". */
  lemma BaseOfSeparators(p: string)
    requires p != [] && forall i :: 0 <= i < |p| ==> p[i] == '/'
    ensures Base(p) == "/"
  {
  }

  lemma {:induction false} LastElementOfJoin(dir: string, name: string)
    requires '/' !in name
    ensures LastElement(dir + "/" + name) == name
  {
    var p := dir + "/" + name;
    if name != [] {
      var init := name[..|name| - 1];
      assert p[..|p| - 1] == dir + "/" + init;
      LastElementOfJoin(dir, init);
      assert name == init + [name[|name| - 1]];
    }
  }

  /** The base name of a directory entry's joined path is the entry's name. */
  lemma BaseOfJoin(dir: string, name: string)
    requires name != [] && '/' !in name
    ensures Base(Join(dir, name)) == name
  {
    var p := Join(dir, name);
    assert p[|p| - 1] == name[|name| - 1] != '/';
    assert StripTrailingSlashes(p) == p;
    LastElementOfJoin(dir, name);
  }

  /**
   * `filepath.Match("*.prompt", name)` for a name in the directory: '*'
   * matches any run of characters other than '/', so the name has no '/'
   * and ends in the suffix. Keys are opaque names: a key with a '/' is a
   * key of its own, and the pattern never matches it.
   */
  predicate MatchesPromptPattern(name: string) {
    '/' !in name && HasSuffix(name, PromptSuffix)
  }

  /** The directory entries that `*.prompt` matches. */
  function PromptNames(names: set<string>): (r: set<string>)
    ensures forall n :: n in r <==> n in names && MatchesPromptPattern(n)
  {
    set n | n in names && MatchesPromptPattern(n)
  }

  predicate StrictlySorted(s: seq<string>) {
    forall i, j :: 0 <= i < j < |s| ==> Less(s[i], s[j])
  }

  predicate IsLeast(m: string, s: set<string>) {
    m in s && forall x :: x in s ==> !Less(x, m)
  }

  lemma {:induction false} LeastExists(s: set<string>)
    requires s != {}
    ensures exists m :: IsLeast(m, s)
  {
    var x :| x in s;
    if s != {x} {
      var rest := s - {x};
      LeastExists(rest);
      var m :| IsLeast(m, rest);
      if Less(x, m) {
        forall y | y in s ensures !Less(y, x) {
          if y == x {
            LessIrreflexive(x);
          } else if Less(y, x) {
            LessTransitive(y, x, m);
          }
        }
        assert IsLeast(x, s);
      } else {
        assert IsLeast(m, s);
      }
    } else {
      LessIrreflexive(x);
      assert IsLeast(x, s);
    }
  }

  lemma LeastUnique(m: string, m': string, s: set<string>)
    requires IsLeast(m, s) && IsLeast(m', s)
    ensures m == m'
  {
    LessTotal(m, m');
  }

  ghost function Least(s: set<string>): (m: string)
    requires s != {}
    ensures IsLeast(m, s)
  {
    LeastExists(s);
    var m :| IsLeast(m, s); m
  }

  /** The elements of `s` in increasing order: what `sort.Strings` yields. */
  ghost function SortedOf(s: set<string>): (r: seq<string>)
    ensures |r| == |s|
    decreases |s|
  {
    if s == {} then []
    else
      var m := Least(s);
      [m] + SortedOf(s - {m})
  }

  /** SortedOf strictly increases and holds exactly the elements of the set. */
  lemma {:induction false} SortedOfSpec(s: set<string>)
    ensures StrictlySorted(SortedOf(s))
    ensures forall x :: x in SortedOf(s) <==> x in s
    decreases |s|
  {
    if s != {} {
      var m := Least(s);
      var rest := SortedOf(s - {m});
      SortedOfSpec(s - {m});
      var r := [m] + rest;
      assert SortedOf(s) == r;
      forall i, j | 0 <= i < j < |r| ensures Less(r[i], r[j]) {
        if i == 0 {
          var x := rest[j - 1];
          assert x in rest;
          assert x in s - {m};
          LessTotal(m, x);
        } else {
          assert r[i] == rest[i - 1] && r[j] == rest[j - 1];
        }
      }
      forall x ensures x in r <==> x in s {
        assert x in r <==> x == m || x in rest;
      }
    }
  }

  lemma SortedOfLeast(s: set<string>, m: string)
    requires IsLeast(m, s)
    ensures SortedOf(s) == [m] + SortedOf(s - {m})
  {
    LeastUnique(m, Least(s), s);
  }

  lemma SortStep(s: set<string>, sorted: seq<string>, remaining: set<string>, m: string)
    requires sorted + SortedOf(remaining) == SortedOf(s)
    requires IsLeast(m, remaining)
    ensures (sorted + [m]) + SortedOf(remaining - {m}) == SortedOf(s)
    ensures |remaining - {m}| < |remaining|
  {
    SortedOfLeast(remaining, m);
    assert sorted + ([m] + SortedOf(remaining - {m})) == (sorted + [m]) + SortedOf(remaining - {m});
  }

  /**
   * The sorting step inside `filepath.Glob`: repeatedly takes the least
   * remaining name.
   */
  method SortStrings(s: set<string>) returns (sorted: seq<string>)
    ensures sorted == SortedOf(s)
  {
    sorted := [];
    var remaining := s;
    while remaining != {}
      invariant sorted + SortedOf(remaining) == SortedOf(s)
      decreases |remaining|
    {
      LeastExists(remaining);
      var m :| m in remaining && IsLeast(m, remaining);
      SortStep(s, sorted, remaining, m);
      sorted := sorted + [m];
      remaining := remaining - {m};
    }
  }

  /**
   * `filepath.Glob(Join(DocumentDir, "*.prompt"))`: the matching names in
   * sorted order, each joined to the directory.
   */
  method Glob(names: set<string>) returns (paths: seq<string>)
    ensures |paths| == |PromptNames(names)|
    ensures forall i :: 0 <= i < |paths| ==> paths[i] == Join(DocumentDir, SortedOf(PromptNames(names))[i])
  {
    var sorted := SortStrings(PromptNames(names));
    paths := seq(|sorted|, i requires 0 <= i < |sorted| => Join(DocumentDir, sorted[i]));
  }

  /** The base name of each path the glob returns is the matching name at that place. */
  lemma BaseNamesOfGlob(names: set<string>, paths: seq<string>)
    requires |paths| == |PromptNames(names)|
    requires forall i :: 0 <= i < |paths| ==> paths[i] == Join(DocumentDir, SortedOf(PromptNames(names))[i])
    ensures forall i :: 0 <= i < |paths| ==> Base(paths[i]) == SortedOf(PromptNames(names))[i]
  {
    var sorted := SortedOf(PromptNames(names));
    SortedOfSpec(PromptNames(names));
    forall i | 0 <= i < |paths| ensures Base(paths[i]) == sorted[i] {
      assert sorted[i] in PromptNames(names);
      BaseOfJoin(DocumentDir, sorted[i]);
    }
  }
}
