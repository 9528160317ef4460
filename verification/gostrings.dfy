/**
 * The three Go standard-library string operations that the template-function
 * name resolver is built from: `filepath.Ext` (with the Unix separator '/'),
 * `strings.TrimPrefix` and `strings.TrimSuffix`.
 */
module GoStrings {

  predicate HasPrefix(s: string, prefix: string)
  {
    |prefix| <= |s| && s[..|prefix|] == prefix
  }

  predicate HasSuffix(s: string, suffix: string)
  {
    |suffix| <= |s| && s[|s| - |suffix|..] == suffix
  }

  /** `strings.TrimPrefix`: drops one leading `prefix`, if there is one. */
  function TrimPrefix(s: string, prefix: string): (r: string)
  {
    if HasPrefix(s, prefix) then s[|prefix|..] else s
  }

  /** `strings.TrimSuffix`: drops one trailing `suffix`, if there is one. */
  function TrimSuffix(s: string, suffix: string): (r: string)
  {
    if HasSuffix(s, suffix) then s[..|s| - |suffix|] else s
  }

  /**
   * What `TrimPrefix` returns: the rest of `s` after `prefix` when `s` starts
   * with it, and `s` itself otherwise.
   */
  lemma TrimPrefixShape(s: string, prefix: string)
    ensures HasPrefix(s, prefix) ==> prefix + TrimPrefix(s, prefix) == s
    ensures !HasPrefix(s, prefix) ==> TrimPrefix(s, prefix) == s
  {
  }

  /**
   * What `TrimSuffix` returns: `s` without its last `|suffix|` characters when
   * `s` ends with `suffix`, and `s` itself otherwise.
   */
  lemma TrimSuffixShape(s: string, suffix: string)
    ensures HasSuffix(s, suffix) ==> TrimSuffix(s, suffix) + suffix == s
    ensures !HasSuffix(s, suffix) ==> TrimSuffix(s, suffix) == s
  {
  }

  /** Trimming a prefix that was put in front gives the original back. */
  lemma TrimPrefixOfConcat(prefix: string, t: string)
    ensures TrimPrefix(prefix + t, prefix) == t
  {
  }

  /** Trimming a suffix that was appended gives the original back; only one copy goes. */
  lemma TrimSuffixOfConcat(t: string, suffix: string)
    ensures TrimSuffix(t + suffix, suffix) == t
    ensures TrimSuffix(t + suffix + suffix, suffix) == t + suffix
  {
  }

  /**
   * `i` is where the extension of `path` starts: a '.' after which the path
   * holds neither another '.' nor a '/' separator.
   */
  ghost predicate IsExtStart(path: string, i: int)
  {
    && 0 <= i < |path|
    && path[i] == '.'
    && forall k :: i < k < |path| ==> path[k] != '.' && path[k] != '/'
  }

  /** The final '/'-separated element of `path` holds no '.'. */
  ghost predicate NoExt(path: string)
  {
    forall i :: 0 <= i < |path| ==> !IsExtStart(path, i)
  }

  /** A path has at most one place where its extension starts. */
  lemma ExtStartUnique(path: string, i: int, j: int)
    requires IsExtStart(path, i) && IsExtStart(path, j)
    ensures i == j
  {
  }

  /**
   * `filepath.Ext` on Unix paths: the suffix of `path` that starts at the last
   * '.' of its final element, or "" when that element has no '.'. Scans from the
   * end, as the Go loop does, stopping at the first '/'.
   */
  function Ext(path: string): (r: string)
    ensures r == "" || (r[0] == '.' && |r| <= |path|)
    decreases |path|
  {
    if |path| == 0 || path[|path| - 1] == '/' then
      ""
    else if path[|path| - 1] == '.' then
      path[|path| - 1..]
    else
      var e := Ext(path[..|path| - 1]);
      if e == "" then "" else e + [path[|path| - 1]]
  }

  /**
   * What `Ext` returns: "" exactly when the final element of `path` has no '.';
   * otherwise the suffix of `path` that starts where its extension starts.
   */
  lemma {:induction false} ExtShape(path: string)
    ensures Ext(path) == "" <==> NoExt(path)
    ensures Ext(path) != "" ==> IsExtStart(path, |path| - |Ext(path)|) && Ext(path) == path[|path| - |Ext(path)|..]
    decreases |path|
  {
    var n := |path|;
    if n == 0 || path[n - 1] == '/' {
    } else if path[n - 1] == '.' {
      assert IsExtStart(path, n - 1);
    } else {
      var prefix := path[..n - 1];
      var e := Ext(prefix);
      ExtShape(prefix);
      assert Ext(path) == if e == "" then "" else e + [path[n - 1]];
      if e == "" {
        forall i | 0 <= i < n
          ensures !IsExtStart(path, i)
        {
          if i < n - 1 && IsExtStart(path, i) {
            assert IsExtStart(prefix, i);
          }
        }
      } else {
        var j := n - 1 - |e|;
        assert prefix[j..] + [path[n - 1]] == path[j..];
        assert IsExtStart(path, j);
      }
    }
  }

  /** The extension of `p + "." + t` is `"." + t` when `t` holds no '.' and no '/'. */
  lemma ExtOfDottedSuffix(p: string, t: string)
    requires '.' !in t && '/' !in t
    ensures Ext(p + "." + t) == "." + t
  {
    var path := p + "." + t;
    assert path[|p|] == '.';
    forall k | |p| < k < |path|
      ensures path[k] != '.' && path[k] != '/'
    {
      assert path[k] == t[k - |p| - 1];
    }
    assert IsExtStart(path, |p|);
    ExtShape(path);
    var r := Ext(path);
    ExtStartUnique(path, |p|, |path| - |r|);
    assert path[|p|..] == "." + t;
  }

  /** A path whose final element `base` has no '.' has no extension, whatever `dir` holds. */
  lemma ExtOfSlashSuffix(dir: string, base: string)
    requires '.' !in base && '/' !in base
    ensures Ext(dir + "/" + base) == ""
  {
    var path := dir + "/" + base;
    forall i | 0 <= i < |path|
      ensures !IsExtStart(path, i)
    {
      if i <= |dir| {
        assert path[|dir|] == '/';
      } else {
        assert path[i] == base[i - |dir| - 1];
      }
    }
    ExtShape(path);
  }
}
