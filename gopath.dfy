// The few Go library functions (path/filepath, strings) that main() bases its
// startup decisions on, for a Unix host where the only path separator is '/'.

module GoPath {

  /** A name with no path separator: strings.Count(filepath.ToSlash(p), "/") == 0. */
  predicate Bare(p: string) {
    '/' !in p
  }

  /** No '.' in the final element of `path`: every dot has a separator after it. */
  ghost predicate NoDotInLastElement(path: string) {
    forall k :: 0 <= k < |path| && path[k] == '.' ==> '/' in path[k + 1..]
  }

  /** A well-formed extension: a leading dot and no further dot or separator. */
  predicate IsExtension(e: string) {
    |e| >= 1 && e[0] == '.' && forall k :: 1 <= k < |e| ==> e[k] != '.' && e[k] != '/'
  }

  /**
   * filepath.Ext scans `path` backwards from index i - 1 and stops at the
   * first separator; on the first dot it returns the suffix from that dot.
   */
  function ExtFrom(path: string, i: nat): (e: string)
    requires i <= |path|
    ensures e == "" ==> forall k :: 0 <= k < i && path[k] == '.' ==> '/' in path[k + 1..i]
    ensures e != "" ==>
      |e| <= |path| && |path| - |e| < i && e == path[|path| - |e|..] && e[0] == '.' &&
      forall k :: |path| - |e| < k < i ==> path[k] != '.' && path[k] != '/'
    decreases i
  {
    if i == 0 || path[i - 1] == '/' then ""
    else if path[i - 1] == '.' then path[i - 1..]
    else ExtFrom(path, i - 1)
  }

  /**
   * filepath.Ext: the suffix that starts at the final dot of the final
   * element of `path`, or "" when that element has no dot.
   */
  function Ext(path: string): (e: string)
    ensures e == "" <==> NoDotInLastElement(path)
    ensures e != "" ==> IsExtension(e) && |e| <= |path| && e == path[|path| - |e|..]
  {
    ExtFromWhole(path);
    ExtFrom(path, |path|)
  }

  /** A scan of `path` from its end is exactly the extension of its final element. */
  lemma ExtFromWhole(path: string)
    ensures var e := ExtFrom(path, |path|);
      (e == "" <==> NoDotInLastElement(path)) &&
      (e != "" ==> IsExtension(e) && |e| <= |path| && e == path[|path| - |e|..])
  {
    var e := ExtFrom(path, |path|);
    assert path[..|path|] == path;
    if e != "" {
      var j := |path| - |e|;
      assert path[j] == '.';
      assert '/' !in path[j + 1..] by {
        forall m | j + 1 <= m < |path| ensures path[m] != '/' {
        }
      }
      assert e[1..] == path[j + 1..];
    }
  }

  /** The extension of `stem + e` is `e` whenever `e` is a well-formed extension. */
  lemma ExtOfName(stem: string, e: string)
    requires IsExtension(e)
    ensures Ext(stem + e) == e
  {
    var p := stem + e;
    assert p[|stem|] == '.';
    assert p[|stem|..] == e;
  }

  function LowerChar(c: char): char {
    if 'A' <= c <= 'Z' then (c as int + 32) as char else c
  }

  /** strings.ToLower, restricted to ASCII letters. */
  function Lower(s: string): (r: string)
    ensures |r| == |s|
  {
    seq(|s|, k requires 0 <= k < |s| => LowerChar(s[k]))
  }

  /** Lower moves each upper-case ASCII letter down by 32 and keeps every other character. */
  lemma LowerLetters(s: string)
    ensures forall k :: 0 <= k < |s| ==>
      if 'A' <= s[k] <= 'Z' then Lower(s)[k] as int == s[k] as int + 32 else Lower(s)[k] == s[k]
  {
  }

  /** Index of the last separator of `path`, or -1 when there is none. */
  function LastSlash(path: string): (i: int)
    ensures -1 <= i < |path|
    ensures i >= 0 ==> path[i] == '/' && Bare(path[i + 1..])
    ensures i == -1 ==> Bare(path)
    decreases |path|
  {
    if path == [] then -1
    else if path[|path| - 1] == '/' then |path| - 1
    else
      var i := LastSlash(path[..|path| - 1]);
      assert path == path[..|path| - 1] + [path[|path| - 1]];
      assert i >= 0 ==> path[i + 1..] == path[..|path| - 1][i + 1..] + [path[|path| - 1]];
      i
  }

  /**
   * filepath.Dir: everything before the last separator, "." when there is
   * no separator and "/" when the only separator is the leading one.
   */
  function Dir(path: string): (d: string)
    ensures Bare(path) ==> d == "."
    ensures !Bare(path) ==>
      (d == "/" && path[0] == '/' && Bare(path[1..])) ||
      (0 < |d| < |path| && d == path[..|d|] && path[|d|] == '/' && Bare(path[|d| + 1..]))
  {
    var i := LastSlash(path);
    if i < 0 then "."
    else if i == 0 then "/"
    else path[..i]
  }

  /** filepath.Join of two elements. */
  function Join(dir: string, name: string): (j: string)
    ensures dir != "" && name != "" ==>
      |j| == |dir| + 1 + |name| && j[..|dir|] == dir && j[|dir|] == '/' && j[|dir| + 1..] == name && !Bare(j)
    ensures dir == "" ==> j == name
    ensures dir != "" && name == "" ==> j == dir
  {
    if dir == "" then name
    else if name == "" then dir
    else
      var j := dir + "/" + name;
      assert j[|dir|] == '/';
      j
  }
}
