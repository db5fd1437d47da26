/** The few `os.path` and `str` operations the modelled code relies on, on flat file names. */
module Paths {

  predicate StartsWith(s: string, prefix: string) {
    |prefix| <= |s| && s[..|prefix|] == prefix
  }

  predicate EndsWith(s: string, suffix: string) {
    |suffix| <= |s| && s[|s| - |suffix|..] == suffix
  }

  /** `os.path.join(dir, name)` on POSIX: an absolute name wins, otherwise one separator is put between. */
  function Join(dir: string, name: string): (r: string)
    ensures StartsWith(name, "/") ==> r == name
    ensures !StartsWith(name, "/") ==> EndsWith(r, name) && StartsWith(r, dir)
    ensures !StartsWith(name, "/") && dir != "" && !EndsWith(dir, "/") ==> r == dir + "/" + name
    ensures !StartsWith(name, "/") && (dir == "" || EndsWith(dir, "/")) ==> r == dir + name
  {
    if StartsWith(name, "/") then name
    else if dir == "" || EndsWith(dir, "/") then dir + name
    else dir + "/" + name
  }

  /** Index of the last occurrence of `c` in `s`, or -1. */
  function LastIndexOf(s: string, c: char): (r: int)
    ensures -1 <= r < |s|
    ensures r >= 0 ==> s[r] == c && forall k :: r < k < |s| ==> s[k] != c
    ensures r == -1 ==> forall k :: 0 <= k < |s| ==> s[k] != c
  {
    if |s| == 0 then -1
    else if s[|s| - 1] == c then |s| - 1
    else LastIndexOf(s[..|s| - 1], c)
  }

  /**
   * `os.path.splitext` on a base name: the extension starts at the last '.', unless
   * every character before that dot is itself a dot (".wav" has no extension).
   */
  function SplitExt(p: string): (r: (string, string))
    ensures r.0 + r.1 == p
    ensures r.1 == "" || (r.1[0] == '.' && forall k :: 0 < k < |r.1| ==> r.1[k] != '.')
    ensures r.1 != "" ==> exists k :: 0 <= k < |r.0| && r.0[k] != '.'
    ensures r.1 == "" ==> forall i :: 0 <= i < |p| && p[i] == '.' ==> forall k :: 0 <= k < i ==> p[k] == '.'
  {
    var i := LastIndexOf(p, '.');
    if i > 0 && exists k :: 0 <= k < i && p[k] != '.' then
      assert p[..i] + p[i..] == p;
      (p[..i], p[i..])
    else (p, "")
  }

  /** `str.lower()` for the ASCII letters, the only ones the modelled suffix tests can see. */
  function LowerAscii(c: char): (r: char)
    ensures 'A' <= c <= 'Z' ==> r != c && 'a' <= r <= 'z'
    ensures !('A' <= c <= 'Z') ==> r == c
  {
    if 'A' <= c <= 'Z' then (c as int - 'A' as int + 'a' as int) as char else c
  }

  function LowerAsciiString(s: string): (r: string)
    ensures |r| == |s|
    ensures forall k :: 0 <= k < |s| ==> r[k] == LowerAscii(s[k])
  {
    seq(|s|, k requires 0 <= k < |s| => LowerAscii(s[k]))
  }

  predicate Distinct(s: seq<string>) {
    forall i, j :: 0 <= i < j < |s| ==> s[i] != s[j]
  }

  /** `s` lists every name of `names` exactly once, in some order. */
  ghost predicate Lists(s: seq<string>, names: set<string>) {
    Distinct(s) && forall n :: n in s <==> n in names
  }

  /** `os.listdir` (and `glob`): every name once, in an order the file system chooses and the model leaves open. */
  method ListDir(names: set<string>) returns (listing: seq<string>)
    ensures Lists(listing, names)
  {
    var rest := names;
    listing := [];
    while rest != {}
      invariant rest <= names
      invariant Distinct(listing)
      invariant forall n :: n in listing <==> n in names && n !in rest
      decreases |rest|
    {
      var n :| n in rest;
      listing := listing + [n];
      rest := rest - {n};
    }
  }
}
