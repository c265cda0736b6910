// The parts of Python's posix path handling that the name rules depend on:
// `os.path.basename`, `os.path.splitext`, `os.path.join` and the first
// element of `pathlib.Path(p).parts`. Only '/' is a separator.

module Paths {
  import opened Basics

  /** Index of the last `c` in `s`, or -1 when there is none (`str.rfind`). */
  function LastIndex(s: string, c: char): (k: int)
    ensures -1 <= k < |s|
    ensures k >= 0 ==> s[k] == c
    ensures forall j :: k < j < |s| ==> s[j] != c
  {
    if |s| == 0 then -1
    else if s[|s| - 1] == c then |s| - 1
    else LastIndex(s[..|s| - 1], c)
  }

  /** `os.path.basename`: everything after the last '/'. */
  function Basename(p: string): (b: string)
    ensures '/' !in b
    ensures '/' !in p ==> b == p
  {
    p[LastIndex(p, '/') + 1..]
  }

  /**
   * `os.path.splitext`: the extension is the last '.' after the last '/',
   * provided a character other than '.' precedes it in the last component.
   */
  function SplitExt(p: string): (r: (string, string))
    ensures r.0 + r.1 == p
    ensures r.1 == [] || (r.1[0] == '.' && '.' !in r.1[1..] && '/' !in r.1)
  {
    var sep := LastIndex(p, '/');
    var dot := LastIndex(p, '.');
    if dot > sep && exists j :: sep < j < dot && p[j] != '.' then
      assert p[..dot] + p[dot..] == p;
      (p[..dot], p[dot..])
    else
      (p, "")
  }

  /** A name without any '.' has no extension. */
  lemma NoDotNoExt(p: string)
    requires '.' !in p
    ensures SplitExt(p) == (p, "")
  {
    assert LastIndex(p, '.') == -1;
  }

  /** Appending `.e` to a stem without '/' makes `.e` its extension. */
  lemma {:induction false} AppendedExt(s: string, e: string)
    requires '/' !in s && '.' !in e && '/' !in e
    requires exists j :: 0 <= j < |s| && s[j] != '.'
    ensures SplitExt(s + "." + e) == (s, "." + e)
  {
    var p := s + "." + e;
    var j :| 0 <= j < |s| && s[j] != '.';
    assert p[j] == s[j];
    assert p[|s|] == '.';
    assert forall k :: |s| < k < |p| ==> p[k] == e[k - |s| - 1];
    assert LastIndex(p, '.') == |s|;
    assert forall k :: 0 <= k < |p| ==> p[k] != '/' by {
      forall k | 0 <= k < |p| ensures p[k] != '/' {
        if k < |s| { assert p[k] == s[k]; }
      }
    }
    assert LastIndex(p, '/') == -1;
    assert p[..|s|] == s;
    assert p[|s|..] == "." + e;
  }

  /** `os.path.join(a, b)`: an absolute `b` replaces `a`, otherwise one '/' separates them. */
  function PathJoin(a: string, b: string): (r: string)
    ensures |b| > 0 && b[0] == '/' ==> r == b
  {
    if |b| > 0 && b[0] == '/' then b
    else if |a| == 0 || a[|a| - 1] == '/' then a + b
    else a + "/" + b
  }

  /** The first component that `pathlib` keeps: neither empty nor ".". */
  function FirstComponent(cs: seq<string>): (r: Option<string>)
    ensures r.Some? ==> r.value in cs && r.value != "" && r.value != "."
    ensures r.None? ==> forall i :: 0 <= i < |cs| ==> cs[i] == "" || cs[i] == "."
  {
    if |cs| == 0 then None
    else if cs[0] != "" && cs[0] != "." then Some(cs[0])
    else FirstComponent(cs[1..])
  }

  /**
   * `pathlib.PurePosixPath(p).parts[0]`: the root ("/", or "//" for exactly
   * two leading slashes) of an absolute path, else its first component;
   * None where `parts` is empty and indexing it raises.
   */
  function FirstPart(p: string): (r: Option<string>)
    ensures |p| > 0 && p[0] == '/' ==> r.Some?
    ensures p == "" ==> r.None?
  {
    if |p| > 0 && p[0] == '/' then
      if |p| >= 2 && p[1] == '/' && (|p| == 2 || p[2] != '/') then Some("//") else Some("/")
    else
      FirstComponent(Split(p, '/'))
  }
}
