/** The pieces of `pathlib.PurePosixPath` the model needs: components, name and suffix. */
module Paths {
  import opened Strings

  /** The non-empty components other than `.`, in order (`a//b/./c` has `a`, `b`, `c`). */
  function Components(pieces: seq<string>): (r: seq<string>)
    ensures forall i :: 0 <= i < |r| ==> r[i] != "" && r[i] != "." && r[i] in pieces
    decreases |pieces|
  {
    if |pieces| == 0 then []
    else
      var last := pieces[|pieces| - 1];
      Components(pieces[..|pieces| - 1]) + (if last != "" && last != "." then [last] else [])
  }

  /** `Path(p).parts`: the root `/` of an absolute path, then its components. */
  function Parts(path: string): (r: seq<string>)
    ensures forall i :: 0 <= i < |r| ==> r[i] != "" && r[i] != "."
  {
    (if StartsWith(path, "/") then ["/"] else []) + Components(Split(path, '/'))
  }

  /** `Path(p).name`: the last component, or "" when there is none. */
  function Name(path: string): (r: string)
    ensures r != "."
    ensures '/' !in r
    ensures r == "" || r in Components(Split(path, '/'))
  {
    var cs := Components(Split(path, '/'));
    if |cs| == 0 then "" else cs[|cs| - 1]
  }

  /** The index of the last `c` in `s`, or -1 (`str.rfind`). */
  function LastIndexOf(s: string, c: char): (i: int)
    ensures -1 <= i < |s|
    ensures i == -1 ==> c !in s
    ensures i >= 0 ==> s[i] == c && c !in s[i + 1..]
    decreases |s|
  {
    if |s| == 0 then -1
    else if s[|s| - 1] == c then |s| - 1
    else
      var i := LastIndexOf(s[..|s| - 1], c);
      assert i >= 0 ==> s[i + 1..] == s[..|s| - 1][i + 1..] + [s[|s| - 1]];
      i
  }

  /**
   * `Path(p).suffix`: the name from its last `.` on, when that dot is neither the
   * first nor the last character of the name; "" otherwise.
   */
  function Suffix(path: string): (r: string)
    ensures r == "" || (|r| >= 2 && r[0] == '.' && '.' !in r[1..])
  {
    var name := Name(path);
    var i := LastIndexOf(name, '.');
    if 0 < i < |name| - 1 then
      assert name[i + 1..] == name[i..][1..];
      name[i..]
    else ""
  }
}
