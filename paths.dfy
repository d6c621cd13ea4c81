/**
 * The `path` functions the desktop code calls, on '/'-separated POSIX paths,
 * without the normalisation Node's `path` module adds ('.' and '..' segments,
 * repeated or trailing separators).
 */
module Paths {
  import opened Wrappers

  /** Position of the last `c` in `s`. */
  function LastIndexOf(s: string, c: char): (r: Option<nat>)
    ensures r.Some? ==> r.value < |s| && s[r.value] == c
    ensures r.Some? ==> forall j :: r.value < j < |s| ==> s[j] != c
    ensures r.None? ==> c !in s
  {
    if |s| == 0 then None
    else if s[|s| - 1] == c then Some(|s| - 1)
    else LastIndexOf(s[..|s| - 1], c)
  }

  /** `path.join(dir, name)` without normalisation. */
  function Join(dir: string, name: string): string
  {
    dir + "/" + name
  }

  /** `path.basename(p)`: what follows the last separator. */
  function Basename(p: string): string
  {
    match LastIndexOf(p, '/')
    case None => p
    case Some(i) => p[i + 1..]
  }

  /** `path.dirname(p)`: what precedes the last separator; "/" for a top-level entry, "." with no separator. */
  function Dirname(p: string): string
  {
    match LastIndexOf(p, '/')
    case None => "."
    case Some(i) => if i == 0 then "/" else p[..i]
  }

  /** `path.extname(p)`: the basename from its last '.', or "" when the basename has no '.' past its first character. */
  function Extname(p: string): (ext: string)
    ensures ext != [] ==> ext[0] == '.'
  {
    var b := Basename(p);
    match LastIndexOf(b, '.')
    case None => ""
    case Some(i) => if i == 0 then "" else b[i..]
  }

  lemma LastSeparatorOfJoin(dir: string, name: string)
    requires '/' !in name
    ensures LastIndexOf(Join(dir, name), '/') == Some(|dir|)
  {
    var p := Join(dir, name);
    assert p[|dir|] == '/';
    assert forall j :: |dir| < j < |p| ==> p[j] == name[j - |dir| - 1];
  }

  /** Joining a plain name onto a directory gives back that name as the basename and the directory as the dirname. */
  lemma {:induction false} JoinSplitsBack(dir: string, name: string)
    requires '/' !in name
    ensures Basename(Join(dir, name)) == name
    ensures dir != "" ==> Dirname(Join(dir, name)) == dir
  {
    LastSeparatorOfJoin(dir, name);
    assert Join(dir, name)[|dir| + 1..] == name;
    assert Join(dir, name)[..|dir|] == dir;
  }

  /** A position holding `c` with no `c` after it is what `LastIndexOf` finds. */
  lemma LastIndexOfIs(s: string, c: char, i: nat)
    requires i < |s| && s[i] == c
    requires forall j :: i < j < |s| ==> s[j] != c
    ensures LastIndexOf(s, c) == Some(i)
  {
    assert s[i] in s;
  }

  /** The basename is a suffix of the path. */
  lemma BasenameIsSuffix(p: string)
    ensures |Basename(p)| <= |p| && p[|p| - |Basename(p)|..] == Basename(p)
  {
    match LastIndexOf(p, '/')
    case None =>
    case Some(i) =>
      assert Basename(p) == p[i + 1..];
  }

  /** The extension is a suffix of the path. */
  lemma ExtnameIsSuffix(p: string)
    ensures |Extname(p)| <= |p| && p[|p| - |Extname(p)|..] == Extname(p)
  {
    var b := Basename(p);
    BasenameIsSuffix(p);
    match LastIndexOf(b, '.')
    case None =>
    case Some(i) =>
      if i != 0 {
        assert Extname(p) == b[i..];
        assert p[|p| - |b| + i..] == b[i..];
      }
  }
}
