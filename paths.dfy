/**
 * Relative paths as `pathlib.Path` gives them to the analyzer: a path is the
 * sequence of its segments, the empty sequence is the folder `.`, the parent
 * drops the last segment and the name is the last segment.
 */
module Paths {
  import opened Text

  type Path = seq<string>

  /** The separator of a path's string form. */
  const Sep: char := '/'

  /** `Path(line)` for one line of `git diff --name-only` output. */
  function ParsePath(line: string): (p: Path)
    ensures p != []
    ensures forall i :: 0 <= i < |p| ==> Sep !in p[i]
  {
    Split(line, Sep)
  }

  /** `str(p)`: the segments joined by "/", and "." for the empty path. */
  function Str(p: Path): (s: string)
    ensures Canonical(p) ==> (s == "." <==> p == [])
    ensures Canonical(p) ==> s != ""
  {
    if p == [] then "." else Join(p, Sep)
  }

  /** `p.parent`; the parent of a one-segment path, and of `.` itself, is `.`. */
  function Parent(p: Path): (q: Path)
    ensures q <= p
    ensures p != [] ==> |q| == |p| - 1
  {
    if p == [] then [] else p[..|p| - 1]
  }

  /** `p.name`; the name of `.` is empty. */
  function Name(p: Path): (n: string)
    ensures p != [] ==> Parent(p) + [n] == p
    ensures p == [] ==> n == ""
  {
    if p == [] then "" else p[|p| - 1]
  }

  /** `folder / name` for a single segment `name`. */
  function Child(folder: Path, name: string): (p: Path)
    ensures Parent(p) == folder && Name(p) == name
  {
    folder + [name]
  }

  /** A path whose string form `Path` would keep as it is: no empty, "." or "/"-holding segment. */
  predicate Canonical(p: Path) {
    forall i :: 0 <= i < |p| ==> p[i] != "" && p[i] != "." && Sep !in p[i]
  }

  /** The string form of a parsed line is the line itself. */
  lemma StrParsePath(line: string)
    ensures Str(ParsePath(line)) == line
  {
    JoinSplit(line, Sep);
  }

  /** Parsing the string form of a canonical path gives the path back. */
  lemma ParseStr(p: Path)
    requires p != [] && Canonical(p)
    ensures ParsePath(Str(p)) == p
  {
    SplitJoin(p, Sep);
  }

  /** Distinct canonical paths have distinct string forms. */
  lemma StrInjective(p: Path, q: Path)
    requires Canonical(p) && Canonical(q)
    requires Str(p) == Str(q)
    ensures p == q
  {
    if p != [] && q != [] {
      ParseStr(p);
      ParseStr(q);
    } else if p != [] || q != [] {
      // the string form "." of the empty path would need the segment "."
      assert false;
    }
  }

  /** The parent of a canonical path is canonical. */
  lemma ParentCanonical(p: Path)
    requires Canonical(p)
    ensures Canonical(Parent(p))
  {
  }
}
