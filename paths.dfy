/** The file and path values the plugin passes around: java.io.File by its
    absolute path, and java.nio.file.Path as a root plus name elements. */
module Paths {
  import opened Wrappers

  /** A java.io.File. The build hands the plugin absolute files only, so the
      single string is both what getPath and what getAbsolutePath return. */
  datatype File = File(path: string)

  /** A java.nio.file.Path: its root component ("" for a relative path, "/"
      on a Unix-like platform) and its name elements, root excluded. */
  datatype Path = Path(root: string, names: seq<string>)

  /** Path.startsWith(Path): same root, and the name elements of `prefix`
      are the first name elements of `p`. */
  predicate StartsWith(p: Path, prefix: Path) {
    p.root == prefix.root && |prefix.names| <= |p.names| && p.names[..|prefix.names|] == prefix.names
  }

  /** Path.relativize for a path lying under `base`: the relative path of
      the remaining name elements. */
  function Relativize(base: Path, p: Path): (r: Path)
    requires StartsWith(p, base)
    ensures r.root == "" && base.names + r.names == p.names
  {
    Path("", p.names[|base.names|..])
  }

  /** The strings of `parts` separated by `sep`, as Collectors.joining(sep). */
  function Join(parts: seq<string>, sep: string): string {
    if |parts| == 0 then ""
    else if |parts| == 1 then parts[0]
    else parts[0] + sep + Join(parts[1..], sep)
  }

  /** Path.toString: the root followed by the name elements, separated by
      the platform's name separator `sep`. */
  function PathString(p: Path, sep: string): string {
    p.root + Join(p.names, sep)
  }

  /** The first position of `c` in `s`, as String.indexOf(char). */
  function IndexOf(s: string, c: char): (r: Option<nat>)
    ensures r.Some? ==> r.value < |s| && s[r.value] == c && c !in s[..r.value]
    ensures r.None? <==> c !in s
  {
    if |s| == 0 then None
    else if s[0] == c then Some(0)
    else match IndexOf(s[1..], c)
      case None => None
      case Some(i) => Some(i + 1)
  }

  /** Splits `s` at every `c`: the reading of a joined path string back into
      its name elements. */
  function Split(s: string, c: char): seq<string>
    decreases |s|
  {
    if |s| == 0 then []
    else match IndexOf(s, c)
      case None => [s]
      case Some(i) => [s[..i]] + Split(s[i + 1..], c)
  }

  /** A name element: non-empty and free of the separator character. */
  predicate IsName(name: string, c: char) {
    name != "" && c !in name
  }

  lemma {:induction false} JoinStartsWithFirst(parts: seq<string>, sep: string)
    requires |parts| > 0
    ensures |Join(parts, sep)| >= |parts[0]| && Join(parts, sep)[..|parts[0]|] == parts[0]
  {
    if |parts| > 1 {
      assert Join(parts, sep) == parts[0] + (sep + Join(parts[1..], sep));
    }
  }

  /** Joining name elements with a one-character separator loses nothing:
      splitting the result at that character gives the elements back. */
  lemma {:induction false} SplitJoin(parts: seq<string>, c: char)
    requires forall k | 0 <= k < |parts| :: IsName(parts[k], c)
    ensures Split(Join(parts, [c]), c) == parts
  {
    if |parts| == 1 {
      assert IsName(parts[0], c);
    } else if |parts| > 1 {
      var head, rest := parts[0], Join(parts[1..], [c]);
      assert IsName(head, c);
      var s := head + [c] + rest;
      assert s == Join(parts, [c]);
      assert s[..|head|] == head;
      assert s[|head|] == c;
      assert IndexOf(s, c) == Some(|head|);
      assert s[|head| + 1..] == rest;
      JoinStartsWithFirst(parts[1..], [c]);
      assert IsName(parts[1], c);
      assert rest != "";
      SplitJoin(parts[1..], c);
    }
  }
}
