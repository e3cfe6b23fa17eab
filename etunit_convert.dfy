/** EtUnitConvertTask's naming of its outputs: each etunit report is
    converted to a sibling file whose extension is replaced by "xml". */
module EtUnitConvertTask {
  import opened Wrappers
  import opened Paths

  const XmlExtension := "xml"

  /** The last position of `c` in `s`, as String.lastIndexOf(char). */
  function LastIndexOf(s: string, c: char): (r: Option<nat>)
    ensures r.Some? ==> r.value < |s| && s[r.value] == c && c !in s[r.value + 1..]
    ensures r.None? <==> c !in s
  {
    if |s| == 0 then None
    else if s[|s| - 1] == c then Some(|s| - 1)
    else
      assert s == s[..|s| - 1] + [s[|s| - 1]];
      LastIndexOf(s[..|s| - 1], c)
  }

  /** The file name with its extension replaced: the text up to and
      including the last dot, followed by `extension`; or, for a name without
      a dot, the name, a dot and `extension`. */
  function ReplacedName(name: string, extension: string): (r: string)
    ensures |r| > |extension| && r[|r| - |extension|..] == extension && r[|r| - |extension| - 1] == '.'
    ensures '.' in name ==> var stem := r[..|r| - |extension|];
      |stem| <= |name| && stem == name[..|stem|] && '.' !in name[|stem|..]
    ensures '.' !in name ==> r == name + "." + extension
  {
    match LastIndexOf(name, '.')
    case Some(i) =>
      assert name[..i + 1][i] == '.';
      name[..i + 1] + extension
    case None => name + "." + extension
  }

  /** replaceFileExtension: a root-only path has no file name and is
      returned as it is; the empty path's file name is the empty name, so it
      becomes the bare name "." + extension; otherwise only the last name
      element changes, to the replaced name (Path.resolveSibling). */
  function ReplaceFileExtension(path: Path, extension: string): (r: Path)
    ensures |path.names| == 0 && path.root != "" ==> r == path
    ensures |path.names| == 0 && path.root == "" ==> r == Path("", ["." + extension])
    ensures |path.names| > 0 ==>
      && r.root == path.root && |r.names| == |path.names|
      && r.names[..|path.names| - 1] == path.names[..|path.names| - 1]
      && r.names[|path.names| - 1] == ReplacedName(path.names[|path.names| - 1], extension)
  {
    if |path.names| == 0 then
      if path.root == "" then
        assert "" + "." + extension == "." + extension;
        Path("", [ReplacedName("", extension)])
      else path
    else
      var n := |path.names|;
      Path(path.root, path.names[..n - 1] + [ReplacedName(path.names[n - 1], extension)])
  }

  /** The last dot of a name that ends with a dot and a dot-free extension
      is the one before the extension. */
  lemma LastDotBeforeExtension(stem: string, extension: string)
    requires |stem| > 0 && stem[|stem| - 1] == '.' && '.' !in extension
    ensures LastIndexOf(stem + extension, '.') == Some(|stem| - 1)
  {
    var s := stem + extension;
    assert s[|stem| - 1] == '.';
    assert s[|stem|..] == extension;
  }

  /** For a dot-free extension such as "xml", replacing twice gives the
      same name as replacing once. */
  lemma ReplacedNameIdempotent(name: string, extension: string)
    requires '.' !in extension
    ensures ReplacedName(ReplacedName(name, extension), extension) == ReplacedName(name, extension)
  {
    var once := ReplacedName(name, extension);
    var stem := once[..|once| - |extension|];
    assert once == stem + extension;
    LastDotBeforeExtension(stem, extension);
    assert once[..|stem|] == stem;
  }

  /** For a dot-free extension, replacing twice gives the same path as
      replacing once. */
  lemma ReplaceFileExtensionIdempotent(path: Path, extension: string)
    requires '.' !in extension
    ensures ReplaceFileExtension(ReplaceFileExtension(path, extension), extension) == ReplaceFileExtension(path, extension)
  {
    if |path.names| > 0 {
      var n := |path.names|;
      var once := ReplaceFileExtension(path, extension);
      ReplacedNameIdempotent(path.names[n - 1], extension);
      assert once.names[..n - 1] + [once.names[n - 1]] == once.names;
    } else if path.root == "" {
      ReplacedNameIdempotent("", extension);
    }
  }

  /** getXmlFiles: the set of xml report files, one per source report. */
  function XmlFiles(sources: set<Path>): set<Path> {
    set p | p in sources :: ReplaceFileExtension(p, XmlExtension)
  }

  /** There are never more xml files than source reports; two reports that
      differ only in their extension map to the same xml file. */
  lemma {:induction false} XmlFilesAtMostSources(sources: set<Path>)
    ensures |XmlFiles(sources)| <= |sources|
    decreases |sources|
  {
    if sources != {} {
      var p :| p in sources;
      var rest := sources - {p};
      XmlFilesAtMostSources(rest);
      assert XmlFiles(sources) == XmlFiles(rest) + {ReplaceFileExtension(p, XmlExtension)};
    }
  }

  /** A report named stem.ext, with a dot-free ext, becomes stem.xml in the
      same directory. */
  lemma XmlSibling(root: string, dir: seq<string>, stem: string, ext: string)
    requires '.' !in ext
    ensures ReplaceFileExtension(Path(root, dir + [stem + "." + ext]), XmlExtension)
      == Path(root, dir + [stem + "." + XmlExtension])
  {
    var name := stem + "." + ext;
    assert name == (stem + ".") + ext;
    LastDotBeforeExtension(stem + ".", ext);
    assert name[..|stem| + 1] == stem + ".";
    var p := Path(root, dir + [name]);
    assert p.names[..|dir|] == dir && p.names[|dir|] == name;
  }

  /** Two reports with the same xml sibling give one xml file. */
  lemma XmlFilesOfPair(p1: Path, p2: Path, q: Path)
    requires ReplaceFileExtension(p1, XmlExtension) == q == ReplaceFileExtension(p2, XmlExtension)
    ensures XmlFiles({p1, p2}) == {q}
  {
    assert q in XmlFiles({p1, p2});
  }

  /** Two reports in one directory whose names differ only in a dot-free
      extension (a.etu and a.txt, say) produce one single xml file. */
  lemma XmlFilesCollide(root: string, dir: seq<string>, stem: string, e1: string, e2: string)
    requires '.' !in e1 && '.' !in e2 && e1 != e2
    ensures var p1, p2 := Path(root, dir + [stem + "." + e1]), Path(root, dir + [stem + "." + e2]);
      p1 != p2 && XmlFiles({p1, p2}) == {Path(root, dir + [stem + "." + XmlExtension])}
  {
    var n1, n2 := stem + "." + e1, stem + "." + e2;
    assert n1[|stem| + 1..] == e1 && n2[|stem| + 1..] == e2;
    var p1, p2 := Path(root, dir + [n1]), Path(root, dir + [n2]);
    assert p1.names[|dir|] == n1 && p2.names[|dir|] == n2;
    XmlSibling(root, dir, stem, e1);
    XmlSibling(root, dir, stem, e2);
    XmlFilesOfPair(p1, p2, Path(root, dir + [stem + "." + XmlExtension]));
  }
}
