/** The lines EclipseModelpathTask writes to the Eclipse modelpath file:
    one "srcDir" line per source directory under the project directory,
    then one "project" line per project dependency. */
module EclipseModelpathTask {
  import opened Paths
  import ETriceBasePlugin

  const SrcDirPrefix := "srcDir "
  const ProjectPrefix := "project "

  /** The "srcDir" lines: the source directories lying under the project
      directory, in order, each relative to it and rendered by
      Path.toString with the platform's name separator `sep`. */
  function SrcDirLines(projectPath: Path, srcDirs: seq<Path>, sep: string): (r: seq<string>)
    ensures |r| <= |srcDirs|
    ensures forall i | 0 <= i < |r| :: SrcDirPrefix <= r[i]
  {
    if |srcDirs| == 0 then []
    else
      var rest := SrcDirLines(projectPath, srcDirs[1..], sep);
      if StartsWith(srcDirs[0], projectPath) then [SrcDirPrefix + PathString(Relativize(projectPath, srcDirs[0]), sep)] + rest
      else rest
  }

  /** The "project" lines, one per project name, in order. */
  function ProjectLines(projects: seq<string>): (r: seq<string>)
    ensures |r| == |projects| && forall i | 0 <= i < |projects| :: r[i] == ProjectPrefix + projects[i]
  {
    seq(|projects|, i requires 0 <= i < |projects| => ProjectPrefix + projects[i])
  }

  /** writeModelpath, up to the file write: the concatenation of both. */
  function ModelpathLines(projectPath: Path, srcDirs: seq<Path>, projects: seq<string>, sep: string): seq<string> {
    SrcDirLines(projectPath, srcDirs, sep) + ProjectLines(projects)
  }

  /** How many source directories lie under the project directory. */
  function CountUnder(projectPath: Path, srcDirs: seq<Path>): (n: nat)
    ensures n <= |srcDirs|
  {
    if |srcDirs| == 0 then 0
    else CountUnder(projectPath, srcDirs[1..]) + (if StartsWith(srcDirs[0], projectPath) then 1 else 0)
  }

  lemma {:induction false} SrcDirLinesCount(projectPath: Path, srcDirs: seq<Path>, sep: string)
    ensures |SrcDirLines(projectPath, srcDirs, sep)| == CountUnder(projectPath, srcDirs)
  {
    if |srcDirs| > 0 {
      SrcDirLinesCount(projectPath, srcDirs[1..], sep);
    }
  }

  /** The layout of the file: first the srcDir lines, one per source
      directory under the project directory (so at most one per source
      directory), then the "project" lines: exactly one per project, in
      order. */
  lemma ModelpathLinesLayout(projectPath: Path, srcDirs: seq<Path>, projects: seq<string>, sep: string)
    ensures var lines := ModelpathLines(projectPath, srcDirs, projects, sep);
      var n := CountUnder(projectPath, srcDirs);
      && |lines| == n + |projects|
      && (forall i | 0 <= i < n :: SrcDirPrefix <= lines[i])
      && lines[n..] == ProjectLines(projects)
  {
    SrcDirLinesCount(projectPath, srcDirs, sep);
    var src, prj := SrcDirLines(projectPath, srcDirs, sep), ProjectLines(projects);
    var lines := src + prj;
    forall i | 0 <= i < |src| ensures SrcDirPrefix <= lines[i] {
      assert lines[i] == src[i];
    }
    assert lines[|src|..] == prj;
  }

  /** Only source directories under the project directory contribute, and
      each of them contributes its line. */
  lemma {:induction false} SrcDirLinesMembers(projectPath: Path, srcDirs: seq<Path>, sep: string)
    ensures forall line | line in SrcDirLines(projectPath, srcDirs, sep) ::
      exists p | p in srcDirs :: StartsWith(p, projectPath) && line == SrcDirPrefix + PathString(Relativize(projectPath, p), sep)
    ensures forall p | p in srcDirs && StartsWith(p, projectPath) ::
      SrcDirPrefix + PathString(Relativize(projectPath, p), sep) in SrcDirLines(projectPath, srcDirs, sep)
  {
    if |srcDirs| > 0 {
      SrcDirLinesMembers(projectPath, srcDirs[1..], sep);
      forall p | p in srcDirs ensures p == srcDirs[0] || p in srcDirs[1..] {
        var i :| 0 <= i < |srcDirs| && srcDirs[i] == p;
        if i > 0 { assert srcDirs[1..][i - 1] == p; }
      }
    }
  }

  /** On a platform whose name separator is "/", the srcDir lines carry
      exactly the relative paths ETriceBasePlugin renders for the modelpath
      task, in the same order. */
  lemma {:induction false} SrcDirLinesAgreeWithPlugin(projectPath: Path, srcDirs: seq<Path>)
    ensures var lines := SrcDirLines(projectPath, srcDirs, "/");
      var dirs := ETriceBasePlugin.EclipseModelpathSrcDirs(projectPath, srcDirs);
      |lines| == |dirs| && forall i | 0 <= i < |lines| :: lines[i] == SrcDirPrefix + dirs[i]
  {
    if |srcDirs| > 0 {
      SrcDirLinesAgreeWithPlugin(projectPath, srcDirs[1..]);
    }
  }
}
