/** The pieces of ETriceBasePlugin with behaviour of their own: the
    library-elements attribute rules, task-name capitalisation, and the
    rendering of model source directories for the Eclipse modelpath. */
module ETriceBasePlugin {
  import opened Wrappers
  import opened Paths

  const LibraryElementsModelDir := "model-dir"
  const LibraryElementsModelZip := "model-zip"
  /** LibraryElements.JAR */
  const LibraryElementsJar := "jar"
  const GenerateTaskName := "generate"

  /** What an AttributeCompatibilityRule can report. */
  datatype Verdict = Compatible | Incompatible

  /** LibraryElementsCompatiblityRule.execute: the verdict the rule reports
      for a consumer asking for `consumer` and a producer offering
      `producer`, or None when it reports nothing. A model-dir consumer
      accepts model-zip and jar producers, a model-zip consumer accepts a
      jar producer; the rule never reports incompatibility and says nothing
      about any other pair. */
  function CompatibilityVerdict(consumer: string, producer: string): (r: Option<Verdict>)
    ensures r != Some(Incompatible)
    ensures r.Some? <==>
      || (consumer == LibraryElementsModelDir && producer in {LibraryElementsModelZip, LibraryElementsJar})
      || (consumer == LibraryElementsModelZip && producer == LibraryElementsJar)
    ensures r.Some? ==> consumer in {LibraryElementsModelDir, LibraryElementsModelZip} && producer != LibraryElementsModelDir && producer != consumer
  {
    if consumer == LibraryElementsModelDir then
      if producer == LibraryElementsModelZip || producer == LibraryElementsJar then Some(Compatible) else None
    else if consumer == LibraryElementsModelZip then
      if producer == LibraryElementsJar then Some(Compatible) else None
    else None
  }

  /** The preference order of the disambiguation rule for a consumer value:
      model directories over model zips over jars. */
  function Preference(consumer: string): seq<string> {
    if consumer == LibraryElementsModelDir then [LibraryElementsModelDir, LibraryElementsModelZip, LibraryElementsJar]
    else if consumer == LibraryElementsModelZip then [LibraryElementsModelZip, LibraryElementsJar]
    else []
  }

  /** LibraryElementsDisambiguationRule.execute: the closest match chosen
      among the candidate values, or None when the rule chooses nothing.
      The choice is a candidate, the most preferred one present, and there
      is a choice exactly when some preferred value is a candidate. */
  function ClosestMatch(consumer: string, candidates: set<string>): (r: Option<string>)
    ensures r.Some? ==> r.value in candidates
    ensures r.Some? ==> r.value in Preference(consumer)
    ensures r.Some? ==> forall k, j | 0 <= k < j < |Preference(consumer)| && Preference(consumer)[j] == r.value ::
      Preference(consumer)[k] !in candidates
    ensures r.None? <==> forall i | 0 <= i < |Preference(consumer)| :: Preference(consumer)[i] !in candidates
    ensures consumer == LibraryElementsModelZip ==> r != Some(LibraryElementsModelDir)
  {
    if consumer == LibraryElementsModelDir then
      if LibraryElementsModelDir in candidates then Some(LibraryElementsModelDir)
      else if LibraryElementsModelZip in candidates then Some(LibraryElementsModelZip)
      else if LibraryElementsJar in candidates then Some(LibraryElementsJar)
      else None
    else if consumer == LibraryElementsModelZip then
      if LibraryElementsModelZip in candidates then Some(LibraryElementsModelZip)
      else if LibraryElementsJar in candidates then Some(LibraryElementsJar)
      else None
    else None
  }

  /** The two rules agree: whatever disambiguation picks is either the
      consumer's own value or one the compatibility rule accepts for it. */
  lemma ClosestMatchIsCompatible(consumer: string, candidates: set<string>)
    ensures var r := ClosestMatch(consumer, candidates);
      r.Some? ==> r.value == consumer || CompatibilityVerdict(consumer, r.value) == Some(Compatible)
  {
  }

  /** The upper-case form of a character: ASCII letters a-z map to A-Z,
      every other character is left as it is. */
  function ToUpper(c: char): (u: char)
    ensures 'a' <= c <= 'z' ==> 'A' <= u <= 'Z' && u as int == c as int - 32
    ensures !('a' <= c <= 'z') ==> u == c
    ensures !('a' <= u <= 'z')
  {
    if 'a' <= c <= 'z' then (c as int - 32) as char else c
  }

  /** capitalize: the empty string unchanged; otherwise the first character
      upper-cased and all the others kept. */
  function Capitalize(s: string): (r: string)
    ensures |r| == |s|
    ensures |s| > 0 ==> r[0] == ToUpper(s[0])
    ensures forall i | 1 <= i < |s| :: r[i] == s[i]
  {
    if |s| == 0 then s else [ToUpper(s[0])] + s[1..]
  }

  /** Capitalising twice gives what capitalising once gives. */
  lemma CapitalizeIdempotent(s: string)
    ensures Capitalize(Capitalize(s)) == Capitalize(s)
  {
    if |s| > 0 {
      var once := Capitalize(s);
      assert once[0] == ToUpper(s[0]);
      assert Capitalize(once) == [ToUpper(once[0])] + once[1..];
    }
  }

  /** The name of the generate task registered for a model source set. */
  function GenerateTaskNameFor(sourceSet: string): string {
    GenerateTaskName + Capitalize(sourceSet)
  }

  /** Two source sets get the same generate task name exactly when their
      names are equal but for the case of an ASCII first letter. */
  lemma GenerateTaskNamesCollide(a: string, b: string)
    ensures GenerateTaskNameFor(a) == GenerateTaskNameFor(b) <==>
      |a| == |b| && (|a| == 0 || (ToUpper(a[0]) == ToUpper(b[0]) && a[1..] == b[1..]))
  {
    var ta, tb := GenerateTaskNameFor(a), GenerateTaskNameFor(b);
    if ta == tb {
      assert Capitalize(a) == ta[|GenerateTaskName|..] == tb[|GenerateTaskName|..] == Capitalize(b);
      if |a| > 0 {
        assert Capitalize(a)[1..] == a[1..];
        assert Capitalize(b)[1..] == b[1..];
      }
    }
    if |a| == |b| && |a| > 0 && ToUpper(a[0]) == ToUpper(b[0]) && a[1..] == b[1..] {
      assert Capitalize(a) == Capitalize(b);
    }
  }

  /** toPathStringWithForwardSlashes: the name elements of `p` separated by
      "/", whatever the platform's separator. */
  function ForwardSlashString(p: Path): string {
    Join(p.names, "/")
  }

  /** Nothing is lost in the rendering: for proper name elements, splitting
      at "/" gives the path's names back. */
  lemma ForwardSlashStringNames(p: Path)
    requires forall k | 0 <= k < |p.names| :: IsName(p.names[k], '/')
    ensures Split(ForwardSlashString(p), '/') == p.names
  {
    SplitJoin(p.names, '/');
  }

  /** getEclipseModelpathSrcDirs: the source directories lying under the
      project directory, each as its path relative to the project directory
      with forward slashes, in order; the others are dropped. */
  function EclipseModelpathSrcDirs(projectPath: Path, srcDirs: seq<Path>): (r: seq<string>)
    ensures |r| <= |srcDirs|
  {
    if |srcDirs| == 0 then []
    else
      var rest := EclipseModelpathSrcDirs(projectPath, srcDirs[1..]);
      if StartsWith(srcDirs[0], projectPath) then [ForwardSlashString(Relativize(projectPath, srcDirs[0]))] + rest
      else rest
  }

  /** Every entry comes from a source directory under the project
      directory, and every such directory contributes its entry. */
  lemma {:induction false} EclipseModelpathSrcDirsMembers(projectPath: Path, srcDirs: seq<Path>)
    ensures forall s | s in EclipseModelpathSrcDirs(projectPath, srcDirs) ::
      exists p | p in srcDirs :: StartsWith(p, projectPath) && s == ForwardSlashString(Relativize(projectPath, p))
    ensures forall p | p in srcDirs && StartsWith(p, projectPath) ::
      ForwardSlashString(Relativize(projectPath, p)) in EclipseModelpathSrcDirs(projectPath, srcDirs)
  {
    if |srcDirs| > 0 {
      EclipseModelpathSrcDirsMembers(projectPath, srcDirs[1..]);
      forall p | p in srcDirs ensures p == srcDirs[0] || p in srcDirs[1..] {
        var i :| 0 <= i < |srcDirs| && srcDirs[i] == p;
        if i > 0 { assert srcDirs[1..][i - 1] == p; }
      }
    }
  }
}
