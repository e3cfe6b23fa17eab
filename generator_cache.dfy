/** CachingGeneratorProvider and its inner GeneratorClasspath: a bounded
    list of class-loader entries, most recently used first, each memoising
    one Generator per module name. Object identity stands for Java object
    identity: a loader or generator the model allocates is a new instance. */
module GeneratorCache {
  import opened Wrappers
  import opened Paths
  import opened CacheOrder

  /** CachingGeneratorProvider.DEFAULT_CACHE_SIZE */
  const DefaultCacheSize: nat := 8

  /** The URLClassLoader built for a classpath. Only whether it has been
      closed is modelled; how it loads classes is not. */
  class URLClassLoader {
    var closed: bool

    constructor ()
      ensures !closed
    {
      closed := false;
    }
  }

  /** A generator bound to the loader it was created with and its module
      name; running it is not modelled. */
  class Generator {
    const loader: URLClassLoader
    const moduleName: string

    constructor (loader: URLClassLoader, moduleName: string)
      ensures this.loader == loader && this.moduleName == moduleName
    {
      this.loader := loader;
      this.moduleName := moduleName;
    }
  }

  /** One cache entry: the files it was built for, its own loader and the
      generators created so far, by module name. */
  class GeneratorClasspath {
    const files: set<File>
    const loader: URLClassLoader
    var generators: map<string, Generator>

    /** Every memoised generator belongs to this entry's loader and is
        filed under its own module name. */
    ghost predicate Valid()
      reads this
    {
      forall m | m in generators :: generators[m].moduleName == m && generators[m].loader == loader
    }

    /** The entry for a requested classpath: its file set, a new open loader
        and no generators yet. */
    constructor (classpath: seq<File>)
      ensures files == AsSet(classpath)
      ensures fresh(loader) && !loader.closed
      ensures generators == map[] && Valid()
    {
      files := AsSet(classpath);
      loader := new URLClassLoader();
      generators := map[];
    }

    /** The generator for `moduleName`: the memoised one when there is one,
        otherwise a new one, which is memoised. */
    method GetGenerator(moduleName: string) returns (g: Generator)
      requires Valid()
      modifies this
      ensures Valid()
      ensures g.moduleName == moduleName && g.loader == loader
      ensures moduleName in old(generators) ==> g == old(generators)[moduleName] && generators == old(generators)
      ensures moduleName !in old(generators) ==> fresh(g)
      ensures generators == old(generators)[moduleName := g]
    {
      if moduleName in generators {
        g := generators[moduleName];
      } else {
        g := new Generator(loader, moduleName);
        generators := generators[moduleName := g];
      }
    }

    /** close(): closes the loader. `ioFails` says whether closing the
        loader's files raises an IOException; the loader is closed either
        way and the exception surfaces as UncheckedIO. */
    method Close(ioFails: bool) returns (outcome: Outcome)
      modifies loader
      ensures loader.closed
      ensures outcome.Fail? <==> ioFails
      ensures outcome.Fail? ==> outcome.error == UncheckedIO
    {
      loader.closed := true;
      outcome := if ioFails then Fail(UncheckedIO) else Pass;
    }
  }

  /** The file sets of a list of entries, in order. */
  function FileSetsOf(cps: seq<GeneratorClasspath>): (r: seq<set<File>>)
    ensures |r| == |cps| && forall i | 0 <= i < |cps| :: r[i] == cps[i].files
  {
    seq(|cps|, i requires 0 <= i < |cps| => cps[i].files)
  }

  /** The loaders of a list of entries, in order. */
  function LoadersOf(cps: seq<GeneratorClasspath>): (r: seq<URLClassLoader>)
    ensures |r| == |cps| && forall i | 0 <= i < |cps| :: r[i] == cps[i].loader
  {
    seq(|cps|, i requires 0 <= i < |cps| => cps[i].loader)
  }

  lemma ProjectionsMoveToFront(cps: seq<GeneratorClasspath>, k: nat)
    requires k < |cps|
    ensures FileSetsOf(MoveToFront(cps, k)) == MoveToFront(FileSetsOf(cps), k)
    ensures LoadersOf(MoveToFront(cps, k)) == MoveToFront(LoadersOf(cps), k)
    ensures forall c | c in MoveToFront(cps, k) :: c in cps
  {
    var r := MoveToFront(cps, k);
    var fs, ls := FileSetsOf(cps), LoadersOf(cps);
    assert r == [cps[k]] + cps[..k] + cps[k + 1..];
    forall i | 0 <= i < |r| ensures FileSetsOf(r)[i] == MoveToFront(fs, k)[i] && LoadersOf(r)[i] == MoveToFront(ls, k)[i] {
      if i == 0 {
      } else if i <= k {
        assert r[i] == cps[i - 1];
      } else {
        assert r[i] == cps[i];
      }
    }
    forall c | c in r ensures c in cps {
      var i :| 0 <= i < |r| && r[i] == c;
      if i == 0 {
      } else if i <= k {
        assert r[i] == cps[i - 1];
      } else {
        assert r[i] == cps[i];
      }
    }
  }

  lemma ProjectionsAdmit(cps: seq<GeneratorClasspath>, cp: GeneratorClasspath, cap: nat)
    ensures FileSetsOf(Admit(cps, cp, cap)) == Admit(FileSetsOf(cps), cp.files, cap)
    ensures LoadersOf(Admit(cps, cp, cap)) == Admit(LoadersOf(cps), cp.loader, cap)
    ensures forall c | c in Admit(cps, cp, cap) :: c == cp || c in cps
  {
    var r := Admit(cps, cp, cap);
    forall c | c in r ensures c == cp || c in cps {
      assert c in [cp] + cps;
    }
  }

  /** The loaders of a list of entries, as a frame. */
  function LoaderSet(cps: seq<GeneratorClasspath>): set<URLClassLoader> {
    set cp | cp in cps :: cp.loader
  }

  /** The shape of the cache invariant over a list of entries: at most
      `cap` entries, no file set twice, each entry with a loader of its own. */
  predicate EntriesBounded(cps: seq<GeneratorClasspath>, cap: nat) {
    Bounded(FileSetsOf(cps), cap) && Distinct(LoadersOf(cps))
  }

  /** The search loop of getClasspath: walks the entries front to back
      and stops at the first whose files include every requested file. */
  method FindSuperset(cps: seq<GeneratorClasspath>, req: set<File>) returns (r: Option<nat>)
    ensures r == FirstSuperset(FileSetsOf(cps), req)
  {
    ghost var sets := FileSetsOf(cps);
    var i := 0;
    while i < |cps|
      invariant 0 <= i <= |cps|
      invariant forall j | 0 <= j < i :: !(req <= sets[j])
    {
      if req <= cps[i].files {
        return Some(i);
      }
      i := i + 1;
    }
    return None;
  }

  /** A hit at the front-most superset `k` keeps the invariant, and the file
      sets follow Lookup. */
  lemma HitKeepsValid(cps: seq<GeneratorClasspath>, req: set<File>, cap: nat, k: nat)
    requires EntriesBounded(cps, cap) && FirstSuperset(FileSetsOf(cps), req) == Some(k)
    ensures EntriesBounded(MoveToFront(cps, k), cap)
    ensures forall c | c in MoveToFront(cps, k) :: c in cps
    ensures FileSetsOf(MoveToFront(cps, k)) == Lookup(FileSetsOf(cps), req, cap)
  {
    LookupKeepsBounded(FileSetsOf(cps), req, cap);
    DistinctMoveToFront(LoadersOf(cps), k);
    ProjectionsMoveToFront(cps, k);
  }

  /** Admitting a new entry for `req` after a miss keeps the invariant, and
      the file sets follow Lookup. */
  lemma MissKeepsValid(cps: seq<GeneratorClasspath>, req: set<File>, cap: nat, cp: GeneratorClasspath)
    requires EntriesBounded(cps, cap) && FirstSuperset(FileSetsOf(cps), req).None?
    requires cp.files == req && cp.loader !in LoadersOf(cps)
    ensures EntriesBounded(Admit(cps, cp, cap), cap)
    ensures forall c | c in Admit(cps, cp, cap) :: c == cp || c in cps
    ensures FileSetsOf(Admit(cps, cp, cap)) == Lookup(FileSetsOf(cps), req, cap)
  {
    LookupKeepsBounded(FileSetsOf(cps), req, cap);
    DistinctAdmit(LoadersOf(cps), cp.loader, cap);
    ProjectionsAdmit(cps, cp, cap);
  }

  class CachingGeneratorProvider {
    const cacheSize: nat
    var classpaths: seq<GeneratorClasspath>

    /** The cache invariant: at most `cacheSize` entries, no file set twice,
        each entry with a loader of its own, each memo consistent. */
    ghost predicate Valid()
      reads this, classpaths
    {
      && EntriesBounded(classpaths, cacheSize)
      && forall cp | cp in classpaths :: cp.Valid()
    }

    /** The file sets of the cached entries, most recently used first. */
    ghost function FileSets(): seq<set<File>>
      reads this
    {
      FileSetsOf(classpaths)
    }

    /** The constructor past its argument check: an empty cache. */
    constructor (cacheSize: nat)
      ensures Valid() && this.cacheSize == cacheSize && classpaths == []
    {
      this.cacheSize := cacheSize;
      classpaths := [];
    }

    /** The no-argument constructor: an empty cache of the default size. */
    constructor Default()
      ensures Valid() && cacheSize == DefaultCacheSize && classpaths == []
    {
      cacheSize := DefaultCacheSize;
      classpaths := [];
    }

    /** getClasspath: the first entry, front to back, whose files include
        every requested file, moved to the front; or, failing that, a new
        entry for exactly the requested files, put at the front, the last
        entry being dropped (not closed) when the list outgrows the cache. */
    method GetClasspath(files: seq<File>) returns (cp: GeneratorClasspath)
      requires Valid()
      modifies this
      ensures Valid()
      ensures FileSets() == Lookup(old(FileSets()), AsSet(files), cacheSize)
      ensures AsSet(files) <= cp.files && cp.Valid()
      ensures cacheSize > 0 ==> |classpaths| > 0 && classpaths[0] == cp
      ensures cacheSize == 0 ==> classpaths == old(classpaths) == []
      ensures forall c | c in classpaths :: c in old(classpaths) || c == cp
      ensures match FirstSuperset(old(FileSets()), AsSet(files))
        case Some(k) =>
          k < |old(classpaths)| && cp == old(classpaths)[k] && classpaths == MoveToFront(old(classpaths), k)
        case None =>
          && fresh(cp) && fresh(cp.loader) && !cp.loader.closed
          && cp.files == AsSet(files) && cp.generators == map[]
          && classpaths == Admit(old(classpaths), cp, cacheSize)
    {
      var req := AsSet(files);
      var found := FindSuperset(classpaths, req);
      match found {
        case Some(k) =>
          cp := classpaths[k];
          HitKeepsValid(classpaths, req, cacheSize, k);
          classpaths := MoveToFront(classpaths, k);
        case None =>
          cp := new GeneratorClasspath(files);
          MissKeepsValid(classpaths, req, cacheSize, cp);
          classpaths := Admit(classpaths, cp, cacheSize);
      }
    }

    /** getGenerator: the entry getClasspath picks, asked for the generator
        of `moduleName`. The picked entry ends at the front with `g` memoised
        under `moduleName` (unless a cache of size 0 keeps nothing); no
        loader is closed, and no entry other than the one picked changes. */
    method GetGenerator(classpath: seq<File>, moduleName: string) returns (g: Generator)
      requires Valid()
      modifies this, classpaths
      ensures Valid()
      ensures FileSets() == Lookup(old(FileSets()), AsSet(classpath), cacheSize)
      ensures g.moduleName == moduleName
      ensures forall c | c in classpaths :: c in old(classpaths) || fresh(c)
      ensures match FirstSuperset(old(FileSets()), AsSet(classpath))
        case Some(k) =>
          && k < |old(classpaths)| && g.loader == old(classpaths[k].loader)
          && classpaths == MoveToFront(old(classpaths), k)
          && classpaths[0].generators == old(classpaths[k].generators)[moduleName := g]
          && (moduleName in old(classpaths[k].generators) ==> g == old(classpaths[k].generators)[moduleName])
          && (moduleName !in old(classpaths[k].generators) ==> fresh(g))
        case None =>
          && fresh(g) && fresh(g.loader) && !g.loader.closed
          && (cacheSize == 0 ==> classpaths == old(classpaths))
          && (cacheSize > 0 ==>
                && fresh(classpaths[0]) && classpaths[0].loader == g.loader
                && classpaths == Admit(old(classpaths), classpaths[0], cacheSize)
                && classpaths[0].files == AsSet(classpath)
                && classpaths[0].generators == map[moduleName := g])
      ensures cacheSize > 0 ==>
        && |classpaths| > 0 && AsSet(classpath) <= classpaths[0].files
        && moduleName in classpaths[0].generators && classpaths[0].generators[moduleName] == g
      ensures forall c | c in old(classpaths) :: c.loader.closed == old(c.loader.closed)
      ensures forall c | c in old(classpaths) && c.loader != g.loader :: c.generators == old(c.generators)
    {
      var cp := GetClasspath(classpath);
      label picked:
      g := cp.GetGenerator(moduleName);
      forall c | c in classpaths ensures c.Valid() {
        if c != cp {
          assert old@picked(c.Valid());
        }
      }
    }

    /** Asking twice in a row for the same classpath and module name gives
        the identical generator, as long as the cache keeps any entry. */
    method GetGeneratorTwice(classpath: seq<File>, moduleName: string) returns (g1: Generator, g2: Generator)
      requires Valid() && cacheSize > 0
      modifies this, classpaths
      ensures Valid() && g1 == g2
    {
      g1 := GetGenerator(classpath, moduleName);
      assert FirstSuperset(FileSets(), AsSet(classpath)) == Some(0);
      g2 := GetGenerator(classpath, moduleName);
    }

    /** clearCache: closes the entries front to back, then empties the list.
        `failing` holds the loaders whose close raises an IOException. The
        exception stops the walk: the entries after the failing one stay
        open and the list is not emptied. */
    method ClearCache(failing: set<URLClassLoader>) returns (outcome: Outcome)
      requires Valid()
      modifies this, LoaderSet(classpaths)
      ensures Valid()
      ensures outcome.Pass? <==> FirstIn(LoadersOf(old(classpaths)), failing).None?
      ensures outcome.Pass? ==> classpaths == [] && forall i | 0 <= i < |old(classpaths)| :: old(classpaths)[i].loader.closed
      ensures outcome.Fail? ==>
        && outcome.error == UncheckedIO
        && classpaths == old(classpaths)
        && var k := FirstIn(LoadersOf(classpaths), failing).value;
        && (forall i | 0 <= i <= k :: classpaths[i].loader.closed)
        && (forall i | k < i < |classpaths| :: classpaths[i].loader.closed == old(classpaths[i].loader.closed))
    {
      outcome := CloseAll(classpaths, failing);
      if outcome.Pass? {
        classpaths := [];
      }
    }
  }

  /** classpaths.forEach(cp -> cp.close()): closes the entries front to
      back, stopping at the first close that raises. */
  method CloseAll(cps: seq<GeneratorClasspath>, failing: set<URLClassLoader>) returns (outcome: Outcome)
    requires Distinct(LoadersOf(cps))
    modifies LoaderSet(cps)
    ensures outcome.Pass? <==> FirstIn(LoadersOf(cps), failing).None?
    ensures outcome.Pass? ==> forall i | 0 <= i < |cps| :: cps[i].loader.closed
    ensures outcome.Fail? ==>
      && outcome.error == UncheckedIO
      && var k := FirstIn(LoadersOf(cps), failing).value;
      && (forall i | 0 <= i <= k :: cps[i].loader.closed)
      && (forall i | k < i < |cps| :: cps[i].loader.closed == old(cps[i].loader.closed))
  {
    ghost var loaders := LoadersOf(cps);
    outcome := Pass;
    var i := 0;
    while i < |cps|
      invariant 0 <= i <= |cps| && outcome == Pass
      invariant forall j | 0 <= j < i :: cps[j].loader !in failing && cps[j].loader.closed
      invariant forall j | i <= j < |cps| :: cps[j].loader.closed == old(cps[j].loader.closed)
    {
      var cp := cps[i];
      forall j | i < j < |cps| ensures cps[j].loader != cp.loader {
        assert loaders[j] != loaders[i];
      }
      outcome := cp.Close(cp.loader in failing);
      if outcome.Fail? {
        assert FirstIn(loaders, failing) == Some(i);
        return;
      }
      i := i + 1;
    }
    assert forall j | 0 <= j < |cps| :: loaders[j] !in failing;
  }

  /** The constructor with its argument check: a negative cache size is
      refused with IllegalArgumentException; zero and positive sizes give an
      empty cache of that size. */
  method NewProvider(cacheSize: int) returns (r: Result<CachingGeneratorProvider>)
    ensures r.Failure? <==> cacheSize < 0
    ensures r.Failure? ==> r.error == IllegalArgument("negative cache size")
    ensures r.Success? ==> fresh(r.value) && r.value.Valid() && r.value.cacheSize == cacheSize && r.value.classpaths == []
  {
    if cacheSize < 0 {
      return Failure(IllegalArgument("negative cache size"));
    }
    var provider := new CachingGeneratorProvider(cacheSize);
    r := Success(provider);
  }
}
