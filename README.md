# etrice-gradle-plugin core in Dafny

This project models the behaviour of the eTrice Gradle plugin's core.

- **Generator cache.** `CachingGeneratorProvider` keeps a bounded list of generator classpaths, most recently used first. Each entry owns a `URLClassLoader` and memoises one `Generator` per module name.
  - A request is served by the first entry whose files include every requested file. That entry moves to the front.
  - Failing that, a new entry for exactly the requested files goes to the front. The last entry is dropped, not closed, when the list outgrows the cache size.
  - `clearCache` closes the entries front to back and empties the list.
- **Generator command line.** `GenerateTask` builds `-genDir <dir>`, then `-modelpath <path>` when there is a modelpath, then one `-key [value]` group per option, then the source files.
- **Library-elements attribute rules** (`ETriceBasePlugin`):
  - the compatibility table;
  - the model-dir > model-zip > jar preference;
  - `capitalize` and the generate task's name;
  - the forward-slash rendering of source directories relative to the project.
- **Eclipse modelpath file** (`EclipseModelpathTask`): the `srcDir …` lines, then the `project …` lines.
- **etunit report naming** (`EtUnitConvertTask`): replacing a file's extension, and the set of `.xml` outputs.

## Modules

| file | module | flavour |
|---|---|---|
| `wrappers.dfy` | `Wrappers` | `Option`, `Result`, `Outcome` and the modelled exceptions |
| `paths.dfy` | `Paths` | `java.io.File` by its absolute path, and `java.nio.file.Path` as a root plus name elements. Provides `startsWith`, `relativize`, `toString` and joining. |
| `cache_order.dfy` | `CacheOrder` | The cache as a sequence of file sets, plus what one lookup does to it. The cache invariant and the hit, miss and eviction behaviour are proved here. |
| `generator_cache.dfy` | `GeneratorCache` | The classes `CachingGeneratorProvider`, `GeneratorClasspath`, `URLClassLoader` and `Generator`. Their methods update fields in place and are proved to follow `CacheOrder`. |
| `generate_task.dfy` | `GenerateTask` | The argument list as a class filled in place. `CollectArguments` fills it through loops over the options and the sources (`AddOptions`, `AddSources`), and its result is proved equal to `CommandLine`. |
| `base_plugin.dfy` | `ETriceBasePlugin` | The attribute rules and string helpers, as functions |
| `eclipse_modelpath.dfy` | `EclipseModelpathTask` | The modelpath lines, as functions |
| `etunit_convert.dfy` | `EtUnitConvertTask` | The extension replacement and the xml file set, as functions |

All source paths below are under `subprojects/de.protos.etrice.gradle/src/main/java/de/protos/etrice/gradle/`. The table cells repeat that prefix in full.

## Model

| member | source | states |
|---|---|---|
| Paths.Relativize | subprojects/de.protos.etrice.gradle/src/main/java/de/protos/etrice/gradle/ETriceBasePlugin.java:183-184 | For a path under the base, the result is relative, and appending its names to the base's names gives the path back. |
| CacheOrder.FirstSuperset | subprojects/de.protos.etrice.gradle/src/main/java/de/protos/etrice/gradle/CachingGeneratorProvider.java:86-94 | The scan finds the front-most entry that contains all requested files. There is none before it, and it finds nothing exactly when no entry is a superset. |
| CacheOrder.FirstIn | subprojects/de.protos.etrice.gradle/src/main/java/de/protos/etrice/gradle/CachingGeneratorProvider.java:73 | The first loader in list order whose close fails; there is none before it, and None exactly when no close fails. |
| CacheOrder.MoveToFront | subprojects/de.protos.etrice.gradle/src/main/java/de/protos/etrice/gradle/CachingGeneratorProvider.java:90-91 | `remove` plus `addFirst`: the hit comes first, the entries before it shift back by one, later ones stay put, and the list is a permutation of the old one. |
| CacheOrder.Admit | subprojects/de.protos.etrice.gradle/src/main/java/de/protos/etrice/gradle/CachingGeneratorProvider.java:97-101 | `addFirst` plus a conditional `removeLast`: the result is a prefix of the new entry followed by the old list. It drops exactly the last element exactly when the grown list exceeds the cache size. |
| CacheOrder.DistinctMoveToFront | subprojects/de.protos.etrice.gradle/src/main/java/de/protos/etrice/gradle/CachingGeneratorProvider.java:90-91 | Moving an entry to the front creates no duplicate. |
| CacheOrder.DistinctAdmit | subprojects/de.protos.etrice.gradle/src/main/java/de/protos/etrice/gradle/CachingGeneratorProvider.java:97-101 | Admitting a value not yet in the list creates no duplicate. |
| CacheOrder.LookupKeepsBounded | subprojects/de.protos.etrice.gradle/src/main/java/de/protos/etrice/gradle/CachingGeneratorProvider.java:84-104 | After a lookup the cache holds at most `cacheSize` entries and no file set twice. |
| CacheOrder.ReplayKeepsBounded | subprojects/de.protos.etrice.gradle/src/main/java/de/protos/etrice/gradle/CachingGeneratorProvider.java:63-67 | The same invariant holds after any series of `getGenerator` requests. |
| CacheOrder.LookupHit | subprojects/de.protos.etrice.gradle/src/main/java/de/protos/etrice/gradle/CachingGeneratorProvider.java:86-93 | When some entry contains the request, no entry is created. The front-most superset is moved to the front, and the others keep their relative order. |
| CacheOrder.LookupMiss | subprojects/de.protos.etrice.gradle/src/main/java/de/protos/etrice/gradle/CachingGeneratorProvider.java:96-103 | On a miss, an entry for exactly the requested set goes first. It is no subset of any earlier entry, and exactly the last entry is dropped at capacity. With size 0, nothing is kept. |
| CacheOrder.LookupAgain | subprojects/de.protos.etrice.gradle/src/main/java/de/protos/etrice/gradle/CachingGeneratorProvider.java:84-104 | Requesting the same files, or a subset of them, right after a request is a hit on the front entry and leaves the cache as it is. |
| CacheOrder.EvictionScenario | subprojects/de.protos.etrice.gradle/src/main/java/de/protos/etrice/gradle/CachingGeneratorProvider.java:97-101 | The least recently used entry is the one dropped. For three requests where none contains another, size 2, A, B, C leaves [C, B]; A again then leaves [A, C]. |
| CacheOrder.SupersetShadowsEntry | subprojects/de.protos.etrice.gradle/src/main/java/de/protos/etrice/gradle/CachingGeneratorProvider.java:86-101 | A cached entry can be shadowed. After requests for A and then for a strict superset B (size at least 2), both entries are cached as [B, A]. The next request for A is served by the B entry at the front, and the list stays [B, A]. |
| GeneratorCache.GeneratorClasspath.constructor | subprojects/de.protos.etrice.gradle/src/main/java/de/protos/etrice/gradle/CachingGeneratorProvider.java:122-126 | A new entry has the requested file set, a new open loader of its own and no generators. |
| GeneratorCache.GeneratorClasspath.GetGenerator | subprojects/de.protos.etrice.gradle/src/main/java/de/protos/etrice/gradle/CachingGeneratorProvider.java:134-141 | A memoised name returns the identical generator and leaves the map alone. An absent name gets a new generator on this loader. Either way the memo afterwards is the old memo with the name mapped to the result, and every memoised generator matches its name and loader. |
| GeneratorCache.GeneratorClasspath.Close | subprojects/de.protos.etrice.gradle/src/main/java/de/protos/etrice/gradle/CachingGeneratorProvider.java:151-157 | The loader is closed. The call fails with an unchecked I/O error exactly when closing raises an IOException. |
| GeneratorCache.FindSuperset | subprojects/de.protos.etrice.gradle/src/main/java/de/protos/etrice/gradle/CachingGeneratorProvider.java:86-94 | The search loop returns exactly the position `FirstSuperset` characterises: the front-most entry containing every requested file, or none. |
| GeneratorCache.CloseAll | subprojects/de.protos.etrice.gradle/src/main/java/de/protos/etrice/gradle/CachingGeneratorProvider.java:73 | `forEach(close)` closes every loader when no close fails. Otherwise it stops at the first failing one: the loaders up to it are closed, later ones are untouched, and the error is UncheckedIO. |
| GeneratorCache.HitKeepsValid | subprojects/de.protos.etrice.gradle/src/main/java/de/protos/etrice/gradle/CachingGeneratorProvider.java:89-92 | Moving the front-most superset to the front keeps the cache invariant, and the file sets follow `Lookup`. |
| GeneratorCache.MissKeepsValid | subprojects/de.protos.etrice.gradle/src/main/java/de/protos/etrice/gradle/CachingGeneratorProvider.java:96-101 | Admitting a new entry with its own loader for the requested set after a miss keeps the cache invariant, and the file sets follow `Lookup`. |
| GeneratorCache.CachingGeneratorProvider.constructor | subprojects/de.protos.etrice.gradle/src/main/java/de/protos/etrice/gradle/CachingGeneratorProvider.java:44-53 | After the argument check: an empty cache of the given size that satisfies the cache invariant. |
| GeneratorCache.CachingGeneratorProvider.Default | subprojects/de.protos.etrice.gradle/src/main/java/de/protos/etrice/gradle/CachingGeneratorProvider.java:34-36 | An empty cache of the default size 8. |
| GeneratorCache.NewProvider | subprojects/de.protos.etrice.gradle/src/main/java/de/protos/etrice/gradle/CachingGeneratorProvider.java:44-47 | A negative cache size is refused with `IllegalArgumentException("negative cache size")`. Zero and positive sizes give an empty cache. |
| GeneratorCache.CachingGeneratorProvider.GetClasspath | subprojects/de.protos.etrice.gradle/src/main/java/de/protos/etrice/gradle/CachingGeneratorProvider.java:84-104 | The file sets after the call are `Lookup` of those before, and the cache invariant is kept. A hit returns the old entry and moves it to the front. A miss returns a new entry with an open loader and admits it. A cache that keeps entries has the returned entry at its front; a zero-size cache stays empty. |
| GeneratorCache.CachingGeneratorProvider.GetGenerator | subprojects/de.protos.etrice.gradle/src/main/java/de/protos/etrice/gradle/CachingGeneratorProvider.java:63-67 | Follows `Lookup` and keeps the invariant. On a hit the list becomes `MoveToFront` of the old list, and the hit entry's memo becomes its old memo with the module name mapped to the result, which is the memoised generator if there was one and a new one otherwise. On a miss the generator and its loader are new; a cache that keeps entries becomes `Admit` of the old list and a new entry whose memo holds only this generator. Every entry afterwards is an old or a new one. No loader is closed, so an evicted one stays open, and no other entry's generators change. |
| GeneratorCache.CachingGeneratorProvider.GetGeneratorTwice | subprojects/de.protos.etrice.gradle/src/main/java/de/protos/etrice/gradle/CachingGeneratorProvider.java:63-67 | Two consecutive requests for the same classpath and module name return the identical generator whenever the cache size is positive. |
| GeneratorCache.CachingGeneratorProvider.ClearCache | subprojects/de.protos.etrice.gradle/src/main/java/de/protos/etrice/gradle/CachingGeneratorProvider.java:72-75 | Succeeds exactly when no close fails, and then every entry is closed and the list is empty; on an empty cache it does nothing. On a failure, the entries up to and including the failing one are closed, the rest are untouched and the list is kept. |
| GenerateTask.OptionTokens | subprojects/de.protos.etrice.gradle/src/main/java/de/protos/etrice/gradle/GenerateTask.java:177-194 | `true` gives exactly `-key` and `false` gives nothing. Any other value gives `-key`, then the File's absolute path or the value's text. |
| GenerateTask.OptionsTokensLength | subprojects/de.protos.etrice.gradle/src/main/java/de/protos/etrice/gradle/GenerateTask.java:158-160 | The options contribute the sum of their 0, 1 or 2 tokens, at most two per option. |
| GenerateTask.CommandLineShape | subprojects/de.protos.etrice.gradle/src/main/java/de/protos/etrice/gradle/GenerateTask.java:150-168 | The line starts with `-genDir` and the gen directory. `-modelpath` and the joined path follow exactly when the modelpath is non-empty. The options come next and the source paths close the line. The length is 2 + (2) + the options' tokens + the number of sources. |
| GenerateTask.ArgumentList.constructor | subprojects/de.protos.etrice.gradle/src/main/java/de/protos/etrice/gradle/GenerateTask.java:151 | The argument list starts empty. |
| GenerateTask.ArgumentList.AddArgument | subprojects/de.protos.etrice.gradle/src/main/java/de/protos/etrice/gradle/GenerateTask.java:177-194 | Appends the option's tokens and nothing else. The old list stays a prefix, and it grows by at most two. |
| GenerateTask.ArgumentList.Add | subprojects/de.protos.etrice.gradle/src/main/java/de/protos/etrice/gradle/GenerateTask.java:163 | Appends exactly the one token. |
| GenerateTask.AddOptions | subprojects/de.protos.etrice.gradle/src/main/java/de/protos/etrice/gradle/GenerateTask.java:158-160 | The options loop appends exactly the tokens of every option, in order. |
| GenerateTask.AddSources | subprojects/de.protos.etrice.gradle/src/main/java/de/protos/etrice/gradle/GenerateTask.java:162-164 | The sources loop appends exactly one path per source file, in order. |
| GenerateTask.CollectArguments | subprojects/de.protos.etrice.gradle/src/main/java/de/protos/etrice/gradle/GenerateTask.java:150-168 | The method, with its loops over options and sources, produces exactly `CommandLine`, whose shape `CommandLineShape` proves. |
| ETriceBasePlugin.CompatibilityVerdict | subprojects/de.protos.etrice.gradle/src/main/java/de/protos/etrice/gradle/ETriceBasePlugin.java:220-231 | The rule reports a verdict exactly when model-dir meets model-zip or jar, or model-zip meets jar. That verdict is always "compatible"; the rule never reports incompatibility. |
| ETriceBasePlugin.ClosestMatch | subprojects/de.protos.etrice.gradle/src/main/java/de/protos/etrice/gradle/ETriceBasePlugin.java:251-268 | The choice is a candidate: the most preferred present value in model-dir > model-zip > jar order. There is a choice exactly when a preferred value is present, and model-zip consumers never get model-dir. |
| ETriceBasePlugin.ClosestMatchIsCompatible | subprojects/de.protos.etrice.gradle/src/main/java/de/protos/etrice/gradle/ETriceBasePlugin.java:220-268 | What disambiguation picks is the consumer's own value or one the compatibility rule accepts. |
| ETriceBasePlugin.ToUpper | subprojects/de.protos.etrice.gradle/src/main/java/de/protos/etrice/gradle/ETriceBasePlugin.java:274 | The result is never a lower-case ASCII letter: a-z map to A-Z, and a character that is not a lower-case letter is kept. |
| ETriceBasePlugin.Capitalize | subprojects/de.protos.etrice.gradle/src/main/java/de/protos/etrice/gradle/ETriceBasePlugin.java:271-275 | Keeps the length. Only the first character is changed, to its upper-case form, and the empty string stays empty. |
| ETriceBasePlugin.CapitalizeIdempotent | subprojects/de.protos.etrice.gradle/src/main/java/de/protos/etrice/gradle/ETriceBasePlugin.java:271-275 | Capitalising twice equals capitalising once. |
| ETriceBasePlugin.GenerateTaskNamesCollide | subprojects/de.protos.etrice.gradle/src/main/java/de/protos/etrice/gradle/ETriceBasePlugin.java:116-117 | `GenerateTaskNameFor` builds "generate" + the capitalised model set name. Two model sets get the same generate task name if and only if their names differ at most in the case of the first letter. |
| ETriceBasePlugin.ForwardSlashStringNames | subprojects/de.protos.etrice.gradle/src/main/java/de/protos/etrice/gradle/ETriceBasePlugin.java:194-196 | The forward-slash rendering `ForwardSlashString` loses nothing: splitting it at `/` gives the path's name elements back. |
| ETriceBasePlugin.EclipseModelpathSrcDirs | subprojects/de.protos.etrice.gradle/src/main/java/de/protos/etrice/gradle/ETriceBasePlugin.java:179-186 | At most one entry per source directory. |
| ETriceBasePlugin.EclipseModelpathSrcDirsMembers | subprojects/de.protos.etrice.gradle/src/main/java/de/protos/etrice/gradle/ETriceBasePlugin.java:179-186 | Every entry is the relative forward-slash path of a directory under the project. Every such directory contributes its entry. |
| Paths.SplitJoin | subprojects/de.protos.etrice.gradle/src/main/java/de/protos/etrice/gradle/ETriceBasePlugin.java:195 | Joining name elements with a one-character separator is undone by splitting at it. |
| EclipseModelpathTask.SrcDirLines | subprojects/de.protos.etrice.gradle/src/main/java/de/protos/etrice/gradle/EclipseModelpathTask.java:80-84 | At most one line per source directory, each beginning with `srcDir `. |
| EclipseModelpathTask.SrcDirLinesCount | subprojects/de.protos.etrice.gradle/src/main/java/de/protos/etrice/gradle/EclipseModelpathTask.java:80-84 | There are exactly as many `srcDir` lines as source directories under the project directory. |
| EclipseModelpathTask.ModelpathLinesLayout | subprojects/de.protos.etrice.gradle/src/main/java/de/protos/etrice/gradle/EclipseModelpathTask.java:79-87 | In `ModelpathLines`, the lines written to the file, all `srcDir` lines come before the `project` lines, and the lines after them are exactly the project lines. |
| EclipseModelpathTask.SrcDirLinesMembers | subprojects/de.protos.etrice.gradle/src/main/java/de/protos/etrice/gradle/EclipseModelpathTask.java:80-84 | Only directories under the project directory contribute, and each contributes `srcDir ` plus its relative path. |
| EclipseModelpathTask.SrcDirLinesAgreeWithPlugin | subprojects/de.protos.etrice.gradle/src/main/java/de/protos/etrice/gradle/EclipseModelpathTask.java:80-84 | With `/` as the platform separator, the lines carry exactly the entries `getEclipseModelpathSrcDirs` renders, in the same order. |
| EtUnitConvertTask.LastIndexOf | subprojects/de.protos.etrice.gradle/src/main/java/de/protos/etrice/gradle/EtUnitConvertTask.java:93 | Finds the last occurrence of the character, or None exactly when it does not occur. |
| EtUnitConvertTask.ReplacedName | subprojects/de.protos.etrice.gradle/src/main/java/de/protos/etrice/gradle/EtUnitConvertTask.java:92-97 | The result ends in `.` plus the extension. With a dot, the stem kept is the name up to and including its last dot; without one, `.` plus the extension is appended. |
| EtUnitConvertTask.ReplaceFileExtension | subprojects/de.protos.etrice.gradle/src/main/java/de/protos/etrice/gradle/EtUnitConvertTask.java:88-98 | A root-only path has no file name and is returned unchanged. The empty path, whose file name is the empty name, becomes the bare name `.` + extension. Otherwise only the last name element changes, and the root and parents are kept. The extension is taken to be a single name without a separator, as the only caller's "xml" is. |
| EtUnitConvertTask.LastDotBeforeExtension | subprojects/de.protos.etrice.gradle/src/main/java/de/protos/etrice/gradle/EtUnitConvertTask.java:93 | In a name ending in a dot plus a dot-free extension, the last dot is the one before the extension. |
| EtUnitConvertTask.ReplacedNameIdempotent | subprojects/de.protos.etrice.gradle/src/main/java/de/protos/etrice/gradle/EtUnitConvertTask.java:93-97 | For a dot-free extension, replacing twice gives the name replacing once gives. |
| EtUnitConvertTask.ReplaceFileExtensionIdempotent | subprojects/de.protos.etrice.gradle/src/main/java/de/protos/etrice/gradle/EtUnitConvertTask.java:88-98 | For a dot-free extension, replacing twice gives the path replacing once gives. |
| EtUnitConvertTask.XmlSibling | subprojects/de.protos.etrice.gradle/src/main/java/de/protos/etrice/gradle/EtUnitConvertTask.java:93-95 | A report `stem.ext` with a dot-free extension becomes `stem.xml` in the same directory. |
| EtUnitConvertTask.XmlFilesOfPair | subprojects/de.protos.etrice.gradle/src/main/java/de/protos/etrice/gradle/EtUnitConvertTask.java:61-65 | Two reports with the same xml sibling give a one-element xml set. |
| EtUnitConvertTask.XmlFilesAtMostSources | subprojects/de.protos.etrice.gradle/src/main/java/de/protos/etrice/gradle/EtUnitConvertTask.java:61-65 | `XmlFiles`, the image of the source reports under the extension replacement, never has more xml files than there are source reports. |
| EtUnitConvertTask.XmlFilesCollide | subprojects/de.protos.etrice.gradle/src/main/java/de/protos/etrice/gradle/EtUnitConvertTask.java:61-65 | Two reports in one directory that differ only in a dot-free extension (a.etu, a.txt) yield a single xml file. |

## Left out

- **Clear cache.** `clearCache` follows the code, not the documented intent of a best-effort clear: the first failing `close` throws out of `forEach`. The later entries then stay open and the list is not cleared. The entries closed before the failure stay in the list with their closed loaders, and later requests are served from them again.
- **Identity across requests.** The class comment promises reuse of created generators. The code keeps that promise only while the entry that served a request is still the front-most entry whose files contain the request. A newer superset entry shadows an older entry without evicting it; `CacheOrder.SupersetShadowsEntry` shows this. The request A, then A and B, then A again gets a different generator the third time, although the A entry is still cached. The model follows the code, and `CachingGeneratorProvider.GetGeneratorTwice` proves identity only for consecutive requests.
- **Close failures.** Whether a loader's `close` raises an IOException comes from the file system. It is an input: `Close(ioFails)` and `ClearCache(failing)` take it as a parameter.
- **Class loaders.** Their construction (`createClassLoader`, URL conversion, the `MalformedURLException` path) and the parent loader are not part of this model. A loader is an object with a `closed` flag.
- **Generators.** `Generator` and `GeneratorWorker` use reflection and run the generator; this model does not cover them. A generator is an object that records its loader and module name.
- **Synchronisation.** `GlobalGeneratorProvider` only synchronises access to one cache, and concurrency is not modelled.
- `GeneratorClasspath.getFiles` is the field `files` itself.
- **Iteration order.** The options map, the source file collection, the modelpath collection and the source directory set are given as sequences in their iteration order. Gradle's ordering of them is not modelled.
- `GenerateTask.CollectArguments`: `File.getAbsolutePath` is taken to be the file's path, since the build hands absolute files. `getAsPath` is the absolute paths joined by the platform's path separator, which is a parameter.
- **Separator.** `EclipseModelpathTask` renders relative paths with `Path.toString`, so the platform's name separator is a parameter there.
- **Path conversion.** The conversion `File.toPath` and `Path.toFile` is taken as given. `Path.startsWith` and `relativize` are modelled on root and name elements, without normalisation of `.` and `..`.
- ETriceBasePlugin.ToUpper: assumes a default locale in which a-z upper-case to A-Z and every other character is kept. Java's `toUpperCase` depends on the locale even for ASCII (under a Turkish or Azerbaijani locale "i" becomes a dotted capital I), and it also maps non-ASCII letters, sometimes to two characters; none of that is modelled.
- ETriceBasePlugin.Capitalize: inherits the ASCII-only upper-casing of `ToUpper`.
- **Not modelled at all**, because they are Gradle wiring, process orchestration or file and archive I/O:
  - the `apply` methods of all plugins;
  - the worker-process execution of `GenerateTask.generate`;
  - `getEclipseModelpathProjects`;
  - `UnzipTask` and the zip tasks;
  - `EtUnitConvertTask.convert`;
  - the `Files.write` in `EclipseModelpathTask.writeModelpath`;
  - `ModelSource` and `GeneratorParameters`.
