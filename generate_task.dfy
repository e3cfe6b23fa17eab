/** GenerateTask's command line for the generator: option values turned
    into "-key [value]" tokens, the gen directory first, the modelpath when
    there is one, the options, then the source files. */
module GenerateTask {
  import opened Paths

  const OptionGenDir := "genDir"
  const OptionModelpath := "modelpath"

  /** An option value, as addArgument tells them apart: a Boolean, a File,
      or any other object, given by what its toString() returns. */
  datatype OptionValue = Flag(on: bool) | FileValue(file: File) | Text(text: string)

  /** The tokens addArgument appends for one option. */
  function OptionTokens(key: string, value: OptionValue): (r: seq<string>)
    ensures |r| <= 2
    ensures r == [] <==> value == Flag(false)
    ensures r != [] ==> r[0] == "-" + key
    ensures |r| == 2 <==> !value.Flag?
    ensures value.FileValue? ==> r[1] == value.file.path
    ensures value.Text? ==> r[1] == value.text
  {
    match value
    case Flag(on) => if on then ["-" + key] else []
    case FileValue(f) => ["-" + key, f.path]
    case Text(t) => ["-" + key, t]
  }

  /** The tokens of all options, in the map's iteration order. */
  function OptionsTokens(options: seq<(string, OptionValue)>): seq<string> {
    if |options| == 0 then [] else OptionsTokens(options[..|options| - 1]) + OptionTokens(options[|options| - 1].0, options[|options| - 1].1)
  }

  /** How many tokens an option contributes: none for false, one for true,
      two for any other value. */
  function TokenCount(value: OptionValue): nat {
    match value
    case Flag(on) => if on then 1 else 0
    case _ => 2
  }

  function OptionsTokenCount(options: seq<(string, OptionValue)>): nat {
    if |options| == 0 then 0 else OptionsTokenCount(options[..|options| - 1]) + TokenCount(options[|options| - 1].1)
  }

  /** One token per source file, f.getPath(), in order. */
  function SourcePaths(sources: seq<File>): (r: seq<string>)
    ensures |r| == |sources| && forall i | 0 <= i < |sources| :: r[i] == sources[i].path
  {
    seq(|sources|, i requires 0 <= i < |sources| => sources[i].path)
  }

  /** FileCollection.getAsPath(): the files' absolute paths joined with the
      platform's path separator (":" on Unix-like platforms). */
  function AsPath(files: seq<File>, pathSeparator: string): string {
    Join(seq(|files|, i requires 0 <= i < |files| => files[i].path), pathSeparator)
  }

  /** The modelpath option, present only for a non-empty modelpath. */
  function ModelpathTokens(modelpath: seq<File>, pathSeparator: string): seq<string> {
    if |modelpath| == 0 then [] else OptionTokens(OptionModelpath, Text(AsPath(modelpath, pathSeparator)))
  }

  /** The command line collectArguments assembles. */
  function CommandLine(genDir: File, modelpath: seq<File>, pathSeparator: string,
                       options: seq<(string, OptionValue)>, sources: seq<File>): seq<string>
  {
    OptionTokens(OptionGenDir, FileValue(genDir))
      + ModelpathTokens(modelpath, pathSeparator)
      + OptionsTokens(options)
      + SourcePaths(sources)
  }

  lemma {:induction false} OptionsTokensLength(options: seq<(string, OptionValue)>)
    ensures |OptionsTokens(options)| == OptionsTokenCount(options) <= 2 * |options|
  {
    if |options| > 0 {
      OptionsTokensLength(options[..|options| - 1]);
    }
  }

  /** The shape of every command line: "-genDir" and the gen directory's
      absolute path come first; "-modelpath" and the joined modelpath follow
      exactly when the modelpath is non-empty, otherwise the options start
      right after the gen directory; the source paths close the line; and
      the length is 2, plus 2 for a modelpath, plus each option's 0, 1 or 2
      tokens, plus one per source file. */
  lemma CommandLineShape(genDir: File, modelpath: seq<File>, pathSeparator: string,
                         options: seq<(string, OptionValue)>, sources: seq<File>)
    ensures var args := CommandLine(genDir, modelpath, pathSeparator, options, sources);
      var m := if |modelpath| == 0 then 0 else 2;
      && |args| == 2 + m + OptionsTokenCount(options) + |sources|
      && args[..2] == ["-genDir", genDir.path]
      && (|modelpath| > 0 ==> args[2..4] == ["-modelpath", AsPath(modelpath, pathSeparator)])
      && args[2 + m..|args| - |sources|] == OptionsTokens(options)
      && args[|args| - |sources|..] == SourcePaths(sources)
  {
    OptionsTokensLength(options);
    assert "-" + OptionGenDir == "-genDir";
    assert "-" + OptionModelpath == "-modelpath";
    Pieces(OptionTokens(OptionGenDir, FileValue(genDir)), ModelpathTokens(modelpath, pathSeparator),
           OptionsTokens(options), SourcePaths(sources));
  }

  /** Where the four parts of a concatenation lie in it. */
  lemma Pieces<T>(h: seq<T>, m: seq<T>, o: seq<T>, p: seq<T>)
    ensures var s := h + m + o + p;
      && s[..|h|] == h && s[|h|..|h| + |m|] == m
      && s[|h| + |m|..|s| - |p|] == o && s[|s| - |p|..] == p
  {
    var s := h + m + o + p;
    assert s == h + (m + o + p);
    assert s[|h|..] == m + o + p;
  }

  lemma OptionsTokensStep(options: seq<(string, OptionValue)>, i: nat)
    requires i < |options|
    ensures OptionsTokens(options[..i + 1]) == OptionsTokens(options[..i]) + OptionTokens(options[i].0, options[i].1)
  {
    assert options[..i + 1][..i] == options[..i];
  }

  lemma SourcePathsStep(sources: seq<File>, i: nat)
    requires i < |sources|
    ensures SourcePaths(sources[..i + 1]) == SourcePaths(sources[..i]) + [sources[i].path]
  {
  }

  /** The LinkedList<String> collectArguments fills in place. */
  class ArgumentList {
    var tokens: seq<string>

    constructor ()
      ensures tokens == []
    {
      tokens := [];
    }

    /** addArgument: appends the option's tokens and changes nothing that
        was there before. */
    method AddArgument(key: string, value: OptionValue)
      modifies this
      ensures tokens == old(tokens) + OptionTokens(key, value)
      ensures old(tokens) <= tokens && |tokens| <= |old(tokens)| + 2
    {
      var option := "-" + key;
      match value {
        case Flag(on) =>
          if on {
            tokens := tokens + [option];
          }
        case FileValue(f) =>
          tokens := tokens + [option];
          tokens := tokens + [f.path];
        case Text(t) =>
          tokens := tokens + [option];
          tokens := tokens + [t];
      }
    }

    /** args.add(token) */
    method Add(token: string)
      modifies this
      ensures tokens == old(tokens) + [token]
    {
      tokens := tokens + [token];
    }
  }

  /** The loop of collectArguments over the options map: one addArgument
      per entry, in iteration order. */
  method AddOptions(list: ArgumentList, options: seq<(string, OptionValue)>)
    modifies list
    ensures list.tokens == old(list.tokens) + OptionsTokens(options)
  {
    for i := 0 to |options|
      invariant list.tokens == old(list.tokens) + OptionsTokens(options[..i])
    {
      OptionsTokensStep(options, i);
      list.AddArgument(options[i].0, options[i].1);
    }
    assert options[..|options|] == options;
  }

  /** The loop of collectArguments over the source files: one path each. */
  method AddSources(list: ArgumentList, sources: seq<File>)
    modifies list
    ensures list.tokens == old(list.tokens) + SourcePaths(sources)
  {
    for i := 0 to |sources|
      invariant list.tokens == old(list.tokens) + SourcePaths(sources[..i])
    {
      SourcePathsStep(sources, i);
      list.Add(sources[i].path);
    }
    assert sources[..|sources|] == sources;
  }

  /** collectArguments: the generator's command line. */
  method CollectArguments(genDir: File, modelpath: seq<File>, pathSeparator: string,
                          options: seq<(string, OptionValue)>, sources: seq<File>)
    returns (args: seq<string>)
    ensures args == CommandLine(genDir, modelpath, pathSeparator, options, sources)
  {
    var list := new ArgumentList();
    list.AddArgument(OptionGenDir, FileValue(genDir));
    if |modelpath| != 0 {
      list.AddArgument(OptionModelpath, Text(AsPath(modelpath, pathSeparator)));
    }
    AddOptions(list, options);
    AddSources(list, sources);
    args := list.tokens;
  }
}
