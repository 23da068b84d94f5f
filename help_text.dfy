/** The full help text (`formatHelpText` in index.js): header, option block
    and footer joined by newlines. */
module HelpText {
  import opened Wrappers
  import opened JsValues
  import opened Options
  import opened Metadata

  /** The parameters of `formatHelpText`; None for a parameter left undefined. */
  datatype HelpParams = HelpParams(
    options: seq<Entry>,
    pkgPath: Option<string>,
    name: Option<string>,
    version: Option<string>,
    footerFn: Option<FooterFormatter>,
    headerFn: Option<NameFormatter>,
    exampleFn: Option<NameFormatter>)

  function HeaderParamsOf(p: HelpParams): HeaderParams {
    HeaderParams(p.pkgPath, p.name, p.headerFn, p.exampleFn)
  }

  function FooterParamsOf(p: HelpParams): FooterParams {
    FooterParams(p.pkgPath, p.name, p.version, p.footerFn)
  }

  /** `formatHelpText(p)`: the header is produced first, so its error is the
      one thrown when both would fail. */
  function FormatHelpText(p: HelpParams, read: Reader): (r: Result<string, Error>)
    ensures r.Ok? <==> Header(HeaderParamsOf(p), read).Ok? && Footer(FooterParamsOf(p), read).Ok?
    ensures r.Err? ==>
      r.error == if Header(HeaderParamsOf(p), read).Err? then Header(HeaderParamsOf(p), read).error
                 else Footer(FooterParamsOf(p), read).error
  {
    var header :- Header(HeaderParamsOf(p), read);
    var footer :- Footer(FooterParamsOf(p), read);
    Ok(Join([header, UsageText(p.options), footer], "\n"))
  }

  /** The help text is the header, a newline, the option block, a newline and
      the footer; it fails exactly when the header or the footer does, with
      the header's error first. */
  lemma FormatHelpTextShape(p: HelpParams, read: Reader)
    ensures FormatHelpText(p, read).Ok? <==>
      Header(HeaderParamsOf(p), read).Ok? && Footer(FooterParamsOf(p), read).Ok?
    ensures FormatHelpText(p, read).Ok? ==>
      FormatHelpText(p, read).value ==
        Header(HeaderParamsOf(p), read).value + "\n" + UsageText(p.options) + "\n" + Footer(FooterParamsOf(p), read).value
    ensures Header(HeaderParamsOf(p), read).Err? ==>
      FormatHelpText(p, read) == Err(Header(HeaderParamsOf(p), read).error)
  {
    var h, f := Header(HeaderParamsOf(p), read), Footer(FooterParamsOf(p), read);
    if h.Ok? && f.Ok? {
      JoinTriple(h.value, UsageText(p.options), f.value, "\n");
    }
  }

  /** With an explicit, non-empty name and version the help text does not
      depend on any package descriptor. */
  lemma FormatHelpTextExplicit(p: HelpParams, read1: Reader, read2: Reader)
    requires Truthy(p.name) && Truthy(p.version)
    ensures FormatHelpText(p, read1) == FormatHelpText(p, read2)
  {
    HeaderReadsOnlyWhenNeeded(HeaderParamsOf(p), read1, read2);
    FooterReadsOnlyWhenNeeded(FooterParamsOf(p), read1, read2);
  }

  /** Without a name and a package path the help text fails to resolve a name. */
  lemma FormatHelpTextWithoutName(p: HelpParams, read: Reader)
    requires !Truthy(p.name) && !Truthy(p.pkgPath)
    ensures FormatHelpText(p, read) == Err(NameUndetermined)
  {
    HeaderWithoutSource(HeaderParamsOf(p), read);
  }

  /** With the default callbacks, the name and version taken from the package,
      the sections are separated by blank lines: the header and every option
      block end with a newline of their own. */
  lemma FormatHelpTextDefaults(p: HelpParams, read: Reader, n: string, v: string)
    requires p.name.None? && p.version.None? && Truthy(p.pkgPath)
    requires p.headerFn.None? && p.exampleFn.None? && p.footerFn.None?
    requires n != "" && v != ""
    requires read(p.pkgPath.value) == Ok(Pkg(Some(n), Some(v)))
    ensures FormatHelpText(p, read) == Ok(
      ("Usage: " + n + " [options]\n" + "\n" + "    Example: " + n + "\n")
      + "\n" + UsageText(p.options) + "\n"
      + (n + " (v" + v + ")"))
  {
    var pkg := Pkg(Some(n), Some(v));
    HeaderPackageName(HeaderParamsOf(p), read, pkg);
    HeaderText(HeaderParamsOf(p), read);
    FooterResolution(FooterParamsOf(p), read);
    FooterText(FooterParamsOf(p), read);
    FormatHelpTextShape(p, read);
    var h := "Usage: " + n + " [options]\n" + "\n" + "    Example: " + n + "\n";
    var f := n + " (v" + v + ")";
    assert Header(HeaderParamsOf(p), read) == Ok(h);
    assert Footer(FooterParamsOf(p), read) == Ok(f);
  }

  /** The two options of the repository's own test. */
  function TestOptions(): seq<Entry> {
    [ Entry("foo", OptionSpec(BooleanArg, Some("f"), None, "A foo flag thats a boolean", None)),
      Entry("bar", OptionSpec(StringArg, None, None, "A bar flag thats a string", None)) ]
  }

  /** The blocks of the test's two options: both descriptions start at column 26. */
  lemma TestFooBlock()
    ensures Block(TestOptions()[0]) == "    --foo, -f             A foo flag thats a boolean\n"
  {
    var foo := TestOptions()[0];
    assert Label(foo) == "--foo, -f";
    assert Spaces(13) == "             ";
    var lead, desc := "    --foo, -f             ", "A foo flag thats a boolean";
    assert Lead(foo) == lead;
    assert Description(foo) == desc;
    assert Block(foo) == lead + desc + "\n";
    FooLine();
  }

  lemma TestBarBlock()
    ensures Block(TestOptions()[1]) == "    --bar                 A bar flag thats a string\n"
  {
    var bar := TestOptions()[1];
    assert Label(bar) == "--bar";
    assert Spaces(17) == "                 ";
    var lead, desc := "    --bar                 ", "A bar flag thats a string";
    assert Lead(bar) == lead;
    assert Description(bar) == desc;
    assert Block(bar) == lead + desc + "\n";
    BarLine();
  }

  lemma FooLine()
    ensures "    --foo, -f             " + "A foo flag thats a boolean" + "\n" == "    --foo, -f             A foo flag thats a boolean\n"
  {
  }

  lemma BarLine()
    ensures "    --bar                 " + "A bar flag thats a string" + "\n" == "    --bar                 A bar flag thats a string\n"
  {
  }

  lemma TestUsage()
    ensures UsageText(TestOptions()) ==
      "    --foo, -f             A foo flag thats a boolean\n" + "    --bar                 A bar flag thats a string\n"
  {
    var foo, bar := TestOptions()[0], TestOptions()[1];
    TestFooBlock();
    TestBarBlock();
    UsageTextAppend([foo], [bar]);
    assert TestOptions() == [foo] + [bar];
    assert [foo][..0] == [];
    assert [bar][..0] == [];
    assert UsageText([foo]) == Block(foo);
    assert UsageText([bar]) == Block(bar);
  }

  /** The repository's test scenario: the package at `path` is named
      argsclopts; a blank line separates the sections and every description
      starts at column 26. */
  lemma TestScenario(path: string, version: string, read: Reader)
    requires path != "" && version != ""
    requires read(path) == Ok(Pkg(Some("argsclopts"), Some(version)))
    ensures FormatHelpText(HelpParams(TestOptions(), Some(path), None, None, None, None, None), read) == Ok(
      ( "Usage: argsclopts [options]\n"
      + "\n"
      + "    Example: argsclopts\n")
      + "\n"
      + ( "    --foo, -f             A foo flag thats a boolean\n"
        + "    --bar                 A bar flag thats a string\n")
      + "\n"
      + ("argsclopts (v" + version + ")"))
  {
    var p := HelpParams(TestOptions(), Some(path), None, None, None, None, None);
    var n := "argsclopts";
    FormatHelpTextDefaults(p, read, n, version);
    TestUsage();
    TestHeaderLines();
    TestFooterLine(version);
  }

  /** The literal steps below are proved on their own: asserted inside the
      lemmas that use them, they are out of the solver's reach. */
  lemma TestHeaderLines()
    ensures "Usage: " + "argsclopts" + " [options]\n" + "\n" + "    Example: " + "argsclopts" + "\n"
         == "Usage: argsclopts [options]\n" + "\n" + "    Example: argsclopts\n"
  {
  }

  lemma TestFooterLine(version: string)
    ensures "argsclopts" + " (v" + version + ")" == "argsclopts (v" + version + ")"
  {
  }
}
