/** The header and footer of the help text (`header` and `footer` in
    index.js): resolving the program's name and version from explicit
    parameters or from the package descriptor, and formatting them with
    injectable callbacks. */
module Metadata {
  import opened Wrappers
  import opened JsValues
  import Options

  /** The fields of a package descriptor the formatter reads; None for a
      missing or null field. */
  datatype Pkg = Pkg(name: Option<string>, version: Option<string>)

  /** Why reading a package descriptor failed: the file could not be read,
      or its contents are not valid JSON. */
  datatype LoadError = ReadError | ParseError

  /** What `header`, `footer` and `formatHelpText` throw. Both throws of
      `footer`, for a missing name and for a missing version, carry the same
      message and are the one error NameUndetermined. */
  datatype Error = LoadFailed(cause: LoadError) | NameUndetermined

  /** What `readPkg(path)` yields for each path: the file system and the
      JSON parser, given as an input. */
  type Reader = string -> Result<Pkg, LoadError>

  /** A formatter callback given the resolved name (`headerFn`, `exampleFn`). */
  type NameFormatter = string -> string

  /** A formatter callback given the resolved name and version (`footerFn`). */
  type FooterFormatter = (string, string) -> string

  /** The default `headerFn`: the usage line, naming the program after
      `Usage: ` and ending with its newline. */
  function DefaultHeaderFn(name: string): (r: string)
    ensures |r| == |name| + 18 && r[7..7 + |name|] == name
    ensures r[|r| - 1] == '\n'
    ensures '\n' !in name ==> '\n' !in r[..|r| - 1]
  {
    "Usage: " + name + " [options]\n"
  }

  /** The default `exampleFn`: the example line, indented like the option
      entries, ending with the program's name and a newline. */
  function DefaultExampleFn(name: string): (r: string)
    ensures |r| > |Options.Indent| + |name| && r[..|Options.Indent|] == Options.Indent
    ensures r[|r| - 1 - |name|..|r| - 1] == name && r[|r| - 1] == '\n'
    ensures '\n' !in name ==> '\n' !in r[..|r| - 1]
  {
    Options.Indent + "Example: " + name + "\n"
  }

  /** The default `footerFn`: the name, then the version in parentheses, on
      one line with no trailing newline. */
  function DefaultFooterFn(name: string, version: string): (r: string)
    ensures |r| == |name| + |version| + 4
    ensures r[..|name|] == name && r[|name| + 3..|r| - 1] == version && r[|r| - 1] == ')'
    ensures '\n' !in name && '\n' !in version ==> '\n' !in r
  {
    name + " (v" + version + ")"
  }

  /** The parameters of `header`; None for a parameter left undefined. */
  datatype HeaderParams = HeaderParams(
    pkgPath: Option<string>,
    name: Option<string>,
    headerFn: Option<NameFormatter>,
    exampleFn: Option<NameFormatter>)

  /** The parameters of `footer`; None for a parameter left undefined. */
  datatype FooterParams = FooterParams(
    pkgPath: Option<string>,
    name: Option<string>,
    version: Option<string>,
    footerFn: Option<FooterFormatter>)

  /** `pkg?.name` and `pkg?.version`, where pkg is None when nothing was read. */
  function PkgName(pkg: Option<Pkg>): Option<string> {
    if pkg.Some? then pkg.value.name else None
  }

  function PkgVersion(pkg: Option<Pkg>): Option<string> {
    if pkg.Some? then pkg.value.version else None
  }

  /** Reads the package descriptor when `needed`, otherwise leaves `pkg` undefined. */
  function LoadIfNeeded(needed: bool, pkgPath: Option<string>, read: Reader): Result<Option<Pkg>, Error>
    requires needed ==> pkgPath.Some?
  {
    if !needed then Ok(None)
    else
      match read(pkgPath.value)
      case Ok(pkg) => Ok(Some(pkg))
      case Err(e) => Err(LoadFailed(e))
  }

  /** `explicit ?? fromPkg`, and the throw when that is falsy. */
  function Resolve(explicit: Option<string>, fromPkg: Option<string>): (r: Result<string, Error>)
    ensures explicit.Some? ==> r == if explicit.value != "" then Ok(explicit.value) else Err(NameUndetermined)
    ensures explicit.None? ==>
      r == if fromPkg.Some? && fromPkg.value != "" then Ok(fromPkg.value) else Err(NameUndetermined)
  {
    var v := Coalesce(explicit, fromPkg);
    if Truthy(v) then Ok(v.value) else Err(NameUndetermined)
  }

  // ---------- header ----------

  /** `header` reads the package only when the name is falsy and a path is given. */
  predicate HeaderNeedsPkg(p: HeaderParams) {
    !Truthy(p.name) && Truthy(p.pkgPath)
  }

  /** The name `header` uses, or what it throws before formatting. */
  function HeaderName(p: HeaderParams, read: Reader): Result<string, Error> {
    var pkg :- LoadIfNeeded(HeaderNeedsPkg(p), p.pkgPath, read);
    Resolve(p.name, PkgName(pkg))
  }

  /** `header(p)`: the usage line and the example line joined by a newline. */
  function Header(p: HeaderParams, read: Reader): (r: Result<string, Error>)
    ensures r.Ok? <==> HeaderName(p, read).Ok?
    ensures r.Err? ==>
      || r.error == NameUndetermined
      || (r.error.LoadFailed? && HeaderNeedsPkg(p) && read(p.pkgPath.value) == Err(r.error.cause))
  {
    var name :- HeaderName(p, read);
    var headerFn := p.headerFn.GetOr(DefaultHeaderFn);
    var exampleFn := p.exampleFn.GetOr(DefaultExampleFn);
    Ok(Join([headerFn(name), exampleFn(name)], "\n"))
  }

  /** An explicit, non-empty name wins, and no package is read. */
  lemma HeaderExplicitName(p: HeaderParams, read: Reader)
    requires Truthy(p.name)
    ensures !HeaderNeedsPkg(p)
    ensures HeaderName(p, read) == Ok(p.name.value)
  {
  }

  /** Without an explicit name, the name is the package's, provided it is truthy. */
  lemma HeaderPackageName(p: HeaderParams, read: Reader, pkg: Pkg)
    requires p.name.None? && Truthy(p.pkgPath) && read(p.pkgPath.value) == Ok(pkg)
    ensures HeaderNeedsPkg(p)
    ensures HeaderName(p, read) == if Truthy(pkg.name) then Ok(pkg.name.value) else Err(NameUndetermined)
  {
  }

  /** A failed read is what `header` throws. */
  lemma HeaderLoadFailure(p: HeaderParams, read: Reader)
    requires !Truthy(p.name) && Truthy(p.pkgPath) && read(p.pkgPath.value).Err?
    ensures Header(p, read) == Err(LoadFailed(read(p.pkgPath.value).error))
  {
  }

  /** With neither a name nor a package path, `header` throws without reading anything. */
  lemma HeaderWithoutSource(p: HeaderParams, read: Reader)
    requires !Truthy(p.name) && !Truthy(p.pkgPath)
    ensures !HeaderNeedsPkg(p)
    ensures Header(p, read) == Err(NameUndetermined)
  {
  }

  /** An explicit empty name is falsy, so the package is read, yet `??` keeps
      the empty name and `header` throws whatever the package says. */
  lemma HeaderEmptyName(p: HeaderParams, read: Reader)
    requires p.name == Some("")
    ensures Truthy(p.pkgPath) ==> HeaderNeedsPkg(p)
    ensures Header(p, read).Err?
  {
  }

  /** The package is consulted only when HeaderNeedsPkg holds: otherwise the
      result is the same whatever the file system holds. */
  lemma HeaderReadsOnlyWhenNeeded(p: HeaderParams, read1: Reader, read2: Reader)
    requires !HeaderNeedsPkg(p)
    ensures Header(p, read1) == Header(p, read2)
  {
  }

  /** The header succeeds exactly when a name resolves, and is then the two
      callbacks' texts around a newline; with the default callbacks it is the
      usage line, a blank line and the indented example line. */
  lemma HeaderText(p: HeaderParams, read: Reader)
    ensures Header(p, read).Ok? <==> HeaderName(p, read).Ok?
    ensures HeaderName(p, read).Ok? ==>
      var name := HeaderName(p, read).value;
      && Header(p, read).value ==
           p.headerFn.GetOr(DefaultHeaderFn)(name) + "\n" + p.exampleFn.GetOr(DefaultExampleFn)(name)
      && (p.headerFn.None? && p.exampleFn.None? ==>
           Header(p, read).value == "Usage: " + name + " [options]\n" + "\n" + "    Example: " + name + "\n")
    ensures HeaderName(p, read).Err? ==> Header(p, read) == Err(HeaderName(p, read).error)
  {
    if HeaderName(p, read).Ok? {
      var name := HeaderName(p, read).value;
      JoinPair(p.headerFn.GetOr(DefaultHeaderFn)(name), p.exampleFn.GetOr(DefaultExampleFn)(name), "\n");
    }
  }

  // ---------- footer ----------

  /** `footer` reads the package when the name or the version is falsy and a path is given. */
  predicate FooterNeedsPkg(p: FooterParams) {
    (!Truthy(p.name) || !Truthy(p.version)) && Truthy(p.pkgPath)
  }

  /** The name and version `footer` uses, or what it throws before formatting;
      the name is checked first. */
  function FooterNames(p: FooterParams, read: Reader): Result<(string, string), Error> {
    var pkg :- LoadIfNeeded(FooterNeedsPkg(p), p.pkgPath, read);
    var name :- Resolve(p.name, PkgName(pkg));
    var version :- Resolve(p.version, PkgVersion(pkg));
    Ok((name, version))
  }

  /** `footer(p)`. */
  function Footer(p: FooterParams, read: Reader): (r: Result<string, Error>)
    ensures r.Ok? <==> FooterNames(p, read).Ok?
    ensures r.Err? ==>
      || r.error == NameUndetermined
      || (r.error.LoadFailed? && FooterNeedsPkg(p) && read(p.pkgPath.value) == Err(r.error.cause))
  {
    var names :- FooterNames(p, read);
    Ok(p.footerFn.GetOr(DefaultFooterFn)(names.0, names.1))
  }

  /** Name and version resolve independently: each is its explicit value
      unless that is null or undefined, else the package's field, and must be
      truthy. Explicit, non-empty values for both mean no package is read. */
  lemma FooterResolution(p: FooterParams, read: Reader)
    ensures Truthy(p.name) && Truthy(p.version) ==>
      !FooterNeedsPkg(p) && FooterNames(p, read) == Ok((p.name.value, p.version.value))
    ensures !FooterNeedsPkg(p) ==>
      FooterNames(p, read) ==
        if !Truthy(p.name) then Err(NameUndetermined)
        else if !Truthy(p.version) then Err(NameUndetermined)
        else Ok((p.name.value, p.version.value))
    ensures FooterNeedsPkg(p) && read(p.pkgPath.value).Err? ==>
      FooterNames(p, read) == Err(LoadFailed(read(p.pkgPath.value).error))
    ensures FooterNeedsPkg(p) && read(p.pkgPath.value).Ok? ==>
      var pkg := read(p.pkgPath.value).value;
      var name := Coalesce(p.name, pkg.name);
      var version := Coalesce(p.version, pkg.version);
      FooterNames(p, read) ==
        if !Truthy(name) then Err(NameUndetermined)
        else if !Truthy(version) then Err(NameUndetermined)
        else Ok((name.value, version.value))
  {
  }

  /** An explicit name wins over the package's even when only the version is
      taken from the package. */
  lemma FooterMixedSources(p: FooterParams, read: Reader, pkg: Pkg)
    requires Truthy(p.name) && p.version.None? && Truthy(p.pkgPath)
    requires read(p.pkgPath.value) == Ok(pkg) && Truthy(pkg.version)
    ensures Footer(p, read) == Ok(p.footerFn.GetOr(DefaultFooterFn)(p.name.value, pkg.version.value))
  {
  }

  /** An explicit empty version is kept by `??` and makes `footer` throw
      even when the package has a version. */
  lemma FooterEmptyVersion(p: FooterParams, read: Reader)
    requires p.version == Some("")
    ensures Footer(p, read).Err?
  {
  }

  /** The package is consulted only when FooterNeedsPkg holds. */
  lemma FooterReadsOnlyWhenNeeded(p: FooterParams, read1: Reader, read2: Reader)
    requires !FooterNeedsPkg(p)
    ensures Footer(p, read1) == Footer(p, read2)
  {
  }

  /** The footer is the callback applied to the resolved name and version;
      with the default callback it is `name (vversion)`. */
  lemma FooterText(p: FooterParams, read: Reader)
    ensures Footer(p, read).Ok? <==> FooterNames(p, read).Ok?
    ensures FooterNames(p, read).Ok? ==>
      var names := FooterNames(p, read).value;
      && Footer(p, read).value == p.footerFn.GetOr(DefaultFooterFn)(names.0, names.1)
      && (p.footerFn.None? ==> Footer(p, read).value == names.0 + " (v" + names.1 + ")")
  {
  }
}
