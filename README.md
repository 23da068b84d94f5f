# argsclopts help-text formatter, modelled in Dafny

This project models `index.js` of argsclopts, a small library that writes the
help text of a command-line program from the same option map that Node's
`util.parseArgs` reads. The model covers four parts:

- the **option block** (`usage`): one aligned entry per option. The entry shows
  the option's label, its help text and, when the option has a truthy default,
  a ` (default: …)` suffix;
- the **header** (`header`): a usage line and an example line for the program's name;
- the **footer** (`footer`): the name and the version;
- the **assembly** (`formatHelpText`): header, option block and footer, joined by newlines.

The name and version come from explicit parameters, or else from the package
descriptor (`package.json`). The three formatter callbacks can be replaced by the caller.

## Layout

| file | module | what it holds |
|---|---|---|
| `wrappers.dfy` | `Wrappers` | `Option` (absent = `undefined`/`null`) and `Result` (a value or what is thrown) |
| `js_values.dfy` | `JsValues` | truthiness of optional strings, `??`, `Array.prototype.join`, `Array(n)` |
| `json_text.dfy` | `JsonText` | `JSON.stringify` of a default value, and a reader that inverts it |
| `options.dfy` | `Options` | `width`, `indent`, labels, blocks, the layout spec `UsageText` and the imperative `Usage` |
| `metadata.dfy` | `Metadata` | the package record, name/version resolution, `Header`, `Footer` |
| `help_text.dfy` | `HelpText` | `FormatHelpText` and the repository's own test scenario |

### Modelling choices

- `usage` builds a string in a `forEach` loop, so it is the method `Options.Usage`.
  The loop body is `Options.AppendBlock`, which appends the pieces in the source's
  order. The padding is built as `Array(width - offset).join(' ')`, like the source.
  `Usage` is proved to return the declarative `Options.UsageText`, the
  concatenation of one `Block` per entry. `AppendBlock` is proved to append
  exactly that entry's `Block`.
- `header`, `footer` and `formatHelpText` are pure once the package record is an
  input, so they are functions that return `Result<string, Error>`.
- `readPkg` becomes a parameter `read: string -> Result<Pkg, LoadError>`: what
  reading and parsing each path would give. The predicates `HeaderNeedsPkg` and
  `FooterNeedsPkg` say when the source performs the read. Lemmas prove that the
  result does not depend on `read` otherwise.
- The callbacks are `Option` function values. `None` stands for an undefined
  parameter and selects the default lambda, as JavaScript's default parameters do.
- In the options map, a property the descriptor lacks is `None`. Its `type`
  field is carried along but never read, as in the source.

### Layout and errors as the code has them

- **Description column.** The padding `Array(width - offset).join(' ')` holds
  max(0, width - offset - 1) spaces: `Array(0).join(' ')` is `""`. A
  description therefore starts 22 columns after the indent, at column 26, or
  at column 27 for a label of exactly 23 characters. For a label of 22 or 23
  characters, the description follows the label with no space between them
  (`NoSeparatorNearWidth`). The repository's test expects column 26
  (index.test.js:46-47).
- **Error kinds.** Both throws in `footer`, for a missing name and for a missing
  version, carry the same message, "A name cannot be determined". The model
  has the single error `NameUndetermined` for both.

## Model

| member | source | states |
|---|---|---|
| `Options.Usage` | index.js:24-56 | Looping over the entries yields exactly `UsageText(options)`: the blocks of the entries concatenated in entry order, and `""` for no entries |
| `Options.AppendBlock` | index.js:29-52 | Appending indent, label, optional line break and indent, `Array(width - offset).join(' ')`, help, optional default suffix and newline extends the output by exactly that entry's `Block` |
| `Options.Label` | index.js:31-36 | The label is `helpLabel` when truthy. Otherwise it starts with `--name`, and it is longer than that exactly when `short` is truthy, in which case the rest is `, -short`. It is never empty |
| `Options.Lead` | index.js:38-47 | The part of a block before its description. For a label of L <= 23 characters it is 4 + 22 = 26 characters long (27 when L is 23), so, for a label without a line break, the description starts at column 26, or 27 when L is 23. For a longer label it is 4 + L + 1 + 4 + 22 characters: indent, label, line break, indent and 22 spaces, as `BlockLayout` states |
| `Options.Block` | index.js:29-52 | For every entry, whatever its label and help, the block is its lead and its description followed by exactly one character, the terminating newline. Line structure in `BlockLines`, column in `BlockLayout` |
| `Options.Description` | index.js:48-51 | The description is the help text, extended exactly when the default is truthy |
| `Options.DefaultSuffix` | index.js:49-51 | The suffix is non-empty exactly when the default is present and truthy, and is then ` (default: ` + `JSON.stringify(default)` + `)` |
| `JsonText.IsTruthy` | index.js:49 | A default is falsy exactly when it is `null`, `false`, `0` or `""` |
| `Options.DescriptionOneLine` | index.js:48-51 | For a help text without line breaks, the description has none either: the rendered default adds no line |
| `Options.BlockLayout` | index.js:40-47 | For a label without line breaks, the description wraps onto a line of its own (`Wraps`, the test at index.js:41) exactly when the label is longer than 23. The wrapped lead is indent, label, newline, indent, 22 spaces. The description starts at column 26, or at column 27 for a label of exactly 23 characters |
| `Options.NoSeparatorNearWidth` | index.js:40-48 | A label of 22 or 23 characters is followed directly by the description, with no padding |
| `Options.BlockLines` | index.js:41-52 | When the label and help hold no line break, the block ends with its one newline and is one line, or two lines split right after the label when it wraps. The rendered default never adds a line |
| `Options.UsageTextStep` | index.js:27-52 | Handling entry i appends exactly that entry's block to the text of the entries before it |
| `Options.UsageTextAppend` | index.js:27-28 | The option block of two lists of entries is the first list's text followed by the second's, so entry order is preserved |
| `Options.UsageTextEnds` | index.js:25-55 | No entries give `""`. Otherwise the option block ends with a newline |
| `Options.UsageEntryAt` | index.js:27-53 | Entry i's block sits between the blocks of the earlier and the later entries and starts at the beginning of a line. Its description starts at column 26 whenever its label has no line break and is not exactly 23 characters, wrapped or not |
| `Options.BlocksAppend` | index.js:27-28 | The list of blocks for concatenated entry lists is the concatenation of their block lists |
| `JsValues.JoinHoles` | index.js:47 | `Array(n).join(' ')` is n - 1 spaces, and `""` for n = 0 |
| `JsValues.JoinPair` | index.js:110 | `[a, b].join(sep)` is `a + sep + b` |
| `JsValues.JoinTriple` | index.js:179 | `[a, b, c].join(sep)` is `a + sep + b + sep + c` |
| `JsValues.ConcatAppend` | index.js:25-55 | Concatenating two lists of pieces is concatenating their texts |
| `JsonText.Stringify` | index.js:50 | The rendering of a default is non-empty and holds no control character, so no line break |
| `JsonText.ParseStringify` | index.js:50 | Reading the rendering back gives the same default, so distinct defaults render differently |
| `JsonText.ParseStringifyNumber` | index.js:50 | A safe integer's numeral, with its minus sign when negative, reads back as the same integer |
| `JsonText.Decimal` | index.js:50 | An integer is written as a non-empty run of decimal digits, with no leading zero, whose value is the integer |
| `JsonText.Escape` | index.js:50 | The body of a rendered string literal holds no control character |
| `JsonText.UnescapeEscape` | index.js:50 | Unescaping the escaped string text gives back the original string |
| `Metadata.DefaultHeaderFn` | index.js:98 | The default usage line holds the name after `Usage: `, ends with a newline and, for a name without line breaks, is one line |
| `Metadata.DefaultExampleFn` | index.js:99 | The default example line starts with the indent, ends with the name and a newline and, for a name without line breaks, is one line |
| `Metadata.DefaultFooterFn` | index.js:132 | The default footer is the name, then the version in parentheses after `(v`; it has no trailing newline and is one line when neither value holds a line break |
| `Metadata.Resolve` | index.js:106-108 | `explicit ?? fromPkg` and the falsy check: an explicit value is used when non-empty and an explicit `""` throws whatever the package holds; without one, the package's value is used when non-empty, and otherwise the name error is thrown |
| `Metadata.Header` | index.js:95-113 | The header succeeds exactly when the name resolves. Its only errors are the name error and the failure of a read it needed, which is when `HeaderNeedsPkg` holds: the name is falsy and a path is given (index.js:102). The read is `LoadIfNeeded` (index.js:102-104), and `HeaderName` is `name ?? pkg?.name` with its throw (index.js:106-108). Its text is stated by `HeaderText` |
| `Metadata.Footer` | index.js:128-146 | The footer succeeds exactly when name and version resolve. Its only errors are the name error and the failure of a read it needed, which is when `FooterNeedsPkg` holds: the name or the version is falsy and a path is given (index.js:135). The read is `LoadIfNeeded` (index.js:135-137), and `FooterNames` resolves the name and then the version, each by `??` and its throw (index.js:139-143). Its text is stated by `FooterText` |
| `Metadata.HeaderExplicitName` | index.js:102-106 | A truthy explicit name is the name used, and the package is not read |
| `Metadata.HeaderPackageName` | index.js:101-108 | Without an explicit name but with a path, the name is the package's when truthy. Otherwise the header throws |
| `Metadata.HeaderLoadFailure` | index.js:102-104 | When the read is needed and fails, the header throws that failure |
| `Metadata.HeaderWithoutSource` | index.js:102-108 | With neither a truthy name nor a truthy path, nothing is read and the header throws the name error |
| `Metadata.HeaderEmptyName` | index.js:102-108 | An explicit empty name triggers the read, but `??` keeps `""`, so the header always throws |
| `Metadata.HeaderReadsOnlyWhenNeeded` | index.js:101-104 | When `HeaderNeedsPkg` is false, the header is the same whatever the package reader returns |
| `Metadata.HeaderText` | index.js:98-112 | The header succeeds exactly when the name resolves. It is then the two callbacks' texts joined by a newline. With the defaults it is `Usage: N [options]\n`, `\n`, `    Example: N\n` |
| `Metadata.FooterResolution` | index.js:134-143 | Name and version resolve independently as explicit `??` package field, and each must be truthy, name checked first. A failed read is thrown. Explicit truthy values for both mean no read |
| `Metadata.FooterMixedSources` | index.js:135-145 | An explicit name is kept even when the version is taken from the package |
| `Metadata.FooterEmptyVersion` | index.js:142-143 | An explicit empty version makes the footer throw whatever the package holds |
| `Metadata.FooterReadsOnlyWhenNeeded` | index.js:134-137 | When `FooterNeedsPkg` is false, the footer is the same whatever the package reader returns |
| `Metadata.FooterText` | index.js:132-145 | The footer succeeds exactly when both values resolve, and is then the callback, injected or default, applied to the name and the version. With the default callback it is `N (vV)` |
| `HelpText.FormatHelpText` | index.js:164-180 | The help text succeeds exactly when both the header and the footer do. On failure it throws the header's error if the header fails, else the footer's. Its text is stated by `FormatHelpTextShape` |
| `HelpText.FormatHelpTextShape` | index.js:173-179 | The help text is header + `\n` + option block + `\n` + footer. It fails exactly when the header or the footer fails, and a header failure is the one reported |
| `HelpText.FormatHelpTextExplicit` | index.js:164-180 | With a truthy explicit name and version, the help text does not depend on any package descriptor |
| `HelpText.FormatHelpTextWithoutName` | index.js:173-174 | With neither a name nor a package path, the help text fails with the name error |
| `HelpText.FormatHelpTextDefaults` | index.js:173-179 | With the default callbacks and name and version from the package, the sections are separated by blank lines |
| `HelpText.TestFooBlock` | index.test.js:16-20 | The `foo` option renders as `    --foo, -f` followed by 13 spaces and its help |
| `HelpText.TestBarBlock` | index.test.js:21-24 | The `bar` option renders as `    --bar` followed by 17 spaces and its help |
| `HelpText.TestUsage` | index.test.js:46-47 | The two options' block is the two expected lines, in order |
| `HelpText.TestScenario` | index.test.js:42-51 | The repository's test: with the package named argsclopts and any non-empty version, the help text is exactly the expected text |

## Left out

- Reading the package file: `readPkg` (index.js:66-68) is a file read followed by
  `JSON.parse`. It is replaced by the `read` parameter. A failure is one of
  `ReadError` or `ParseError`, with no further detail. `formatHelpText` may read the
  file twice (once in `header`, once in `footer`). The model assumes both reads
  give the same result, so a file that changes between the two reads is not covered.
- Package fields that are not strings, such as a numeric `name`: a package
  field is either absent or a string.
- `JSON.stringify` only covers defaults that are `null`, booleans, safe integers
  (at most 2^53 - 1 in magnitude, the type `SafeInteger`) and strings. Arrays,
  objects, fractional numbers, `NaN`, `-0` and larger numbers are not modelled.
- String lengths count Unicode scalar values. JavaScript's `.length` counts
  UTF-16 code units, so the two differ for labels with characters outside the
  Basic Multilingual Plane.
- A missing `options` argument or a `null` option descriptor is not modelled.
  `Object.entries(undefined)` (index.js:27) and `opt.helpLabel` on `null`
  (index.js:31) throw a `TypeError`, but the options are a sequence of entries
  with a descriptor each, so neither case can be expressed.
- `Object.entries` puts integer-like keys first, in ascending order. The
  options are given as a sequence already in enumeration order.
- A missing `help` is not modelled: it renders as the text `undefined`. `help`
  is a required string.
- Callbacks that throw, or that return something other than a string, are not
  modelled: each callback is a total function to strings. A throwing callback's
  error would pass through `header`/`footer`, and `join` (index.js:110, 179) would
  render an `undefined` or `null` result as `""`.
- Callbacks passed as `null` are not modelled: they would throw a `TypeError`
  because default parameters apply only to `undefined`. The callbacks receive
  the name and version as plain arguments, not as an object.
- `printHelpText` (index.js:197-213) repeats the assembly and writes the result
  with `console.log`. It is output plumbing and is not modelled.
- `async`/`await` is treated as sequential evaluation, in source order.
