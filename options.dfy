/** The option block of the help text (`usage` in index.js): one aligned
    entry per option descriptor, in the order the descriptors are listed. */
module Options {
  import opened Wrappers
  import opened JsValues
  import opened JsonText

  /** Column budget for a label (`width`). */
  const Width: nat := 23

  /** Prefix of every option line (`indent`). */
  const Indent: string := "    "

  /** The column, counted from the start of a line, at which a description
      starts: after the indent and Width - 1 further columns. */
  const DescriptionColumn: nat := |Indent| + Width - 1

  /** The `type` field; it is read by the argument parser, never by the formatter. */
  datatype ArgType = BooleanArg | StringArg

  /** One option descriptor; None stands for an absent property. */
  datatype OptionSpec = OptionSpec(
    argType: ArgType,
    short: Option<string>,
    default: Option<Value>,
    help: string,
    helpLabel: Option<string>)

  /** An entry of the option map: the long name and its descriptor. */
  datatype Entry = Entry(name: string, opt: OptionSpec)

  /** The displayed label: `helpLabel` when truthy, otherwise `--name`
      followed by `, -short` exactly when the short alias is truthy. */
  function Label(e: Entry): (r: string)
    ensures |r| > 0
    ensures Truthy(e.opt.helpLabel) ==> r == e.opt.helpLabel.value
    ensures !Truthy(e.opt.helpLabel) ==>
      && |r| >= 2 + |e.name|
      && r[..2 + |e.name|] == "--" + e.name
      && (Truthy(e.opt.short) <==> |r| > 2 + |e.name|)
      && (Truthy(e.opt.short) ==> r[2 + |e.name|..] == ", -" + e.opt.short.value)
  {
    if Truthy(e.opt.helpLabel) then e.opt.helpLabel.value
    else "--" + e.name + (if Truthy(e.opt.short) then ", -" + e.opt.short.value else "")
  }

  /** Whether the description goes on a line of its own. */
  predicate Wraps(e: Entry) {
    |Label(e)| > Width
  }

  /** The ` (default: ...)` suffix, present only for a truthy default. */
  function DefaultSuffix(d: Option<Value>): (r: string)
    ensures r != "" <==> d.Some? && IsTruthy(d.value)
    ensures r != "" ==> r == " (default: " + Stringify(d.value) + ")"
  {
    if d.Some? && IsTruthy(d.value) then " (default: " + Stringify(d.value) + ")" else ""
  }

  /** What follows the label's layout: the help text and the default suffix. */
  function Description(e: Entry): (r: string)
    ensures |r| >= |e.opt.help| && r[..|e.opt.help|] == e.opt.help
    ensures |r| > |e.opt.help| <==> e.opt.default.Some? && IsTruthy(e.opt.default.value)
  {
    e.opt.help + DefaultSuffix(e.opt.default)
  }

  /** Everything of an entry's block before its description: the indented
      label, then either max(0, Width - 1 - |label|) spaces of padding (so a
      label of Width - 1 or Width characters is followed directly by the
      description) or, for a label longer than Width, a line break, the
      indent and Width - 1 spaces. */
  function Lead(e: Entry): (r: string)
    ensures |Label(e)| > Width ==> |r| == 2 * |Indent| + |Label(e)| + Width
    ensures |Label(e)| <= Width ==> |r| == |Indent| + if |Label(e)| == Width then Width else Width - 1
  {
    var lbl := Label(e);
    if |lbl| > Width then Indent + lbl + "\n" + Indent + Spaces(Width - 1)
    else Indent + lbl + Spaces(if |lbl| < Width then Width - 1 - |lbl| else 0)
  }

  /** The block of one entry, terminated by a newline. */
  function Block(e: Entry): (r: string)
    ensures |r| == |Lead(e)| + |Description(e)| + 1 && r[|r| - 1] == '\n'
  {
    Lead(e) + Description(e) + "\n"
  }

  /** The blocks of the entries, one per entry and in the same order. */
  function Blocks(entries: seq<Entry>): seq<string>
    decreases |entries|
  {
    if entries == [] then [] else Blocks(entries[..|entries| - 1]) + [Block(entries[|entries| - 1])]
  }

  /** The whole option block: the entries' blocks in order. */
  function UsageText(entries: seq<Entry>): string {
    Concat(Blocks(entries))
  }

  /** `usage(options)`: one block per entry, in order. */
  method Usage(options: seq<Entry>) returns (output: string)
    ensures output == UsageText(options)
  {
    output := "";
    var i := 0;
    while i < |options|
      invariant 0 <= i <= |options|
      invariant output == UsageText(options[..i])
    {
      output := AppendBlock(output, options[i]);
      UsageTextStep(options, i);
      i := i + 1;
    }
    assert options[..i] == options;
  }

  /** One more entry appends its block: the step of the loop in `Usage`. */
  lemma UsageTextStep(entries: seq<Entry>, i: nat)
    requires i < |entries|
    ensures UsageText(entries[..i + 1]) == UsageText(entries[..i]) + Block(entries[i])
  {
    assert entries[..i + 1][..i] == entries[..i];
    ConcatAppend(Blocks(entries[..i]), [Block(entries[i])]);
  }

  /** The body of the loop in `usage`: appends one entry's block piecewise as
      the source does, with the padding made by `Array(width - offset).join(' ')`.
      The ghost `added` is what this call has appended so far. */
  method AppendBlock(before: string, e: Entry) returns (output: string)
    ensures output == before + Block(e)
  {
    var name, opt := e.name, e.opt;
    output := before + Indent;
    ghost var added := Indent;

    var helpLabel: string;
    if Truthy(opt.helpLabel) {
      helpLabel := opt.helpLabel.value;
    } else {
      helpLabel := "--" + name;
      if Truthy(opt.short) {
        helpLabel := helpLabel + ", -" + opt.short.value;
      }
    }
    assert helpLabel == Label(e);
    output, added := output + helpLabel, Appended(before, added, helpLabel);

    var offset := 0;
    if |helpLabel| > Width {
      output, added := output + "\n", Appended(before, added, "\n");
      output, added := output + Indent, Appended(before, added, Indent);
    } else {
      offset := |helpLabel|;
    }
    JoinHoles(Width - offset);
    var pad := Join(Holes(Width - offset), " ");
    output, added := output + pad, Appended(before, added, pad);
    assert added == Lead(e);

    ghost var lead := added;
    output, added := output + opt.help, Appended(before, added, opt.help);
    if opt.default.Some? && IsTruthy(opt.default.value) {
      var suffix := " (default: " + Stringify(opt.default.value) + ")";
      output, added := output + suffix, Appended(before, added, suffix);
      Regroup(lead, opt.help, suffix);
    }
    assert added == lead + Description(e);
    output, added := output + "\n", Appended(before, added, "\n");
  }

  /** Regrouping a concatenation, proved apart from the method so that its
      context stays small. */
  lemma Regroup(a: string, b: string, c: string)
    ensures a + b + c == a + (b + c)
  {
  }

  /** `added + piece`, with the regrouping that lets `before + added` grow by `piece`. */
  ghost function Appended(before: string, added: string, piece: string): (r: string)
    ensures before + added + piece == before + r
  {
    Regroup(before, added, piece);
    added + piece
  }

  // ---------- properties of the option block ----------

  /** The length of the last line of s: the column the next character lands in. */
  function Column(s: string): nat
    decreases |s|
  {
    if s == [] then 0
    else if s[|s| - 1] == '\n' then 0
    else Column(s[..|s| - 1]) + 1
  }

  lemma {:induction false} ColumnAppend(a: string, b: string)
    ensures '\n' !in b ==> Column(a + b) == Column(a) + |b|
    ensures '\n' in b ==> Column(a + b) == Column(b)
    decreases |b|
  {
    if b == [] {
      assert a + b == a;
    } else {
      var b', c := b[..|b| - 1], b[|b| - 1];
      assert b == b' + [c];
      assert (a + b)[..|a + b| - 1] == a + b';
      assert (a + b)[|a + b| - 1] == c;
      ColumnAppend(a, b');
      assert '\n' in b <==> '\n' in b' || c == '\n';
    }
  }

  /** A text that ends with a newline leaves the next character at column 0. */
  lemma ColumnAfterNewline(a: string, b: string)
    requires '\n' !in b
    ensures Column(a + "\n" + b) == |b|
  {
    ColumnAppend(a, "\n");
    ColumnAppend(a + "\n", b);
  }

  /** The layout of one block. The description wraps onto a line of its own
      exactly when the label is longer than Width; for a label without line
      breaks it then starts at DescriptionColumn of that line, and so it does
      on the label's own line for a label of at most Width - 1 characters;
      a label of exactly Width characters is not wrapped and is followed by
      the description without a separating space. */
  lemma BlockLayout(e: Entry)
    requires '\n' !in Label(e)
    ensures Wraps(e) <==> '\n' in Lead(e)
    ensures Wraps(e) ==> Lead(e) == Indent + Label(e) + "\n" + Indent + Spaces(Width - 1)
    ensures Column(Lead(e)) == if |Label(e)| == Width then |Indent| + Width else DescriptionColumn
  {
    var lbl := Label(e);
    if |lbl| > Width {
      var first, second := Indent + lbl, Indent + Spaces(Width - 1);
      assert Lead(e) == first + "\n" + second;
      assert Lead(e)[|first|] == '\n';
      assert '\n' !in second;
      ColumnAfterNewline(first, second);
    } else {
      var pad := Spaces(if |lbl| < Width then Width - 1 - |lbl| else 0);
      assert Lead(e) == Indent + lbl + pad;
      assert '\n' !in pad;
      assert '\n' !in Indent;
      assert '\n' !in Lead(e);
      ColumnAppend([], Lead(e));
      assert [] + Lead(e) == Lead(e);
    }
  }

  /** The padding is one space short of Width - |label|, so a label of
      Width - 1 or Width characters is followed by its description with no
      space between them. */
  lemma NoSeparatorNearWidth(e: Entry)
    requires |Label(e)| == Width - 1 || |Label(e)| == Width
    ensures Block(e) == Indent + Label(e) + Description(e) + "\n"
  {
    assert Spaces(0) == "";
    assert Lead(e) == Indent + Label(e);
  }

  /** When neither the label nor the help text holds a line break, a block
      is one line, or two split right after the label when the label wraps.
      That every block ends with a newline is `Block`'s own contract. */
  lemma BlockLines(e: Entry)
    requires '\n' !in Label(e) && '\n' !in e.opt.help
    ensures Block(e)[|Block(e)| - 1] == '\n'
    ensures !Wraps(e) ==> '\n' !in Block(e)[..|Block(e)| - 1]
    ensures Wraps(e) ==>
      var k := |Indent| + |Label(e)|;
      && Block(e)[k] == '\n'
      && '\n' !in Block(e)[..k]
      && '\n' !in Block(e)[k + 1..|Block(e)| - 1]
  {
    var b := Block(e);
    var d := Description(e);
    DescriptionOneLine(e);
    assert b[..|b| - 1] == Lead(e) + d;
    if Wraps(e) {
      var k := |Indent| + |Label(e)|;
      assert b[..k] == Indent + Label(e);
      assert b[k + 1..|b| - 1] == Indent + Spaces(Width - 1) + d;
    } else {
      BlockLayout(e);
    }
  }

  /** The rendered default never adds a line break to the description. */
  lemma DescriptionOneLine(e: Entry)
    requires '\n' !in e.opt.help
    ensures '\n' !in Description(e)
  {
    var suffix := DefaultSuffix(e.opt.default);
    if suffix != "" {
      var r := Stringify(e.opt.default.value);
      assert forall i :: 0 <= i < |r| ==> r[i] != '\n';
      assert suffix == " (default: " + r + ")";
    }
  }

  /** The option block lists the entries in order: concatenating two lists
      concatenates their blocks. */
  lemma UsageTextAppend(a: seq<Entry>, b: seq<Entry>)
    ensures UsageText(a + b) == UsageText(a) + UsageText(b)
  {
    BlocksAppend(a, b);
    ConcatAppend(Blocks(a), Blocks(b));
  }

  lemma {:induction false} BlocksAppend(a: seq<Entry>, b: seq<Entry>)
    ensures Blocks(a + b) == Blocks(a) + Blocks(b)
    decreases |b|
  {
    if b == [] {
      assert a + b == a;
    } else {
      var b' := b[..|b| - 1];
      assert (a + b)[..|a + b| - 1] == a + b';
      BlocksAppend(a, b');
    }
  }

  /** No options, no text; otherwise the text ends with a newline. */
  lemma UsageTextEnds(entries: seq<Entry>)
    ensures entries == [] <==> UsageText(entries) == ""
    ensures entries != [] ==> UsageText(entries)[|UsageText(entries)| - 1] == '\n'
  {
  }

  /** Entry i's block sits in the option block between the blocks of the
      entries before it and those after it, starting at the beginning of a
      line; when its label has no line break and is not exactly Width long,
      its description starts at DescriptionColumn, the same column for every
      such entry, wrapped or not. */
  lemma UsageEntryAt(entries: seq<Entry>, i: nat)
    requires i < |entries|
    ensures UsageText(entries) == UsageText(entries[..i]) + Block(entries[i]) + UsageText(entries[i + 1..])
    ensures Column(UsageText(entries[..i])) == 0
    ensures '\n' !in Label(entries[i]) && |Label(entries[i])| != Width ==>
      Column(UsageText(entries[..i]) + Lead(entries[i])) == DescriptionColumn
  {
    assert entries == entries[..i] + [entries[i]] + entries[i + 1..];
    UsageTextAppend(entries[..i] + [entries[i]], entries[i + 1..]);
    UsageTextAppend(entries[..i], [entries[i]]);
    assert [entries[i]][..0] == [];
    var pre := UsageText(entries[..i]);
    UsageTextEnds(entries[..i]);
    if '\n' !in Label(entries[i]) && |Label(entries[i])| != Width {
      BlockLayout(entries[i]);
      ColumnAppend(pre, Lead(entries[i]));
    }
  }
}
