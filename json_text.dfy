/** `JSON.stringify` for the default values an option descriptor carries,
    restricted to null, booleans, integers and strings, together with the
    reading that inverts it. */
module JsonText {
  import opened Wrappers

  /** The largest integer a JavaScript number holds exactly (`Number.MAX_SAFE_INTEGER`). */
  const MaxSafeInteger: int := 0x1F_FFFF_FFFF_FFFF

  /** The integers a JavaScript number holds exactly; `JSON.stringify` writes
      each of them as its plain decimal numeral. */
  type SafeInteger = n: int | -MaxSafeInteger <= n <= MaxSafeInteger

  /** A default value of an option descriptor. */
  datatype Value = Null | Bool(b: bool) | Number(n: SafeInteger) | Text(s: string)

  /** JavaScript truthiness: null, false, 0 and "" are falsy. */
  predicate IsTruthy(v: Value)
    ensures !IsTruthy(v) <==> v == Null || v == Bool(false) || v == Number(0) || v == Text("")
  {
    match v
    case Null => false
    case Bool(b) => b
    case Number(n) => n != 0
    case Text(s) => s != ""
  }

  // ---------- decimal numerals ----------

  predicate IsDigit(c: char) {
    '0' <= c <= '9'
  }

  predicate AllDigits(s: string) {
    forall i :: 0 <= i < |s| ==> IsDigit(s[i])
  }

  function DigitChar(d: nat): (c: char)
    requires d < 10
  {
    ('0' as int + d) as char
  }

  function DigitValue(c: char): int {
    c as int - '0' as int
  }

  /** The value of a string of decimal digits, most significant first. */
  function ParseDecimal(s: string): int
    decreases |s|
  {
    if s == [] then 0 else 10 * ParseDecimal(s[..|s| - 1]) + DigitValue(s[|s| - 1])
  }

  /** The shortest decimal numeral of n, as `JSON.stringify` writes an integer. */
  function Decimal(n: nat): (r: string)
    ensures |r| > 0 && AllDigits(r)
    ensures r[0] == '0' ==> n == 0
    ensures ParseDecimal(r) == n
    decreases n
  {
    if n < 10 then [DigitChar(n)]
    else
      var r := Decimal(n / 10) + [DigitChar(n % 10)];
      assert r[..|r| - 1] == Decimal(n / 10);
      r
  }

  // ---------- string escaping ----------

  function HexDigit(d: nat): (c: char)
    requires d < 16
  {
    if d < 10 then ('0' as int + d) as char else ('a' as int + d - 10) as char
  }

  /** The value of a hexadecimal digit of either case, -1 for other characters. */
  function HexValue(c: char): (v: int)
    ensures -1 <= v < 16
  {
    if '0' <= c <= '9' then c as int - '0' as int
    else if 'a' <= c <= 'f' then c as int - 'a' as int + 10
    else if 'A' <= c <= 'F' then c as int - 'A' as int + 10
    else -1
  }

  /** How `JSON.stringify` writes one character inside a string literal:
      quote and backslash are escaped, control characters get their short
      escape or a `\u00XX` escape, everything else stands for itself. */
  function EscapeChar(c: char): (r: string)
    ensures forall i :: 0 <= i < |r| ==> ' ' <= r[i]
  {
    if c == '"' then "\\\""
    else if c == '\\' then "\\\\"
    else if c as int == 8 then "\\b"
    else if c == '\t' then "\\t"
    else if c == '\n' then "\\n"
    else if c as int == 12 then "\\f"
    else if c == '\r' then "\\r"
    else if c < ' ' then "\\u00" + [HexDigit(c as int / 16), HexDigit(c as int % 16)]
    else [c]
  }

  /** The body of the string literal `JSON.stringify` produces for s. */
  function Escape(s: string): (r: string)
    ensures forall i :: 0 <= i < |r| ==> ' ' <= r[i]
    decreases |s|
  {
    if s == [] then "" else EscapeChar(s[0]) + Escape(s[1..])
  }

  function Prepend(c: char, rest: Option<string>): Option<string> {
    match rest
    case None => None
    case Some(t) => Some([c] + t)
  }

  /** The character a two-character escape `\c` stands for. */
  function ShortUnescape(c: char): Option<char> {
    if c == '"' then Some('"')
    else if c == '\\' then Some('\\')
    else if c == '/' then Some('/')
    else if c == 'b' then Some(8 as char)
    else if c == 'f' then Some(12 as char)
    else if c == 'n' then Some('\n')
    else if c == 'r' then Some('\r')
    else if c == 't' then Some('\t')
    else None
  }

  /** Reads the body of a JSON string literal back; None for a malformed escape. */
  function Unescape(s: string): Option<string>
    decreases |s|
  {
    if s == [] then Some("")
    else if s[0] != '\\' then Prepend(s[0], Unescape(s[1..]))
    else if |s| < 2 then None
    else if s[1] == 'u' then
      if |s| < 6 || HexValue(s[2]) < 0 || HexValue(s[3]) < 0 || HexValue(s[4]) < 0 || HexValue(s[5]) < 0 then None
      else
        var code := 4096 * HexValue(s[2]) + 256 * HexValue(s[3]) + 16 * HexValue(s[4]) + HexValue(s[5]);
        if 0xD800 <= code < 0xE000 then None else Prepend(code as char, Unescape(s[6..]))
    else
      match ShortUnescape(s[1])
      case None => None
      case Some(c) => Prepend(c, Unescape(s[2..]))
  }

  lemma UnescapeEscapeChar(c: char, t: string)
    ensures Unescape(EscapeChar(c) + t) == Prepend(c, Unescape(t))
  {
    var e := EscapeChar(c) + t;
    if c < ' ' && c as int != 8 && c != '\t' && c != '\n' && c as int != 12 && c != '\r' {
      var hi, lo := c as int / 16, c as int % 16;
      assert HexValue(HexDigit(hi)) == hi;
      assert HexValue(HexDigit(lo)) == lo;
      assert e[6..] == t;
      assert e[..6] == "\\u00" + [HexDigit(hi), HexDigit(lo)];
    } else if c == '"' || c == '\\' || c as int == 8 || c == '\t' || c == '\n' || c as int == 12 || c == '\r' {
      assert e[2..] == t;
    } else {
      assert e[1..] == t;
    }
  }

  /** Escaping loses nothing: reading the escaped text back gives s. */
  lemma {:induction false} UnescapeEscape(s: string)
    ensures Unescape(Escape(s)) == Some(s)
    decreases |s|
  {
    if s != [] {
      UnescapeEscape(s[1..]);
      UnescapeEscapeChar(s[0], Escape(s[1..]));
      assert [s[0]] + s[1..] == s;
    }
  }

  // ---------- whole values ----------

  /** `JSON.stringify(v)`. */
  function Stringify(v: Value): (r: string)
    ensures |r| > 0
    ensures forall i :: 0 <= i < |r| ==> ' ' <= r[i]
  {
    match v
    case Null => "null"
    case Bool(b) => if b then "true" else "false"
    case Number(n) => if n < 0 then "-" + Decimal(-n) else Decimal(n)
    case Text(s) => "\"" + Escape(s) + "\""
  }

  /** Reads a JSON text of one of the four kinds back; None when it is none of them. */
  function ParseValue(r: string): Option<Value> {
    if |r| >= 2 && r[0] == '"' && r[|r| - 1] == '"' then
      match Unescape(r[1..|r| - 1])
      case None => None
      case Some(s) => Some(Text(s))
    else if r == "null" then Some(Null)
    else if r == "true" then Some(Bool(true))
    else if r == "false" then Some(Bool(false))
    else if |r| >= 2 && r[0] == '-' && AllDigits(r[1..]) && 0 <= ParseDecimal(r[1..]) <= MaxSafeInteger then
      Some(Number(-ParseDecimal(r[1..])))
    else if |r| >= 1 && AllDigits(r) && 0 <= ParseDecimal(r) <= MaxSafeInteger then Some(Number(ParseDecimal(r)))
    else None
  }

  /** The rendering of a default is faithful: it reads back as the same value,
      so distinct defaults never render alike. */
  lemma ParseStringify(v: Value)
    ensures ParseValue(Stringify(v)) == Some(v)
  {
    match v
    case Text(s) =>
      var r := Stringify(v);
      assert r[1..|r| - 1] == Escape(s);
      UnescapeEscape(s);
    case Number(n) =>
      ParseStringifyNumber(n);
    case _ =>
  }

  /** The number case of ParseStringify: the numeral, with its sign, reads
      back as the same safe integer. */
  lemma ParseStringifyNumber(n: SafeInteger)
    ensures ParseValue(Stringify(Number(n))) == Some(Number(n))
  {
    var r := Stringify(Number(n));
    if n < 0 {
      var digits := Decimal(-n);
      assert r == "-" + digits;
      assert r[1..] == digits;
      assert r[0] == '-' && r != "null" && r != "true" && r != "false";
      assert !(r[|r| - 1] == '"') by {
        assert IsDigit(digits[|digits| - 1]);
      }
    } else {
      var digits := Decimal(n);
      assert r == digits;
      assert IsDigit(r[0]) && IsDigit(r[|r| - 1]);
    }
  }
}
