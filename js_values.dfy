/** The pieces of JavaScript semantics the formatter relies on: truthiness of
    an optional string, the `??` operator and `Array.prototype.join`. */
module JsValues {
  import opened Wrappers

  /** `!!s` for a string property that may be `undefined` or `null` (None):
      the empty string is falsy too. */
  predicate Truthy(s: Option<string>) {
    s.Some? && s.value != ""
  }

  /** `a ?? b`: falls back to `b` only when `a` is `null` or `undefined`. */
  function Coalesce<T>(a: Option<T>, b: Option<T>): Option<T> {
    if a.Some? then a else b
  }

  /** `parts.join(sep)`. */
  function Join(parts: seq<string>, sep: string): string
    decreases |parts|
  {
    if |parts| == 0 then ""
    else if |parts| == 1 then parts[0]
    else parts[0] + sep + Join(parts[1..], sep)
  }

  /** The strings of parts one after the other. */
  function Concat(parts: seq<string>): string
    decreases |parts|
  {
    if parts == [] then "" else Concat(parts[..|parts| - 1]) + parts[|parts| - 1]
  }

  lemma {:induction false} ConcatAppend(a: seq<string>, b: seq<string>)
    ensures Concat(a + b) == Concat(a) + Concat(b)
    decreases |b|
  {
    if b == [] {
      assert a + b == a;
    } else {
      var b' := b[..|b| - 1];
      assert (a + b)[..|a + b| - 1] == a + b';
      ConcatAppend(a, b');
    }
  }

  /** `Array(n)`: n holes, each of which `join` renders as the empty string. */
  function Holes(n: nat): seq<string> {
    seq(n, _ => "")
  }

  function Spaces(n: nat): string {
    seq(n, _ => ' ')
  }

  /** Joining two or three strings puts one separator between neighbours. */
  lemma JoinPair(a: string, b: string, sep: string)
    ensures Join([a, b], sep) == a + sep + b
  {
    assert [a, b][1..] == [b];
  }

  lemma JoinTriple(a: string, b: string, c: string, sep: string)
    ensures Join([a, b, c], sep) == a + sep + b + sep + c
  {
    assert [a, b, c][1..] == [b, c];
    JoinPair(b, c, sep);
  }

  /** `Array(n).join(' ')` is n - 1 spaces, and no space at all for n = 0:
      the separators sit between the holes. */
  lemma {:induction false} JoinHoles(n: nat)
    ensures Join(Holes(n), " ") == Spaces(if n == 0 then 0 else n - 1)
  {
    if n >= 2 {
      JoinHoles(n - 1);
      assert Holes(n)[1..] == Holes(n - 1);
      assert Holes(n)[0] == "";
      assert Spaces(n - 1) == " " + Spaces(n - 2);
    } else if n == 1 {
      assert Holes(1) == [""];
      assert Spaces(0) == "";
    }
  }
}
