/** The pieces the clients format their request URLs from: a query string of
    `name=value` parameters joined by `&`, and the decimal rendering of a count. */
module Url {

  /** `?p0&p1&...`: a question mark, then the parts separated by `&`. An
      empty part shows up as two `&` in a row. */
  function Query(parts: seq<string>): string
    decreases |parts|
  {
    if parts == [] then "?"
    else if |parts| == 1 then "?" + parts[0]
    else Query(parts[..|parts| - 1]) + "&" + parts[|parts| - 1]
  }

  function Param(name: string, value: string): string {
    name + "=" + value
  }

  /** A literal that ends in `name=`, followed by a value, is the parameter
      after the literal's leading separator. */
  lemma ParamAfter(lit: string, sep: string, name: string, value: string)
    requires lit == sep + (name + "=")
    ensures lit + value == sep + Param(name, value)
  {
  }

  /** A query of two parameters, written out. */
  lemma Query2(p0: string, p1: string)
    ensures Query([p0, p1]) == "?" + p0 + "&" + p1
  {
    assert [p0, p1][..1] == [p0];
  }

  /** A query of three parameters, written out. */
  lemma Query3(p0: string, p1: string, p2: string)
    ensures Query([p0, p1, p2]) == "?" + p0 + "&" + p1 + "&" + p2
  {
    assert [p0, p1, p2][..2] == [p0, p1];
    Query2(p0, p1);
  }

  /** A query of four parameters, written out. */
  lemma Query4(p0: string, p1: string, p2: string, p3: string)
    ensures Query([p0, p1, p2, p3]) == "?" + p0 + "&" + p1 + "&" + p2 + "&" + p3
  {
    assert [p0, p1, p2, p3][..3] == [p0, p1, p2];
    Query3(p0, p1, p2);
  }

  /** A query of six parameters, written out. */
  lemma Query6(p0: string, p1: string, p2: string, p3: string, p4: string, p5: string)
    ensures Query([p0, p1, p2, p3, p4, p5])
         == "?" + p0 + "&" + p1 + "&" + p2 + "&" + p3 + "&" + p4 + "&" + p5
  {
    assert [p0, p1, p2, p3, p4, p5][..5] == [p0, p1, p2, p3, p4];
    assert [p0, p1, p2, p3, p4][..4] == [p0, p1, p2, p3];
    Query4(p0, p1, p2, p3);
  }

  // ---------------------------------------------------------------------
  // Concatenation helpers. The lemmas from here to `RegroupEnd` state only
  // how string literals split and how concatenation regroups; they say
  // nothing about the clients and serve the format-string proofs.

  lemma MetricUnits()
    ensures "&units=metric" == "&" + Param("units", "metric")
  {
  }

  /** Query pieces `?p0` and `&p1`... concatenated make the query. */
  lemma Segments2(q0: string, q1: string, p0: string, p1: string)
    requires q0 == "?" + p0 && q1 == "&" + p1
    ensures q0 + q1 == Query([p0, p1])
  {
    Query2(p0, p1);
  }

  lemma Segments3(q0: string, q1: string, q2: string, p0: string, p1: string, p2: string)
    requires q0 == "?" + p0 && q1 == "&" + p1 && q2 == "&" + p2
    ensures q0 + q1 + q2 == Query([p0, p1, p2])
  {
    Query3(p0, p1, p2);
  }

  lemma Segments4(q0: string, q1: string, q2: string, q3: string, p0: string, p1: string, p2: string, p3: string)
    requires q0 == "?" + p0 && q1 == "&" + p1 && q2 == "&" + p2 && q3 == "&" + p3
    ensures q0 + q1 + q2 + q3 == Query([p0, p1, p2, p3])
  {
    Query4(p0, p1, p2, p3);
  }

  lemma Segments6(q0: string, q1: string, q2: string, q3: string, q4: string, q5: string,
                  p0: string, p1: string, p2: string, p3: string, p4: string, p5: string)
    requires q0 == "?" + p0 && q1 == "&" + p1 && q2 == "&" + p2
    requires q3 == "&" + p3 && q4 == "&" + p4 && q5 == "&" + p5
    ensures q0 + q1 + q2 + (q3 + q4 + q5) == Query([p0, p1, p2, p3, p4, p5])
  {
    Query6(p0, p1, p2, p3, p4, p5);
  }

  // A URL is written left to right as a prefix, a literal that holds the
  // path and the first `?name=`, and then values and literals in turn. The
  // lemmas below regroup it as the prefix, the path, and one piece per
  // parameter.

  lemma Regroup2(prefix: string, path: string, l0: string, v0: string, l1: string, v1: string)
    ensures prefix + (path + l0) + v0 + l1 + v1 == prefix + path + ((l0 + v0) + (l1 + v1))
  {
  }

  lemma Regroup3(prefix: string, path: string, l0: string, v0: string, l1: string, v1: string,
                 l2: string, v2: string)
    ensures prefix + (path + l0) + v0 + l1 + v1 + l2 + v2
         == prefix + path + ((l0 + v0) + (l1 + v1) + (l2 + v2))
  {
  }

  /** As `Regroup2`, with a last literal that holds whole parameters. */
  lemma Regroup2Tail(prefix: string, path: string, l0: string, v0: string, l1: string, v1: string,
                     tail: string)
    ensures prefix + (path + l0) + v0 + l1 + v1 + tail == prefix + path + ((l0 + v0) + (l1 + v1) + tail)
  {
  }

  /** As `Regroup3`, with a last literal that holds whole parameters. */
  lemma Regroup3Tail(prefix: string, path: string, l0: string, v0: string, l1: string, v1: string,
                     l2: string, v2: string, tail: string)
    ensures prefix + (path + l0) + v0 + l1 + v1 + l2 + v2 + tail
         == prefix + path + ((l0 + v0) + (l1 + v1) + (l2 + v2) + tail)
  {
  }

  lemma RegroupEnd(a: string, b: string, c: string, d: string)
    ensures a + b + c + d == a + b + (c + d)
  {
  }

  // End of the concatenation helpers.
  // ---------------------------------------------------------------------

  function DigitChar(d: nat): char
    requires d < 10
  {
    "0123456789"[d]
  }

  function DigitValue(c: char): nat {
    if '0' <= c <= '9' then (c - '0') as nat else 0
  }

  /** `{}` formatting of a `usize`: its decimal digits, most significant first. */
  function DecimalString(n: nat): (s: string)
    ensures |s| > 0
    ensures forall i :: 0 <= i < |s| ==> '0' <= s[i] <= '9'
    ensures |s| > 1 ==> s[0] != '0'
  {
    if n < 10 then [DigitChar(n)] else DecimalString(n / 10) + [DigitChar(n % 10)]
  }

  /** The number a string of decimal digits denotes. */
  function DecimalValue(s: string): nat
    decreases |s|
  {
    if s == [] then 0 else DecimalValue(s[..|s| - 1]) * 10 + DigitValue(s[|s| - 1])
  }

  /** Rendering a count and reading it back gives the count: the rendering
      loses nothing. */
  lemma {:induction false} DecimalRoundTrip(n: nat)
    ensures DecimalValue(DecimalString(n)) == n
  {
    var s := DecimalString(n);
    if n < 10 {
      assert s[..0] == [];
    } else {
      DecimalRoundTrip(n / 10);
      assert s[..|s| - 1] == DecimalString(n / 10);
      assert DigitValue(s[|s| - 1]) == n % 10;
    }
  }
}
