/**
 * String helpers the processor relies on: Python's `str()` of a natural
 * number, `str.join`, and the cut-and-mark truncation used both for stored
 * cells and for digest previews.
 */
module TextUtil {

  predicate IsDigit(c: char) {
    '0' <= c <= '9'
  }

  predicate AllDigits(s: string) {
    forall i :: 0 <= i < |s| ==> IsDigit(s[i])
  }

  function DigitChar(d: nat): (c: char)
    requires d < 10
    ensures IsDigit(c) && (c as int) - ('0' as int) == d
  {
    (('0' as int) + d) as char
  }

  /** Decimal text of `n`, as Python renders an int in an f-string. */
  function NatStr(n: nat): (s: string)
    ensures |s| > 0 && AllDigits(s)
    ensures n < 10 <==> |s| == 1
    ensures |s| > 1 ==> s[0] != '0'
  {
    if n < 10 then [DigitChar(n)] else NatStr(n / 10) + [DigitChar(n % 10)]
  }

  /** Reads a string of decimal digits back as a number (the partner of NatStr). */
  function ParseNat(s: string): nat
    requires AllDigits(s)
  {
    if |s| == 0 then 0
    else 10 * ParseNat(s[..|s| - 1]) + ((s[|s| - 1] as int) - ('0' as int))
  }

  /** Reading back the rendering of a number gives that number. */
  lemma {:induction false} ParseNatStr(n: nat)
    ensures ParseNat(NatStr(n)) == n
  {
    var s := NatStr(n);
    if n >= 10 {
      assert s[..|s| - 1] == NatStr(n / 10);
      ParseNatStr(n / 10);
    }
  }

  /** Distinct numbers render differently, so synthesized `Column_k` names never collide. */
  lemma NatStrInjective(a: nat, b: nat)
    requires NatStr(a) == NatStr(b)
    ensures a == b
  {
    ParseNatStr(a);
    ParseNatStr(b);
  }

  /**
   * `s` cut to `limit` characters with "..." appended when it is longer
   * than `limit`, and `s` itself otherwise.
   */
  function Truncate(s: string, limit: nat): (r: string)
    ensures |s| <= limit ==> r == s
    ensures |s| > limit ==> |r| == limit + 3 && r[..limit] == s[..limit] && r[limit..] == "..."
    ensures |r| <= limit + 3
  {
    if |s| > limit then s[..limit] + "..." else s
  }

  /** The parts with `sep` between each two neighbours. */
  function JoinWith(sep: string, parts: seq<string>): string
  {
    if |parts| == 0 then ""
    else if |parts| == 1 then parts[0]
    else parts[0] + sep + JoinWith(sep, parts[1..])
  }

  /** With two or more parts, the join ends with the separator and the last part. */
  lemma {:induction false} JoinWithLast(sep: string, parts: seq<string>)
    requires |parts| >= 2
    ensures JoinWith(sep, parts) == JoinWith(sep, parts[..|parts| - 1]) + sep + parts[|parts| - 1]
  {
    var n := |parts|;
    if n > 2 {
      var rest := parts[1..];
      JoinWithLast(sep, rest);
      assert parts[..n - 1][1..] == rest[..|rest| - 1];
    }
  }

  /** The truncation mark "..." ends `s`. */
  predicate EndsWithMark(s: string) {
    |s| >= 3 && s[|s| - 3..] == "..."
  }

  /** A ", "-join ends with "..." exactly when its last part does. */
  lemma JoinEndsWithMark(parts: seq<string>)
    ensures EndsWithMark(JoinWith(", ", parts)) <==> |parts| > 0 && EndsWithMark(parts[|parts| - 1])
  {
    if |parts| >= 2 {
      var last := parts[|parts| - 1];
      JoinWithLast(", ", parts);
      var j := JoinWith(", ", parts);
      if |last| >= 3 {
        assert j[|j| - 3..] == last[|last| - 3..];
      } else {
        assert j[|j| - |last| - 1] == ' ';
      }
    }
  }

  /** The lines of `xs`, item by item: `f(xs[0]) + f(xs[1]) + ...`. */
  function Flatten<T>(xs: seq<T>, f: T -> seq<string>): seq<string>
  {
    if |xs| == 0 then [] else Flatten(xs[..|xs| - 1], f) + f(xs[|xs| - 1])
  }

  lemma {:induction false} FlattenStep<T>(xs: seq<T>, f: T -> seq<string>, i: nat)
    requires i < |xs|
    ensures Flatten(xs[..i + 1], f) == Flatten(xs[..i], f) + f(xs[i])
  {
    assert xs[..i + 1][..i] == xs[..i];
  }

  /** One step of a loop that appends `f(xs[k])` to lines holding `prefix` and the items before `k`. */
  lemma {:induction false} FlattenAccumulate<T>(prefix: seq<string>, xs: seq<T>, f: T -> seq<string>, k: nat,
                                               acc: seq<string>, block: seq<string>)
    requires k < |xs| && acc == prefix + Flatten(xs[..k], f) && block == f(xs[k])
    ensures acc + block == prefix + Flatten(xs[..k + 1], f)
  {
    FlattenStep(xs, f, k);
  }

  lemma {:induction false} FlattenAppend<T>(a: seq<T>, b: seq<T>, f: T -> seq<string>)
    ensures Flatten(a + b, f) == Flatten(a, f) + Flatten(b, f)
  {
    if |b| == 0 {
      assert a + b == a;
    } else {
      var n := |b| - 1;
      assert (a + b)[..|a + b| - 1] == a + b[..n];
      FlattenAppend(a, b[..n], f);
    }
  }

  /** Item i's lines sit between those of the items before it and those of the items after it. */
  lemma {:induction false} FlattenSplit<T>(xs: seq<T>, f: T -> seq<string>, i: nat)
    requires i < |xs|
    ensures Flatten(xs, f) == Flatten(xs[..i], f) + f(xs[i]) + Flatten(xs[i + 1..], f)
  {
    var front, back := xs[..i + 1], xs[i + 1..];
    assert front + back == xs;
    calc {
      Flatten(xs, f);
      Flatten(front + back, f);
      { FlattenAppend(front, back, f); }
      Flatten(front, f) + Flatten(back, f);
      { FlattenStep(xs, f, i); }
      Flatten(xs[..i], f) + f(xs[i]) + Flatten(back, f);
    }
  }
}
