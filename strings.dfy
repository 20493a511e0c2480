/** The few JavaScript string operations the client relies on, written out:
    decimal rendering of a number, `indexOf` of one character,
    `replace` with a one-character string pattern, `join` and `split`. */
module Strings {

  predicate IsDigit(c: char) {
    '0' <= c <= '9'
  }

  predicate IsDigits(s: string) {
    forall i :: 0 <= i < |s| ==> IsDigit(s[i])
  }

  /** The character of a decimal digit. */
  function Digit(d: nat): (c: char)
    requires d < 10
    ensures IsDigit(c) && c as int - '0' as int == d
  {
    (('0' as int) + d) as char
  }

  /** `String(n)` for a non-negative integer: its decimal digits, without
      leading zeros. */
  function NatToString(n: nat): (s: string)
    ensures |s| > 0 && IsDigits(s)
    ensures s[0] == '0' ==> n == 0
    decreases n
  {
    if n < 10 then [Digit(n)] else NatToString(n / 10) + [Digit(n % 10)]
  }

  /** The value of a string of decimal digits (the inverse of NatToString). */
  function ParseNat(s: string): nat
    requires IsDigits(s)
    decreases |s|
  {
    if s == [] then 0
    else 10 * ParseNat(s[..|s| - 1]) + (s[|s| - 1] as int - '0' as int)
  }

  lemma {:induction false} ParseNatToString(n: nat)
    ensures ParseNat(NatToString(n)) == n
    decreases n
  {
    var s := NatToString(n);
    if n >= 10 {
      assert s[..|s| - 1] == NatToString(n / 10);
      ParseNatToString(n / 10);
    }
  }

  /** `s.indexOf(c)`: the position of the first `c`, or -1 when there is none. */
  function IndexOf(s: string, c: char): (i: int)
    ensures -1 <= i < |s|
    ensures i == -1 <==> c !in s
    ensures 0 <= i ==> s[i] == c && c !in s[..i]
    decreases |s|
  {
    if s == [] then -1
    else if s[0] == c then 0
    else
      var j := IndexOf(s[1..], c);
      if j == -1 then -1 else j + 1
  }

  /** Searching past a prefix free of `c`. */
  lemma {:induction false} IndexOfAfter(a: string, b: string, c: char)
    requires c !in a
    ensures IndexOf(a + b, c) == if c in b then |a| + IndexOf(b, c) else -1
    decreases |a|
  {
    if a != [] {
      assert (a + b)[1..] == a[1..] + b;
      IndexOfAfter(a[1..], b, c);
    } else {
      assert a + b == b;
    }
  }

  /** Cutting `a + [c] + b` at its first `c`, when `a` holds none. */
  lemma CutAt(a: string, b: string, c: char)
    requires c !in a
    ensures IndexOf(a + [c] + b, c) == |a|
    ensures (a + [c] + b)[..|a|] == a && (a + [c] + b)[|a| + 1..] == b
  {
    IndexOfAfter(a, [c] + b, c);
    assert a + [c] + b == a + ([c] + b);
  }

  /** `s.replace(c, '')` with a one-character string pattern: JavaScript
      replaces only the first occurrence. */
  function RemoveFirst(s: string, c: char): (r: string)
    ensures |r| == if c in s then |s| - 1 else |s|
  {
    var i := IndexOf(s, c);
    if i < 0 then s else s[..i] + s[i + 1..]
  }

  /** RemoveFirst, stated without IndexOf: a string free of `c` is left
      alone, and otherwise exactly the first `c` is dropped. */
  lemma RemoveFirstSpec(s: string, c: char, pre: string, post: string)
    ensures c !in s ==> RemoveFirst(s, c) == s
    ensures s == pre + [c] + post && c !in pre ==> RemoveFirst(s, c) == pre + post
  {
    if s == pre + [c] + post && c !in pre {
      CutAt(pre, post, c);
    }
  }

  /** `parts.join(sep)`. */
  function Join(parts: seq<string>, sep: string): string
    decreases |parts|
  {
    if |parts| == 0 then ""
    else if |parts| == 1 then parts[0]
    else parts[0] + sep + Join(parts[1..], sep)
  }

  /** `s.split(c)` with a one-character separator: at least one piece, and no
      piece contains `c`. */
  function Split(s: string, c: char): (parts: seq<string>)
    ensures |parts| >= 1
    ensures forall k :: 0 <= k < |parts| ==> c !in parts[k]
    decreases |s|
  {
    var i := IndexOf(s, c);
    if i < 0 then [s]
    else
      var rest := Split(s[i + 1..], c);
      assert forall k :: 1 <= k <= |rest| ==> ([s[..i]] + rest)[k] == rest[k - 1];
      [s[..i]] + rest
  }

  lemma SplitAfter(a: string, b: string, c: char)
    requires c !in a
    ensures Split(a + [c] + b, c) == [a] + Split(b, c)
  {
    CutAt(a, b, c);
  }

  /** Splitting a joined list recovers it when no element holds the separator. */
  lemma {:induction false} SplitJoin(parts: seq<string>, c: char)
    requires |parts| > 0
    requires forall k :: 0 <= k < |parts| ==> c !in parts[k]
    ensures Split(Join(parts, [c]), c) == parts
    decreases |parts|
  {
    if |parts| == 1 {
      assert Split(parts[0], c) == [parts[0]];
    } else {
      SplitAfter(parts[0], Join(parts[1..], [c]), c);
      SplitJoin(parts[1..], c);
      assert parts == [parts[0]] + parts[1..];
    }
  }

  /** Equal surroundings: two strings framed alike are equal exactly when
      they are. */
  lemma CancelFrame(x: string, a: string, b: string, y: string)
    ensures x + a + y == x + b + y <==> a == b
  {
    if x + a + y == x + b + y {
      assert |a| == |b|;
      assert a == (x + a + y)[|x|..|x| + |a|];
      assert b == (x + b + y)[|x|..|x| + |b|];
    }
  }

  /** The concatenation of chunks in arrival order. */
  function Concat(chunks: seq<string>): string
    decreases |chunks|
  {
    if chunks == [] then "" else Concat(chunks[..|chunks| - 1]) + chunks[|chunks| - 1]
  }
}
