/**
 * The few operations of java.lang.String that the modelled code relies on:
 * indexOf, lastIndexOf, contains, split on a one-character separator, and
 * String.valueOf(int).
 */
module Text {

  /** `t` occurs in `s` starting at index `k`. */
  predicate OccursAt(s: string, t: string, k: int) {
    0 <= k && k + |t| <= |s| && s[k..k + |t|] == t
  }

  lemma OccursSingle(s: string, c: char, k: int)
    ensures OccursAt(s, [c], k) <==> 0 <= k < |s| && s[k] == c
  {
    if 0 <= k < |s| {
      assert s[k..k + 1] == [s[k]];
    }
  }

  /** The first index at or after `n` where `t` occurs in `s`, or -1. */
  function IndexFrom(s: string, t: string, n: nat): (i: int)
    ensures i == -1 || (n <= i && OccursAt(s, t, i))
    ensures forall k :: n <= k && (i < 0 || k < i) ==> !OccursAt(s, t, k)
    decreases |s| + 1 - n
  {
    if n > |s| then -1
    else if OccursAt(s, t, n) then n
    else IndexFrom(s, t, n + 1)
  }

  /** Java's `s.indexOf(t)`: the first index where `t` occurs in `s`, or -1. */
  function IndexOf(s: string, t: string): (i: int)
    ensures i == -1 || (0 <= i && OccursAt(s, t, i))
    ensures forall k :: 0 <= k && (i < 0 || k < i) ==> !OccursAt(s, t, k)
  {
    IndexFrom(s, t, 0)
  }

  /** The last index below `n` where `t` occurs in `s`, or -1. */
  function LastIndexBelow(s: string, t: string, n: nat): (i: int)
    ensures -1 <= i < n
    ensures i >= 0 ==> OccursAt(s, t, i)
    ensures forall k :: i < k < n ==> !OccursAt(s, t, k)
  {
    if n == 0 then -1
    else if OccursAt(s, t, n - 1) then n - 1
    else LastIndexBelow(s, t, n - 1)
  }

  /** Java's `s.lastIndexOf(t)`: the last index where `t` occurs in `s`, or -1. */
  function LastIndexOf(s: string, t: string): (i: int)
    ensures -1 <= i <= |s|
    ensures i >= 0 ==> OccursAt(s, t, i)
    ensures forall k :: i < k ==> !OccursAt(s, t, k)
  {
    LastIndexBelow(s, t, |s| + 1)
  }

  /** Java's `s.contains(t)`. */
  predicate Contains(s: string, t: string) {
    IndexOf(s, t) >= 0
  }

  lemma ContainsSingle(s: string, c: char)
    ensures Contains(s, [c]) <==> c in s
  {
    if c in s {
      var k :| 0 <= k < |s| && s[k] == c;
      OccursSingle(s, c, k);
    }
    if Contains(s, [c]) {
      OccursSingle(s, c, IndexOf(s, [c]));
    }
  }

  /** The first index of character `c` in `s`, which must hold it. */
  function FirstIndex(s: string, c: char): (i: nat)
    requires c in s
    ensures i < |s| && s[i] == c && c !in s[..i]
  {
    if s[0] == c then 0 else 1 + FirstIndex(s[1..], c)
  }

  /** The first index of `c` is the one before which `c` does not occur. */
  lemma FirstIndexAt(s: string, c: char, k: nat)
    requires k < |s| && s[k] == c && c !in s[..k]
    ensures FirstIndex(s, c) == k
  {
  }

  /** Every piece of `s` between separators `sep`, empty pieces included. */
  function SplitAll(s: string, sep: char): (parts: seq<string>)
    ensures |parts| >= 1
    ensures forall p <- parts :: sep !in p
    decreases |s|
  {
    if sep !in s then [s]
    else
      var i := FirstIndex(s, sep);
      [s[..i]] + SplitAll(s[i + 1..], sep)
  }

  /** The pieces glued back together with `sep` between them. */
  function Join(parts: seq<string>, sep: char): string
    requires |parts| >= 1
  {
    if |parts| == 1 then parts[0] else parts[0] + [sep] + Join(parts[1..], sep)
  }

  /** Splitting and joining again gives back the original text. */
  lemma {:induction false} JoinSplitAll(s: string, sep: char)
    ensures Join(SplitAll(s, sep), sep) == s
    decreases |s|
  {
    if sep in s {
      var i := FirstIndex(s, sep);
      var rest := s[i + 1..];
      var tail := SplitAll(rest, sep);
      assert SplitAll(s, sep) == [s[..i]] + tail;
      JoinCons(s[..i], tail, sep);
      JoinSplitAll(rest, sep);
      assert s[..i] + [sep] + rest == s;
    }
  }

  /** Joining a first piece in front of the others puts one separator after it. */
  lemma JoinCons(head: string, tail: seq<string>, sep: char)
    requires |tail| >= 1
    ensures Join([head] + tail, sep) == head + [sep] + Join(tail, sep)
  {
    assert ([head] + tail)[1..] == tail;
  }

  /** Joining pieces that hold no separator and splitting again gives back the pieces. */
  lemma {:induction false} SplitAllJoin(parts: seq<string>, sep: char)
    requires |parts| >= 1
    requires forall p <- parts :: sep !in p
    ensures SplitAll(Join(parts, sep), sep) == parts
  {
    if |parts| > 1 {
      var s := Join(parts, sep);
      var rest := Join(parts[1..], sep);
      assert s == parts[0] + [sep] + rest;
      assert s[|parts[0]|] == sep;
      assert s[..|parts[0]|] == parts[0];
      FirstIndexAt(s, sep, |parts[0]|);
      var i := FirstIndex(s, sep);
      assert s[..i] == parts[0];
      assert s[i + 1..] == rest;
      SplitAllJoin(parts[1..], sep);
    }
  }

  /** The list with its trailing empty strings removed. */
  function DropTrailingEmpty(ps: seq<string>): (r: seq<string>)
    ensures |r| <= |ps| && r == ps[..|r|]
    ensures forall j :: |r| <= j < |ps| ==> ps[j] == ""
    ensures r != [] ==> r[|r| - 1] != ""
  {
    if ps == [] || ps[|ps| - 1] != "" then ps
    else DropTrailingEmpty(ps[..|ps| - 1])
  }

  /**
   * Java's `s.split(String.valueOf(sep))` for a separator that is not a
   * regular-expression metacharacter: without a match the whole text is the
   * only piece; otherwise every piece, minus trailing empty ones.
   */
  function Split(s: string, sep: char): (parts: seq<string>)
    ensures forall p <- parts :: sep !in p
  {
    if sep !in s then [s] else DropTrailingEmpty(SplitAll(s, sep))
  }

  /** Split keeps every piece up to the last non-empty one, in order. */
  lemma SplitPieces(s: string, sep: char)
    ensures var all := SplitAll(s, sep);
      && Split(s, sep) == all[..|Split(s, sep)|]
      && (forall j :: |Split(s, sep)| <= j < |all| ==> all[j] == "")
      && (s != "" ==> Split(s, sep) != [] ==> Split(s, sep)[|Split(s, sep)| - 1] != "")
  {
  }

  /** The decimal digits of `n`, most significant first. */
  function NatDigits(n: nat): (r: string)
    ensures |r| >= 1
    ensures forall c <- r :: '0' <= c <= '9'
    ensures forall i :: 0 <= i < |r| ==> '0' <= r[i] <= '9'
    decreases n
  {
    if n < 10 then ["0123456789"[n]] else NatDigits(n / 10) + ["0123456789"[n % 10]]
  }

  /** Java's `String.valueOf(int)`: optional minus sign, then decimal digits. */
  function DecimalString(n: int): (r: string)
    ensures forall c <- r :: c == '-' || '0' <= c <= '9'
    ensures |r| >= 1
    // a leading minus sign exactly for a negative number, and digits after it
    ensures r[0] == '-' <==> n < 0
    ensures forall i :: (if n < 0 then 1 else 0) <= i < |r| ==> '0' <= r[i] <= '9'
    ensures n < 0 ==> |r| >= 2
  {
    if n < 0 then "-" + NatDigits(-n) else NatDigits(n)
  }

  /** The value of a decimal digit. */
  function DigitValue(c: char): nat
    requires '0' <= c <= '9'
  {
    (c as int) - ('0' as int)
  }

  /** The number a string of decimal digits stands for, most significant first. */
  function ParseDigits(s: string): nat
    requires forall i :: 0 <= i < |s| ==> '0' <= s[i] <= '9'
    decreases |s|
  {
    if s == [] then 0 else ParseDigits(s[..|s| - 1]) * 10 + DigitValue(s[|s| - 1])
  }

  /** `Integer.parseInt` on what `String.valueOf(int)` produces: optional minus sign, then digits. */
  function ParseDecimal(s: string): int
    requires |s| >= 1
    requires s[0] == '-' ==> |s| >= 2
    requires forall i :: (if s[0] == '-' then 1 else 0) <= i < |s| ==> '0' <= s[i] <= '9'
  {
    if s[0] == '-' then
      -(ParseDigits(s[1..]) as int)
    else
      ParseDigits(s)
  }

  /** The digits of `n` read back give `n`. */
  lemma {:induction false} ParseNatDigits(n: nat)
    ensures ParseDigits(NatDigits(n)) == n
    decreases n
  {
    if n >= 10 {
      var r := NatDigits(n);
      assert r[..|r| - 1] == NatDigits(n / 10);
      ParseNatDigits(n / 10);
    }
  }

  /** `String.valueOf(n)` parses back to `n`: the text is the decimal numeral of `n`. */
  lemma {:induction false} DecimalRoundTrip(n: int)
    ensures ParseDecimal(DecimalString(n)) == n
  {
    if n < 0 {
      NegativeRoundTrip(-n);
    } else {
      ParseNatDigits(n);
    }
  }

  /** A minus sign in front of the digits of `m` parses back to `-m`. */
  lemma {:induction false} NegativeRoundTrip(m: nat)
    requires m > 0
    ensures ParseDecimal(DecimalString(-(m as int))) == -(m as int)
  {
    var digits := NatDigits(m);
    var r := "-" + digits;
    assert DecimalString(-(m as int)) == r;
    assert r[1..] == digits;
    ParseNatDigits(m);
  }
}
