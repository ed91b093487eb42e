/**
 This module collects the string helpers the handlers take from Go's `strings`
 and `fmt` packages: ASCII case folding (`strings.ToLower`, `strings.EqualFold`),
 splitting at a separator (`strings.Split`), decimal rendering of counts
 (`fmt.Sprint` of an int) and `%q` quoting.

 A Go string is a sequence of bytes; here every `char` stands for one byte.
 */
module Text {

  /** The ASCII lower-case of one character; every other character is kept. */
  function Lower(c: char): char
  {
    if 'A' <= c <= 'Z' then (c as int + 32) as char else c
  }

  /** `strings.ToLower`, restricted to ASCII letters. */
  function ToLower(s: string): (r: string)
    ensures |r| == |s|
    ensures forall i :: 0 <= i < |s| ==> r[i] == Lower(s[i])
  {
    seq(|s|, i requires 0 <= i < |s| => Lower(s[i]))
  }

  /** `strings.EqualFold`: equal up to (ASCII) case. */
  predicate FoldEq(a: string, b: string)
    ensures FoldEq(a, b) ==> |a| == |b|
    ensures a == b ==> FoldEq(a, b)
  {
    ToLower(a) == ToLower(b)
  }

  /** Equal up to case means: the same length, and equal character by character
      up to case. */
  lemma FoldEqCharwise(a: string, b: string)
    ensures FoldEq(a, b) <==> |a| == |b| && forall i :: 0 <= i < |a| ==> Lower(a[i]) == Lower(b[i])
  {
    if |a| == |b| && forall i :: 0 <= i < |a| ==> Lower(a[i]) == Lower(b[i]) {
      assert ToLower(a) == ToLower(b);
    }
  }

  /** The position of the first `sep` in `s`, or `|s|` when there is none. */
  function IndexOf(s: string, sep: char): (i: nat)
    ensures i <= |s|
    ensures i < |s| <==> sep in s
    ensures i < |s| ==> s[i] == sep
    ensures sep !in s[..i]
  {
    if s == [] then 0
    else if s[0] == sep then 0
    else
      assert s[1..][..IndexOf(s[1..], sep)] == s[1..1 + IndexOf(s[1..], sep)];
      1 + IndexOf(s[1..], sep)
  }

  /** No piece holds the separator. */
  predicate NoPieceHolds(parts: seq<string>, sep: char)
  {
    forall k :: 0 <= k < |parts| ==> sep !in parts[k]
  }

  /** `strings.Split(s, sep)` for a one-character separator. */
  function Split(s: string, sep: char): (parts: seq<string>)
    ensures |parts| >= 1
    ensures NoPieceHolds(parts, sep)
    ensures sep in s <==> |parts| >= 2
    ensures parts[0] == s[..IndexOf(s, sep)]
    decreases |s|
  {
    var i := IndexOf(s, sep);
    if i == |s| then
      assert s[..i] == s;
      [s]
    else
      [s[..i]] + Split(s[i + 1..], sep)
  }

  /** `strings.Join(parts, sep)`, the inverse of `Split`. */
  function Join(parts: seq<string>, sep: char): string
    requires |parts| >= 1
  {
    if |parts| == 1 then parts[0] else parts[0] + [sep] + Join(parts[1..], sep)
  }

  /** Splitting and joining again gives back the original string. */
  lemma {:induction false} JoinSplit(s: string, sep: char)
    ensures Join(Split(s, sep), sep) == s
    decreases |s|
  {
    var i := IndexOf(s, sep);
    if i == |s| {
      assert s[..i] == s;
    } else {
      var rest := s[i + 1..];
      SplitUnfold(s, sep);
      JoinSplit(rest, sep);
      JoinCons(s[..i], Split(rest, sep), sep);
      CutAt(s, i);
    }
  }

  /** A string is the text before position `i`, the character there, and the rest. */
  lemma CutAt(s: string, i: nat)
    requires i < |s|
    ensures s == s[..i] + [s[i]] + s[i + 1..]
  {
  }

  /** `Split` at a string holding `sep`: the text before it, then the pieces of the rest. */
  lemma SplitUnfold(s: string, sep: char)
    requires sep in s
    ensures var i := IndexOf(s, sep);
      Split(s, sep) == [s[..i]] + Split(s[i + 1..], sep)
  {
  }

  /** `Join` of a first piece followed by further pieces. */
  lemma JoinCons(head: string, tail: seq<string>, sep: char)
    requires |tail| >= 1
    ensures Join([head] + tail, sep) == head + [sep] + Join(tail, sep)
  {
    assert ([head] + tail)[1..] == tail;
  }

  /** When `s` holds `sep`, the first two pieces of `Split` are the text before the
      first `sep` and the text between the first and the second one. */
  lemma {:induction false} SplitFirstTwo(s: string, sep: char)
    requires sep in s
    ensures var parts := Split(s, sep);
      var i := IndexOf(s, sep);
      var rest := s[i + 1..];
      && parts[0] == s[..i]
      && sep !in parts[0]
      && s == parts[0] + [sep] + rest
      && parts[1] == rest[..IndexOf(rest, sep)]
      && sep !in parts[1]
      && rest[..|parts[1]|] == parts[1]
  {
  }

  predicate IsDigit(c: char)
  {
    '0' <= c <= '9'
  }

  predicate IsDigits(s: string)
  {
    forall i :: 0 <= i < |s| ==> IsDigit(s[i])
  }

  function Digit(d: nat): (c: char)
    requires d < 10
    ensures IsDigit(c)
  {
    ('0' as int + d) as char
  }

  /** `fmt.Sprint` of a non-negative int: its decimal digits, without leading zeros. */
  function NatToString(n: nat): (r: string)
    ensures |r| >= 1
    ensures IsDigits(r)
    ensures r[0] != '0' || n == 0
  {
    if n < 10 then [Digit(n)] else NatToString(n / 10) + [Digit(n % 10)]
  }

  /** The value of a string of decimal digits. */
  function ParseNat(s: string): nat
    requires IsDigits(s)
  {
    if s == [] then 0
    else ParseNat(s[..|s| - 1]) * 10 + (s[|s| - 1] as int - '0' as int)
  }

  /** A rendered count reads back as the same count. */
  lemma {:induction false} ParseNatToString(n: nat)
    ensures ParseNat(NatToString(n)) == n
  {
    if n >= 10 {
      var s := NatToString(n);
      assert s[..|s| - 1] == NatToString(n / 10);
      ParseNatToString(n / 10);
    }
  }

  /** Go's `%q` verb, without its escaping of special characters. */
  function Quote(s: string): (r: string)
    ensures |r| == |s| + 2
    ensures r[1..|r| - 1] == s
  {
    "\"" + s + "\""
  }
}
