/** The string operations the parsers are built from. */
module Strings {

  function LowerChar(c: char): char {
    if 'A' <= c <= 'Z' then (c as int + 32) as char else c
  }

  function Lower(s: string): (lower: string)
    ensures |lower| == |s| && forall i :: 0 <= i < |s| ==> lower[i] == LowerChar(s[i])
  {
    if s == "" then "" else [LowerChar(s[0])] + Lower(s[1..])
  }

  lemma {:induction false} LowerOfItems(s: string)
    requires forall i :: 0 <= i < |s| ==> !('A' <= s[i] <= 'Z')
    ensures Lower(s) == s
  {
    if s != "" {
      LowerOfItems(s[1..]);
    }
  }

  /** Where `c` first occurs in `s`, or the end. */
  function Cut(s: string, c: char): (k: nat)
    ensures k <= |s| && c !in s[..k]
    ensures k < |s| ==> s[k] == c
  {
    if s == "" || s[0] == c then 0
    else
      var k := 1 + Cut(s[1..], c);
      assert s[..k] == [s[0]] + s[1..][..k - 1];
      k
  }

  function Before(s: string, c: char): string {
    s[..Cut(s, c)]
  }

  function After(s: string, c: char): string {
    if Cut(s, c) == |s| then "" else s[Cut(s, c) + 1..]
  }

  function Split(s: string, c: char): (parts: seq<string>)
    ensures |parts| >= 1
    decreases |s|
  {
    if Cut(s, c) == |s| then [s] else [Before(s, c)] + Split(After(s, c), c)
  }

  lemma CutLater(s: string, c: char)
    requires s != "" && s[0] != c
    ensures Cut(s, c) > 0 && Before(s, c) != "" && Before(s, c)[0] == s[0]
  {
  }

  lemma {:induction false} CutAt(a: string, c: char, b: string)
    requires c !in a
    ensures Cut(a + [c] + b, c) == |a| && Cut(a, c) == |a|
    ensures Before(a + [c] + b, c) == a && After(a + [c] + b, c) == b
    ensures Before(a, c) == a && After(a, c) == ""
    decreases |a|
  {
    var s := a + [c] + b;
    if a != "" {
      CutAt(a[1..], c, b);
      assert s[1..] == a[1..] + [c] + b;
      assert s[0] == a[0];
    }
    assert s[..|a|] == a && s[|a| + 1..] == b;
  }

  function Join(parts: seq<string>, c: char): string
    requires parts != []
  {
    if |parts| == 1 then parts[0] else parts[0] + [c] + Join(parts[1..], c)
  }

  lemma SplitFirst(a: string, c: char, b: string)
    requires c !in a
    ensures Split(a, c) == [a] && Split(a + [c] + b, c) == [a] + Split(b, c)
  {
    hide Cut, Before, After;
    CutAt(a, c, b);
  }

  /** Splitting undoes joining when no part has the separator in it. */
  lemma {:induction false} SplitJoin(parts: seq<string>, c: char)
    requires parts != [] && forall part :: part in parts ==> c !in part
    ensures Split(Join(parts, c), c) == parts
  {
    hide Split;
    assert parts[0] in parts;
    if |parts| == 1 {
      SplitFirst(parts[0], c, "");
    } else {
      SplitFirst(parts[0], c, Join(parts[1..], c));
      SplitJoin(parts[1..], c);
    }
  }

  lemma CutInThree(s: string, c: char)
    requires Cut(s, c) < |s|
    ensures s == Before(s, c) + [c] + After(s, c)
  {
  }

  lemma JoinFirst(a: string, c: char, rest: seq<string>)
    requires rest != []
    ensures Join([a] + rest, c) == a + [c] + Join(rest, c)
  {
    assert ([a] + rest)[1..] == rest;
  }

  /** And joining undoes splitting. */
  lemma {:induction false} JoinSplit(s: string, c: char)
    ensures Join(Split(s, c), c) == s
    decreases |s|
  {
    if Cut(s, c) < |s| {
      JoinSplit(After(s, c), c);
      CutInThree(s, c);
      hide Cut, Before, After, Join;
      JoinFirst(Before(s, c), c, Split(After(s, c), c));
    }
  }

  // Decimal numbers.

  predicate Digits(s: string) {
    forall i :: 0 <= i < |s| ==> '0' <= s[i] <= '9'
  }

  function Decimal(s: string): (n: nat)
    requires Digits(s)
  {
    if s == "" then 0 else Decimal(s[..|s| - 1]) * 10 + (s[|s| - 1] as int - '0' as int)
  }

  function DigitOf(d: nat): char
    requires d < 10
  {
    (d + '0' as int) as char
  }

  function DecimalText(n: nat): (text: string)
    ensures text != "" && Digits(text)
  {
    if n < 10 then [DigitOf(n)] else DecimalText(n / 10) + [DigitOf(n % 10)]
  }

  lemma {:induction false} DecimalOfText(n: nat)
    ensures Decimal(DecimalText(n)) == n
  {
    var text := DecimalText(n);
    if n < 10 {
      assert text[..|text| - 1] == "";
    } else {
      DecimalOfText(n / 10);
      assert text[..|text| - 1] == DecimalText(n / 10);
    }
  }
}
