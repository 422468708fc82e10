/** String helpers the analyses and the report builders rely on: Python's
    `str.isalnum` and `str.endswith` on one character, the decimal rendering that
    an f-string gives a non-negative int, and the bulleted lines of a report. */
module Text {

  predicate IsAlnumChar(c: char)
  {
    ('a' <= c <= 'z') || ('A' <= c <= 'Z') || ('0' <= c <= '9')
  }

  /** `s.isalnum()`: true exactly when `s` is non-empty and every character is a
      letter or a digit (ASCII letters and digits here). */
  predicate IsAlnum(s: string)
  {
    |s| > 0 && forall i :: 0 <= i < |s| ==> IsAlnumChar(s[i])
  }

  /** `s.endswith(c)` for a one-character suffix. */
  predicate EndsWith(s: string, c: char)
  {
    |s| > 0 && s[|s| - 1] == c
  }

  predicate IsDigit(c: char)
  {
    '0' <= c <= '9'
  }

  function DigitChar(d: nat): (c: char)
    requires d < 10
    ensures IsDigit(c) && (c as int) - ('0' as int) == d
  {
    (('0' as int) + d) as char
  }

  function DigitValue(c: char): (d: nat)
    requires IsDigit(c)
    ensures d < 10 && DigitChar(d) == c
  {
    (c as int) - ('0' as int)
  }

  /** `f"{n}"` for `n >= 0`: the shortest decimal numeral of `n`. */
  function NatToString(n: nat): (s: string)
    ensures |s| >= 1
    ensures forall i :: 0 <= i < |s| ==> IsDigit(s[i])
    ensures s[0] == '0' ==> n == 0 && s == "0"
    decreases n
  {
    if n < 10 then [DigitChar(n)] else NatToString(n / 10) + [DigitChar(n % 10)]
  }

  /** Reading a decimal numeral back: the partner of `NatToString`. */
  function ParseDecimal(s: string): nat
    requires forall i :: 0 <= i < |s| ==> IsDigit(s[i])
    decreases |s|
  {
    if s == [] then 0
    else 10 * ParseDecimal(s[..|s| - 1]) + DigitValue(s[|s| - 1])
  }

  lemma {:induction false} ParseNatToString(n: nat)
    ensures ParseDecimal(NatToString(n)) == n
    decreases n
  {
    var s := NatToString(n);
    if n >= 10 {
      ParseNatToString(n / 10);
      assert s[..|s| - 1] == NatToString(n / 10);
    }
  }

  /** One line per item: `prefix + item + "\n"` for each item, in order. */
  function Lines(prefix: string, items: seq<string>): string
    decreases items
  {
    if items == [] then "" else prefix + items[0] + "\n" + Lines(prefix, items[1..])
  }

  lemma {:induction false} LinesSnoc(prefix: string, items: seq<string>, x: string)
    ensures Lines(prefix, items + [x]) == Lines(prefix, items) + prefix + x + "\n"
    decreases items
  {
    if items == [] {
      assert items + [x] == [x];
      assert [x][1..] == [];
    } else {
      assert (items + [x])[0] == items[0] && (items + [x])[1..] == items[1..] + [x];
      LinesSnoc(prefix, items[1..], x);
    }
  }

  /** Each item's line stands, whole, between the lines of the items before and after it. */
  lemma {:induction false} LinesSplit(prefix: string, items: seq<string>, k: nat)
    requires k < |items|
    ensures Lines(prefix, items) ==
            Lines(prefix, items[..k]) + prefix + items[k] + "\n" + Lines(prefix, items[k + 1..])
    decreases k
  {
    if k == 0 {
      assert items[..0] == [];
    } else {
      LinesSplit(prefix, items[1..], k - 1);
      assert items[1..][..k - 1] == items[1..k];
      assert items[1..][k..] == items[k + 1..];
      assert items[..k][0] == items[0] && items[..k][1..] == items[1..k];
    }
  }

  /** Number of occurrences of `c` in `s`. */
  function CountChar(s: string, c: char): nat
    decreases s
  {
    if s == [] then 0 else (if s[0] == c then 1 else 0) + CountChar(s[1..], c)
  }

  lemma {:induction false} CountCharAppend(a: string, b: string, c: char)
    ensures CountChar(a + b, c) == CountChar(a, c) + CountChar(b, c)
    decreases a
  {
    if a == [] {
      assert a + b == b;
    } else {
      assert (a + b)[0] == a[0] && (a + b)[1..] == a[1..] + b;
      CountCharAppend(a[1..], b, c);
    }
  }

  lemma {:induction false} CountCharAbsent(s: string, c: char)
    requires c !in s
    ensures CountChar(s, c) == 0
    decreases s
  {
    if s != [] {
      assert c !in s[1..];
      CountCharAbsent(s[1..], c);
    }
  }

  /** When neither the prefix nor any item holds a line break, the block has exactly
      one line per item. */
  lemma {:induction false} LinesLineCount(prefix: string, items: seq<string>)
    requires '\n' !in prefix
    requires forall k :: 0 <= k < |items| ==> '\n' !in items[k]
    ensures CountChar(Lines(prefix, items), '\n') == |items|
    decreases items
  {
    if items != [] {
      LinesLineCount(prefix, items[1..]);
      CountCharAbsent(prefix, '\n');
      CountCharAbsent(items[0], '\n');
      CountCharAppend(prefix, items[0], '\n');
      CountCharAppend(prefix + items[0], "\n", '\n');
      CountCharAppend(prefix + items[0] + "\n", Lines(prefix, items[1..]), '\n');
    }
  }
}
