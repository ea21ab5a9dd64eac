/** The few text operations the sources rely on, with the facts proved about them. */
module Strings {
  // --------------------------------------------------------------- splitting

  /** `str::split(c)`: never empty, and one longer than the number of separators. */
  function Split(s: string, c: char): (parts: seq<string>)
    ensures |parts| >= 1
  {
    if s == "" then [""]
    else
      var rest := Split(s[1..], c);
      if s[0] == c then [""] + rest else [[s[0]] + rest[0]] + rest[1..]
  }

  predicate Free(s: string, c: char) { c !in s }

  function Joined(parts: seq<string>, c: char): string {
    if |parts| == 0 then ""
    else if |parts| == 1 then parts[0]
    else parts[0] + [c] + Joined(parts[1..], c)
  }

  /** Joining the parts of a split gives the text back. */
  lemma {:induction false} SplitJoins(s: string, c: char)
    ensures Joined(Split(s, c), c) == s
  {
    if s != "" {
      SplitJoins(s[1..], c);
      var rest := Split(s[1..], c);
      if s[0] == c {
        assert ([""] + rest)[1..] == rest;
      } else {
        assert ([[s[0]] + rest[0]] + rest[1..])[1..] == rest[1..];
        assert Joined(Split(s, c), c) == [s[0]] + Joined(rest, c);
      }
      assert s == [s[0]] + s[1..];
    }
  }

  /** Every part is free of the separator. */
  lemma {:induction false} SplitPartsFree(s: string, c: char)
    ensures forall i: nat | i < |Split(s, c)| :: Free(Split(s, c)[i], c)
  {
    if s != "" {
      SplitPartsFree(s[1..], c);
      var rest := Split(s[1..], c);
      forall i: nat | i < |Split(s, c)| ensures Free(Split(s, c)[i], c) {
        if i == 0 {
          assert Free(rest[0], c);
        } else {
          assert Split(s, c)[i] == if s[0] == c then rest[i - 1] else rest[i];
        }
      }
    }
  }

  /** A text with one more separator at its front splits into the prefix and the rest. */
  lemma {:induction false} SplitAtSeparator(a: string, b: string, c: char)
    requires Free(a, c)
    ensures Split(a + [c] + b, c) == [a] + Split(b, c)
  {
    if a == "" {
      assert a + [c] + b == [c] + b;
    } else {
      assert (a + [c] + b)[1..] == a[1..] + [c] + b;
      SplitAtSeparator(a[1..], b, c);
      assert [a[0]] + a[1..] == a && a[0] != c;
    }
  }

  lemma {:induction false} SplitOfFree(a: string, c: char)
    requires Free(a, c)
    ensures Split(a, c) == [a]
  {
    if a != "" {
      SplitOfFree(a[1..], c);
      assert [a[0]] + a[1..] == a && a[0] != c;
    }
  }

  // ------------------------------------------------------------ replacement

  /** `str::replace(c, r)` for a single character pattern. */
  function ReplaceChar(s: string, c: char, r: string): string {
    if s == "" then "" else (if s[0] == c then r else [s[0]]) + ReplaceChar(s[1..], c, r)
  }

  lemma {:induction false} ReplaceCharConcat(a: string, b: string, c: char, r: string)
    ensures ReplaceChar(a + b, c, r) == ReplaceChar(a, c, r) + ReplaceChar(b, c, r)
  {
    if a == "" {
      assert a + b == b;
    } else {
      assert (a + b)[1..] == a[1..] + b;
      ReplaceCharConcat(a[1..], b, c, r);
    }
  }

  /** `str::replace([x, y], r)` for two characters and a two-character pattern `xy`. */
  function ReplacePair(s: string, x: char, y: char, r: string): string {
    if s == "" then ""
    else if |s| >= 2 && s[0] == x && s[1] == y then r + ReplacePair(s[2..], x, y, r)
    else [s[0]] + ReplacePair(s[1..], x, y, r)
  }

  function Filter(s: string, keep: char -> bool): (t: string)
    ensures forall ch <- t :: keep(ch)
  {
    if s == "" then "" else (if keep(s[0]) then [s[0]] else "") + Filter(s[1..], keep)
  }

  // ---------------------------------------------------------------- trimming

  function TrimEnd(s: string, c: char): (t: string)
    ensures t <= s
    ensures t == "" || t[|t| - 1] != c
    ensures forall i | |t| <= i < |s| :: s[i] == c
  {
    if s != "" && s[|s| - 1] == c then TrimEnd(s[..|s| - 1], c) else s
  }

  /** The Unicode `White_Space` property, which `str::trim` removes from both ends. */
  predicate IsWhitespace(c: char) {
    || ('\U{0009}' <= c <= '\U{000D}')
    || c in {' ', '\U{0085}', '\U{00A0}', '\U{1680}', '\U{2028}', '\U{2029}', '\U{202F}', '\U{205F}', '\U{3000}'}
    || ('\U{2000}' <= c <= '\U{200A}')
  }

  function Trim(s: string): string
    decreases |s|
  {
    if s == "" then ""
    else if IsWhitespace(s[0]) then Trim(s[1..])
    else if IsWhitespace(s[|s| - 1]) then Trim(s[..|s| - 1])
    else s
  }

  /** A name with something in it and no blank at either end. */
  predicate Trimmed(s: string) { s != "" && !IsWhitespace(s[0]) && !IsWhitespace(s[|s| - 1]) }

  /** Trimming keeps exactly such names and the empty one as they are. */
  lemma {:induction false} TrimKeepsExactly(s: string)
    ensures |Trim(s)| <= |s|
    ensures Trim(s) == s <==> s == "" || Trimmed(s)
    decreases |s|
  {
    if s != "" {
      TrimKeepsExactly(s[1..]);
      TrimKeepsExactly(s[..|s| - 1]);
    }
  }

  predicate Blank(s: string) { forall c <- s :: IsWhitespace(c) }

  /** Trimming takes blanks off both ends, and all of them. */
  lemma {:induction false} TrimTakesBlanks(s: string) returns (left: string, right: string)
    ensures s == left + Trim(s) + right && Blank(left) && Blank(right)
    ensures Trim(s) == "" || Trimmed(Trim(s))
    decreases |s|
  {
    left, right := "", "";
    if s != "" && IsWhitespace(s[0]) {
      left, right := TrimTakesBlanks(s[1..]);
      left := [s[0]] + left;
    } else if s != "" && IsWhitespace(s[|s| - 1]) {
      left, right := TrimTakesBlanks(s[..|s| - 1]);
      right := right + [s[|s| - 1]];
    }
  }

  lemma {:induction false} TrimOfBlank(s: string)
    requires Blank(s)
    ensures Trim(s) == ""
    decreases |s|
  {
    if s != "" {
      TrimOfBlank(s[1..]);
    }
  }

  predicate EndsWith(s: string, suffix: string) {
    |suffix| <= |s| && s[|s| - |suffix|..] == suffix
  }

  // ------------------------------------------------------------- utf8 length

  function Utf8Width(c: char): nat {
    if c < '\U{0080}' then 1 else if c < '\U{0800}' then 2 else if c < '\U{10000}' then 3 else 4
  }

  /** `str::len`: the number of UTF-8 bytes. */
  function Utf8Length(s: string): nat {
    if s == "" then 0 else Utf8Width(s[0]) + Utf8Length(s[1..])
  }

  /** Every character takes one to four bytes, and one exactly in ASCII. */
  lemma {:induction false} Utf8LengthBounds(s: string)
    ensures |s| <= Utf8Length(s) <= 4 * |s|
    ensures Utf8Length(s) == |s| <==> forall i | 0 <= i < |s| :: s[i] as int < 128
  {
    if s != "" {
      Utf8LengthBounds(s[1..]);
      assert forall i | 1 <= i < |s| :: s[i] == s[1..][i - 1];
    }
  }

  predicate IsControl(c: char) { c < ' ' || '\U{007F}' <= c <= '\U{009F}' }

  // ---------------------------------------------------------------- decimals

  predicate IsDigit(c: char) { '0' <= c <= '9' }

  function Digit(d: nat): char
    requires d < 10
  {
    ('0' as int + d) as char
  }

  /** `format!("{n}")` for an unsigned number. */
  function Decimal(n: nat): (s: string)
    ensures s != "" && (forall c <- s :: IsDigit(c))
    ensures s[0] == '0' ==> n == 0 && |s| == 1
  {
    if n < 10 then [Digit(n)] else Decimal(n / 10) + [Digit(n % 10)]
  }

  function DecimalValue(s: string): nat
    requires forall c <- s :: IsDigit(c)
  {
    if s == "" then 0
    else
      assert IsDigit(s[|s| - 1]);
      10 * DecimalValue(s[..|s| - 1]) + (s[|s| - 1] as int - '0' as int)
  }

  lemma {:induction false} DecimalValueOfDecimal(n: nat)
    ensures DecimalValue(Decimal(n)) == n
  {
    if n >= 10 {
      DecimalValueOfDecimal(n / 10);
      var s := Decimal(n);
      assert s[..|s| - 1] == Decimal(n / 10);
    }
  }

  /** Digits without a leading zero are the decimal of their value. */
  lemma {:induction false} DecimalOfValue(s: string)
    requires s != "" && (forall c <- s :: IsDigit(c)) && (s[0] == '0' ==> |s| == 1)
    ensures Decimal(DecimalValue(s)) == s
  {
    var front, d := s[..|s| - 1], s[|s| - 1] as int - '0' as int;
    assert IsDigit(s[|s| - 1]);
    assert s == front + [Digit(d)];
    if |s| > 1 {
      DecimalOfValue(front);
      var v := DecimalValue(front);
      assert v != 0;
      assert (10 * v + d) / 10 == v && (10 * v + d) % 10 == d;
    } else {
      assert DecimalValue(front) == 0;
    }
  }

  lemma DecimalInjective(a: nat, b: nat)
    requires Decimal(a) == Decimal(b)
    ensures a == b
  {
    DecimalValueOfDecimal(a);
    DecimalValueOfDecimal(b);
  }
}
