/** The JavaScript string operations the pages rely on, restricted to ASCII:
    `trim`, `toLowerCase`, `split` on one character, `join`, `includes`,
    number-to-text conversion and `parseInt` on decimal digits. */
module Text {

  /** The ASCII characters `String.prototype.trim` removes: tab, line feed,
      vertical tab, form feed, carriage return and space. */
  predicate IsSpace(c: char) {
    c == ' ' || '\t' <= c <= '\r'
  }

  predicate IsUpper(c: char) { 'A' <= c <= 'Z' }

  predicate IsLower(c: char) { 'a' <= c <= 'z' }

  predicate IsDigit(c: char) { '0' <= c <= '9' }

  predicate AllSpace(s: string) {
    forall i :: 0 <= i < |s| ==> IsSpace(s[i])
  }

  /** No whitespace at either end. */
  predicate IsTrimmed(s: string) {
    s == [] || (!IsSpace(s[0]) && !IsSpace(s[|s| - 1]))
  }

  // ---------------------------------------------------------------- trim

  /** The number of whitespace characters `s` starts with. */
  function LeadingBlanks(s: string): (n: nat)
    ensures n <= |s|
    ensures forall i :: 0 <= i < n ==> IsSpace(s[i])
    ensures n == |s| || !IsSpace(s[n])
  {
    if s != [] && IsSpace(s[0]) then 1 + LeadingBlanks(s[1..]) else 0
  }

  /** The number of whitespace characters `s` ends with. */
  function TrailingBlanks(s: string): (n: nat)
    ensures n <= |s|
    ensures forall i :: |s| - n <= i < |s| ==> IsSpace(s[i])
    ensures n == |s| || !IsSpace(s[|s| - n - 1])
  {
    if s != [] && IsSpace(s[|s| - 1]) then 1 + TrailingBlanks(s[..|s| - 1]) else 0
  }

  function TrimStart(s: string): string {
    s[LeadingBlanks(s)..]
  }

  function TrimEnd(s: string): string {
    s[..|s| - TrailingBlanks(s)]
  }

  /** `s.trim()`: `s` without its leading and trailing whitespace. */
  function Trim(s: string): (r: string)
    ensures IsTrimmed(r)
  {
    TrimEnd(TrimStart(s))
  }

  /** What `trim` keeps is the slice of `s` between its leading and its
      trailing whitespace. */
  lemma TrimIsSlice(s: string) returns (a: nat, b: nat)
    ensures a <= b <= |s| && Trim(s) == s[a..b]
    ensures AllSpace(s[..a]) && AllSpace(s[b..])
  {
    var t := TrimStart(s);
    a := LeadingBlanks(s);
    b := |s| - TrailingBlanks(t);
    assert forall i :: b <= i < |s| ==> s[i] == t[i - a];
  }

  /** Trimming adds no character that was not there. */
  lemma TrimKeepsOut(s: string, c: char)
    requires c !in s
    ensures c !in Trim(s)
  {
    var t := TrimStart(s);
    assert c !in t;
  }

  lemma TrimOfTrimmed(s: string)
    requires IsTrimmed(s)
    ensures Trim(s) == s
  {
  }

  /** A string trims to nothing exactly when it is all whitespace. */
  lemma TrimEmptyIff(s: string)
    ensures Trim(s) == [] <==> AllSpace(s)
  {
    var n := LeadingBlanks(s);
    var t := TrimStart(s);
    if Trim(s) == [] {
      assert TrailingBlanks(t) == |t|;
    }
    if AllSpace(s) {
      assert n == |s|;
    }
  }

  /** Trimming ignores one more leading blank. */
  lemma TrimAfterBlank(x: string)
    requires IsTrimmed(x)
    ensures Trim([' '] + x) == x
  {
    var s := [' '] + x;
    assert s[1..] == x;
    assert LeadingBlanks(s) == 1;
    assert TrailingBlanks(x) == 0;
  }

  // ---------------------------------------------------------- lower case

  function LowerChar(c: char): char {
    if IsUpper(c) then (c as int + 32) as char else c
  }

  /** `s.toLowerCase()` on ASCII letters. */
  function ToLower(s: string): (r: string)
    ensures |r| == |s|
    ensures forall i :: 0 <= i < |s| ==> !IsUpper(r[i])
    ensures forall i :: 0 <= i < |s| && IsUpper(s[i]) ==> IsLower(r[i]) && r[i] as int == s[i] as int + 32
    ensures forall i :: 0 <= i < |s| && !IsUpper(s[i]) ==> r[i] == s[i]
  {
    seq(|s|, i requires 0 <= i < |s| => LowerChar(s[i]))
  }

  lemma ToLowerIdempotent(s: string)
    ensures ToLower(ToLower(s)) == ToLower(s)
  {
  }

  /** Lower-casing commutes with taking a slice. */
  lemma ToLowerSlice(s: string, i: nat, j: nat)
    requires i <= j <= |s|
    ensures ToLower(s[i..j]) == ToLower(s)[i..j]
  {
  }

  // ------------------------------------------------------ split and join

  /** `s.split(sep)` for a one-character separator: the pieces between
      separators, always at least one, even for the empty string. */
  function Split(s: string, sep: char): (r: seq<string>)
    ensures |r| >= 1
    ensures forall i :: 0 <= i < |r| ==> sep !in r[i]
  {
    if s == [] then [[]]
    else
      var rest := Split(s[1..], sep);
      if s[0] == sep then [[]] + rest
      else [[s[0]] + rest[0]] + rest[1..]
  }

  /** The first piece of a split is the longest separator-free prefix: it
      is a prefix, and it ends at the end of the string or at a separator. */
  lemma {:induction false} SplitFirstPiece(s: string, sep: char)
    ensures Split(s, sep)[0] <= s
    ensures |Split(s, sep)[0]| < |s| ==> s[|Split(s, sep)[0]|] == sep
    ensures sep !in s ==> Split(s, sep)[0] == s
  {
    if s != [] && s[0] != sep {
      SplitFirstPiece(s[1..], sep);
      assert s == [s[0]] + s[1..];
    }
  }

  /** `parts.join(delim)`. */
  function Join(parts: seq<string>, delim: string): string {
    if |parts| == 0 then []
    else if |parts| == 1 then parts[0]
    else parts[0] + delim + Join(parts[1..], delim)
  }

  /** Joining the pieces of a split with the separator restores the string. */
  lemma {:induction false} JoinSplit(s: string, sep: char)
    ensures Join(Split(s, sep), [sep]) == s
  {
    if s != [] {
      var rest := Split(s[1..], sep);
      JoinSplit(s[1..], sep);
      if s[0] != sep && |rest| > 1 {
        assert Join(rest, [sep]) == rest[0] + [sep] + Join(rest[1..], [sep]);
        assert s == [s[0]] + s[1..];
      }
    }
  }

  lemma {:induction false} SplitWithoutSeparator(a: string, sep: char)
    requires sep !in a
    ensures Split(a, sep) == [a]
  {
    if a != [] {
      assert sep !in a[1..];
      SplitWithoutSeparator(a[1..], sep);
      assert [a[0]] + a[1..] == a;
    }
  }

  lemma {:induction false} SplitAtSeparator(a: string, b: string, sep: char)
    requires sep !in a
    ensures Split(a + [sep] + b, sep) == [a] + Split(b, sep)
  {
    if a == [] {
      assert ([sep] + b)[1..] == b;
    } else {
      assert (a + [sep] + b)[1..] == a[1..] + [sep] + b;
      assert sep !in a[1..];
      SplitAtSeparator(a[1..], b, sep);
      assert [a[0]] + a[1..] == a;
    }
  }

  /** Splitting a join of separator-free pieces gives the pieces back. */
  lemma {:induction false} SplitJoin(parts: seq<string>, sep: char)
    requires |parts| >= 1
    requires forall i :: 0 <= i < |parts| ==> sep !in parts[i]
    ensures Split(Join(parts, [sep]), sep) == parts
  {
    if |parts| == 1 {
      SplitWithoutSeparator(parts[0], sep);
    } else {
      SplitJoin(parts[1..], sep);
      SplitAtSeparator(parts[0], Join(parts[1..], [sep]), sep);
      assert parts == [parts[0]] + parts[1..];
    }
  }

  // ------------------------------------------------------------- includes

  /** `n` occurs in `h` starting at position `i`. */
  predicate OccursAt(n: string, h: string, i: int) {
    0 <= i && i + |n| <= |h| && h[i..i + |n|] == n
  }

  /** `h.includes(n)`. */
  function Includes(h: string, n: string): bool
    decreases |h|
  {
    n <= h || (h != [] && Includes(h[1..], n))
  }

  lemma {:induction false} OccursAtIncludes(h: string, n: string, i: int)
    requires OccursAt(n, h, i)
    ensures Includes(h, n)
    decreases i
  {
    if i == 0 {
      assert n <= h;
    } else {
      assert h[1..][i - 1..i - 1 + |n|] == h[i..i + |n|];
      OccursAtIncludes(h[1..], n, i - 1);
    }
  }

  lemma {:induction false} IncludesOccursAt(h: string, n: string) returns (i: int)
    requires Includes(h, n)
    ensures OccursAt(n, h, i)
    decreases |h|
  {
    if n <= h {
      i := 0;
    } else {
      var k := IncludesOccursAt(h[1..], n);
      assert h[1..][k..k + |n|] == h[k + 1..k + 1 + |n|];
      i := k + 1;
    }
  }

  /** `includes` holds exactly when the needle occurs at some position. */
  lemma IncludesIff(h: string, n: string)
    ensures Includes(h, n) <==> exists i :: OccursAt(n, h, i)
  {
    if Includes(h, n) {
      var i := IncludesOccursAt(h, n);
    }
    forall i | OccursAt(n, h, i)
      ensures Includes(h, n)
    {
      OccursAtIncludes(h, n, i);
    }
  }

  lemma IncludesEmpty(h: string)
    ensures Includes(h, [])
  {
  }

  /** Whatever occurs inside a found needle is found as well. */
  lemma IncludesSubstring(h: string, n: string, j: nat, k: nat)
    requires Includes(h, n) && j <= k <= |n|
    ensures Includes(h, n[j..k])
  {
    var i := IncludesOccursAt(h, n);
    var part, window := n[j..k], h[i + j..i + k];
    assert forall t :: 0 <= t < |window| ==> window[t] == h[i + j + t] == n[j + t] == part[t];
    assert part == window;
    OccursAtIncludes(h, n[j..k], i + j);
  }

  // ------------------------------------------------------------- numbers

  function DigitChar(d: nat): (c: char)
    requires d < 10
    ensures IsDigit(c)
  {
    ('0' as int + d) as char
  }

  function DigitValue(c: char): nat
    requires IsDigit(c)
  {
    c as int - '0' as int
  }

  /** The decimal text of a non-negative number, as `${n}` renders it. */
  function NatToString(n: nat): (r: string)
    ensures |r| >= 1 && forall i :: 0 <= i < |r| ==> IsDigit(r[i])
  {
    if n < 10 then [DigitChar(n)] else NatToString(n / 10) + [DigitChar(n % 10)]
  }

  /** The value of a string of decimal digits. */
  function DigitsValue(s: string): nat
    requires forall i :: 0 <= i < |s| ==> IsDigit(s[i])
  {
    if s == [] then 0 else DigitsValue(s[..|s| - 1]) * 10 + DigitValue(s[|s| - 1])
  }

  /** The longest prefix made of decimal digits. */
  function LeadingDigits(s: string): (r: string)
    ensures r <= s
    ensures forall i :: 0 <= i < |r| ==> IsDigit(s[i])
    ensures |r| == |s| || !IsDigit(s[|r|])
  {
    if s != [] && IsDigit(s[0]) then [s[0]] + LeadingDigits(s[1..]) else []
  }

  /** `parseInt(s, 10)` on an unsigned decimal: leading whitespace skipped,
      then the leading digits read; a string without any digit gives 0. */
  function ParseInt(s: string): (r: nat)
    ensures TrimStart(s) == [] || !IsDigit(TrimStart(s)[0]) ==> r == 0
    ensures s != [] && (s[0] == '-' || s[0] == '+') ==> r == 0
  {
    DigitsValue(LeadingDigits(TrimStart(s)))
  }

  lemma {:induction false} DigitsValueOfNatToString(n: nat)
    ensures DigitsValue(NatToString(n)) == n
  {
    if n >= 10 {
      DigitsValueOfNatToString(n / 10);
      var r := NatToString(n);
      assert r[..|r| - 1] == NatToString(n / 10);
    }
  }

  lemma {:induction false} LeadingDigitsOfDigits(s: string)
    requires forall i :: 0 <= i < |s| ==> IsDigit(s[i])
    ensures LeadingDigits(s) == s
  {
    if s != [] {
      LeadingDigitsOfDigits(s[1..]);
    }
  }

  lemma {:induction false} LeadingBlanksThen(blanks: string, t: string)
    requires forall i :: 0 <= i < |blanks| ==> IsSpace(blanks[i])
    requires t == [] || !IsSpace(t[0])
    ensures LeadingBlanks(blanks + t) == |blanks|
  {
    if blanks != [] {
      assert (blanks + t)[1..] == blanks[1..] + t;
      LeadingBlanksThen(blanks[1..], t);
    } else {
      assert blanks + t == t;
    }
  }

  lemma {:induction false} LeadingDigitsThen(s: string, rest: string)
    requires forall i :: 0 <= i < |s| ==> IsDigit(s[i])
    requires rest == [] || !IsDigit(rest[0])
    ensures LeadingDigits(s + rest) == s
  {
    if s != [] {
      assert (s + rest)[1..] == s[1..] + rest;
      LeadingDigitsThen(s[1..], rest);
    } else {
      assert s + rest == rest;
    }
  }

  /** `parseInt` reads the number written at the start after any leading
      whitespace and ignores what follows the digits: `"  12px"` reads as 12. */
  lemma ParseIntReadsLeadingNumber(blanks: string, n: nat, rest: string)
    requires forall i :: 0 <= i < |blanks| ==> IsSpace(blanks[i])
    requires rest == [] || !IsDigit(rest[0])
    ensures ParseInt(blanks + NatToString(n) + rest) == n
  {
    var d := NatToString(n);
    var s := blanks + d + rest;
    assert !IsSpace(d[0]) by { assert IsDigit(d[0]); }
    assert s == blanks + (d + rest);
    LeadingBlanksThen(blanks, d + rest);
    assert TrimStart(s) == d + rest;
    LeadingDigitsThen(d, rest);
    DigitsValueOfNatToString(n);
  }

  /** Reading back the text of a number gives the number. */
  lemma ParseIntOfNatToString(n: nat)
    ensures ParseInt(NatToString(n)) == n
  {
    var r := NatToString(n);
    assert !IsSpace(r[0]) by { assert IsDigit(r[0]); }
    assert TrimStart(r) == r;
    LeadingDigitsOfDigits(r);
    DigitsValueOfNatToString(n);
  }
}
