/** The string functions the backend takes from Go's strings, strconv and fmt packages,
    on strings of Unicode characters. */
module Text {
  import opened Wrappers

  const MAX_INT64: int := 0x7FFF_FFFF_FFFF_FFFF

  // ---------- Decimal numerals ----------

  const DIGITS: string := "0123456789"

  predicate IsDigit(c: char) { '0' <= c <= '9' }

  predicate AllDigits(s: string) { forall i :: 0 <= i < |s| ==> IsDigit(s[i]) }

  function Digit(d: nat): (c: char)
    requires d < 10
    ensures IsDigit(c) && DigitValue(c) == d
  {
    DIGITS[d]
  }

  function DigitValue(c: char): (d: nat)
    requires IsDigit(c)
    ensures d < 10 && DIGITS[d] == c
  {
    c as int - '0' as int
  }

  function Unsigned(n: nat): (s: string)
    ensures s != [] && AllDigits(s)
    ensures n > 0 ==> s[0] != '0'
  {
    if n < 10 then [Digit(n)] else Unsigned(n / 10) + [Digit(n % 10)]
  }

  // fmt.Sprintf("%d", n)
  function Decimal(n: int): string {
    if n < 0 then "-" + Unsigned(-n) else Unsigned(n)
  }

  function Value(s: string): nat
    requires AllDigits(s)
  {
    if s == [] then 0 else Value(s[..|s| - 1]) * 10 + DigitValue(s[|s| - 1])
  }

  lemma {:induction false} ValueOfUnsigned(n: nat)
    ensures Value(Unsigned(n)) == n
  {
    var s := Unsigned(n);
    if n < 10 {
      assert s[..0] == [];
    } else {
      ValueOfUnsigned(n / 10);
      assert s[..|s| - 1] == Unsigned(n / 10);
    }
  }

  lemma UnsignedStep(v: nat, d: nat)
    requires v > 0 && d < 10
    ensures Unsigned(v * 10 + d) == Unsigned(v) + [Digit(d)]
  {
    assert (v * 10 + d) / 10 == v && (v * 10 + d) % 10 == d;
  }

  lemma ValueStep(s: string)
    requires s != [] && AllDigits(s)
    ensures Value(s) == Value(s[..|s| - 1]) * 10 + DigitValue(s[|s| - 1]) && Value([]) == 0
  {
  }

  lemma OneDigit(d: nat)
    requires d < 10
    ensures Unsigned(d) == [Digit(d)]
  {
  }

  // Without leading zeros, digits are the numeral of their value.
  lemma {:induction false} UnsignedOfValue(s: string)
    requires s != [] && AllDigits(s) && s[0] != '0'
    ensures Value(s) > 0 && Unsigned(Value(s)) == s
  {
    hide Unsigned, Value;
    var front, d := s[..|s| - 1], DigitValue(s[|s| - 1]);
    assert s == front + [Digit(d)];
    ValueStep(s);
    if front == [] {
      OneDigit(d);
    } else {
      UnsignedOfValue(front);
      UnsignedStep(Value(front), d);
    }
  }

  lemma {:induction false} ValueSkipsZero(s: string)
    requires AllDigits(s)
    ensures Value(['0'] + s) == Value(s)
  {
    var t := ['0'] + s;
    if s == [] {
      assert t[..0] == [];
    } else {
      assert t[..|t| - 1] == ['0'] + s[..|s| - 1];
      ValueSkipsZero(s[..|s| - 1]);
    }
  }

  lemma UnsignedInjective(m: nat, n: nat)
    requires Unsigned(m) == Unsigned(n)
    ensures m == n
  {
    ValueOfUnsigned(m);
    ValueOfUnsigned(n);
  }

  lemma DecimalInjective(m: int, n: int)
    requires Decimal(m) == Decimal(n)
    ensures m == n
  {
    hide Unsigned;
    MinusMeansNegative(m);
    MinusMeansNegative(n);
    if m < 0 {
      UnsignedInjective(-m, -n);
    } else {
      UnsignedInjective(m, n);
    }
  }

  lemma MinusMeansNegative(n: int)
    ensures n < 0 <==> Decimal(n)[0] == '-'
    ensures n < 0 ==> Decimal(n)[1..] == Unsigned(-n)
  {
    hide Unsigned;
  }

  lemma DecimalHasNo(n: int, c: char)
    requires !IsDigit(c) && c != '-'
    ensures c !in Decimal(n)
  {
  }

  // The part before the first separator determines both sides.
  lemma {:induction false} SplitUnique(a: string, b: string, c: string, d: string, sep: char)
    requires sep !in a && sep !in c
    requires a + [sep] + b == c + [sep] + d
    ensures a == c && b == d
  {
    var s := a + [sep] + b;
    assert s[|a|] == sep && s[|c|] == sep;
    assert forall i :: 0 <= i < |a| ==> s[i] == a[i];
    assert forall i :: 0 <= i < |c| ==> s[i] == c[i];
    assert a == s[..|a|] && c == s[..|c|];
    assert b == s[|a| + 1..] && d == s[|c| + 1..];
  }

  function Signed(s: string): bool {
    s != [] && (s[0] == '+' || s[0] == '-')
  }

  function Magnitude(s: string): string {
    if Signed(s) then s[1..] else s
  }

  // strconv.ParseInt(s, 10, 64)
  function ParseInt(s: string): Option<int> {
    var body := Magnitude(s);
    if body == [] || !AllDigits(body) then None
    else
      var v: int := Value(body);
      if s[0] == '-' then (if v > MAX_INT64 + 1 then None else Some(-v))
      else if v > MAX_INT64 then None else Some(v)
  }

  // ---------- White space ----------

  predicate IsSpace(c: char) {
    || c in "\t\n\U{000B}\U{000C}\r " || c == '\U{0085}' || c == '\U{00A0}' || c == '\U{1680}'
    || '\U{2000}' <= c <= '\U{200a}' || c == '\U{2028}' || c == '\U{2029}' || c == '\U{202f}' || c == '\U{205f}' ||
        c == '\U{3000}'
  }

  ghost predicate AllSpace(s: string) { forall i :: 0 <= i < |s| ==> IsSpace(s[i]) }

  function TrimLeft(s: string): string {
    if s != [] && IsSpace(s[0]) then TrimLeft(s[1..]) else s
  }

  function TrimRight(s: string): string {
    if s != [] && IsSpace(s[|s| - 1]) then TrimRight(s[..|s| - 1]) else s
  }

  function TrimSpace(s: string): string { TrimRight(TrimLeft(s)) }

  lemma {:induction false} TrimLeftRemovesSpace(s: string) returns (left: string)
    ensures AllSpace(left) && s == left + TrimLeft(s)
  {
    left := [];
    if s != [] && IsSpace(s[0]) {
      left := TrimLeftRemovesSpace(s[1..]);
      left := [s[0]] + left;
    }
  }

  lemma {:induction false} TrimRightRemovesSpace(s: string) returns (right: string)
    ensures AllSpace(right) && s == TrimRight(s) + right
  {
    right := [];
    if s != [] && IsSpace(s[|s| - 1]) {
      right := TrimRightRemovesSpace(s[..|s| - 1]);
      right := right + [s[|s| - 1]];
    }
  }

  lemma {:induction false} TrimLeftPadded(left: string, core: string)
    requires AllSpace(left) && (core == [] || !IsSpace(core[0]))
    ensures TrimLeft(left + core) == core
  {
    if left == [] {
      assert left + core == core;
    } else {
      assert (left + core)[1..] == left[1..] + core;
      TrimLeftPadded(left[1..], core);
    }
  }

  lemma {:induction false} TrimRightPadded(core: string, right: string)
    requires AllSpace(right) && (core == [] || !IsSpace(core[|core| - 1]))
    ensures TrimRight(core + right) == core
  {
    if right == [] {
      assert core + right == core;
    } else {
      assert (core + right)[..|core + right| - 1] == core + right[..|right| - 1];
      TrimRightPadded(core, right[..|right| - 1]);
    }
  }

  lemma TrimSpacePadded(left: string, core: string, right: string)
    requires AllSpace(left) && AllSpace(right)
    requires core != [] && !IsSpace(core[0]) && !IsSpace(core[|core| - 1])
    ensures TrimSpace(left + core + right) == core
  {
    assert left + core + right == left + (core + right);
    TrimLeftPadded(left, core + right);
    TrimRightPadded(core, right);
  }

  // ---------- Lower case and searching ----------

  // unicode.ToLower as far as it can produce an ASCII letter: besides the ASCII capitals only
  // the dotted capital I and the Kelvin sign do.  Other letters keep their case here.
  function LowerChar(c: char): char {
    if 'A' <= c <= 'Z' then (c as int + 32) as char
    else if c == '\U{0130}' then 'i'
    else if c == '\U{212A}' then 'k'
    else c
  }

  function ToLower(s: string): (t: string)
    ensures |t| == |s| && forall i :: 0 <= i < |s| ==> t[i] == LowerChar(s[i])
  {
    seq(|s|, i requires 0 <= i < |s| => LowerChar(s[i]))
  }

  // The character is the letter in either case; two characters beyond ASCII also count as letters.
  predicate Folds(c: char, letter: char) {
    || c == letter
    || ('a' <= letter <= 'z' && c as int == letter as int - 32)
    || (c == '\U{0130}' && letter == 'i')
    || (c == '\U{212A}' && letter == 'k')
  }

  // The text is the word in any capitalisation.
  predicate Spells(s: string, word: string) {
    |s| == |word| && forall i :: 0 <= i < |s| ==> Folds(s[i], word[i])
  }

  predicate IsWord(s: string) { forall i :: 0 <= i < |s| ==> 'a' <= s[i] <= 'z' || s[i] == '_' }

  lemma FoldsExactly(c: char, letter: char)
    requires 'a' <= letter <= 'z' || letter == '_'
    ensures LowerChar(c) == letter <==> Folds(c, letter)
  {
  }

  /** Lower-casing a text gives a word exactly if the text is the word in some capitalisation. */
  lemma LowerIsWord(s: string, word: string)
    requires IsWord(word)
    ensures ToLower(s) == word <==> Spells(s, word)
  {
    hide LowerChar, Folds;
    if |s| == |word| {
      forall i | 0 <= i < |s|
        ensures ToLower(s)[i] == word[i] <==> Folds(s[i], word[i])
      {
        FoldsExactly(s[i], word[i]);
      }
    }
  }

  function HasPrefix(s: string, p: string): bool { p <= s }

  function HasSuffix(s: string, p: string): bool { |p| <= |s| && s[|s| - |p|..] == p }

  predicate OccursAt(s: string, w: string, i: nat) {
    i + |w| <= |s| && s[i..i + |w|] == w
  }

  predicate Contains(s: string, w: string) {
    exists i :: 0 <= i <= |s| && OccursAt(s, w, i)
  }

  lemma ContainsInConcatenation(a: string, b: string, w: string)
    ensures Contains(a, w) || Contains(b, w) ==> Contains(a + b, w)
  {
    if Contains(a, w) {
      var i :| 0 <= i <= |a| && OccursAt(a, w, i);
      assert (a + b)[i..i + |w|] == a[i..i + |w|];
      assert OccursAt(a + b, w, i);
    } else if Contains(b, w) {
      var i :| 0 <= i <= |b| && OccursAt(b, w, i);
      assert (a + b)[|a| + i..|a| + i + |w|] == b[i..i + |w|];
      assert OccursAt(a + b, w, |a| + i);
    }
  }

  function CountChar(s: string, c: char): nat {
    if s == [] then 0 else CountChar(s[..|s| - 1], c) + if s[|s| - 1] == c then 1 else 0
  }

  lemma {:induction false} CountConcatenation(a: string, b: string, c: char)
    ensures CountChar(a + b, c) == CountChar(a, c) + CountChar(b, c)
  {
    if b == [] {
      assert a + b == a;
    } else {
      assert (a + b)[..|a + b| - 1] == a + b[..|b| - 1];
      CountConcatenation(a, b[..|b| - 1], c);
    }
  }
}
