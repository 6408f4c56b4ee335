/**
 * The parts of Python's `str` that the modelled code relies on: `isspace`,
 * `strip`, `split(",")[0]`, `startswith`, the substring test `in`, `int(...)`
 * on a string and `str(...)` of an integer or of `None`.
 */
module PyStr {
  import opened Wrappers

  /** Python's `str.isspace` for one character (the Unicode whitespace set). */
  predicate IsSpace(c: char) {
    var n := c as int;
    (9 <= n <= 13) || (28 <= n <= 32) || n == 0x85 || n == 0xA0 || n == 0x1680
    || (0x2000 <= n <= 0x200A) || n == 0x2028 || n == 0x2029 || n == 0x202F
    || n == 0x205F || n == 0x3000
  }

  predicate AllSpace(s: string) {
    forall i :: 0 <= i < |s| ==> IsSpace(s[i])
  }

  /** Neither end of `s` is whitespace (an empty string qualifies). */
  predicate Trimmed(s: string) {
    s == [] || (!IsSpace(s[0]) && !IsSpace(s[|s| - 1]))
  }

  /** Python's `s.lstrip()`: the suffix left after dropping leading whitespace. */
  function LStrip(s: string): (r: string)
    ensures |r| <= |s| && r == s[|s| - |r|..]
    ensures r == [] || !IsSpace(r[0])
    ensures AllSpace(s[..|s| - |r|])
  {
    if s != [] && IsSpace(s[0]) then
      var r := LStrip(s[1..]);
      assert s[..|s| - |r|] == [s[0]] + s[1..][..|s| - 1 - |r|];
      r
    else s
  }

  /** Python's `s.rstrip()`: the prefix left after dropping trailing whitespace. */
  function RStrip(s: string): (r: string)
    ensures |r| <= |s| && r == s[..|r|]
    ensures r == [] || !IsSpace(r[|r| - 1])
    ensures AllSpace(s[|r|..])
  {
    if s != [] && IsSpace(s[|s| - 1]) then
      var r := RStrip(s[..|s| - 1]);
      assert s[|r|..] == s[..|s| - 1][|r|..] + [s[|s| - 1]];
      r
    else s
  }

  /** `r` is the slice of `s` from `i` with only whitespace before and after it. */
  predicate StripOf(s: string, r: string, i: int) {
    0 <= i <= |s| - |r| && r == s[i..i + |r|] && AllSpace(s[..i]) && AllSpace(s[i + |r|..])
  }

  /** Python's `s.strip()`. */
  function Strip(s: string): (r: string)
    ensures Trimmed(r)
    ensures |r| <= |s|
    ensures exists i :: StripOf(s, r, i)
  {
    var l := LStrip(s);
    var r := RStrip(l);
    StripParts(s, l, r);
    r
  }

  /** What `Strip` promises, from what `LStrip` and `RStrip` promise. */
  lemma StripParts(s: string, l: string, r: string)
    requires |l| <= |s| && l == s[|s| - |l|..] && (l == [] || !IsSpace(l[0])) && AllSpace(s[..|s| - |l|])
    requires |r| <= |l| && r == l[..|r|] && (r == [] || !IsSpace(r[|r| - 1])) && AllSpace(l[|r|..])
    ensures Trimmed(r) && |r| <= |s|
    ensures StripOf(s, r, |s| - |l|)
  {
    var i := |s| - |l|;
    if r != [] {
      assert r[0] == l[0];
    }
    assert s[i + |r|..] == l[|r|..];
  }

  /** Python's `s.startswith(prefix)`. */
  predicate StartsWith(s: string, prefix: string) {
    |prefix| <= |s| && s[..|prefix|] == prefix
  }

  /** Python's `sub in s` on strings: `sub` occurs somewhere in `s`. */
  predicate Contains(s: string, sub: string)
    decreases |s|
  {
    StartsWith(s, sub) || (s != [] && Contains(s[1..], sub))
  }

  /** Python's `s.split(c)[0]`: the text before the first `c`, or all of `s`. */
  function BeforeFirst(s: string, c: char): (r: string)
    ensures |r| <= |s| && r == s[..|r|]
    ensures c !in r
    ensures |r| < |s| ==> s[|r|] == c
  {
    if s == [] || s[0] == c then [] else [s[0]] + BeforeFirst(s[1..], c)
  }

  /** Python's `str(x)` for a value that is either a string or `None`. */
  function StrOrNone(x: Option<string>): (r: string)
    ensures x.Some? ==> r == x.value
    ensures x.None? ==> r == "None"
  {
    match x
    case Some(s) => s
    case None => "None"
  }

  // ---- str(int) and int(str) -------------------------------------------

  predicate IsDigit(c: char) { '0' <= c <= '9' }

  predicate AllDigits(s: string) {
    forall i :: 0 <= i < |s| ==> IsDigit(s[i])
  }

  function DigitValue(c: char): nat
    requires IsDigit(c)
  {
    c as int - '0' as int
  }

  function DigitChar(d: nat): (c: char)
    requires d < 10
    ensures IsDigit(c) && DigitValue(c) == d
  {
    ('0' as int + d) as char
  }

  /** The number a string of decimal digits denotes. */
  function DigitsValue(s: string): nat
    requires AllDigits(s)
  {
    if s == [] then 0 else DigitsValue(s[..|s| - 1]) * 10 + DigitValue(s[|s| - 1])
  }

  /** The decimal digits of `n`, without leading zeros. */
  function NatToDigits(n: nat): (r: string)
    ensures r != [] && AllDigits(r)
  {
    if n < 10 then [DigitChar(n)] else NatToDigits(n / 10) + [DigitChar(n % 10)]
  }

  /** Python's `str(n)` for an integer. */
  function IntToStr(n: int): string {
    if n < 0 then "-" + NatToDigits(-n) else NatToDigits(n)
  }

  /**
   * Python's `int(s)` on a string, simplified to an optional sign followed by
   * at least one decimal digit; `None` stands for the `ValueError` `int` raises.
   */
  function ParseInt(s: string): (r: Option<int>)
    ensures r.Some? <==> (
      || (s != [] && AllDigits(s))
      || (|s| >= 2 && (s[0] == '-' || s[0] == '+') && AllDigits(s[1..])))
  {
    if s != [] && AllDigits(s) then Some(DigitsValue(s))
    else if |s| >= 2 && s[0] == '-' && AllDigits(s[1..]) then Some(0 - DigitsValue(s[1..]) as int)
    else if |s| >= 2 && s[0] == '+' && AllDigits(s[1..]) then Some(DigitsValue(s[1..]))
    else None
  }

  lemma {:induction false} NatToDigitsValue(n: nat)
    ensures DigitsValue(NatToDigits(n)) == n
  {
    if n >= 10 {
      NatToDigitsValue(n / 10);
      var d := NatToDigits(n);
      assert d[..|d| - 1] == NatToDigits(n / 10);
    }
  }

  /** `int(str(n)) == n`: an integer written out by `str` reads back unchanged. */
  lemma {:induction false} ParseIntOfIntToStr(n: int)
    ensures ParseInt(IntToStr(n)) == Some(n)
  {
    if n < 0 {
      NatToDigitsValue(-n);
      var s := IntToStr(n);
      assert s[1..] == NatToDigits(-n);
      assert !IsDigit(s[0]);
    } else {
      NatToDigitsValue(n);
    }
  }

  // ---- strip ---------------------------------------------------------------

  /** A string with non-whitespace ends is left as it is by `strip`. */
  lemma {:induction false} StripTrimmed(s: string)
    requires Trimmed(s)
    ensures Strip(s) == s
  {
  }

  /** `strip` of whitespace followed by a string that does not start with whitespace. */
  lemma {:induction false} LStripSpaces(sp: string, s: string)
    requires AllSpace(sp)
    requires s == [] || !IsSpace(s[0])
    ensures LStrip(sp + s) == s
  {
    if sp != [] {
      assert (sp + s)[1..] == sp[1..] + s;
      LStripSpaces(sp[1..], s);
    }
  }

  /** `rstrip` of a string that does not end in whitespace followed by whitespace. */
  lemma {:induction false} RStripSpaces(s: string, sp: string)
    requires AllSpace(sp)
    requires s == [] || !IsSpace(s[|s| - 1])
    ensures RStrip(s + sp) == s
  {
    if sp != [] {
      assert (s + sp)[..|s + sp| - 1] == s + sp[..|sp| - 1];
      RStripSpaces(s, sp[..|sp| - 1]);
    }
  }

  /** `strip` removes whitespace padding around a string with non-whitespace ends. */
  lemma {:induction false} StripPadded(sp: string, x: string, sp2: string)
    requires AllSpace(sp) && AllSpace(sp2) && Trimmed(x)
    ensures Strip(sp + x + sp2) == x
  {
    if x == [] {
      assert sp + x + sp2 == sp + sp2;
      forall i | 0 <= i < |sp + sp2|
        ensures IsSpace((sp + sp2)[i])
      {
        if i >= |sp| {
          assert (sp + sp2)[i] == sp2[i - |sp|];
        }
      }
      StripAllSpace(sp + sp2);
    } else {
      assert sp + x + sp2 == sp + (x + sp2);
      LStripSpaces(sp, x + sp2);
      RStripSpaces(x, sp2);
    }
  }

  /** A string made only of whitespace strips to the empty string. */
  lemma {:induction false} StripAllSpace(s: string)
    requires AllSpace(s)
    ensures Strip(s) == ""
  {
    LStripSpaces(s, "");
    assert s + "" == s;
  }
}
