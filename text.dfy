/**
 * The pieces of Python's string handling the settings loaders and message
 * builders rely on: `str(int)`, `int(str)` in base 10, and `str.lower()` as
 * used in the `== "true"` flag test.
 */
module Text {
  import opened Outcomes

  predicate IsDigit(c: char) {
    '0' <= c <= '9'
  }

  /**
   * The whitespace `int()` skips around an ASCII literal: space, \t \n \v \f
   * and \r. The separators 0x1C-0x1F, which `str.isspace()` accepts, are not
   * among them.
   */
  predicate IsSpace(c: char) {
    c == ' ' || 9 <= c as int <= 13
  }

  function DigitChar(d: nat): (c: char)
    requires d < 10
    ensures IsDigit(c)
  {
    (('0' as int) + d) as char
  }

  function DigitValue(c: char): (d: nat)
    requires IsDigit(c)
    ensures d < 10 && DigitChar(d) == c
  {
    (c as int) - ('0' as int)
  }

  /** Decimal digits of `n`, most significant first, without leading zeros. */
  function Digits(n: nat): (s: string)
    ensures |s| > 0
    ensures forall i :: 0 <= i < |s| ==> IsDigit(s[i])
    ensures s[0] == '0' ==> n == 0
  {
    if n < 10 then [DigitChar(n)] else Digits(n / 10) + [DigitChar(n % 10)]
  }

  /** Python's `str(i)` for an `int`. */
  function IntToString(i: int): string {
    if i < 0 then "-" + Digits(-i) else Digits(i)
  }

  function TrimStart(s: string): (t: string)
    ensures |t| <= |s| && t == s[|s| - |t|..]
    ensures |t| > 0 ==> !IsSpace(t[0])
  {
    if |s| > 0 && IsSpace(s[0]) then TrimStart(s[1..]) else s
  }

  function TrimEnd(s: string): (t: string)
    ensures |t| <= |s| && t == s[..|t|]
    ensures |t| > 0 ==> !IsSpace(t[|t| - 1])
  {
    if |s| > 0 && IsSpace(s[|s| - 1]) then TrimEnd(s[..|s| - 1]) else s
  }

  /** The literal with the whitespace `int()` skips removed from both ends. */
  function Strip(s: string): string {
    TrimEnd(TrimStart(s))
  }

  /**
   * The digit part `int()` accepts: one or more ASCII digits, where single
   * underscores may separate digits (`1_000`), but not lead, trail or repeat.
   */
  predicate WellFormedDigits(s: string) {
    && |s| > 0
    && IsDigit(s[0])
    && IsDigit(s[|s| - 1])
    && (forall i :: 0 <= i < |s| ==> IsDigit(s[i]) || s[i] == '_')
    && (forall i :: 0 <= i < |s| - 1 ==> s[i] == '_' ==> s[i + 1] != '_')
  }

  /** The number the digits of `s` spell, skipping underscores. */
  function DigitsValue(s: string): nat
    requires forall i :: 0 <= i < |s| ==> IsDigit(s[i]) || s[i] == '_'
  {
    if s == [] then 0
    else
      var last := s[|s| - 1];
      if last == '_' then DigitsValue(s[..|s| - 1])
      else DigitsValue(s[..|s| - 1]) * 10 + DigitValue(last)
  }

  /**
   * The default of `sys.get_int_max_str_digits()`: `int()` refuses a decimal
   * literal with more digits than this, and `str()` an integer with more.
   */
  const MaxStrDigits := 4300

  /** What `str()` and `repr()` raise for an integer of more than `MaxStrDigits` digits. */
  const StrLimitError := ValueError("Exceeds the limit (4300 digits) for integer string conversion; use sys.set_int_max_str_digits() to increase the limit")

  function Pow10(k: nat): (p: nat)
    ensures p >= 1
  {
    if k == 0 then 1 else 10 * Pow10(k - 1)
  }

  /** `str(i)` returns instead of raising: `|i|` has at most `MaxStrDigits` decimal digits. */
  predicate FitsStr(i: int) {
    |Digits(if i < 0 then -i else i)| <= MaxStrDigits
  }

  /** The number of digits in `s`; underscores do not count. */
  function DigitCount(s: string): (n: nat)
    ensures n <= |s|
  {
    if s == [] then 0 else DigitCount(s[..|s| - 1]) + (if IsDigit(s[|s| - 1]) then 1 else 0)
  }

  /** The part of a stripped literal after its optional `+` or `-` sign. */
  function Magnitude(t: string): (m: string)
    ensures |m| > 0 ==> |t| > 0
  {
    if |t| > 0 && (t[0] == '+' || t[0] == '-') then t[1..] else t
  }

  /**
   * Python's `int(s)` in base 10: surrounding whitespace is ignored, an
   * optional `+` or `-` sign precedes the digits, and at most `MaxStrDigits`
   * digits are accepted; `None` where Python raises `ValueError`.
   */
  function ParseInt(s: string): Option<int> {
    ParseStripped(Strip(s))
  }

  /** `int()` on a literal whose surrounding whitespace is already removed. */
  function ParseStripped(t: string): Option<int> {
    var m := Magnitude(t);
    if WellFormedDigits(m) && DigitCount(m) <= MaxStrDigits then
      var n: int := DigitsValue(m);
      Some(if t[0] == '-' then -n else n)
    else None
  }

  /** `int(s)` with the exception Python raises when `s` is not an integer literal or has too many digits. */
  function IntOrError(s: string): (r: Outcome<int>)
    ensures r.Ok? <==> ParseInt(s).Some?
    ensures r.Ok? ==> r.value == ParseInt(s).value
    ensures r.Raised? ==> r.error.ValueError?
  {
    match ParseInt(s)
    case Some(n) => Ok(n)
    case None =>
      var m := Magnitude(Strip(s));
      if WellFormedDigits(m) then
        Raised(ValueError("Exceeds the limit (4300 digits) for integer string conversion: value has "
          + IntToString(DigitCount(m)) + " digits; use sys.set_int_max_str_digits() to increase the limit"))
      else Raised(ValueError("invalid literal for int() with base 10: '" + s + "'"))
  }

  /** A string of the whitespace `int()` skips. */
  predicate AllSpace(w: string) {
    forall i :: 0 <= i < |w| ==> IsSpace(w[i])
  }

  /**
   * `int()` skips space, \t \n \v \f and \r on both sides: an integer written
   * with `str()` and padded with them parses back to itself.
   */
  lemma IntSkipsWhitespace(before: string, i: int, after: string)
    requires AllSpace(before) && AllSpace(after)
    requires FitsStr(i)
    ensures IntOrError(before + IntToString(i) + after) == Ok(i)
  {
    var x := IntToString(i);
    ParseIntOfIntToString(i);
    StripOfPadded(before, x, after);
    ParseIntOfSameStrip(before + x + after, x);
  }

  /** Padding a literal that neither starts nor ends with whitespace does not change what is stripped. */
  lemma StripOfPadded(before: string, x: string, after: string)
    requires AllSpace(before) && AllSpace(after)
    requires |x| > 0 && !IsSpace(x[0]) && !IsSpace(x[|x| - 1])
    ensures Strip(before + x + after) == Strip(x) == x
  {
    assert TrimStart(x) == x;
    assert TrimEnd(x) == x;
    TrimStartOfSpace(before, x + after);
    TrimEndOfSpace(x, after);
    assert before + x + after == before + (x + after);
  }

  /** `int()` reads only the stripped literal. */
  lemma ParseIntOfSameStrip(s: string, u: string)
    requires Strip(s) == Strip(u)
    ensures ParseInt(s) == ParseInt(u)
  {
  }

  lemma {:induction false} TrimStartOfSpace(w: string, x: string)
    requires AllSpace(w) && |x| > 0 && !IsSpace(x[0])
    ensures TrimStart(w + x) == x
  {
    if w != [] {
      assert (w + x)[1..] == w[1..] + x;
      TrimStartOfSpace(w[1..], x);
    }
  }

  lemma {:induction false} TrimEndOfSpace(x: string, w: string)
    requires AllSpace(w) && |x| > 0 && !IsSpace(x[|x| - 1])
    ensures TrimEnd(x + w) == x
  {
    if w != [] {
      assert (x + w)[..|x + w| - 1] == x + w[..|w| - 1];
      TrimEndOfSpace(x, w[..|w| - 1]);
    }
  }

  /** A literal that starts or ends with an ASCII separator 0x1C-0x1F is not an integer for `int()`. */
  lemma IntRejectsSeparators(s: string)
    requires |s| > 0
    requires 0x1C <= s[0] as int <= 0x1F || 0x1C <= s[|s| - 1] as int <= 0x1F
    ensures ParseInt(s).None?
    ensures IntOrError(s).Raised? && IntOrError(s).error.ValueError?
  {
    var t := Strip(s);
    if 0x1C <= s[0] as int <= 0x1F {
      assert TrimStart(s) == s;
      TrimEndKeepsFirst(s);
      assert t[0] == s[0];
    } else {
      TrimStartKeepsLast(s);
      assert t[|t| - 1] == s[|s| - 1];
    }
    if ParseInt(s).Some? {
      ParsedEnds(s);
      assert false;
    }
  }

  /** What `int()` accepts starts with a digit or sign and ends with a digit once stripped. */
  lemma ParsedEnds(s: string)
    requires ParseInt(s).Some?
    ensures var t := Strip(s);
      |t| > 0 && (IsDigit(t[0]) || t[0] == '+' || t[0] == '-') && IsDigit(t[|t| - 1])
  {
    var t := Strip(s);
    if |t| > 0 && (t[0] == '+' || t[0] == '-') {
      assert WellFormedDigits(t[1..]);
      assert t[1..][|t| - 2] == t[|t| - 1];
    }
  }

  /** Trimming the front of a string whose last character is not whitespace keeps that character last. */
  lemma {:induction false} TrimStartKeepsLast(s: string)
    requires |s| > 0 && !IsSpace(s[|s| - 1])
    ensures |TrimStart(s)| > 0 && TrimStart(s)[|TrimStart(s)| - 1] == s[|s| - 1]
    ensures TrimEnd(TrimStart(s)) == TrimStart(s)
  {
    if IsSpace(s[0]) {
      TrimStartKeepsLast(s[1..]);
    }
  }

  /** Trimming the end of a string whose first character is not whitespace keeps that character first. */
  lemma {:induction false} TrimEndKeepsFirst(s: string)
    requires |s| > 0 && !IsSpace(s[0])
    ensures |TrimEnd(s)| > 0 && TrimEnd(s)[0] == s[0]
  {
    if IsSpace(s[|s| - 1]) {
      TrimEndKeepsFirst(s[..|s| - 1]);
    }
  }

  lemma {:induction false} DigitsValueOfDigits(n: nat)
    ensures DigitsValue(Digits(n)) == n
  {
    var s := Digits(n);
    if n >= 10 {
      var p := Digits(n / 10);
      assert s[..|s| - 1] == p;
      DigitsValueOfDigits(n / 10);
    } else {
      assert s[..|s| - 1] == [];
    }
  }

  /** A literal of only digits counts each of its characters as a digit. */
  lemma {:induction false} DigitCountOfDigits(s: string)
    requires forall i :: 0 <= i < |s| ==> IsDigit(s[i])
    ensures DigitCount(s) == |s|
  {
    if s != [] {
      DigitCountOfDigits(s[..|s| - 1]);
    }
  }

  /**
   * `int(str(i)) == i` whenever `str(i)` itself returns; past 4300 digits the
   * text is refused just as `str()` refuses to write it.
   */
  lemma ParseIntOfIntToString(i: int)
    ensures ParseInt(IntToString(i)) == if FitsStr(i) then Some(i) else None
  {
    var s := IntToString(i);
    var a := if i < 0 then -i else i;
    var d := Digits(a);
    IntToStringShape(i);
    DigitCountOfDigits(d);
    DigitsValueOfDigits(a);
    assert WellFormedDigits(d);
    assert Strip(s) == s;
  }

  /** `str(i)` has no surrounding whitespace, and after its sign (`-` iff `i < 0`) come the digits of `|i|`. */
  lemma IntToStringShape(i: int)
    ensures var s := IntToString(i);
      && TrimStart(s) == s && TrimEnd(s) == s
      && Magnitude(s) == Digits(if i < 0 then -i else i)
      && (s[0] == '-' <==> i < 0)
  {
    var s := IntToString(i);
    var d := Digits(if i < 0 then -i else i);
    assert TrimStart(s) == s;
    assert TrimEnd(s) == s;
    if i < 0 {
      assert s[1..] == d;
    }
  }

  lemma {:induction false} Pow10Monotone(j: nat, k: nat)
    requires j <= k
    ensures Pow10(j) <= Pow10(k)
  {
    if j < k {
      Pow10Monotone(j, k - 1);
    }
  }

  /** The digits of `s` spell a number below `10^d`, `d` the number of digits. */
  lemma {:induction false} DigitsValueBound(s: string)
    requires forall i :: 0 <= i < |s| ==> IsDigit(s[i]) || s[i] == '_'
    ensures DigitsValue(s) < Pow10(DigitCount(s))
  {
    if s != [] {
      var p := s[..|s| - 1];
      DigitsValueBound(p);
      if IsDigit(s[|s| - 1]) {
        assert DigitsValue(p) * 10 <= (Pow10(DigitCount(p)) - 1) * 10;
      }
    }
  }

  /** `n` has at most `k` decimal digits iff `n < 10^k`. */
  lemma {:induction false} DigitsLength(n: nat, k: nat)
    requires k >= 1
    ensures |Digits(n)| <= k <==> n < Pow10(k)
  {
    if n >= 10 {
      assert |Digits(n)| == |Digits(n / 10)| + 1;
      if k > 1 {
        DigitsLength(n / 10, k - 1);
        assert n / 10 < Pow10(k - 1) <==> n < 10 * Pow10(k - 1);
      }
    }
  }

  /** `str(i)` returns iff `-10^4300 < i < 10^4300`. */
  lemma FitsStrBound(i: int)
    ensures FitsStr(i) <==> -(Pow10(MaxStrDigits) as int) < i < Pow10(MaxStrDigits)
  {
    DigitsLength(if i < 0 then -i else i, MaxStrDigits);
  }

  /** Whatever `int()` returns, `str()` can write back. */
  lemma ParsedFits(s: string)
    requires ParseInt(s).Some?
    ensures FitsStr(ParseInt(s).value)
  {
    var t := Strip(s);
    var m := Magnitude(t);
    assert WellFormedDigits(m) && DigitCount(m) <= MaxStrDigits;
    var n: int := DigitsValue(m);
    assert ParseInt(s).value == if t[0] == '-' then -n else n;
    DigitsValueBound(m);
    Pow10Monotone(DigitCount(m), MaxStrDigits);
    DigitsLength(n, MaxStrDigits);
  }

  function LowerChar(c: char): char {
    if 'A' <= c <= 'Z' then ((c as int) + 32) as char else c
  }

  /** Python's `str.lower()` on ASCII letters; every other character is kept. */
  function Lower(s: string): (t: string)
    ensures |t| == |s|
    ensures forall i :: 0 <= i < |s| ==> t[i] == LowerChar(s[i])
  {
    seq(|s|, i requires 0 <= i < |s| => LowerChar(s[i]))
  }

  /** The settings flag test `value.lower() == "true"`. */
  predicate IsTrueFlag(value: string) {
    Lower(value) == "true"
  }

  /** The default value of every flag variable passes the flag test. */
  lemma DefaultFlagIsTrue()
    ensures IsTrueFlag("true")
  {
    assert Lower("true") == "true";
  }

  /**
   * The flag test accepts exactly the sixteen spellings of "true" in mixed
   * case and nothing else (no surrounding space, no "1", no "yes").
   */
  lemma IsTrueFlagSpellings(value: string)
    ensures IsTrueFlag(value) <==>
      |value| == 4 && value[0] in "tT" && value[1] in "rR" && value[2] in "uU" && value[3] in "eE"
  {
    if |value| == 4 && value[0] in "tT" && value[1] in "rR" && value[2] in "uU" && value[3] in "eE" {
      assert Lower(value) == "true";
    }
    if IsTrueFlag(value) {
      var t := Lower(value);
      assert t[0] == 't' && t[1] == 'r' && t[2] == 'u' && t[3] == 'e';
    }
  }
}
