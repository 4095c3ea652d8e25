/**
 * The two conversions between `int` and its decimal text that the query
 * extractor relies on: `strconv.Atoi` (base 10, as called by SetSize and
 * SetPage) and the `%v` verb of `fmt.Sprintf` applied to an `int`
 * (as used by GetQueryString).
 */
module Strconv {
  import opened Wrappers

  /** `*strconv.NumError` with `Err == strconv.ErrSyntax`; `num` is the rejected input. */
  datatype NumError = SyntaxError(num: string)

  predicate IsDigit(c: char) {
    '0' <= c <= '9'
  }

  predicate IsSign(c: char) {
    c == '+' || c == '-'
  }

  predicate AllDigits(s: string) {
    forall i :: 0 <= i < |s| ==> IsDigit(s[i])
  }

  /** The text Atoi accepts: an optional sign followed by at least one decimal digit. */
  predicate IsIntegerLiteral(s: string) {
    exists k :: 0 <= k <= 1 && k < |s| && (k == 1 ==> IsSign(s[0])) && AllDigits(s[k..])
  }

  function DigitValue(c: char): (d: nat)
    requires IsDigit(c)
    ensures d < 10
  {
    c as int - '0' as int
  }

  function DigitChar(d: nat): (c: char)
    requires d < 10
    ensures IsDigit(c) && DigitValue(c) == d
  {
    ('0' as int + d) as char
  }

  /** The number a string of digits denotes, most significant digit first. */
  function DigitsValue(s: string): nat
    requires AllDigits(s)
  {
    if s == [] then 0 else DigitsValue(s[..|s| - 1]) * 10 + DigitValue(s[|s| - 1])
  }

  /**
   * strconv.Atoi: strip one leading sign, then every remaining character
   * must be a digit and there must be at least one of them.
   */
  function Atoi(s: string): (r: Result<int, NumError>)
    ensures r.Success? <==> IsIntegerLiteral(s)
    ensures r.Failure? ==> r.error == SyntaxError(s)
  {
    if s == [] then Failure(SyntaxError(s))
    else
      var digits := if IsSign(s[0]) then s[1..] else s;
      if digits == [] || !AllDigits(digits) then
        Failure(SyntaxError(s))
      else
        assert AllDigits(s[(if IsSign(s[0]) then 1 else 0)..]);
        var magnitude: int := DigitsValue(digits);
        Success(if s[0] == '-' then -magnitude else magnitude)
  }

  /** Decimal digits of a natural number, without leading zeros. */
  function FormatNat(n: nat): string
  {
    (if n < 10 then [] else FormatNat(n / 10)) + [DigitChar(n % 10)]
  }

  /** `fmt.Sprintf("%v", n)` for an `int`: a minus sign for negatives, then the digits. */
  function FormatInt(n: int): string
  {
    if n < 0 then "-" + FormatNat(-n) else FormatNat(n)
  }

  /** The canonical spelling FormatInt produces: no '+', no leading zero, no "-0". */
  predicate IsCanonical(s: string) {
    var digits := if |s| > 0 && s[0] == '-' then s[1..] else s;
    |digits| > 0 && AllDigits(digits) && (digits[0] == '0' ==> s == "0")
  }

  /** The last digit of a number's numeral is its remainder by 10, after the numeral of its quotient. */
  lemma FormatNatLast(n: nat)
    ensures FormatNat(n) == (if n < 10 then [] else FormatNat(n / 10)) + [DigitChar(n % 10)]
    ensures n == (n / 10) * 10 + n % 10
  {
  }

  lemma {:induction false} FormatNatDigits(n: nat)
    ensures |FormatNat(n)| > 0 && AllDigits(FormatNat(n))
    ensures DigitsValue(FormatNat(n)) == n
    ensures FormatNat(n)[0] == '0' ==> n == 0
  {
    var s := FormatNat(n);
    var t := if n < 10 then [] else FormatNat(n / 10);
    var c := DigitChar(n % 10);
    FormatNatLast(n);
    if n >= 10 {
      FormatNatDigits(n / 10);
    }
    AppendDigit(t, c);
    assert s[0] == (if n < 10 then c else t[0]);
  }

  /** Appending one digit multiplies the value by ten and adds the digit. */
  lemma AppendDigit(t: string, c: char)
    requires AllDigits(t) && IsDigit(c)
    ensures AllDigits(t + [c])
    ensures DigitsValue(t + [c]) == DigitsValue(t) * 10 + DigitValue(c)
  {
    var s := t + [c];
    assert s[..|s| - 1] == t;
  }

  /** Formatting an int with `%v` and reading it back with Atoi gives the int again. */
  lemma {:induction false} AtoiFormatInt(n: int)
    ensures IsCanonical(FormatInt(n))
    ensures Atoi(FormatInt(n)) == Success(n)
  {
    var m := if n < 0 then -n else n;
    FormatNatDigits(m);
    var d := FormatNat(m);
    if n < 0 {
      var s := "-" + d;
      assert s[1..] == d;
      assert s[0] == '-';
    } else {
      assert d[0] == '0' ==> d == [DigitChar(0)];
    }
  }

  lemma {:induction false} DigitsValueLeading(s: string)
    requires |s| > 0 && AllDigits(s) && s[0] != '0'
    ensures DigitsValue(s) > 0
  {
    if |s| > 1 {
      assert AllDigits(s[..|s| - 1]);
      DigitsValueLeading(s[..|s| - 1]);
    }
  }

  lemma {:induction false} FormatNatDigitsValue(s: string)
    requires |s| > 0 && AllDigits(s) && (s[0] == '0' ==> |s| == 1)
    ensures FormatNat(DigitsValue(s)) == s
  {
    var n := DigitsValue(s);
    var init := s[..|s| - 1];
    var last := s[|s| - 1];
    assert n == DigitsValue(init) * 10 + DigitValue(last);
    if |s| == 1 {
      assert init == [];
      assert FormatNat(n) == [DigitChar(DigitValue(last))];
    } else {
      assert init[0] == s[0];
      DigitsValueLeading(init);
      FormatNatDigitsValue(init);
      assert n / 10 == DigitsValue(init) && n % 10 == DigitValue(last);
      assert s == init + [last];
    }
  }

  /** On canonical text, Atoi is inverted by `%v` formatting. */
  lemma {:induction false} FormatIntAtoi(s: string)
    requires IsCanonical(s)
    ensures Atoi(s).Success? && FormatInt(Atoi(s).value) == s
  {
    var neg := s[0] == '-';
    var d := if neg then s[1..] else s;
    FormatNatDigitsValue(d);
    AtoiOfDigits(s, d);
    if neg {
      DigitsValueLeading(d);
      assert s == "-" + d;
    }
  }

  /** Atoi on an optional sign followed by the digit string `d`. */
  lemma AtoiOfDigits(s: string, d: string)
    requires |s| > 0 && d == (if IsSign(s[0]) then s[1..] else s) && |d| > 0 && AllDigits(d)
    ensures Atoi(s) == Success(if s[0] == '-' then -(DigitsValue(d) as int) else DigitsValue(d))
  {
  }
}
