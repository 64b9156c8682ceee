/**
  The pieces of Rust's standard library the generator and the command line
  call: `char::from_digit`, `char::from_u32`, `Iterator::filter_map` and
  `str::parse::<usize>`.
*/
module RustStd {
  import opened Wrappers

  /** The largest `usize` on a 64-bit target. */
  const USIZE_MAX: nat := 0xFFFF_FFFF_FFFF_FFFF

  /** A Unicode scalar value: what a Rust `char` may hold. */
  predicate IsScalarValue(k: int) {
    0 <= k < 0xD800 || 0xE000 <= k < 0x11_0000
  }

  predicate IsAsciiDigit(c: char) {
    '0' <= c <= '9'
  }

  /** The ASCII decimal digit for `d`. */
  function DigitChar(d: int): (c: char)
    requires 0 <= d < 10
    ensures IsAsciiDigit(c) && c as int - '0' as int == d
  {
    ('0' as int + d) as char
  }

  /** The value of an ASCII decimal digit. */
  function DigitValue(c: char): (d: nat)
    requires IsAsciiDigit(c)
    ensures d < 10 && DigitChar(d) == c
  {
    c as int - '0' as int
  }

  /**
    `std::char::from_u32`: the character with code point `k`, or `None` for a
    surrogate or a value above U+10FFFF. Its argument is a `u32`.
  */
  function FromU32(k: int): (r: Option<char>)
    ensures r.Some? <==> IsScalarValue(k)
    ensures r.Some? ==> r.value as int == k
  {
    if IsScalarValue(k) then Some(k as char) else None
  }

  /**
    `std::char::from_digit(num, radix)`: the digit character for `num` in base
    `radix` (lower-case letters above 9), or `None` when `num >= radix`. Rust
    panics for a radix above 36. Its argument is a `u32`.
  */
  function FromDigit(num: int, radix: nat): (r: Option<char>)
    requires 2 <= radix <= 36
    ensures r.Some? <==> 0 <= num < radix
    ensures r.Some? && num < 10 ==> r.value == DigitChar(num)
    ensures r.Some? && 10 <= num ==> r.value as int == 'a' as int + num - 10
  {
    if 0 <= num < radix then
      if num < 10 then Some(DigitChar(num)) else Some(('a' as int + num - 10) as char)
    else None
  }

  /** `xs.iter().filter_map(f).collect()`: keeps the `Some` images, in order. */
  function FilterMap<A, B>(xs: seq<A>, f: A -> Option<B>): (r: seq<B>)
    ensures |r| <= |xs|
  {
    if xs == [] then []
    else
      var head := match f(xs[0]) case Some(y) => [y] case None => [];
      head + FilterMap(xs[1..], f)
  }

  /**
    When `f` rejects nothing, `filter_map` drops nothing: the result has one
    element per input element, and element `i` is the image of input `i`.
  */
  lemma {:induction false} FilterMapKeepsAll<A, B>(xs: seq<A>, f: A -> Option<B>)
    requires forall i :: 0 <= i < |xs| ==> f(xs[i]).Some?
    ensures |FilterMap(xs, f)| == |xs|
    ensures forall i :: 0 <= i < |xs| ==> FilterMap(xs, f)[i] == f(xs[i]).value
  {
    if xs != [] {
      FilterMapKeepsAll(xs[1..], f);
      var rest := FilterMap(xs[1..], f);
      assert FilterMap(xs, f) == [f(xs[0]).value] + rest;
      forall i | 0 <= i < |xs|
        ensures FilterMap(xs, f)[i] == f(xs[i]).value
      {
        if i > 0 {
          assert FilterMap(xs, f)[i] == rest[i - 1];
          assert xs[1..][i - 1] == xs[i];
        }
      }
    }
  }

  predicate AllAsciiDigits(s: string) {
    forall i :: 0 <= i < |s| ==> IsAsciiDigit(s[i])
  }

  /** The value of a string of decimal digits, most significant first. */
  function DigitsValue(s: string): nat
    requires AllAsciiDigits(s)
  {
    if s == [] then 0
    else 10 * DigitsValue(s[..|s| - 1]) + DigitValue(s[|s| - 1])
  }

  /**
    `s.parse::<usize>()`: an optional leading '+' and then at least one ASCII
    decimal digit, whose value must fit in a `usize`. Leading zeros are allowed.
  */
  function ParseUsize(s: string): (r: Option<nat>)
    ensures r.Some? ==> r.value <= USIZE_MAX
    ensures r.Some? ==> |s| > 0 && forall i :: 0 <= i < |s| ==> IsAsciiDigit(s[i]) || (i == 0 && s[i] == '+')
    ensures r.Some? ==> (r.value > 0 <==> exists i :: 0 <= i < |s| && '1' <= s[i] <= '9')
    ensures r.Some? ==> var d := if s[0] == '+' then s[1..] else s;
      d != [] && AllAsciiDigits(d) && r.value == DigitsValue(d)
  {
    if s == [] then None
    else
      var digits := if s[0] == '+' then s[1..] else s;
      if digits == [] || !AllAsciiDigits(digits) then None
      else
        var value := DigitsValue(digits);
        DigitsValuePositive(digits);
        assert forall i :: 0 <= i < |digits| ==> digits[i] == s[i + |s| - |digits|];
        if value <= USIZE_MAX then Some(value) else None
  }

  /**
    The converse of `ParseUsize`'s contract: every non-empty digit string,
    leading zeros included, with or without one leading '+', parses to the
    value of its digits when that fits in a `usize`, and is rejected when it
    does not.
  */
  lemma ParseUsizeOfDigits(d: string)
    requires d != [] && AllAsciiDigits(d)
    ensures DigitsValue(d) <= USIZE_MAX ==> ParseUsize(d) == Some(DigitsValue(d)) && ParseUsize("+" + d) == Some(DigitsValue(d))
    ensures DigitsValue(d) > USIZE_MAX ==> ParseUsize(d) == None && ParseUsize("+" + d) == None
  {
    assert ("+" + d)[1..] == d;
  }

  /** A digit string has a positive value exactly when one of its digits is not '0'. */
  lemma {:induction false} DigitsValuePositive(s: string)
    requires AllAsciiDigits(s)
    ensures DigitsValue(s) > 0 <==> exists i :: 0 <= i < |s| && s[i] != '0'
  {
    if s != [] {
      var init := s[..|s| - 1];
      DigitsValuePositive(init);
      if DigitsValue(init) > 0 {
        var i :| 0 <= i < |init| && init[i] != '0';
        assert s[i] != '0';
      }
      if exists i :: 0 <= i < |s| && s[i] != '0' {
        var i :| 0 <= i < |s| && s[i] != '0';
        if i < |s| - 1 {
          assert init[i] != '0';
        }
      }
    }
  }

  /** `n.to_string()` for an unsigned integer: decimal, no sign, no leading zeros. */
  function ToDecimal(n: nat): (s: string)
    ensures |s| > 0 && AllAsciiDigits(s)
    ensures |s| > 1 ==> s[0] != '0'
  {
    if n < 10 then [DigitChar(n)] else ToDecimal(n / 10) + [DigitChar(n % 10)]
  }

  /** Reading back the decimal rendering of a number gives the number. */
  lemma {:induction false} DigitsValueOfDecimal(n: nat)
    ensures DigitsValue(ToDecimal(n)) == n
  {
    var s := ToDecimal(n);
    if n >= 10 {
      DigitsValueOfDecimal(n / 10);
      assert s[..|s| - 1] == ToDecimal(n / 10);
    }
  }

  /** Parsing the decimal rendering of any `usize`, with or without a leading '+', gives it back. */
  lemma ParseUsizeOfDecimal(n: nat)
    requires n <= USIZE_MAX
    ensures ParseUsize(ToDecimal(n)) == Some(n)
    ensures ParseUsize("+" + ToDecimal(n)) == Some(n)
  {
    DigitsValueOfDecimal(n);
    assert ("+" + ToDecimal(n))[1..] == ToDecimal(n);
  }

  /** The decimal rendering of a value above `usize::MAX` does not parse (overflow). */
  lemma ParseUsizeOverflow(n: nat)
    requires n > USIZE_MAX
    ensures ParseUsize(ToDecimal(n)) == None
  {
    DigitsValueOfDecimal(n);
  }
}
