/**
  The `rsgen` library: `gen_random_string_with_rng` turns an output character
  type and a stream of uniform draws into a string.

  Each variant fixes a `Uniform` range and a way to turn one draw into one
  character: an index into a fixed ASCII table for the Latin-alphabet variants,
  a decimal digit for `Numeric`, a code point for the printable-ASCII variants.
  The pipeline is `sample_iter -> take(n) -> map / filter_map -> collect`.
*/
module RsGen {
  import opened Wrappers
  import opened RustStd
  import opened Rand

  /** `OutputCharsType`: which characters may appear in the output. */
  datatype OutputCharsType =
    | LatinAlphabet(useUpperCase: bool, useLowerCase: bool)
    | LatinAlphabetAndNumeric(useUpperCase: bool, useLowerCase: bool)
    | Numeric
    | PrintableAsciiWithoutSpace
    | PrintableAsciiWithSpace

  /** How generation fails: the `unreachable!()` arm of the charset match panics. */
  datatype Panic = Unreachable

  /**
    The Latin-alphabet variants need at least one case flag: with both flags
    false the charset match reaches `unreachable!()`.
  */
  predicate IsSupported(t: OutputCharsType) {
    (t.LatinAlphabet? || t.LatinAlphabetAndNumeric?) ==> t.useUpperCase || t.useLowerCase
  }

  // ---------------------------------------------------------------------------
  // The byte tables, exactly as the source spells them

  const UPPER_AND_LOWER: string := "ABCDEFGHIJKLMNOPQRSTUVWXYZabcdefghijklmnopqrstuvwxyz"
  const UPPER: string := "ABCDEFGHIJKLMNOPQRSTUVWXYZ"
  const LOWER: string := "abcdefghijklmnopqrstuvwxyz"
  const UPPER_LOWER_AND_DIGITS: string := "ABCDEFGHIJKLMNOPQRSTUVWXYZabcdefghijklmnopqrstuvwxyz0123456789"
  const UPPER_AND_DIGITS: string := "ABCDEFGHIJKLMNOPQRSTUVWXYZ0123456789"
  const LOWER_AND_DIGITS: string := "abcdefghijklmnopqrstuvwxyz0123456789"
  /** Not a table of its own: the digit tail the three tables above share. */
  const DIGITS: string := "0123456789"

  predicate IsUpper(c: char) { 'A' <= c <= 'Z' }
  predicate IsLower(c: char) { 'a' <= c <= 'z' }

  /** The two-part and three-part tables are the one-part tables laid end to end. */
  lemma TablesConcatenate()
    ensures UPPER_AND_LOWER == UPPER + LOWER
    ensures UPPER_LOWER_AND_DIGITS == UPPER + LOWER + DIGITS
    ensures UPPER_AND_DIGITS == UPPER + DIGITS
    ensures LOWER_AND_DIGITS == LOWER + DIGITS
  {
  }

  /** Entry `k` of each one-part table is the `k`-th letter or digit. */
  lemma TableEntries()
    ensures |UPPER| == 26 && |LOWER| == 26 && |DIGITS| == 10
    ensures forall k :: 0 <= k < 26 ==> UPPER[k] == Shift('A', k) && LOWER[k] == Shift('a', k)
    ensures forall k :: 0 <= k < 10 ==> DIGITS[k] == DigitChar(k)
  {
  }

  // ---------------------------------------------------------------------------
  // The reference alphabet: each draw's character computed arithmetically

  function Shift(first: char, k: int): char
    requires 0 <= first as int + k < 0x80
  {
    (first as int + k) as char
  }

  /**
    The number of letters a case selection admits, counted from the alphabet
    itself: 'A'..'Z' when upper case is selected, plus 'a'..'z' when lower case
    is.
  */
  function LetterCount(useUpperCase: bool, useLowerCase: bool): nat {
    (if useUpperCase then 'Z' as int - 'A' as int + 1 else 0)
      + (if useLowerCase then 'z' as int - 'a' as int + 1 else 0)
  }

  /** The number of decimal digits, counted from the alphabet: '0'..'9'. */
  function DigitCount(): nat {
    '9' as int - '0' as int + 1
  }

  /** Letter `k` of the selected cases, upper case first. */
  function LetterAt(useUpperCase: bool, useLowerCase: bool, k: int): (c: char)
    requires useUpperCase || useLowerCase
    requires 0 <= k < LetterCount(useUpperCase, useLowerCase)
    ensures (useUpperCase && IsUpper(c)) || (useLowerCase && IsLower(c))
  {
    if useUpperCase && k < 26 then Shift('A', k)
    else if useUpperCase then Shift('a', k - 26)
    else Shift('a', k)
  }

  /** The characters a variant may produce. */
  predicate InAlphabet(t: OutputCharsType, c: char) {
    match t
    case LatinAlphabet(u, l) => (u && IsUpper(c)) || (l && IsLower(c))
    case LatinAlphabetAndNumeric(u, l) => (u && IsUpper(c)) || (l && IsLower(c)) || IsAsciiDigit(c)
    case Numeric => IsAsciiDigit(c)
    case PrintableAsciiWithoutSpace => 0x21 <= c as int <= 0x7E
    case PrintableAsciiWithSpace => 0x20 <= c as int <= 0x7E
  }

  // ---------------------------------------------------------------------------
  // What the source computes per variant

  /** `range` in the `LatinAlphabet` arm. */
  function LatinRange(useUpperCase: bool, useLowerCase: bool): (r: nat)
    ensures useUpperCase || useLowerCase ==> r == LetterCount(useUpperCase, useLowerCase)
    ensures !useUpperCase && !useLowerCase ==> r == 26
  {
    if useUpperCase && useLowerCase then 26 + 26 else 26
  }

  /** `range` in the `LatinAlphabetAndNumeric` arm. */
  function LatinAndNumericRange(useUpperCase: bool, useLowerCase: bool): (r: nat)
    ensures useUpperCase || useLowerCase ==> r == LetterCount(useUpperCase, useLowerCase) + DigitCount()
    ensures !useUpperCase && !useLowerCase ==> r == 36
  {
    if useUpperCase && useLowerCase then 26 + 26 + 10 else 26 + 10
  }

  /**
    `charset` in the `LatinAlphabet` arm; `None` is the `unreachable!()` arm.
    The table has exactly `range` entries, so every draw indexes inside it, and
    entry `k` is letter `k` of the selected cases.
  */
  function LatinCharset(useUpperCase: bool, useLowerCase: bool): (r: Option<string>)
    ensures r.Some? <==> useUpperCase || useLowerCase
    ensures r.Some? ==> |r.value| == LatinRange(useUpperCase, useLowerCase)
    ensures r.Some? ==> forall k :: 0 <= k < |r.value| ==> r.value[k] == LetterAt(useUpperCase, useLowerCase, k)
  {
    TableEntries();
    TablesConcatenate();
    match (useUpperCase, useLowerCase)
    case (true, true) => Some(UPPER_AND_LOWER)
    case (true, false) => Some(UPPER)
    case (false, true) => Some(LOWER)
    case _ => None
  }

  /**
    `charset` in the `LatinAlphabetAndNumeric` arm; `None` is the
    `unreachable!()` arm. The table has exactly `range` entries: the letters of
    the selected cases, then the ten digits.
  */
  function LatinAndNumericCharset(useUpperCase: bool, useLowerCase: bool): (r: Option<string>)
    ensures r.Some? <==> useUpperCase || useLowerCase
    ensures r.Some? ==> |r.value| == LatinAndNumericRange(useUpperCase, useLowerCase)
    ensures r.Some? ==> forall k :: 0 <= k < LetterCount(useUpperCase, useLowerCase) ==>
      r.value[k] == LetterAt(useUpperCase, useLowerCase, k)
    ensures r.Some? ==> forall k :: LetterCount(useUpperCase, useLowerCase) <= k < |r.value| ==>
      r.value[k] == DigitChar(k - LetterCount(useUpperCase, useLowerCase))
  {
    TableEntries();
    TablesConcatenate();
    match (useUpperCase, useLowerCase)
    case (true, true) => Some(UPPER_LOWER_AND_DIGITS)
    case (true, false) => Some(UPPER_AND_DIGITS)
    case (false, true) => Some(LOWER_AND_DIGITS)
    case _ => None
  }

  /**
    The `Uniform` each variant samples from. A Latin-alphabet draw always
    indexes inside its table; a Numeric draw is always accepted by
    `from_digit`; a printable draw is a printable ASCII code point.
  */
  function Distribution(t: OutputCharsType): (r: Uniform)
    ensures t.LatinAlphabet? && IsSupported(t) ==>
      forall k :: r.Contains(k) <==> 0 <= k < |LatinCharset(t.useUpperCase, t.useLowerCase).value|
    ensures t.LatinAlphabetAndNumeric? && IsSupported(t) ==>
      forall k :: r.Contains(k) <==> 0 <= k < |LatinAndNumericCharset(t.useUpperCase, t.useLowerCase).value|
    ensures t.Numeric? ==> forall k :: r.Contains(k) <==> DecimalDigit(k).Some?
    ensures t.PrintableAsciiWithoutSpace? ==> forall k :: r.Contains(k) <==> 0x21 <= k <= 0x7E
    ensures t.PrintableAsciiWithSpace? ==> forall k :: r.Contains(k) <==> 0x20 <= k <= 0x7E
  {
    match t
    case LatinAlphabet(u, l) => UniformFrom(0, LatinRange(u, l))
    case LatinAlphabetAndNumeric(u, l) => UniformFrom(0, LatinAndNumericRange(u, l))
    case Numeric => UniformFromInclusive(0, 9)
    case PrintableAsciiWithoutSpace => UniformFromInclusive(0x21, 0x7E)
    case PrintableAsciiWithSpace => UniformFromInclusive(0x20, 0x7E)
  }

  /**
    The character draw `k` stands for. Draws and characters are in one-to-one
    correspondence (see `SymbolInjective` and `SymbolOnto`), so a uniform draw
    gives a uniform character with no bias.
  */
  function Symbol(t: OutputCharsType, k: int): (c: char)
    requires IsSupported(t) && Distribution(t).Contains(k)
    ensures InAlphabet(t, c)
  {
    match t
    case LatinAlphabet(u, l) => LetterAt(u, l, k)
    case LatinAlphabetAndNumeric(u, l) =>
      if k < LetterCount(u, l) then LetterAt(u, l, k) else DigitChar(k - LetterCount(u, l))
    case Numeric => DigitChar(k)
    case PrintableAsciiWithoutSpace => k as char
    case PrintableAsciiWithSpace => k as char
  }

  /** `.map(|n| charset[n] as char)` over the taken draws. */
  function IndexEach(charset: string, draws: seq<int>): (r: string)
    requires forall i :: 0 <= i < |draws| ==> 0 <= draws[i] < |charset|
    ensures |r| == |draws|
  {
    seq(|draws|, i requires 0 <= i < |draws| => charset[draws[i]])
  }

  /** `|n| std::char::from_digit(n as u32, 10)`, the Numeric arm's filter. */
  function DecimalDigit(n: int): (r: Option<char>)
    ensures r.Some? <==> 0 <= n < 10
    ensures r.Some? ==> IsAsciiDigit(r.value) && DigitValue(r.value) == n
  {
    FromDigit(n, 10)
  }

  /**
    `gen_random_string_with_rng(rng, n, t)`, with the rng's samples given as
    `draws`. It fails exactly when a Latin-alphabet variant has both case flags
    false; otherwise it takes exactly `n` draws, one per output character, and
    character `i` is the symbol of draw `i`.
  */
  function Generate(draws: seq<int>, n: nat, t: OutputCharsType): (r: Result<string, Panic>)
    requires IsSampleStream(Distribution(t), draws, n)
    ensures r.Ok? <==> IsSupported(t)
    ensures r.Err? ==> r.error == Unreachable
    ensures r.Ok? ==> |r.value| == n
    ensures r.Ok? ==> forall i :: 0 <= i < n ==> r.value[i] == Symbol(t, draws[i])
    ensures r.Ok? ==> forall i :: 0 <= i < n ==> InAlphabet(t, r.value[i])
  {
    var taken := draws[..n];
    match t
    case LatinAlphabet(u, l) =>
      (match LatinCharset(u, l)
       case None => Err(Unreachable)
       case Some(charset) => Ok(IndexEach(charset, taken)))
    case LatinAlphabetAndNumeric(u, l) =>
      (match LatinAndNumericCharset(u, l)
       case None => Err(Unreachable)
       case Some(charset) => Ok(IndexEach(charset, taken)))
    case Numeric =>
      FilterMapKeepsAll(taken, DecimalDigit);
      Ok(FilterMap(taken, DecimalDigit))
    case PrintableAsciiWithoutSpace =>
      FilterMapKeepsAll(taken, FromU32);
      Ok(FilterMap(taken, FromU32))
    case PrintableAsciiWithSpace =>
      FilterMapKeepsAll(taken, FromU32);
      Ok(FilterMap(taken, FromU32))
  }

  // ---------------------------------------------------------------------------
  // Properties of the generator

  /** Character `i` depends on draw `i` alone: generating from that one draw gives the same character. */
  lemma GenerateDrawwise(draws: seq<int>, n: nat, t: OutputCharsType, i: nat)
    requires IsSupported(t) && IsSampleStream(Distribution(t), draws, n)
    requires i < n
    ensures Generate([draws[i]], 1, t).Ok?
    ensures Generate(draws, n, t).value[i] == Generate([draws[i]], 1, t).value[0]
  {
  }

  /** Only the first `n` draws are read: streams that agree on them give the same string. */
  lemma GenerateReadsOnlyPrefix(draws: seq<int>, other: seq<int>, n: nat, t: OutputCharsType)
    requires IsSampleStream(Distribution(t), draws, n)
    requires n <= |other| && draws[..n] == other[..n]
    ensures IsSampleStream(Distribution(t), other, n)
    ensures Generate(draws, n, t) == Generate(other, n, t)
  {
    assert forall i :: 0 <= i < n ==> draws[i] == draws[..n][i] == other[..n][i] == other[i];
    if IsSupported(t) {
      assert Generate(draws, n, t).value == Generate(other, n, t).value;
    }
  }

  /**
    Exactly `n` draws are consumed: generating `n + m` characters is generating
    `n` and then `m` more from the draws after the first `n`.
  */
  lemma GenerateSplits(draws: seq<int>, n: nat, m: nat, t: OutputCharsType)
    requires IsSupported(t) && IsSampleStream(Distribution(t), draws, n + m)
    ensures IsSampleStream(Distribution(t), draws, n) && IsSampleStream(Distribution(t), draws[n..], m)
    ensures Generate(draws, n + m, t).value == Generate(draws, n, t).value + Generate(draws[n..], m, t).value
  {
    var whole, front, back := Generate(draws, n + m, t).value, Generate(draws, n, t).value, Generate(draws[n..], m, t).value;
    forall i | 0 <= i < n + m
      ensures whole[i] == (front + back)[i]
    {
      if i >= n {
        assert draws[n..][i - n] == draws[i];
      }
    }
  }

  /** A count of zero gives the empty string and needs no draws at all. */
  lemma GenerateNothing(t: OutputCharsType)
    requires IsSupported(t)
    ensures Generate([], 0, t) == Ok("")
  {
  }

  /** With both case flags false the Latin-alphabet variants panic rather than fall back to both cases. */
  lemma NoCaseSelectedPanics(draws: seq<int>, n: nat)
    requires IsSampleStream(Distribution(LatinAlphabet(false, false)), draws, n)
    requires IsSampleStream(Distribution(LatinAlphabetAndNumeric(false, false)), draws, n)
    ensures Generate(draws, n, LatinAlphabet(false, false)) == Err(Unreachable)
    ensures Generate(draws, n, LatinAlphabetAndNumeric(false, false)) == Err(Unreachable)
  {
  }

  /** Distinct draws give distinct characters. */
  lemma SymbolInjective(t: OutputCharsType, j: int, k: int)
    requires IsSupported(t) && Distribution(t).Contains(j) && Distribution(t).Contains(k)
    requires j != k
    ensures Symbol(t, j) != Symbol(t, k)
  {
  }

  /** Every character of the alphabet is the symbol of some draw. */
  lemma SymbolOnto(t: OutputCharsType, c: char)
    requires IsSupported(t) && InAlphabet(t, c)
    ensures exists k :: Distribution(t).Contains(k) && Symbol(t, k) == c
  {
    var upper := c as int - 'A' as int;
    var lower := c as int - 'a' as int;
    var digit := c as int - '0' as int;
    match t
    case LatinAlphabet(u, l) =>
      var k := if IsUpper(c) then upper else if u then 26 + lower else lower;
      assert Symbol(t, k) == c;
    case LatinAlphabetAndNumeric(u, l) =>
      var k := if IsAsciiDigit(c) then LetterCount(u, l) + digit
               else if IsUpper(c) then upper else if u then 26 + lower else lower;
      assert Symbol(t, k) == c;
    case Numeric =>
      assert Symbol(t, digit) == c;
    case PrintableAsciiWithoutSpace =>
      assert Symbol(t, c as int) == c;
    case PrintableAsciiWithSpace =>
      assert Symbol(t, c as int) == c;
  }

  /** The table landmarks: with both cases, index 0 is 'A', index 26 is 'a', and index 52 of the alphanumeric table is '0'. */
  lemma TableLandmarks()
    ensures Generate([0, 25, 26, 51], 4, LatinAlphabet(true, true)) == Ok("AZaz")
    ensures Generate([0, 25, 26, 51, 52, 61], 6, LatinAlphabetAndNumeric(true, true)) == Ok("AZaz09")
    ensures Generate([0, 25], 2, LatinAlphabet(false, true)) == Ok("az")
    ensures Generate([25, 26, 35], 3, LatinAlphabetAndNumeric(true, false)) == Ok("Z09")
  {
    var both := Generate([0, 25, 26, 51], 4, LatinAlphabet(true, true)).value;
    assert both[0] == 'A' && both[1] == 'Z' && both[2] == 'a' && both[3] == 'z';
    assert both == "AZaz";
    var all := Generate([0, 25, 26, 51, 52, 61], 6, LatinAlphabetAndNumeric(true, true)).value;
    assert all[0] == 'A' && all[1] == 'Z' && all[2] == 'a' && all[3] == 'z' && all[4] == '0' && all[5] == '9';
    assert all == "AZaz09";
    var lower := Generate([0, 25], 2, LatinAlphabet(false, true)).value;
    assert lower[0] == 'a' && lower[1] == 'z';
    assert lower == "az";
    var upper := Generate([25, 26, 35], 3, LatinAlphabetAndNumeric(true, false)).value;
    assert upper[0] == 'Z' && upper[1] == '0' && upper[2] == '9';
    assert upper == "Z09";
  }

  /** Both ends of the printable range are produced: space and tilde. */
  lemma PrintableEnds()
    ensures Generate([0x20, 0x7E], 2, PrintableAsciiWithSpace) == Ok(" ~")
    ensures Generate([0x21, 0x7E], 2, PrintableAsciiWithoutSpace) == Ok("!~")
  {
    var spaced := Generate([0x20, 0x7E], 2, PrintableAsciiWithSpace).value;
    assert spaced[0] == ' ' && spaced[1] == '~';
    assert spaced == " ~";
    var unspaced := Generate([0x21, 0x7E], 2, PrintableAsciiWithoutSpace).value;
    assert unspaced[0] == '!' && unspaced[1] == '~';
    assert unspaced == "!~";
  }

  /** Numeric output is the decimal digit of each draw. */
  lemma NumericDigits(draws: seq<int>, n: nat, i: nat)
    requires IsSampleStream(Distribution(Numeric), draws, n) && i < n
    ensures IsAsciiDigit(Generate(draws, n, Numeric).value[i])
    ensures DigitValue(Generate(draws, n, Numeric).value[i]) == draws[i]
  {
  }

  /** Printable output is the code point of each draw, and without space it is never a space. */
  lemma PrintableCodePoints(draws: seq<int>, n: nat, i: nat, withSpace: bool)
    requires var t := if withSpace then PrintableAsciiWithSpace else PrintableAsciiWithoutSpace;
      IsSampleStream(Distribution(t), draws, n) && i < n
    ensures var t := if withSpace then PrintableAsciiWithSpace else PrintableAsciiWithoutSpace;
      Generate(draws, n, t).value[i] as int == draws[i]
    ensures !withSpace ==> Generate(draws, n, PrintableAsciiWithoutSpace).value[i] != ' '
  {
  }
}
