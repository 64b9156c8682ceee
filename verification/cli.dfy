/**
  The `rsgen` command line: the argument validator, the defaults for the count
  and the number of lines, the choice of output character type from the flags,
  the command's own copy of the generator, and the loop that prints the lines.
*/
module RsGenCli {
  import opened Wrappers
  import opened RustStd
  import opened Rand
  import RsGen

  /** The command's own `OutputCharsType`. */
  datatype OutputCharsType =
    | Alphanumeric
    | Numeric
    | PrintableAsciiWithoutSpace
    | PrintableAsciiWithSpace

  // ---------------------------------------------------------------------------
  // The command's generator

  /** The `Uniform` the Numeric and printable arms sample from. */
  function LocalDistribution(t: OutputCharsType): (r: Uniform)
    requires !t.Alphanumeric?
    ensures t.Numeric? ==> forall k :: r.Contains(k) <==> 0 <= k <= 9
    ensures t.PrintableAsciiWithoutSpace? ==> forall k :: r.Contains(k) <==> 0x21 <= k <= 0x7E
    ensures t.PrintableAsciiWithSpace? ==> forall k :: r.Contains(k) <==> 0x20 <= k <= 0x7E
  {
    match t
    case Numeric => UniformFromInclusive(0, 9)
    case PrintableAsciiWithoutSpace => UniformFromInclusive(0x21, 0x7E)
    case PrintableAsciiWithSpace => UniformFromInclusive(0x20, 0x7E)
  }

  /** The library variant an arm of the command's generator copies. */
  function LibraryCounterpart(t: OutputCharsType): (r: RsGen.OutputCharsType)
    requires !t.Alphanumeric?
    ensures RsGen.IsSupported(r)
    ensures RsGen.Distribution(r) == LocalDistribution(t)
  {
    match t
    case Numeric => RsGen.Numeric
    case PrintableAsciiWithoutSpace => RsGen.PrintableAsciiWithoutSpace
    case PrintableAsciiWithSpace => RsGen.PrintableAsciiWithSpace
  }

  /**
    `draws` holds the first `n` samples of the arm's distribution. The
    Alphanumeric arm samples `rand::distributions::Alphanumeric`, which yields
    characters; its draws are their code points.
  */
  predicate IsLocalStream(t: OutputCharsType, draws: seq<int>, n: nat) {
    if t.Alphanumeric? then n <= |draws| && forall i :: 0 <= i < n ==> IsScalarValue(draws[i])
    else IsSampleStream(LocalDistribution(t), draws, n)
  }

  /** `.take(n).collect()` over sampled characters: the Alphanumeric arm. */
  function CollectChars(draws: seq<int>): (s: string)
    requires forall i :: 0 <= i < |draws| ==> IsScalarValue(draws[i])
    ensures |s| == |draws|
    ensures forall i :: 0 <= i < |draws| ==> s[i] as int == draws[i]
  {
    if draws == [] then []
    else
      assert IsScalarValue(draws[0]);
      [draws[0] as char] + CollectChars(draws[1..])
  }

  /**
    The command's `gen_random_string_with_rng`. Its Numeric and printable arms
    take exactly `n` draws and agree with the library character by character;
    the Alphanumeric arm passes the sampled characters through.
  */
  function GenerateLocal(draws: seq<int>, n: nat, t: OutputCharsType): (s: string)
    requires IsLocalStream(t, draws, n)
    ensures |s| == n
    ensures t.Alphanumeric? ==> forall i :: 0 <= i < n ==> s[i] as int == draws[i]
    ensures !t.Alphanumeric? ==> forall i :: 0 <= i < n ==> s[i] == RsGen.Symbol(LibraryCounterpart(t), draws[i])
  {
    var taken := draws[..n];
    match t
    case Alphanumeric => CollectChars(taken)
    case Numeric =>
      FilterMapKeepsAll(taken, RsGen.DecimalDigit);
      FilterMap(taken, RsGen.DecimalDigit)
    case PrintableAsciiWithoutSpace =>
      FilterMapKeepsAll(taken, FromU32);
      FilterMap(taken, FromU32)
    case PrintableAsciiWithSpace =>
      FilterMapKeepsAll(taken, FromU32);
      FilterMap(taken, FromU32)
  }

  /** The copied arms produce exactly what the library produces for the same draws. */
  lemma LocalMatchesLibrary(draws: seq<int>, n: nat, t: OutputCharsType)
    requires !t.Alphanumeric? && IsLocalStream(t, draws, n)
    ensures RsGen.Generate(draws, n, LibraryCounterpart(t)) == Ok(GenerateLocal(draws, n, t))
  {
    assert RsGen.Generate(draws, n, LibraryCounterpart(t)).value == GenerateLocal(draws, n, t);
  }

  /** The copied arms keep the library's bounds: digits, [0x21, 0x7E] and [0x20, 0x7E]. */
  lemma LocalBounds(draws: seq<int>, n: nat, t: OutputCharsType, i: nat)
    requires IsLocalStream(t, draws, n) && i < n
    ensures var c := GenerateLocal(draws, n, t)[i];
      && (t.Numeric? ==> IsAsciiDigit(c) && DigitValue(c) == draws[i])
      && (t.PrintableAsciiWithoutSpace? ==> 0x21 <= c as int <= 0x7E)
      && (t.PrintableAsciiWithSpace? ==> 0x20 <= c as int <= 0x7E)
  {
  }

  // ---------------------------------------------------------------------------
  // Arguments

  const ARGUMENT_ERROR: string := "The argument value must be 1 or greater."

  /**
    `argument_validator`: accepts exactly the strings that parse as a `usize`
    greater than zero; an unparsable string and a zero get the same message.
  */
  function ArgumentValidator(v: string): (r: Result<(), string>)
    ensures r.Ok? <==> ParseUsize(v).Some? && ParseUsize(v).value > 0
    ensures r.Ok? ==> exists i :: 0 <= i < |v| && '1' <= v[i] <= '9'
    ensures r.Err? ==> r.error == ARGUMENT_ERROR
  {
    match ParseUsize(v)
    case None => Err(ARGUMENT_ERROR)
    case Some(value) => if value > 0 then Ok(()) else Err(ARGUMENT_ERROR)
  }

  /** Every positive `usize`, written in decimal with or without '+', is accepted. */
  lemma ValidatorAcceptsPositive(n: nat)
    requires 1 <= n <= USIZE_MAX
    ensures ArgumentValidator(ToDecimal(n)) == Ok(())
    ensures ArgumentValidator("+" + ToDecimal(n)) == Ok(())
  {
    ParseUsizeOfDecimal(n);
  }

  /** Zero, the empty string, a sign alone, a negative number and an overflowing number are rejected. */
  lemma ValidatorRejects()
    ensures ArgumentValidator("0") == Err(ARGUMENT_ERROR)
    ensures ArgumentValidator("+0") == Err(ARGUMENT_ERROR)
    ensures ArgumentValidator("") == Err(ARGUMENT_ERROR)
    ensures ArgumentValidator("+") == Err(ARGUMENT_ERROR)
    ensures ArgumentValidator("-1") == Err(ARGUMENT_ERROR)
    ensures ArgumentValidator(ToDecimal(USIZE_MAX + 1)) == Err(ARGUMENT_ERROR)
  {
    ParseUsizeOverflow(USIZE_MAX + 1);
  }

  const DEFAULT_COUNT: nat := 8
  const DEFAULT_LINES: nat := 1

  /**
    `matches.value_of(name).and_then(|v| v.parse().ok()).unwrap_or(default)`:
    the parsed value when there is one that parses, the default otherwise.
  */
  function ValueOr(value: Option<string>, default: nat): (r: nat)
    ensures value.Some? && ParseUsize(value.value).Some? ==> r == ParseUsize(value.value).value
    ensures value.None? || ParseUsize(value.value).None? ==> r == default
    ensures value.Some? && ArgumentValidator(value.value).Ok? ==> r >= 1
  {
    match value
    case None => default
    case Some(v) =>
      match ParseUsize(v)
      case Some(n) => n
      case None => default
  }

  /** An absent or unparsable count is 8 and an absent or unparsable number of lines is 1. */
  lemma Defaults(junk: string)
    requires ParseUsize(junk).None?
    ensures ValueOr(None, DEFAULT_COUNT) == 8 && ValueOr(Some(junk), DEFAULT_COUNT) == 8
    ensures ValueOr(None, DEFAULT_LINES) == 1 && ValueOr(Some(junk), DEFAULT_LINES) == 1
  {
  }

  /**
    The output type from the flags: numeric wins over printable-ascii, which
    wins over printable-ascii-with-space; with none of them, Alphanumeric.
  */
  function SelectOutputCharsType(numeric: bool, printableAscii: bool, printableAsciiWithSpace: bool): (r: OutputCharsType)
    ensures r.Numeric? <==> numeric
    ensures r.PrintableAsciiWithoutSpace? <==> !numeric && printableAscii
    ensures r.PrintableAsciiWithSpace? <==> !numeric && !printableAscii && printableAsciiWithSpace
    ensures r.Alphanumeric? <==> !numeric && !printableAscii && !printableAsciiWithSpace
  {
    if numeric then Numeric
    else if printableAscii then PrintableAsciiWithoutSpace
    else if printableAsciiWithSpace then PrintableAsciiWithSpace
    else Alphanumeric
  }

  /**
    The three flags conflict with one another, so at most one is set; then the
    type is exactly the one the set flag names.
  */
  lemma SelectionUnderConflicts(numeric: bool, printableAscii: bool, printableAsciiWithSpace: bool)
    requires !(numeric && printableAscii) && !(numeric && printableAsciiWithSpace) && !(printableAscii && printableAsciiWithSpace)
    ensures SelectOutputCharsType(numeric, printableAscii, printableAsciiWithSpace).PrintableAsciiWithoutSpace? <==> printableAscii
    ensures SelectOutputCharsType(numeric, printableAscii, printableAsciiWithSpace).PrintableAsciiWithSpace? <==> printableAsciiWithSpace
  {
  }

  // ---------------------------------------------------------------------------
  // Output

  /** What `clap` hands to `main`: the two values (if any) and the flags. */
  datatype Matches = Matches(
    count: Option<string>,
    lines: Option<string>,
    numeric: bool,
    printableAscii: bool,
    printableAsciiWithSpace: bool,
    fast: bool)

  /** `number_of_characters`: 8 when `--count` is absent, else the validated value. */
  function CountOf(m: Matches): (r: nat)
    ensures m.count.None? ==> r == DEFAULT_COUNT
    ensures m.count.Some? && ArgumentValidator(m.count.value).Ok? ==> r >= 1 && Some(r) == ParseUsize(m.count.value)
  {
    ValueOr(m.count, DEFAULT_COUNT)
  }

  /** `number_of_lines`: 1 when `--lines` is absent, else the validated value. */
  function LinesOf(m: Matches): (r: nat)
    ensures m.lines.None? ==> r == DEFAULT_LINES
    ensures m.lines.Some? && ArgumentValidator(m.lines.value).Ok? ==> r >= 1 && Some(r) == ParseUsize(m.lines.value)
  {
    ValueOr(m.lines, DEFAULT_LINES)
  }

  /** `output_chars_type`: `--numeric` first, then `-p`, then `-P`, else Alphanumeric. */
  function TypeOf(m: Matches): (r: OutputCharsType)
    ensures r.Numeric? <==> m.numeric
    ensures r.Alphanumeric? <==> !m.numeric && !m.printableAscii && !m.printableAsciiWithSpace
  {
    SelectOutputCharsType(m.numeric, m.printableAscii, m.printableAsciiWithSpace)
  }

  /** Each line's call to the generator gets its own draws. */
  predicate DrawsSuffice(lineDraws: seq<seq<int>>, count: nat, lines: nat, t: OutputCharsType) {
    lines <= |lineDraws| && forall j :: 0 <= j < lines ==> IsLocalStream(t, lineDraws[j], count)
  }

  /** `repeat(()).take(lines).map(|_| gen_random_string(count, t, fast))`. */
  function GenerateLines(lineDraws: seq<seq<int>>, count: nat, lines: nat, t: OutputCharsType): (r: seq<string>)
    requires DrawsSuffice(lineDraws, count, lines, t)
    ensures |r| == lines
    ensures forall j :: 0 <= j < lines ==> |r[j]| == count
  {
    seq(lines, j requires 0 <= j < lines => GenerateLocal(lineDraws[j], count, t))
  }

  /** What follows line `i` of `n`: a newline, except after the last line when not writing to a terminal. */
  function Terminator(i: nat, n: nat, isTerminal: bool): (r: string)
    ensures r == "" || r == "\n"
    ensures r == "" <==> !isTerminal && i + 1 == n
  {
    if isTerminal || i != n - 1 then "\n" else ""
  }

  /** The lines joined by newlines, with nothing after the last. */
  function Join(lines: seq<string>): string {
    if lines == [] then ""
    else if |lines| == 1 then lines[0]
    else lines[0] + "\n" + Join(lines[1..])
  }

  lemma {:induction false} JoinSnoc(lines: seq<string>, line: string)
    requires lines != []
    ensures Join(lines + [line]) == Join(lines) + "\n" + line
  {
    if |lines| > 1 {
      JoinSnoc(lines[1..], line);
      assert (lines + [line])[1..] == lines[1..] + [line];
    }
  }

  /**
    The text printed for the first `k` of `lines`: those lines joined by
    newlines, followed by a newline unless the last of all the lines has been
    printed to a pipe.
  */
  function Emitted(lines: seq<string>, k: nat, isTerminal: bool): (r: string)
    requires k <= |lines|
    ensures k == 0 ==> r == ""
    ensures 0 < k && (k < |lines| || isTerminal) ==> r == Join(lines[..k]) + "\n"
    ensures 0 < k && k == |lines| && !isTerminal ==> r == Join(lines[..k])
  {
    if k == 0 then ""
    else
      var text := Emitted(lines, k - 1, isTerminal) + lines[k - 1] + Terminator(k - 1, |lines|, isTerminal);
      if k > 1 then
        JoinSnoc(lines[..k - 1], lines[k - 1]);
        assert lines[..k - 1] + [lines[k - 1]] == lines[..k];
        text
      else
        text
  }

  /**
    Everything printed for `lines`, the newline rule: on a terminal every line,
    the last included, ends with a newline; otherwise the lines are separated
    by newlines and the last has none.
  */
  function Render(lines: seq<string>, isTerminal: bool): (r: string)
    ensures !isTerminal ==> r == Join(lines)
    ensures isTerminal && lines != [] ==> r == Join(lines) + "\n"
  {
    assert lines[..|lines|] == lines;
    Emitted(lines, |lines|, isTerminal)
  }

  /**
    `main` after argument parsing: resolve the count, the number of lines and
    the output type, then generate and print line by line. `isTerminal` is what
    `atty::is(Stdout)` reports; the result is everything written to stdout.
  */
  method Run(m: Matches, lineDraws: seq<seq<int>>, isTerminal: bool) returns (out: string)
    requires DrawsSuffice(lineDraws, CountOf(m), LinesOf(m), TypeOf(m))
    ensures out == Render(GenerateLines(lineDraws, CountOf(m), LinesOf(m), TypeOf(m)), isTerminal)
    ensures !isTerminal ==> out == Join(GenerateLines(lineDraws, CountOf(m), LinesOf(m), TypeOf(m)))
    ensures isTerminal && LinesOf(m) > 0 ==> out == Join(GenerateLines(lineDraws, CountOf(m), LinesOf(m), TypeOf(m))) + "\n"
  {
    var numberOfCharacters := ValueOr(m.count, DEFAULT_COUNT);
    var numberOfLines := ValueOr(m.lines, DEFAULT_LINES);
    var outputCharsType := SelectOutputCharsType(m.numeric, m.printableAscii, m.printableAsciiWithSpace);
    ghost var all := GenerateLines(lineDraws, numberOfCharacters, numberOfLines, outputCharsType);
    out := "";
    var i := 0;
    while i < numberOfLines
      invariant 0 <= i <= numberOfLines
      invariant out == Emitted(all, i, isTerminal)
    {
      var s := GenerateLocal(lineDraws[i], numberOfCharacters, outputCharsType);
      if isTerminal {
        out := out + s + "\n";
      } else if i == numberOfLines - 1 {
        out := out + s;
      } else {
        out := out + s + "\n";
      }
      i := i + 1;
    }
  }

  /** The number of newline characters in `s`. */
  function NewlineCount(s: string): nat {
    multiset(s)['\n']
  }

  predicate HasNoNewline(s: string) {
    forall i :: 0 <= i < |s| ==> s[i] != '\n'
  }

  lemma {:induction false} JoinNewlines(lines: seq<string>)
    requires lines != []
    requires forall j :: 0 <= j < |lines| ==> HasNoNewline(lines[j])
    ensures NewlineCount(Join(lines)) == |lines| - 1
  {
    assert forall j :: 0 <= j < |lines| ==> '\n' !in multiset(lines[j]);
    if |lines| > 1 {
      JoinNewlines(lines[1..]);
      assert lines[1..][0] == lines[1];
    }
  }

  /** Digits and printable ASCII never include a newline. */
  lemma {:induction false} GeneratedLinesHaveNoNewline(lineDraws: seq<seq<int>>, count: nat, lines: nat, t: OutputCharsType)
    requires !t.Alphanumeric? && DrawsSuffice(lineDraws, count, lines, t)
    ensures forall j :: 0 <= j < lines ==> HasNoNewline(GenerateLines(lineDraws, count, lines, t)[j])
  {
    forall j, i | 0 <= j < lines && 0 <= i < count
      ensures GenerateLines(lineDraws, count, lines, t)[j][i] != '\n'
    {
      LocalBounds(lineDraws[j], count, t, i);
    }
  }

  /**
    For the Numeric and printable types the output holds exactly one newline
    per line on a terminal, and one fewer when piped.
  */
  lemma PrintedNewlines(m: Matches, lineDraws: seq<seq<int>>, isTerminal: bool)
    requires !TypeOf(m).Alphanumeric? && LinesOf(m) > 0
    requires DrawsSuffice(lineDraws, CountOf(m), LinesOf(m), TypeOf(m))
    ensures NewlineCount(Render(GenerateLines(lineDraws, CountOf(m), LinesOf(m), TypeOf(m)), isTerminal))
      == if isTerminal then LinesOf(m) else LinesOf(m) - 1
  {
    var all := GenerateLines(lineDraws, CountOf(m), LinesOf(m), TypeOf(m));
    GeneratedLinesHaveNoNewline(lineDraws, CountOf(m), LinesOf(m), TypeOf(m));
    JoinNewlines(all);
    assert multiset(Join(all) + "\n") == multiset(Join(all)) + multiset("\n");
  }
}
