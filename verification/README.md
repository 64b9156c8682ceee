# rsgen in Dafny

A model of `rsgen`, a small Rust library and command-line tool that prints random
character strings.

The library function `gen_random_string_with_rng` takes an `OutputCharsType`, a
count and a random number generator. It fixes a `Uniform` range for the chosen
variant and takes exactly `count` samples from the generator. Each sample then
becomes one character:

- the Latin-alphabet variants index a fixed ASCII table;
- `Numeric` converts the sample to a decimal digit;
- the printable-ASCII variants treat the sample as a code point.

The command line adds:

- a validator for the `--count` and `--lines` values;
- defaults for those values;
- a priority rule that picks the output type from the flags;
- its own copy of the Numeric and printable-ASCII arms;
- a loop that prints the lines. Whether every line, or every line but the last, ends in a newline depends on whether stdout is a terminal.

The random number generator is not modelled. What `rng.sample_iter(&uniform)`
yields is an input: a sequence of draws, each inside the declared range
(`Rand.IsSampleStream`). Given that sequence, the generator is a total,
deterministic function (`RsGen.Generate`).

Files:

- `wrappers.dfy`: `Option` and `Result`.
- `rand_model.dfy`: `Uniform` and sample streams.
- `std_model.dfy`: `char::from_digit`, `char::from_u32`, `filter_map` and `str::parse::<usize>`.
- `lib.dfy`: module `RsGen`, the library in `src/lib.rs`.
- `cli.dfy`: module `RsGenCli`, the command in `src/main.rs`.

Two behaviours of the code worth knowing:

- When both case flags of `LatinAlphabet` or `LatinAlphabetAndNumeric` are false, the code computes the one-case range and then reaches `unreachable!()`, so it panics. `Generate` returns `Err(Unreachable)` in that case.
- `take(n)` comes before `filter_map`, so exactly `n` draws are consumed. `FilterMapKeepsAll` shows that the filter never drops one.

## Model

| member | source | states |
|---|---|---|
| `RsGen.Generate` | src/lib.rs:81-152 | Fails (`unreachable!` panic) exactly when a Latin-alphabet variant has both case flags false; otherwise the string has exactly `n` characters, character `i` is the symbol of draw `i`, and every character lies in the variant's alphabet |
| `RsGen.LatinCharset` | src/lib.rs:94-103 | The table exists exactly when a case flag is set; its length equals `range` (26 or 52), so every draw in `[0, range)` indexes inside it; entry `k` is letter `k` of the selected cases, upper case first |
| `RsGen.LatinAndNumericCharset` | src/lib.rs:114-123 | The table exists exactly when a case flag is set; its length equals `range` (36 or 62); the letters of the selected cases come first, then '0'..'9' |
| `RsGen.TableEntries` | src/lib.rs:98-121 | The one-case tables are the 26 consecutive letters from 'A' and from 'a', and the digit tail is '0'..'9' in order |
| `RsGen.TablesConcatenate` | src/lib.rs:98-121 | The two-case and alphanumeric tables are the one-case tables followed by one another and by the digits |
| `RsGen.LatinRange` | src/lib.rs:94-97 | `range` of the `LatinAlphabet` arm: with a case selected, the number of letters 'A'..'Z' and/or 'a'..'z' the selection admits; with none, the one-case 26 computed before the panic, which is not the size of any alphabet |
| `RsGen.LatinAndNumericRange` | src/lib.rs:114-117 | `range` of the `LatinAlphabetAndNumeric` arm: with a case selected, the letters the selection admits plus the digits '0'..'9'; with none, the one-case 36 computed before the panic |
| `RsGen.Distribution` | src/lib.rs:104-145 | The five `Uniform::from` calls: a Latin-alphabet draw lies exactly in `[0, table length)`; a Numeric draw is exactly one `from_digit(_, 10)` accepts; printable draws lie exactly in [0x21, 0x7E] or [0x20, 0x7E] |
| `RsGen.IndexEach` | src/lib.rs:105-108 | The `map` of each draw `n` to `charset[n] as char`: one character per taken draw (element `i` is `charset[draws[i]]` by definition) |
| `RsGen.DecimalDigit` | src/lib.rs:134 | `from_digit(n, 10)` succeeds exactly for `0 <= n < 10`, giving the ASCII digit whose value is `n` |
| `RustStd.FilterMap` | src/lib.rs:134 | `filter_map(..).collect()` never yields more elements than it is given; `FilterMapKeepsAll` gives equality when nothing is rejected |
| `RsGen.Symbol` | src/lib.rs:89-150 | The character a draw stands for always lies in the variant's alphabet |
| `RsGen.SymbolInjective` | src/lib.rs:89-150 | Distinct draws give distinct characters |
| `RsGen.SymbolOnto` | src/lib.rs:89-150 | Every character of the variant's alphabet is the image of some draw in the declared range, so draws and characters are in one-to-one correspondence |
| `RsGen.GenerateDrawwise` | src/lib.rs:105-108 | Character `i` depends on draw `i` alone |
| `RsGen.GenerateReadsOnlyPrefix` | src/lib.rs:105-106 | Only the first `n` draws are read: streams agreeing on them give the same result |
| `RsGen.GenerateSplits` | src/lib.rs:132-134 | Exactly `n` draws are consumed: generating `n + m` characters equals generating `n`, then `m` from the remaining draws |
| `RsGen.GenerateNothing` | src/lib.rs:105-108 | A count of zero gives the empty string from an empty draw stream |
| `RsGen.NoCaseSelectedPanics` | src/lib.rs:94-122 | Both case flags false is the failure path for both Latin-alphabet variants, not a fallback |
| `RsGen.TableLandmarks` | src/lib.rs:98-121 | With both cases, index 0 is 'A', 25 'Z', 26 'a', 51 'z' and (alphanumeric) 52 '0', 61 '9'; lower-only index 0 is 'a'; upper-only alphanumeric index 26 is '0' |
| `RsGen.NumericDigits` | src/lib.rs:130-135 | Numeric output character `i` is an ASCII digit whose value is draw `i` |
| `RsGen.PrintableCodePoints` | src/lib.rs:137-149 | Printable output character `i` has code point draw `i`; without space it is never a space |
| `RsGen.PrintableEnds` | src/lib.rs:144-149 | Space (0x20) and tilde (0x7E) are both produced with space; '!' (0x21) and '~' without |
| `RustStd.FilterMapKeepsAll` | src/lib.rs:131-134 | When the conversion accepts every draw, `filter_map` keeps one output per draw, in order, each the image of its draw |
| `RustStd.FromDigit` | src/lib.rs:134 | `from_digit(n, radix)` succeeds exactly for `0 <= n < radix` and gives the ASCII digit of `n` below 10 |
| `RustStd.FromU32` | src/lib.rs:141 | `from_u32` succeeds exactly on Unicode scalar values and keeps the code point |
| `Rand.UniformFrom` | src/lib.rs:104 | `Uniform::from(low..high)` contains exactly `low <= k < high` |
| `Rand.UniformFromInclusive` | src/lib.rs:131 | `Uniform::from(low..=high)` contains exactly `low <= k <= high`, both ends included |
| `RustStd.ParseUsize` | src/main.rs:151 | `parse::<usize>` succeeds only on an optional '+' followed by at least one ASCII digit (a lone '+' is rejected), and the parsed value is the value of those digits, at most `usize::MAX`; the value is positive exactly when some digit is 1-9 |
| `RustStd.ParseUsizeOfDigits` | src/main.rs:151 | The converse: every non-empty digit string, leading zeros included ("007", "+0010"), with or without '+', parses to the value of its digits when that is at most `usize::MAX`, and is rejected otherwise |
| `RustStd.DigitsValuePositive` | src/main.rs:151-152 | A digit string's value is positive exactly when one of its digits is not '0' |
| `RustStd.ParseUsizeOfDecimal` | src/main.rs:151 | Parsing the decimal form of any `usize`, with or without '+', gives it back |
| `RustStd.ParseUsizeOverflow` | src/main.rs:151 | A decimal value above `usize::MAX` does not parse |
| `RsGenCli.ArgumentValidator` | src/main.rs:149-157 | Accepts exactly the strings that parse as a `usize` greater than 0; an accepted string has a nonzero digit; every rejection carries "The argument value must be 1 or greater." |
| `RsGenCli.ValidatorAcceptsPositive` | src/main.rs:149-157 | Every positive `usize` in decimal, with or without '+', is accepted |
| `RsGenCli.ValidatorRejects` | src/main.rs:150-156 | "0", "+0", "", "+", "-1" and an overflowing number are all rejected with the same message |
| `RsGenCli.ValueOr` | src/main.rs:213-220 | The parsed value when present and parsable, else the default; a validated value gives at least 1 |
| `RsGenCli.Defaults` | src/main.rs:213-220 | An absent or unparsable count is 8 and an absent or unparsable line count is 1 |
| `RsGenCli.SelectOutputCharsType` | src/main.rs:222-230 | Numeric exactly when `--numeric`; printable without space exactly when `-p` and not `-n`; with space exactly when only `-P` of the three; Alphanumeric exactly when none |
| `RsGenCli.SelectionUnderConflicts` | src/main.rs:222-230 | When at most one of the conflicting flags is set, the chosen type is the one that flag names |
| `RsGenCli.LocalDistribution` | src/main.rs:111-125 | The command's `Uniform`s: Numeric draws lie exactly in [0, 9], printable draws exactly in [0x21, 0x7E] or [0x20, 0x7E] |
| `RsGenCli.CollectChars` | src/main.rs:106-109 | The Alphanumeric arm's `take(n).collect()`: one character per sample, keeping its code point |
| `RsGenCli.LibraryCounterpart` | src/main.rs:110-130 | Each copied arm samples the same `Uniform` as the library variant it copies |
| `RsGenCli.GenerateLocal` | src/main.rs:97-132 | The command's generator returns exactly `n` characters; the copied arms give character `i` as the library's symbol of draw `i`; the Alphanumeric arm passes the sampled characters through |
| `RsGenCli.LocalMatchesLibrary` | src/main.rs:110-130 | The Numeric and printable arms of the command produce exactly the library's output for the same draws |
| `RsGenCli.LocalBounds` | src/main.rs:110-130 | The command's copy keeps the library's bounds: digits equal to their draw, [0x21, 0x7E], [0x20, 0x7E] |
| `RsGenCli.GenerateLines` | src/main.rs:233-235 | Exactly `number_of_lines` strings, each of `number_of_characters` characters |
| `RsGenCli.CountOf` | src/main.rs:213-216 | `number_of_characters`: 8 when `--count` is absent; a validated value is its parse, at least 1 |
| `RsGenCli.LinesOf` | src/main.rs:217-220 | `number_of_lines`: 1 when `--lines` is absent; a validated value is its parse, at least 1 |
| `RsGenCli.TypeOf` | src/main.rs:222-230 | Numeric exactly when `--numeric` is present; Alphanumeric exactly when none of the three type flags is |
| `RsGenCli.Terminator` | src/main.rs:238-245 | What follows line `i`: a newline, and nothing exactly when piped and `i` is the last line |
| `RsGenCli.Emitted` | src/main.rs:237-246 | After `k > 0` lines the printed text is those lines joined by newlines, followed by a newline unless the last line went to a pipe |
| `RsGenCli.Render` | src/main.rs:237-246 | Piped output is the lines joined by newlines with none after the last; terminal output is the same plus a final newline, so every line ends with one |
| `RsGenCli.JoinNewlines` | src/main.rs:237-246 | Joining lines that hold no newline puts exactly one newline between consecutive lines |
| `RsGenCli.GeneratedLinesHaveNoNewline` | src/main.rs:110-130 | Digit and printable-ASCII lines never contain a newline |
| `RsGenCli.PrintedNewlines` | src/main.rs:232-247 | For the Numeric and printable types the output has one newline per line on a terminal and one fewer when piped |
| `RsGenCli.Run` | src/main.rs:213-247 | `main` after parsing: the loop prints the generated lines in order with the terminal-dependent newline rule; piped output equals the lines joined by newlines, terminal output adds one final newline |

## Left out

- The random number generators: `thread_rng`, the time-seeded `XorShiftRng` behind a global `Arc<Mutex<…>>`, and its locking (src/main.rs:77-87, src/main.rs:134-147). They are foreign code, global state, concurrency and the clock. Each call's samples are an input sequence, so `--fast` does not change the model.
- `gen_random_string` (src/lib.rs:54-57) only supplies `thread_rng` to `gen_random_string_with_rng`. It is `Generate` with that generator's draws.
- How `Uniform` turns raw random bits into a sample, and any claim about uniformity or a chi-square test. These are statistical and cannot be checked by a verifier. The model shows instead that draws map one-to-one onto the alphabet (`SymbolInjective`, `SymbolOnto`), so the table adds no bias.
- RsGenCli.GenerateLocal: does not state the alphabet of the Alphanumeric arm, because `rand::distributions::Alphanumeric` is not part of this model. Its samples are taken as given characters.
- The declaration of the `clap` arguments, help, version and the rejection of conflicting flags (src/main.rs:160-211). `Matches` stands for what `clap` returns. `SelectionUnderConflicts` states the conflicts as a precondition.
- Terminal detection through `atty` is the parameter `isTerminal`. The actual `print!`/`println!` calls are modelled by the text they write, returned by `Run`.
- Integer widths of the draws (`i32`, `u32`, `usize`): every draw lies in a small non-negative range, so the casts are the identity and the draws are `int`. `usize` is taken to be 64 bits wide for the parse overflow bound.
- The byte tables are ASCII, so `b as char` keeps the code point, and they are modelled as strings.
