# Advent of Code 2023, days 1 and 2, in Dafny

A model of the solving core of two Rust programs.

- **Day 1 (`Calibration`, day1.dfy).** Each line of a calibration document
  hides a two-digit value. In part one it is the first and last digit
  character (`decode_value`). In part two, digits and spelled-out digit words
  both count. They are found by scanning every byte position against the
  twenty-entry table `NUM_TOKENS` (`tokenize_string`, `str_to_u32`), and the
  first and last values found are combined.
- **Day 2 (`CubeGame`, day2.dfy, and `GameParser`, day2_parse.dfy).** A game
  record `Game <n>: <draw>; <draw>; ...` lists draws of red, green and blue
  cubes. The parser (`parse_game_data`) turns a line into a `Game`. The
  smallest bag explaining a game is computed by `calculate_minimum_bag`.
  `validate_game` checks a game against a bag, and `calculate_power`
  multiplies a bag's three counts. Part one sums the numbers of the games the
  bag (12 red, 13 green, 14 blue) can produce. Part two sums the powers of
  the minimum bags. As in the source, only the text between the first colon
  and a second one is parsed as draws; anything after a second colon is
  ignored.
- **Worked scenarios of day 1 (`CalibrationExamples`, day1_examples.dfy).**
  The spellings that share letters (`oneight`, `twone`, `eightwothree`), a
  line that mixes words and digits (`two1nine`) and a digits-only decode
  (`a1b2c3`), each stated for any line reading as that text.
- **Rust text primitives (`Text`, text.dfy).** The parts of Rust's string and
  integer library the solvers rely on, restricted to ASCII:
  - `char::is_numeric` and `to_digit(10)`, `char::is_whitespace`;
  - `str::trim` and `str::split` on one character;
  - `str::parse::<u32>` (an optional `+`, one or more digits, at most
    4294967295).

  A canonical decimal rendering (`ShowNat`) is the partner of `ParseU32`.
- **Failure values (`Results`, results.dfy).** A `Result`/`Option` pair.
  `Err` stands for the source's `anyhow` errors and for the one panic the
  model turns into an error (a cube clause whose only word is a u32). The
  other panics that depend on the input are preconditions (a line without a
  digit in `decode_value`, a line without a token in part two) or are listed
  under "Left out" (slicing inside a multi-byte character, u32 overflow).

The loops of the source are kept as loops:
- `tokenize_string`, `str_to_u32`, `calculate_minimum_bag`, `validate_game`,
  `parse_game_data` and the part folds are `method`s with loop invariants.
- `decode_value` compacts a character array in place, as `Vec::retain` does.

Each method is proved equal to a reference function or characterized
completely by its ensures, and the properties are proved about those
functions. `StrToU32` has no reference function: its ensures state its
result case by case. `ValidateGame` is proved equal to `Ok(Feasible(..))`
when the bag holds all three colours. Otherwise its ensures say that
`Ok(true)` comes exactly for a feasible game and `Err` only from a missing
colour. The reference functions are:
- `Tokens` for `tokenize_string`;
- `DecodeSpec` for `decode_value`;
- `MinimumBag` for `calculate_minimum_bag`;
- `ParseGame` for `parse_game_data`;
- `Feasible` for `validate_game`.

`HashMap` iteration in `calculate_minimum_bag` and `validate_game` is a free
choice (`:|`) of the next key, so their contracts hold for every order.

## Model

| member | source | states |
|---|---|---|
| Calibration.TokenValue | day1/src/main.rs:4-25 | the table entry at index i stands for a digit 0..9 |
| Calibration.TableShape | day1/src/main.rs:4-25 | the table has 20 entries: ten words longer than one byte that do not start with a digit, then ten single digit characters each standing for its own value |
| Calibration.TableEntriesDistinct | day1/src/main.rs:4-25 | no spelling occurs twice in the table, so `str_to_u32`'s last-match index is the only one |
| Calibration.FirstMatchFrom | day1/src/main.rs:30-36 | the result is the lowest table index from t on whose entry fits and matches at pos; None means no entry from t on matches |
| Calibration.FirstMatchIsLeast | day1/src/main.rs:30-36 | a matching entry with no earlier matching entry is the one the scan stops at |
| Calibration.TokenAt | day1/src/main.rs:29-38 | a value emitted at a position is a digit 0..9 |
| Calibration.StrToU32 | day1/src/main.rs:44-56 | an error exactly for the empty text; a text starting with a digit gives that digit; a table entry gives its digit; any other text gives 0 |
| Calibration.MatchAt | day1/src/main.rs:30-38 | trying the table in order at one position emits exactly the value of the first matching entry, or nothing |
| Calibration.Hits | day1/src/main.rs:29-39 | the scan looks at every byte position exactly once |
| Calibration.CollectBounded | day1/src/main.rs:29-39 | gathering per-position results of digits 0..9 gives at most one value per position, each 0..9 |
| Calibration.CollectPrefix | day1/src/main.rs:29-39 | gathering fewer positions gives a prefix of gathering more |
| Calibration.TokensUpToStep | day1/src/main.rs:29-39 | one more loop step appends exactly what the table match at that position emits |
| Calibration.TokenizeString | day1/src/main.rs:27-42 | the output is one value per byte position where a spelling starts, in position order, with overlaps kept |
| Calibration.TokensUpToBounded | day1/src/main.rs:27-42 | scanning n positions emits at most n values, each at most 9 |
| Calibration.TokensBounded | day1/src/main.rs:27-42 | a line yields at most one value per byte, each a digit 0..9 |
| Calibration.TokensUpToPrefix | day1/src/main.rs:29-39 | scanning further only appends: the output for m positions is a prefix of that for n >= m |
| Calibration.TokenReportedInOrder | day1/src/main.rs:29-39 | every matching position's value appears in the output, after the values of all earlier positions |
| Calibration.MatchCountGrows | day1/src/main.rs:29-39 | a match at p puts one more value before any later position |
| Calibration.OverlapsBothReported | day1/src/main.rs:34-35 | advancing the index after a match has no effect, so a spelling starting at any later position, even inside an earlier one, is reported too, after it |
| Calibration.TokenAtDigit | day1/src/main.rs:51-54 | at a digit character the scan emits exactly that digit |
| Calibration.TokenAtNonDigit | day1/src/main.rs:30-38 | at a non-digit where no word starts, nothing is emitted |
| Calibration.TokensWithoutWords | day1/src/main.rs:27-42 | a line containing no spelled-out word yields exactly its digit characters' values |
| Calibration.AllDigitLine | day1/src/main.rs:27-42 | an all-digit line yields one value per character, its digit value |
| Calibration.NoSpellingNoTokens | day1/src/main.rs:27-42 | a line where no table entry occurs yields no values |
| Calibration.DigitChars | day1/src/main.rs:59-60 | `retain(is_numeric)` keeps only digit characters and never grows the line |
| Calibration.DigitCharsStep | day1/src/main.rs:60 | `retain` keeps the character at each step exactly when it is a digit, after the digits kept so far |
| Calibration.DigitCharsEnds | day1/src/main.rs:59-63 | the retained digits are non-empty; the first and last are the line's first and last digit characters |
| Calibration.NoDigitChars | day1/src/main.rs:59-60 | a line without digits retains nothing |
| Calibration.FirstDigitAt | day1/src/main.rs:62 | the index holds a digit and no earlier character is one |
| Calibration.LastDigitAt | day1/src/main.rs:63 | the index holds a digit and no later character is one |
| Calibration.DecodeValue | day1/src/main.rs:58-66 | the value is 10 times the first digit character plus the last, at most 99 |
| Calibration.DecodeSpecRange | day1/src/main.rs:62-64 | the decoded value is at most 99; a line with a single digit d gives 11*d |
| Calibration.CombineRange | day1/src/main.rs:86-89 | the combined first and last token is at most 99; a single token t gives 11*t |
| Calibration.Part1 | day1/src/main.rs:68-78 | the total is the sum of the lines' decoded values, at most 99 per line |
| Calibration.Part2 | day1/src/main.rs:80-94 | the total is the sum over lines of 10*first token + last token, at most 99 per line |
| Calibration.Combine | day1/src/main.rs:87-89 | when the last token is a digit, the combined value has the first token as its tens and the last token as its ones |
| CalibrationExamples.NoTokenAt | day1/src/main.rs:30-37 | nothing is emitted at a position when each table entry that begins with its character runs past the end or differs at some offset |
| CalibrationExamples.TokenFoundAt | day1/src/main.rs:30-35 | a matching entry is emitted when each earlier entry with the same first character runs past the end or differs at some offset |
| CalibrationExamples.OneEight | day1/src/main.rs:27-42 | "oneight" yields [1, 8]: the shared `e` does not hide "eight" |
| CalibrationExamples.TwoOne | day1/src/main.rs:27-42 | "twone" yields [2, 1]: the shared `o` does not hide "one" |
| CalibrationExamples.EightTwoThree | day1/src/main.rs:27-42 | "eightwothree" yields [8, 2, 3], which combine to 83 |
| CalibrationExamples.TwoOneNine | day1/src/main.rs:27-42 | "two1nine" yields [2, 1, 9], which combine to 29 |
| CalibrationExamples.KeptDigits | day1/src/main.rs:59-60 | keeping only the digit characters of "a1b2c3" leaves "123" |
| CalibrationExamples.DecodeDigits | day1/src/main.rs:58-66 | "a1b2c3" has a digit and decodes to 13 |
| CubeGame.EveryColorListed | day2/src/main.rs:32-37 | red, blue and green are the only colours |
| CubeGame.DefaultBag | day2/src/main.rs:11-20 | the default bag holds all three colours, each at 0 |
| CubeGame.MinimumBag | day2/src/main.rs:51-62 | the minimum bag holds exactly the three colours |
| CubeGame.CalculateMinimumBag | day2/src/main.rs:51-62 | each colour's entry is the largest count of it shown in any draw (0 if none), whatever the map order |
| CubeGame.RaiseToDraw | day2/src/main.rs:54-59 | the inner loop raises each colour's entry to that draw's count where it is larger, whatever the map order, and keeps exactly the three colours |
| CubeGame.MaxShownBounds | day2/src/main.rs:53-58 | no draw shows more of a colour than the minimum bag holds |
| CubeGame.MaxShownAttained | day2/src/main.rs:53-58 | a non-zero entry of the minimum bag is the count shown by some draw |
| CubeGame.MinimumBagIsLeast | day2/src/main.rs:51-62 | any bound on every draw's count of a colour bounds the minimum bag's entry |
| CubeGame.MaxShownAppend | day2/src/main.rs:53-60 | the entry for a concatenation of draws is the larger of the two parts' entries |
| CubeGame.MinimumBagOrderIndependent | day2/src/main.rs:53-60 | swapping two runs of draws does not change the minimum bag |
| CubeGame.MinimumBagIdempotent | day2/src/main.rs:51-62 | a game whose single draw is a minimum bag has that bag as its minimum bag |
| CubeGame.ValidateGame | day2/src/main.rs:39-49 | true exactly when the bag has every colour and at least the minimum bag's count of each; an error only when the bag lacks a colour; with all colours present, never an error |
| CubeGame.FeasibleIffDrawsFit | day2/src/main.rs:39-49 | a bag with all colours passes exactly when every draw's count of every colour fits in it |
| CubeGame.CalculatePower | day2/src/main.rs:64-69 | an error exactly when the bag lacks red, green or blue |
| CubeGame.PowerOfMinimumBag | day2/src/main.rs:144-145 | the power of a game's minimum bag is never an error, and is the product of its three entries |
| CubeGame.MinimumBagHasLeastPower | day2/src/main.rs:64-68 | every bag that can produce the game has a power (all three colours) of at least the minimum bag's power |
| CubeGame.Part1 | day2/src/main.rs:116-135 | the answer is the sum of the numbers of the games the 12/13/14 bag can produce |
| CubeGame.PuzzleBag | day2/src/main.rs:120-127 | part one's bag holds every colour: 12 red, 13 green and 14 blue cubes |
| CubeGame.Part2 | day2/src/main.rs:137-148 | the answer is the sum of the powers of the games' minimum bags |
| CubeGame.SumFeasibleAppend | day2/src/main.rs:128-133 | part one's sum splits over a concatenation of game lists |
| CubeGame.SumPowersAppend | day2/src/main.rs:142-146 | part two's sum splits over a concatenation of game lists |
| CubeGame.PowerExample | day2/src/main.rs:166-177 | the bag 6 blue, 2 green, 4 red has power 48 |
| CubeGame.CheckGameExamples | day2/src/main.rs:209-250 | games 1 and 30 of the sample fit the 12/13/14 bag; the game showing 20 blue does not |
| GameParser.ColorNamed | day2/src/main.rs:86-91 | a colour word is accepted exactly when it is "blue", "red" or "green" |
| GameParser.ParseCube | day2/src/main.rs:84-91 | a parsed clause has a second word; its count is the u32 value of the trimmed clause's first word and its colour is the one the second word names |
| GameParser.AddCube | day2/src/main.rs:92-94 | afterwards the clause's colour is present, with its earlier count (0 when absent) plus the clause's count; every other colour keeps its presence and its count |
| GameParser.ParseCubeAccepts | day2/src/main.rs:84-91 | a clause parses exactly when its first word is a u32, a second word exists and is a colour name; the count is a u32 |
| GameParser.ParseCubesStep | day2/src/main.rs:92-94 | folding from clause j on equals adding clause j's cube and folding from j+1 |
| GameParser.ParseCubesAll | day2/src/main.rs:83-96 | clauses that all parse fold into the clause-by-clause upsert of their cubes |
| GameParser.ParseCubesFails | day2/src/main.rs:83-91 | any failing clause fails its draw |
| GameParser.AddAllTotals | day2/src/main.rs:92-94 | repeated colours in a draw add up: each count is the sum over its clauses, and a colour is present exactly when some clause names it |
| GameParser.AddAllConcat | day2/src/main.rs:92-94 | folding two runs of clauses is folding the second into the result of the first |
| GameParser.AddAllCubesOf | day2/src/main.rs:92-94 | folding one clause per colour of a draw rebuilds the draw |
| GameParser.ParseSetData | day2/src/main.rs:82-99 | the loop over one draw's clauses gives the reference draw parse, including every error |
| GameParser.ParseSetsFails | day2/src/main.rs:81-100 | one failing draw fails the record |
| GameParser.ParseSetsSucceeds | day2/src/main.rs:81-100 | the draws parse to a list exactly when it has one entry per piece and each piece parses to its entry |
| GameParser.ParseSetsExtend | day2/src/main.rs:81-100 | the parsed list grows by one draw per loop step |
| GameParser.ParseGameData | day2/src/main.rs:73-106 | the parse loop gives the reference record parse, including every error |
| GameParser.ParseGameAccepts | day2/src/main.rs:73-106 | a line parses exactly when the second header word is a u32, a colon is present and every `;` piece of the text between the first colon and the next one parses |
| GameParser.ParseGameShape | day2/src/main.rs:73-106 | a parsed line's number is its second header word, a u32, and it has one draw per `;` piece, each the parse of its piece, in order |
| GameParser.IndentationIgnored | day2/src/main.rs:74 | leading whitespace, as in the indented test lines, does not change the parse |
| GameParser.ColorNameParses | day2/src/main.rs:86-89 | every colour's name parses back to it |
| GameParser.ParseCubeLeadingSpace | day2/src/main.rs:84 | the space after a comma does not change how a clause parses |
| GameParser.ParseRenderCube | day2/src/main.rs:84-91 | `<count> <colour>` with a u32 count parses back to that cube |
| GameParser.RenderedClausesParse | day2/src/main.rs:83-91 | a draw written with ", " separators splits into one piece per clause, each parsing to its cube |
| GameParser.ParseRenderDraw | day2/src/main.rs:82-99 | a written draw parses to the per-colour totals of its clauses |
| GameParser.ParseSetLeadingSpace | day2/src/main.rs:81-84 | the space after a `;` does not change how a draw parses |
| GameParser.DrawTextsAt | day2/src/main.rs:80 | a written record has one `;` piece per draw, the k-th the k-th draw's text |
| GameParser.RenderDrawEnds | day2/src/main.rs:80 | a written draw starts with a digit and does not end in whitespace, so `trim` leaves it alone |
| GameParser.RenderDrawNoChar | day2/src/main.rs:73-80 | a written draw contains neither a colon nor a semicolon |
| GameParser.RenderedDrawsNoColon | day2/src/main.rs:73 | the written draws contain no colon |
| GameParser.RenderedDrawsFirst | day2/src/main.rs:80 | written draws start with a digit |
| GameParser.RenderedDrawsLast | day2/src/main.rs:80 | written draws do not end in whitespace |
| GameParser.RenderedDrawsShape | day2/src/main.rs:73-80 | written draws start with a digit, do not end in whitespace and contain no colon |
| GameParser.RenderedDrawsParse | day2/src/main.rs:80-100 | the written draws after the colon parse to the per-colour totals of each draw |
| GameParser.HeaderSplit | day2/src/main.rs:75 | the header `Game <n>` splits on spaces into exactly "Game" and the number's digits |
| GameParser.RecordColonSplit | day2/src/main.rs:73-79 | a written record is unchanged by `trim` and splits on its one colon into the header and the written draws |
| GameParser.ParseRenderedRecord | day2/src/main.rs:73-106 | a written record with u32 numbers and non-empty draws parses back to its number and its draws' per-colour totals |
| GameParser.ParseRenderGame | day2/src/main.rs:73-106 | every game with u32 numbers and non-empty draws survives writing and parsing unchanged |
| Text.Split | day2/src/main.rs:83 | `split` always yields at least one piece |
| Text.SplitNoSeparator | day2/src/main.rs:83 | text without the separator splits into itself alone |
| Text.SplitAfterPiece | day2/src/main.rs:74 | a separator-free piece followed by a separator is split off first |
| Text.SplitJoin | day2/src/main.rs:81 | splitting undoes joining pieces free of the separator |
| Text.JoinSplit | day2/src/main.rs:81 | joining the pieces of a split with the separator restores the text |
| Text.SplitJoinPadded | day2/src/main.rs:83 | pieces joined with "d " split back into the pieces, every piece after the first keeping its leading space |
| Text.SplitLeadingSpace | day2/src/main.rs:83 | a leading space joins the first piece |
| Text.TrimUnchanged | day2/src/main.rs:74 | text without outer whitespace is unchanged by `trim` |
| Text.TrimLeadingSpace | day2/src/main.rs:84 | one leading space never survives `trim` |
| Text.TrimWhitespacePrefix | day2/src/main.rs:74 | any leading whitespace never survives `trim` |
| Text.TrimStartSuffix | day2/src/main.rs:84 | the leading-trimmed text is a suffix of the text, only whitespace was dropped, and it is empty or starts with a non-whitespace character |
| Text.TrimEndPrefix | day2/src/main.rs:84 | the trailing-trimmed text is a prefix of the text, only whitespace was dropped, and it is empty or ends with a non-whitespace character |
| Text.TrimSlice | day2/src/main.rs:74 | `trim` gives the slice of the text between a whitespace prefix and a whitespace suffix, and it neither starts nor ends with whitespace |
| Text.ParseU32 | day2/src/main.rs:77 | a parsed number fits in a u32 |
| Text.ParseU32Accepts | day2/src/main.rs:77 | a text parses exactly when, after an optional `+`, it is a non-empty run of digits whose value fits in a u32 |
| Text.ParseShowNat | day2/src/main.rs:85 | the decimal text of any u32 value parses back to it |
| Text.DecimalValueOfShowNat | day2/src/main.rs:85 | the digits of the decimal rendering spell the number |
| Text.ShowNat | day2/src/main.rs:85 | the decimal rendering is a non-empty run of digits |
| Text.DigitValue | day1/src/main.rs:53 | `to_digit(10)` of an ASCII digit is 0..9 |
| Text.DigitChar | day1/src/main.rs:53 | the digit character of d is a digit whose value is d |
| Text.DigitCharacters | day1/src/main.rs:52-53 | `is_numeric` holds exactly for the ten characters `0` to `9`, and writing back the value `to_digit(10)` reads gives the same character |
| Text.JoinWithNoChar | day2/src/main.rs:81-83 | joining pieces and a separator that lack a character gives text that lacks it |
| Text.JoinWithStartsWithDigit | day2/src/main.rs:80 | pieces joined with any separator start with a digit when the first piece does |
| Text.JoinWithEndsSolid | day2/src/main.rs:80 | pieces joined with any separator end in a non-whitespace character when the last piece does |

## Left out

- File input (`File::open`, `BufReader::lines`, `parse_all_game_data`), `main` and `println!`. The parts work on an in-memory list of lines or of parsed games.
- The context strings of `anyhow` errors. Every error is the single value `Err`.
- Unicode: `is_numeric`, `to_digit` and `is_whitespace` are modelled on ASCII only. So `to_digit` never fails, and `DecodeValue` returns a plain number.
- Byte offsets: strings are sequences of characters, so slicing a multi-byte character (a panic in the source) is not modelled.
- Calibration.DecodeValue: a line with no digit makes the source index an empty vector and panic. The method requires a digit instead.
- Calibration.Part2: a line with no token makes the source index an empty vector and panic. The method requires a token on every line instead.
- Calibration.Part1: requires a digit on every line, for the same reason as `DecodeValue`.
- Calibration.TokenizeString: `index += token.len()` changes only the loop's copy of the index. It has no effect and is not modelled, which is why overlapping spellings are all reported.
- Calibration.MatchAt: the inner loop of `tokenize_string` is a helper method, so that each loop is proved on its own.
- GameParser.ParseSetData: the inner loop of `parse_game_data` is a helper method, for the same reason.
- CubeGame.RaiseToDraw: the inner loop of `calculate_minimum_bag` is a helper method, for the same reason.
- GameParser.ParseGameData: a cube clause whose only word is a valid u32 makes the source index past the end of a vector and panic. The model returns `Err` for it. A clause whose only word is not a number, or an empty clause, already fails the count's parse, as in the source.
- CubeGame.Part1, CubeGame.Part2, Calibration.Part1, Calibration.Part2 and GameParser.ParseSetData: u32 overflow of the sums, of the power product and of the upsert's `+=` is not modelled. Counts beyond the parsed values are unbounded naturals.
- `HashMap` order: only the order of keys within a map is left open. Map contents and equality are modelled exactly.
- The `test_tokenize` test is empty, so it states nothing. The tests that read input files are left out with the file input.
- The first parse test's literal sample line is not checked character by character. `ParseRenderedRecord` states the same parse for every written record, and `ParseRenderGame` for every well-formed game.
