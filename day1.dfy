/** Day 1: recovering a two-digit calibration value from each line, first from
    the digit characters alone (`decode_value`), then from digits and digit
    words found by an overlapping scan (`tokenize_string`). */
module Calibration {
  import opened Results
  import opened Text

  /** `NUM_TOKENS`: the twenty spellings, in the order the scan tries them. */
  const NumTokens: seq<string> := [
    "zero", "one", "two", "three", "four", "five", "six", "seven", "eight", "nine",
    "1", "2", "3", "4", "5", "6", "7", "8", "9", "0"
  ]

  /** The digit a table entry stands for: words 0..9 by position, then the
      glyphs 1..9 and finally 0. */
  function TokenValue(i: nat): (v: nat)
    requires i < |NumTokens|
    ensures v <= 9
  {
    if i < 10 then i else if i < 19 then i - 9 else 0
  }

  /** The table entry `tok` appears in `line` starting at byte `pos`. */
  predicate MatchesAt(line: string, pos: nat, tok: string) {
    pos + |tok| <= |line| && line[pos..pos + |tok|] == tok
  }

  /** Index of the first table entry at or after `t` that matches at `pos`. */
  function FirstMatchFrom(line: string, pos: nat, t: nat): (r: Option<nat>)
    requires t <= |NumTokens|
    ensures r.Some? ==> t <= r.value < |NumTokens| && MatchesAt(line, pos, NumTokens[r.value])
    ensures r.Some? ==> forall k :: t <= k < r.value ==> !MatchesAt(line, pos, NumTokens[k])
    ensures r.None? ==> forall k :: t <= k < |NumTokens| ==> !MatchesAt(line, pos, NumTokens[k])
    decreases |NumTokens| - t
  {
    if t == |NumTokens| then None
    else if MatchesAt(line, pos, NumTokens[t]) then Some(t)
    else FirstMatchFrom(line, pos, t + 1)
  }

  /** The first table entry that matches is the one the scan stops at. */
  lemma FirstMatchIsLeast(line: string, pos: nat, t: nat)
    requires t < |NumTokens| && MatchesAt(line, pos, NumTokens[t])
    requires forall k :: 0 <= k < t ==> !MatchesAt(line, pos, NumTokens[k])
    ensures FirstMatchFrom(line, pos, 0) == Some(t)
  {
  }

  /** What the scan emits at position `pos`: the value of the first matching
      table entry, if any. */
  function TokenAt(line: string, pos: nat): (r: Option<nat>)
    ensures r.Some? ==> r.value <= 9
  {
    match FirstMatchFrom(line, pos, 0)
    case None => None
    case Some(i) => Some(TokenValue(i))
  }

  /** The scan's outcome at every byte position of `line`. */
  function Hits(line: string): (h: seq<Option<nat>>)
    ensures |h| == |line|
  {
    seq(|line|, p requires 0 <= p < |line| => TokenAt(line, p))
  }

  /** What one position contributes to the output: nothing or one value. */
  function Emit(hit: Option<nat>): seq<nat> {
    match hit
    case None => []
    case Some(v) => [v]
  }

  /** The values among `hits`, in position order. */
  function Collect(hits: seq<Option<nat>>): seq<nat> {
    if |hits| == 0 then [] else Collect(hits[..|hits| - 1]) + Emit(hits[|hits| - 1])
  }

  /** Values emitted by the scan at positions `0 .. n-1`, in position order. */
  function TokensUpTo(line: string, n: nat): seq<nat>
    requires n <= |line|
  {
    Collect(Hits(line)[..n])
  }

  /** Reference definition of `tokenize_string`: one value per matching position. */
  function Tokens(line: string): seq<nat> {
    TokensUpTo(line, |line|)
  }

  /** `str_to_u32`: the last table index equal to `num`, or 0; overridden by
      the digit value when `num` starts with a digit; fails only on "". */
  method StrToU32(num: string) returns (r: Result<nat>)
    ensures num == [] <==> r.Err?
    ensures num != [] && IsDigit(num[0]) ==> r == Ok(DigitValue(num[0]))
    ensures num != [] && !IsDigit(num[0]) && (forall i :: 0 <= i < |NumTokens| ==> num != NumTokens[i]) ==> r == Ok(0)
    ensures forall i :: 0 <= i < |NumTokens| && num == NumTokens[i] ==> r == Ok(TokenValue(i))
  {
    TableEntriesDistinct();
    var res: nat := 0;
    for index := 0 to |NumTokens|
      invariant (exists k :: 0 <= k < index && NumTokens[k] == num) ==> res < index && NumTokens[res] == num
      invariant (forall k :: 0 <= k < index ==> NumTokens[k] != num) ==> res == 0
    {
      if num == NumTokens[index] {
        res := index;
      }
    }
    if num == [] {
      return Err;
    }
    var first := num[0];
    if IsDigit(first) {
      res := DigitValue(first);
    }
    r := Ok(res);
  }

  /** The body of `tokenize_string`'s outer loop: try the table in order at
      `index` and stop at the first entry that matches. */
  method MatchAt(line: string, index: nat) returns (r: Result<Option<nat>>)
    requires index < |line|
    ensures r == Ok(TokenAt(line, index))
  {
    var t := 0;
    while t < |NumTokens|
      invariant t <= |NumTokens|
      invariant forall k :: 0 <= k < t ==> !MatchesAt(line, index, NumTokens[k])
    {
      var token := NumTokens[t];
      if |token| <= |line| - index {
        if token == line[index..index + |token|] {
          var value := StrToU32(token);
          if value.Err? {
            return Err;
          }
          assert MatchesAt(line, index, NumTokens[t]);
          FirstMatchIsLeast(line, index, t);
          return Ok(Some(value.value));
        }
      }
      t := t + 1;
    }
    return Ok(None);
  }

  /** `tokenize_string`: at every position try the table in order and emit the
      first match.  The source then advances only a loop-local copy of the
      position (`index += token.len()`), so the next iteration still starts one
      byte further on and overlapping spellings are all reported. */
  method TokenizeString(line: string) returns (r: Result<seq<nat>>)
    ensures r == Ok(Tokens(line))
  {
    var res: seq<nat> := [];
    for index := 0 to |line|
      invariant res == TokensUpTo(line, index)
    {
      var found := MatchAt(line, index);
      if found.Err? {
        return Err;
      }
      TokensUpToStep(line, index);
      if found.value.Some? {
        res := res + [found.value.value];
      }
    }
    r := Ok(res);
  }

  /** The digit characters of `line`, in order (`retain(is_numeric)`). */
  function DigitChars(line: string): (ds: string)
    ensures AllDigits(ds) && |ds| <= |line|
  {
    if |line| == 0 then []
    else DigitChars(line[..|line| - 1]) + (if IsDigit(line[|line| - 1]) then [line[|line| - 1]] else [])
  }

  /** Keeping the digits of one more character appends it when it is a digit. */
  lemma DigitCharsStep(line: string, i: nat)
    requires i < |line|
    ensures DigitChars(line[..i + 1]) == DigitChars(line[..i]) + (if IsDigit(line[i]) then [line[i]] else [])
  {
    assert line[..i + 1][..i] == line[..i];
  }

  /** `line` holds at least one digit character. */
  predicate HasDigit(line: string) {
    exists k :: 0 <= k < |line| && IsDigit(line[k])
  }

  /** Index of the first digit character of `line`. */
  function FirstDigitAt(line: string): (i: nat)
    requires HasDigit(line)
    ensures i < |line| && IsDigit(line[i])
    ensures forall k :: 0 <= k < i ==> !IsDigit(line[k])
  {
    if IsDigit(line[0]) then 0 else 1 + FirstDigitAt(line[1..])
  }

  /** Index of the last digit character of `line`. */
  function LastDigitAt(line: string): (i: nat)
    requires HasDigit(line)
    ensures i < |line| && IsDigit(line[i])
    ensures forall k :: i < k < |line| ==> !IsDigit(line[k])
  {
    if IsDigit(line[|line| - 1]) then |line| - 1 else LastDigitAt(line[..|line| - 1])
  }

  /** Calibration value of part one: first and last digit character. */
  function DecodeSpec(line: string): nat
    requires HasDigit(line)
  {
    10 * DigitValue(line[FirstDigitAt(line)]) + DigitValue(line[LastDigitAt(line)])
  }

  /** `decode_value`: keep the digit characters in place, then combine the
      first and the last.  A line without digits makes the source index an
      empty vector and panic, hence the precondition. */
  method DecodeValue(line: string) returns (r: nat)
    requires HasDigit(line)
    ensures r == DecodeSpec(line)
    ensures r <= 99
  {
    var lineVec := new char[|line|](i requires 0 <= i < |line| => line[i]);
    // `retain`: compact the kept characters to the front of the vector.
    var kept := 0;
    for i := 0 to lineVec.Length
      invariant kept <= i
      invariant lineVec[..kept] == DigitChars(line[..i])
      invariant lineVec[i..] == line[i..]
    {
      var ch := lineVec[i];
      assert ch == line[i] by { assert lineVec[i..][0] == line[i..][0]; }
      DigitCharsStep(line, i);
      if IsDigit(ch) {
        ghost var prefix := lineVec[..kept];
        lineVec[kept] := ch;
        assert lineVec[..kept + 1] == prefix + [ch];
        assert lineVec[i + 1..] == line[i + 1..];
        kept := kept + 1;
      }
    }
    assert line[..|line|] == line;
    DigitCharsEnds(line);
    var tensDigit := DigitValue(lineVec[0]);
    var onesDigit := DigitValue(lineVec[kept - 1]);
    r := tensDigit * 10 + onesDigit;
  }

  /** Part two's combination of a line's tokens (`tokens[0]*10 + tokens[len-1]`);
      an empty token list panics in the source, hence the precondition. */
  function Combine(tokens: seq<nat>): (r: nat)
    requires |tokens| > 0
    ensures tokens[|tokens| - 1] <= 9 ==> r / 10 == tokens[0] && r % 10 == tokens[|tokens| - 1]
  {
    tokens[0] * 10 + tokens[|tokens| - 1]
  }

  function SumDecoded(lines: seq<string>): nat
    requires forall k :: 0 <= k < |lines| ==> HasDigit(lines[k])
  {
    if |lines| == 0 then 0 else SumDecoded(lines[..|lines| - 1]) + DecodeSpec(lines[|lines| - 1])
  }

  function SumCombined(lines: seq<string>): nat
    requires forall k :: 0 <= k < |lines| ==> |Tokens(lines[k])| > 0
  {
    if |lines| == 0 then 0 else SumCombined(lines[..|lines| - 1]) + Combine(Tokens(lines[|lines| - 1]))
  }

  /** `part1` without the file: the sum of the lines' decoded values. */
  method Part1(lines: seq<string>) returns (sum: nat)
    requires forall k :: 0 <= k < |lines| ==> HasDigit(lines[k])
    ensures sum == SumDecoded(lines)
    ensures sum <= 99 * |lines|
  {
    sum := 0;
    for i := 0 to |lines|
      invariant sum == SumDecoded(lines[..i])
      invariant sum <= 99 * i
    {
      var value := DecodeValue(lines[i]);
      assert lines[..i + 1][..i] == lines[..i];
      sum := sum + value;
    }
    assert lines[..|lines|] == lines;
  }

  /** `part2` without the file: the sum of the lines' combined tokens. */
  method Part2(lines: seq<string>) returns (r: Result<nat>)
    requires forall k :: 0 <= k < |lines| ==> |Tokens(lines[k])| > 0
    ensures r == Ok(SumCombined(lines))
    ensures r.value <= 99 * |lines|
  {
    var sum := 0;
    for i := 0 to |lines|
      invariant sum == SumCombined(lines[..i])
      invariant sum <= 99 * i
    {
      var tokens := TokenizeString(lines[i]);
      if tokens.Err? {
        return Err;
      }
      TokensBounded(lines[i]);
      var tensDigit := tokens.value[0];
      var oneDigit := tokens.value[|tokens.value| - 1];
      var res := tensDigit * 10 + oneDigit;
      assert lines[..i + 1][..i] == lines[..i];
      sum := sum + res;
    }
    assert lines[..|lines|] == lines;
    r := Ok(sum);
  }

  // ---------------------------------------------------------------- lemmas

  /** Words start with a letter and are longer than one byte; glyph entries
      are single digit characters standing for their own value. */
  lemma TableShape()
    ensures |NumTokens| == 20
    ensures forall i :: 0 <= i < 10 ==> |NumTokens[i]| > 1 && !IsDigit(NumTokens[i][0])
    ensures forall i :: 10 <= i < 20 ==>
      |NumTokens[i]| == 1 && IsDigit(NumTokens[i][0]) && DigitValue(NumTokens[i][0]) == TokenValue(i)
  {
  }

  lemma TableEntriesDistinct()
    ensures forall i, j :: 0 <= i < j < |NumTokens| ==> NumTokens[i] != NumTokens[j]
  {
  }

  lemma {:induction false} CollectBounded(hits: seq<Option<nat>>)
    requires forall k :: 0 <= k < |hits| && hits[k].Some? ==> hits[k].value <= 9
    ensures |Collect(hits)| <= |hits|
    ensures forall k :: 0 <= k < |Collect(hits)| ==> Collect(hits)[k] <= 9
  {
    if |hits| > 0 {
      var init := hits[..|hits| - 1];
      assert forall k :: 0 <= k < |init| ==> init[k] == hits[k];
      CollectBounded(init);
    }
  }

  lemma PrefixExtends(a: seq<nat>, b: seq<nat>, e: seq<nat>)
    requires a <= b
    ensures a <= b + e
  {
    assert forall k :: 0 <= k < |a| ==> a[k] == b[k] == (b + e)[k];
  }

  lemma {:induction false} CollectPrefix(hits: seq<Option<nat>>, m: nat, n: nat)
    requires m <= n <= |hits|
    ensures Collect(hits[..m]) <= Collect(hits[..n])
  {
    if m < n {
      CollectPrefix(hits, m, n - 1);
      assert hits[..n][..n - 1] == hits[..n - 1];
      PrefixExtends(Collect(hits[..m]), Collect(hits[..n - 1]), Emit(hits[n - 1]));
    }
  }

  /** Scanning one more position appends what that position emits. */
  lemma TokensUpToStep(line: string, n: nat)
    requires n < |line|
    ensures TokensUpTo(line, n + 1) == TokensUpTo(line, n) + Emit(TokenAt(line, n))
  {
    assert Hits(line)[..n + 1][..n] == Hits(line)[..n];
  }

  /** The scan emits at most one value per position, each a digit 0..9. */
  lemma TokensUpToBounded(line: string, n: nat)
    requires n <= |line|
    ensures |TokensUpTo(line, n)| <= n
    ensures forall k :: 0 <= k < |TokensUpTo(line, n)| ==> TokensUpTo(line, n)[k] <= 9
  {
    CollectBounded(Hits(line)[..n]);
  }

  lemma TokensBounded(line: string)
    ensures |Tokens(line)| <= |line|
    ensures forall k :: 0 <= k < |Tokens(line)| ==> Tokens(line)[k] <= 9
  {
    TokensUpToBounded(line, |line|);
  }

  /** Scanning further only extends what was emitted so far. */
  lemma TokensUpToPrefix(line: string, m: nat, n: nat)
    requires m <= n <= |line|
    ensures TokensUpTo(line, m) <= TokensUpTo(line, n)
  {
    CollectPrefix(Hits(line), m, n);
  }

  /** Every position where a spelling starts is reported, at the index given
      by the number of reports before it: the output lists matches in
      increasing position order. */
  lemma TokenReportedInOrder(line: string, p: nat)
    requires p < |line| && TokenAt(line, p).Some?
    ensures |TokensUpTo(line, p)| < |Tokens(line)|
    ensures Tokens(line)[|TokensUpTo(line, p)|] == TokenAt(line, p).value
  {
    TokensUpToStep(line, p);
    TokensUpToPrefix(line, p + 1, |line|);
  }

  /** Overlap: the scan does not skip past a match (the source's
      `index += token.len()` has no effect), so a spelling that starts inside
      an earlier one, as "eight" inside "oneight", is reported too, after it. */
  lemma OverlapsBothReported(line: string, p: nat, q: nat)
    requires p < q < |line| && TokenAt(line, p).Some? && TokenAt(line, q).Some?
    ensures var i, j := |TokensUpTo(line, p)|, |TokensUpTo(line, q)|;
      i < j < |Tokens(line)| &&
      Tokens(line)[i] == TokenAt(line, p).value &&
      Tokens(line)[j] == TokenAt(line, q).value
  {
    TokenReportedInOrder(line, p);
    TokenReportedInOrder(line, q);
    MatchCountGrows(line, p, q);
  }

  /** A match at `p` adds one report before any later position. */
  lemma MatchCountGrows(line: string, p: nat, q: nat)
    requires p < q <= |line| && TokenAt(line, p).Some?
    ensures |TokensUpTo(line, p)| < |TokensUpTo(line, q)|
  {
    TokensUpToStep(line, p);
    TokensUpToPrefix(line, p + 1, q);
  }

  /** At a digit character the scan emits exactly that digit. */
  lemma TokenAtDigit(line: string, p: nat)
    requires p < |line| && IsDigit(line[p])
    ensures TokenAt(line, p) == Some(DigitValue(line[p]))
  {
    TableShape();
    var glyph := if line[p] == '0' then 19 else 9 + DigitValue(line[p]);
    assert NumTokens[glyph] == [line[p]];
    assert MatchesAt(line, p, NumTokens[glyph]);
    var i := FirstMatchFrom(line, p, 0).value;
    assert line[p..p + |NumTokens[i]|][0] == line[p];
  }

  /** At a position where no word starts and no digit stands, nothing is emitted. */
  lemma TokenAtNonDigit(line: string, p: nat)
    requires p < |line| && !IsDigit(line[p])
    requires forall w :: 0 <= w < 10 ==> !MatchesAt(line, p, NumTokens[w])
    ensures TokenAt(line, p) == None
  {
    TableShape();
  }

  /** Digit values of the digit characters of `line[..n]`. */
  function DigitValuesUpTo(line: string, n: nat): seq<nat>
    requires n <= |line|
  {
    if n == 0 then []
    else DigitValuesUpTo(line, n - 1) + (if IsDigit(line[n - 1]) then [DigitValue(line[n - 1])] else [])
  }

  /** Without number words, part two's tokenizer sees exactly the digit
      characters that part one keeps. */
  lemma {:induction false} TokensWithoutWords(line: string, n: nat)
    requires n <= |line|
    requires forall p, w :: 0 <= p < |line| && 0 <= w < 10 ==> !MatchesAt(line, p, NumTokens[w])
    ensures TokensUpTo(line, n) == DigitValuesUpTo(line, n)
  {
    if n > 0 {
      TokensWithoutWords(line, n - 1);
      TokensUpToStep(line, n - 1);
      if IsDigit(line[n - 1]) {
        TokenAtDigit(line, n - 1);
      } else {
        TokenAtNonDigit(line, n - 1);
      }
    }
  }

  /** A line made only of ASCII digits tokenizes to those digits in order. */
  lemma AllDigitLine(line: string)
    requires AllDigits(line)
    ensures |Tokens(line)| == |line|
    ensures forall k :: 0 <= k < |line| ==> Tokens(line)[k] == DigitValue(line[k])
  {
    forall p, w | 0 <= p < |line| && 0 <= w < 10
      ensures !MatchesAt(line, p, NumTokens[w])
    {
      TableShape();
    }
    TokensWithoutWords(line, |line|);
    DigitLineValues(line, |line|);
  }

  lemma {:induction false} DigitLineValues(line: string, n: nat)
    requires n <= |line| && AllDigits(line)
    ensures |DigitValuesUpTo(line, n)| == n
    ensures forall k :: 0 <= k < n ==> DigitValuesUpTo(line, n)[k] == DigitValue(line[k])
  {
    if n > 0 {
      DigitLineValues(line, n - 1);
    }
  }

  /** A line with no digit character and no number word tokenizes to nothing. */
  lemma NoSpellingNoTokens(line: string)
    requires forall p, i :: 0 <= p < |line| && 0 <= i < |NumTokens| ==> !MatchesAt(line, p, NumTokens[i])
    ensures Tokens(line) == []
  {
    forall p | 0 <= p < |line| ensures !IsDigit(line[p]) {
      if IsDigit(line[p]) {
        TokenAtDigit(line, p);
      }
    }
    TokensWithoutWords(line, |line|);
    NoDigitNoValues(line, |line|);
  }

  lemma {:induction false} NoDigitNoValues(line: string, n: nat)
    requires n <= |line|
    requires forall p :: 0 <= p < |line| ==> !IsDigit(line[p])
    ensures DigitValuesUpTo(line, n) == []
  {
    if n > 0 {
      NoDigitNoValues(line, n - 1);
    }
  }

  /** The kept characters start with the first digit and end with the last. */
  lemma {:induction false} DigitCharsEnds(line: string)
    requires HasDigit(line)
    ensures |DigitChars(line)| > 0
    ensures DigitChars(line)[0] == line[FirstDigitAt(line)]
    ensures DigitChars(line)[|DigitChars(line)| - 1] == line[LastDigitAt(line)]
  {
    var init := line[..|line| - 1];
    if IsDigit(line[|line| - 1]) {
      if exists k :: 0 <= k < |init| && IsDigit(init[k]) {
        DigitCharsEnds(init);
        FirstDigitOfPrefix(line);
      } else {
        NoDigitChars(init);
        assert forall k :: 0 <= k < |line| - 1 ==> !IsDigit(line[k]) by {
          forall k | 0 <= k < |line| - 1 ensures !IsDigit(line[k]) { assert init[k] == line[k]; }
        }
      }
    } else {
      var k :| 0 <= k < |line| && IsDigit(line[k]);
      assert init[k] == line[k];
      DigitCharsEnds(init);
      FirstDigitOfPrefix(line);
    }
  }

  lemma FirstDigitOfPrefix(line: string)
    requires |line| > 0 && exists k :: 0 <= k < |line| - 1 && IsDigit(line[k])
    ensures var init := line[..|line| - 1];
      (exists k :: 0 <= k < |init| && IsDigit(init[k])) &&
      FirstDigitAt(init) == FirstDigitAt(line)
  {
    var init := line[..|line| - 1];
    var k :| 0 <= k < |line| - 1 && IsDigit(line[k]);
    assert init[k] == line[k];
    var a := FirstDigitAt(init);
    assert init[a] == line[a];
  }

  lemma {:induction false} NoDigitChars(line: string)
    requires forall k :: 0 <= k < |line| ==> !IsDigit(line[k])
    ensures DigitChars(line) == []
  {
    if |line| > 0 {
      NoDigitChars(line[..|line| - 1]);
    }
  }

  /** Part one's value lies in 0..99; a line with a single digit d gives 11*d. */
  lemma DecodeSpecRange(line: string)
    requires HasDigit(line)
    ensures DecodeSpec(line) <= 99
    ensures FirstDigitAt(line) == LastDigitAt(line) ==> DecodeSpec(line) == 11 * DigitValue(line[FirstDigitAt(line)])
  {
  }

  /** Part two's value of a line that has any spelling lies in 0..99. */
  lemma CombineRange(line: string)
    requires |Tokens(line)| > 0
    ensures Combine(Tokens(line)) <= 99
    ensures |Tokens(line)| == 1 ==> Combine(Tokens(line)) == 11 * Tokens(line)[0]
  {
    TokensBounded(line);
  }
}
