/** Worked scenarios for the model of day 1: overlapping spellings are all
    reported, and the decoders combine the first and the last value.  Each
    scenario is stated for any `line` that reads as the given text. */
module CalibrationExamples {
  import opened Results
  import opened Text
  import opened Calibration

  /** Indices of the `NUM_TOKENS` entries whose first character is `c`. */
  function StartingWith(c: char): set<nat> {
    if c == 'z' then {0}
    else if c == 'o' then {1}
    else if c == 't' then {2, 3}
    else if c == 'f' then {4, 5}
    else if c == 's' then {6, 7}
    else if c == 'e' then {8}
    else if c == 'n' then {9}
    else if c == '0' then {19}
    else if IsDigit(c) then {DigitValue(c) + 9}
    else {}
  }

  /** `StartingWith` agrees with the first characters of the table. */
  lemma TableInitials(k: nat, c: char)
    requires k < |NumTokens|
    ensures |NumTokens[k]| > 0
    ensures k in StartingWith(c) <==> NumTokens[k][0] == c
  {
  }

  /** `line` has the characters of `text`, one by one. */
  predicate Reads(line: string, text: string) {
    |line| == |text| && forall i :: 0 <= i < |line| ==> line[i] == text[i]
  }

  /** Evidence that entry `k` does not match at `p`: it runs past the end of
      the line, or its character `j` differs from the line's. */
  predicate Misses(line: string, p: nat, k: nat, j: nat)
    requires k < |NumTokens|
  {
    j < |NumTokens[k]| && (p + |NumTokens[k]| > |line| || line[p + j] != NumTokens[k][j])
  }

  lemma MissesNoMatch(line: string, p: nat, k: nat, j: nat)
    requires k < |NumTokens| && Misses(line, p, k, j)
    ensures !MatchesAt(line, p, NumTokens[k])
  {
    if p + |NumTokens[k]| <= |line| {
      assert line[p..p + |NumTokens[k]|][j] == line[p + j];
    }
  }

  /** Nothing is emitted at `p` when each entry starting with the character at
      `p` misses there, at the offset `miss` gives for it. */
  lemma NoTokenAt(line: string, p: nat, miss: map<nat, nat>)
    requires p < |line|
    requires forall k :: k in StartingWith(line[p]) ==> k < |NumTokens| && k in miss && Misses(line, p, k, miss[k])
    ensures TokenAt(line, p) == None
  {
    forall k | 0 <= k < |NumTokens|
      ensures !MatchesAt(line, p, NumTokens[k])
    {
      TableInitials(k, line[p]);
      if k in StartingWith(line[p]) {
        MissesNoMatch(line, p, k, miss[k]);
      }
    }
  }

  /** Entry `t` matching at `p` is emitted when each earlier entry starting
      with the same character misses there, at the offset `miss` gives. */
  lemma TokenFoundAt(line: string, p: nat, t: nat, miss: map<nat, nat>)
    requires p < |line| && t < |NumTokens| && MatchesAt(line, p, NumTokens[t])
    requires forall k :: k in StartingWith(line[p]) && k < t ==> k in miss && Misses(line, p, k, miss[k])
    ensures TokenAt(line, p) == Some(TokenValue(t))
  {
    forall k | 0 <= k < t
      ensures !MatchesAt(line, p, NumTokens[k])
    {
      TableInitials(k, line[p]);
      if k in StartingWith(line[p]) {
        MissesNoMatch(line, p, k, miss[k]);
      }
    }
    FirstMatchIsLeast(line, p, t);
  }

  /** The scan's outcome at position 0 of "oneight". */
  lemma OneEightAt0(line: string)
    requires Reads(line, "oneight")
    ensures TokenAt(line, 0) == Some(1)
  {
    TokenFoundAt(line, 0, 1, map[]);
  }

  /** The values the scan emits at position 0 of "oneight". */
  lemma OneEightUpTo1(line: string)
    requires Reads(line, "oneight")
    ensures TokensUpTo(line, 1) == [1]
  {
    assert Hits(line)[..0] == [];
    OneEightAt0(line);
    TokensUpToStep(line, 0);
  }

  /** The scan's outcome at position 1 of "oneight". */
  lemma OneEightAt1(line: string)
    requires Reads(line, "oneight")
    ensures TokenAt(line, 1) == None
  {
    NoTokenAt(line, 1, map[9 := 1]);
  }

  /** The values the scan emits at positions 0 to 1 of "oneight". */
  lemma OneEightUpTo2(line: string)
    requires Reads(line, "oneight")
    ensures TokensUpTo(line, 2) == [1]
  {
    OneEightUpTo1(line);
    OneEightAt1(line);
    TokensUpToStep(line, 1);
  }

  /** The scan's outcome at position 2 of "oneight". */
  lemma OneEightAt2(line: string)
    requires Reads(line, "oneight")
    ensures TokenAt(line, 2) == Some(8)
  {
    TokenFoundAt(line, 2, 8, map[]);
  }

  /** The values the scan emits at positions 0 to 2 of "oneight". */
  lemma OneEightUpTo3(line: string)
    requires Reads(line, "oneight")
    ensures TokensUpTo(line, 3) == [1, 8]
  {
    OneEightUpTo2(line);
    OneEightAt2(line);
    TokensUpToStep(line, 2);
  }

  /** The scan's outcome at position 3 of "oneight". */
  lemma OneEightAt3(line: string)
    requires Reads(line, "oneight")
    ensures TokenAt(line, 3) == None
  {
    NoTokenAt(line, 3, map[]);
  }

  /** The values the scan emits at positions 0 to 3 of "oneight". */
  lemma OneEightUpTo4(line: string)
    requires Reads(line, "oneight")
    ensures TokensUpTo(line, 4) == [1, 8]
  {
    OneEightUpTo3(line);
    OneEightAt3(line);
    TokensUpToStep(line, 3);
  }

  /** The scan's outcome at position 4 of "oneight". */
  lemma OneEightAt4(line: string)
    requires Reads(line, "oneight")
    ensures TokenAt(line, 4) == None
  {
    NoTokenAt(line, 4, map[]);
  }

  /** The values the scan emits at positions 0 to 4 of "oneight". */
  lemma OneEightUpTo5(line: string)
    requires Reads(line, "oneight")
    ensures TokensUpTo(line, 5) == [1, 8]
  {
    OneEightUpTo4(line);
    OneEightAt4(line);
    TokensUpToStep(line, 4);
  }

  /** The scan's outcome at position 5 of "oneight". */
  lemma OneEightAt5(line: string)
    requires Reads(line, "oneight")
    ensures TokenAt(line, 5) == None
  {
    NoTokenAt(line, 5, map[]);
  }

  /** The values the scan emits at positions 0 to 5 of "oneight". */
  lemma OneEightUpTo6(line: string)
    requires Reads(line, "oneight")
    ensures TokensUpTo(line, 6) == [1, 8]
  {
    OneEightUpTo5(line);
    OneEightAt5(line);
    TokensUpToStep(line, 5);
  }

  /** The scan's outcome at position 6 of "oneight". */
  lemma OneEightAt6(line: string)
    requires Reads(line, "oneight")
    ensures TokenAt(line, 6) == None
  {
    NoTokenAt(line, 6, map[2 := 0, 3 := 0]);
  }

  /** The values the scan emits at positions 0 to 6 of "oneight". */
  lemma OneEightUpTo7(line: string)
    requires Reads(line, "oneight")
    ensures TokensUpTo(line, 7) == [1, 8]
  {
    OneEightUpTo6(line);
    OneEightAt6(line);
    TokensUpToStep(line, 6);
  }

  /** "oneight": the shared `e` does not hide "eight". */
  lemma OneEight(line: string)
    requires Reads(line, "oneight")
    ensures Tokens(line) == [1, 8]
  {
    OneEightUpTo7(line);
  }

  /** The scan's outcome at position 0 of "twone". */
  lemma TwoOneAt0(line: string)
    requires Reads(line, "twone")
    ensures TokenAt(line, 0) == Some(2)
  {
    TokenFoundAt(line, 0, 2, map[]);
  }

  /** The values the scan emits at position 0 of "twone". */
  lemma TwoOneUpTo1(line: string)
    requires Reads(line, "twone")
    ensures TokensUpTo(line, 1) == [2]
  {
    assert Hits(line)[..0] == [];
    TwoOneAt0(line);
    TokensUpToStep(line, 0);
  }

  /** The scan's outcome at position 1 of "twone". */
  lemma TwoOneAt1(line: string)
    requires Reads(line, "twone")
    ensures TokenAt(line, 1) == None
  {
    NoTokenAt(line, 1, map[]);
  }

  /** The values the scan emits at positions 0 to 1 of "twone". */
  lemma TwoOneUpTo2(line: string)
    requires Reads(line, "twone")
    ensures TokensUpTo(line, 2) == [2]
  {
    TwoOneUpTo1(line);
    TwoOneAt1(line);
    TokensUpToStep(line, 1);
  }

  /** The scan's outcome at position 2 of "twone". */
  lemma TwoOneAt2(line: string)
    requires Reads(line, "twone")
    ensures TokenAt(line, 2) == Some(1)
  {
    TokenFoundAt(line, 2, 1, map[]);
  }

  /** The values the scan emits at positions 0 to 2 of "twone". */
  lemma TwoOneUpTo3(line: string)
    requires Reads(line, "twone")
    ensures TokensUpTo(line, 3) == [2, 1]
  {
    TwoOneUpTo2(line);
    TwoOneAt2(line);
    TokensUpToStep(line, 2);
  }

  /** The scan's outcome at position 3 of "twone". */
  lemma TwoOneAt3(line: string)
    requires Reads(line, "twone")
    ensures TokenAt(line, 3) == None
  {
    NoTokenAt(line, 3, map[9 := 0]);
  }

  /** The values the scan emits at positions 0 to 3 of "twone". */
  lemma TwoOneUpTo4(line: string)
    requires Reads(line, "twone")
    ensures TokensUpTo(line, 4) == [2, 1]
  {
    TwoOneUpTo3(line);
    TwoOneAt3(line);
    TokensUpToStep(line, 3);
  }

  /** The scan's outcome at position 4 of "twone". */
  lemma TwoOneAt4(line: string)
    requires Reads(line, "twone")
    ensures TokenAt(line, 4) == None
  {
    NoTokenAt(line, 4, map[8 := 0]);
  }

  /** The values the scan emits at positions 0 to 4 of "twone". */
  lemma TwoOneUpTo5(line: string)
    requires Reads(line, "twone")
    ensures TokensUpTo(line, 5) == [2, 1]
  {
    TwoOneUpTo4(line);
    TwoOneAt4(line);
    TokensUpToStep(line, 4);
  }

  /** "twone": the shared `o` does not hide "one". */
  lemma TwoOne(line: string)
    requires Reads(line, "twone")
    ensures Tokens(line) == [2, 1]
  {
    TwoOneUpTo5(line);
  }

  /** The scan's outcome at position 0 of "eightwothree". */
  lemma EightTwoThreeAt0(line: string)
    requires Reads(line, "eightwothree")
    ensures TokenAt(line, 0) == Some(8)
  {
    TokenFoundAt(line, 0, 8, map[]);
  }

  /** The values the scan emits at position 0 of "eightwothree". */
  lemma EightTwoThreeUpTo1(line: string)
    requires Reads(line, "eightwothree")
    ensures TokensUpTo(line, 1) == [8]
  {
    assert Hits(line)[..0] == [];
    EightTwoThreeAt0(line);
    TokensUpToStep(line, 0);
  }

  /** The scan's outcome at position 1 of "eightwothree". */
  lemma EightTwoThreeAt1(line: string)
    requires Reads(line, "eightwothree")
    ensures TokenAt(line, 1) == None
  {
    NoTokenAt(line, 1, map[]);
  }

  /** The values the scan emits at positions 0 to 1 of "eightwothree". */
  lemma EightTwoThreeUpTo2(line: string)
    requires Reads(line, "eightwothree")
    ensures TokensUpTo(line, 2) == [8]
  {
    EightTwoThreeUpTo1(line);
    EightTwoThreeAt1(line);
    TokensUpToStep(line, 1);
  }

  /** The scan's outcome at position 2 of "eightwothree". */
  lemma EightTwoThreeAt2(line: string)
    requires Reads(line, "eightwothree")
    ensures TokenAt(line, 2) == None
  {
    NoTokenAt(line, 2, map[]);
  }

  /** The values the scan emits at positions 0 to 2 of "eightwothree". */
  lemma EightTwoThreeUpTo3(line: string)
    requires Reads(line, "eightwothree")
    ensures TokensUpTo(line, 3) == [8]
  {
    EightTwoThreeUpTo2(line);
    EightTwoThreeAt2(line);
    TokensUpToStep(line, 2);
  }

  /** The scan's outcome at position 3 of "eightwothree". */
  lemma EightTwoThreeAt3(line: string)
    requires Reads(line, "eightwothree")
    ensures TokenAt(line, 3) == None
  {
    NoTokenAt(line, 3, map[]);
  }

  /** The values the scan emits at positions 0 to 3 of "eightwothree". */
  lemma EightTwoThreeUpTo4(line: string)
    requires Reads(line, "eightwothree")
    ensures TokensUpTo(line, 4) == [8]
  {
    EightTwoThreeUpTo3(line);
    EightTwoThreeAt3(line);
    TokensUpToStep(line, 3);
  }

  /** The scan's outcome at position 4 of "eightwothree". */
  lemma EightTwoThreeAt4(line: string)
    requires Reads(line, "eightwothree")
    ensures TokenAt(line, 4) == Some(2)
  {
    TokenFoundAt(line, 4, 2, map[]);
  }

  /** The values the scan emits at positions 0 to 4 of "eightwothree". */
  lemma EightTwoThreeUpTo5(line: string)
    requires Reads(line, "eightwothree")
    ensures TokensUpTo(line, 5) == [8, 2]
  {
    EightTwoThreeUpTo4(line);
    EightTwoThreeAt4(line);
    TokensUpToStep(line, 4);
  }

  /** The scan's outcome at position 5 of "eightwothree". */
  lemma EightTwoThreeAt5(line: string)
    requires Reads(line, "eightwothree")
    ensures TokenAt(line, 5) == None
  {
    NoTokenAt(line, 5, map[]);
  }

  /** The values the scan emits at positions 0 to 5 of "eightwothree". */
  lemma EightTwoThreeUpTo6(line: string)
    requires Reads(line, "eightwothree")
    ensures TokensUpTo(line, 6) == [8, 2]
  {
    EightTwoThreeUpTo5(line);
    EightTwoThreeAt5(line);
    TokensUpToStep(line, 5);
  }

  /** The scan's outcome at position 6 of "eightwothree". */
  lemma EightTwoThreeAt6(line: string)
    requires Reads(line, "eightwothree")
    ensures TokenAt(line, 6) == None
  {
    NoTokenAt(line, 6, map[1 := 1]);
  }

  /** The values the scan emits at positions 0 to 6 of "eightwothree". */
  lemma EightTwoThreeUpTo7(line: string)
    requires Reads(line, "eightwothree")
    ensures TokensUpTo(line, 7) == [8, 2]
  {
    EightTwoThreeUpTo6(line);
    EightTwoThreeAt6(line);
    TokensUpToStep(line, 6);
  }

  /** The scan's outcome at position 7 of "eightwothree". */
  lemma EightTwoThreeAt7(line: string)
    requires Reads(line, "eightwothree")
    ensures TokenAt(line, 7) == Some(3)
  {
    TokenFoundAt(line, 7, 3, map[2 := 1]);
  }

  /** The values the scan emits at positions 0 to 7 of "eightwothree". */
  lemma EightTwoThreeUpTo8(line: string)
    requires Reads(line, "eightwothree")
    ensures TokensUpTo(line, 8) == [8, 2, 3]
  {
    EightTwoThreeUpTo7(line);
    EightTwoThreeAt7(line);
    TokensUpToStep(line, 7);
  }

  /** The scan's outcome at position 8 of "eightwothree". */
  lemma EightTwoThreeAt8(line: string)
    requires Reads(line, "eightwothree")
    ensures TokenAt(line, 8) == None
  {
    NoTokenAt(line, 8, map[]);
  }

  /** The values the scan emits at positions 0 to 8 of "eightwothree". */
  lemma EightTwoThreeUpTo9(line: string)
    requires Reads(line, "eightwothree")
    ensures TokensUpTo(line, 9) == [8, 2, 3]
  {
    EightTwoThreeUpTo8(line);
    EightTwoThreeAt8(line);
    TokensUpToStep(line, 8);
  }

  /** The scan's outcome at position 9 of "eightwothree". */
  lemma EightTwoThreeAt9(line: string)
    requires Reads(line, "eightwothree")
    ensures TokenAt(line, 9) == None
  {
    NoTokenAt(line, 9, map[]);
  }

  /** The values the scan emits at positions 0 to 9 of "eightwothree". */
  lemma EightTwoThreeUpTo10(line: string)
    requires Reads(line, "eightwothree")
    ensures TokensUpTo(line, 10) == [8, 2, 3]
  {
    EightTwoThreeUpTo9(line);
    EightTwoThreeAt9(line);
    TokensUpToStep(line, 9);
  }

  /** The scan's outcome at position 10 of "eightwothree". */
  lemma EightTwoThreeAt10(line: string)
    requires Reads(line, "eightwothree")
    ensures TokenAt(line, 10) == None
  {
    NoTokenAt(line, 10, map[8 := 0]);
  }

  /** The values the scan emits at positions 0 to 10 of "eightwothree". */
  lemma EightTwoThreeUpTo11(line: string)
    requires Reads(line, "eightwothree")
    ensures TokensUpTo(line, 11) == [8, 2, 3]
  {
    EightTwoThreeUpTo10(line);
    EightTwoThreeAt10(line);
    TokensUpToStep(line, 10);
  }

  /** The scan's outcome at position 11 of "eightwothree". */
  lemma EightTwoThreeAt11(line: string)
    requires Reads(line, "eightwothree")
    ensures TokenAt(line, 11) == None
  {
    NoTokenAt(line, 11, map[8 := 0]);
  }

  /** The values the scan emits at positions 0 to 11 of "eightwothree". */
  lemma EightTwoThreeUpTo12(line: string)
    requires Reads(line, "eightwothree")
    ensures TokensUpTo(line, 12) == [8, 2, 3]
  {
    EightTwoThreeUpTo11(line);
    EightTwoThreeAt11(line);
    TokensUpToStep(line, 11);
  }

  /** "eightwothree": "two" inside "eight...three" is found; the line's value is 83. */
  lemma EightTwoThree(line: string)
    requires Reads(line, "eightwothree")
    ensures Tokens(line) == [8, 2, 3]
    ensures Combine(Tokens(line)) == 83
  {
    EightTwoThreeUpTo12(line);
  }

  /** The scan's outcome at position 0 of "two1nine". */
  lemma TwoOneNineAt0(line: string)
    requires Reads(line, "two1nine")
    ensures TokenAt(line, 0) == Some(2)
  {
    TokenFoundAt(line, 0, 2, map[]);
  }

  /** The values the scan emits at position 0 of "two1nine". */
  lemma TwoOneNineUpTo1(line: string)
    requires Reads(line, "two1nine")
    ensures TokensUpTo(line, 1) == [2]
  {
    assert Hits(line)[..0] == [];
    TwoOneNineAt0(line);
    TokensUpToStep(line, 0);
  }

  /** The scan's outcome at position 1 of "two1nine". */
  lemma TwoOneNineAt1(line: string)
    requires Reads(line, "two1nine")
    ensures TokenAt(line, 1) == None
  {
    NoTokenAt(line, 1, map[]);
  }

  /** The values the scan emits at positions 0 to 1 of "two1nine". */
  lemma TwoOneNineUpTo2(line: string)
    requires Reads(line, "two1nine")
    ensures TokensUpTo(line, 2) == [2]
  {
    TwoOneNineUpTo1(line);
    TwoOneNineAt1(line);
    TokensUpToStep(line, 1);
  }

  /** The scan's outcome at position 2 of "two1nine". */
  lemma TwoOneNineAt2(line: string)
    requires Reads(line, "two1nine")
    ensures TokenAt(line, 2) == None
  {
    NoTokenAt(line, 2, map[1 := 1]);
  }

  /** The values the scan emits at positions 0 to 2 of "two1nine". */
  lemma TwoOneNineUpTo3(line: string)
    requires Reads(line, "two1nine")
    ensures TokensUpTo(line, 3) == [2]
  {
    TwoOneNineUpTo2(line);
    TwoOneNineAt2(line);
    TokensUpToStep(line, 2);
  }

  /** The scan's outcome at position 3 of "two1nine". */
  lemma TwoOneNineAt3(line: string)
    requires Reads(line, "two1nine")
    ensures TokenAt(line, 3) == Some(1)
  {
    TokenFoundAt(line, 3, 10, map[]);
  }

  /** The values the scan emits at positions 0 to 3 of "two1nine". */
  lemma TwoOneNineUpTo4(line: string)
    requires Reads(line, "two1nine")
    ensures TokensUpTo(line, 4) == [2, 1]
  {
    TwoOneNineUpTo3(line);
    TwoOneNineAt3(line);
    TokensUpToStep(line, 3);
  }

  /** The scan's outcome at position 4 of "two1nine". */
  lemma TwoOneNineAt4(line: string)
    requires Reads(line, "two1nine")
    ensures TokenAt(line, 4) == Some(9)
  {
    TokenFoundAt(line, 4, 9, map[]);
  }

  /** The values the scan emits at positions 0 to 4 of "two1nine". */
  lemma TwoOneNineUpTo5(line: string)
    requires Reads(line, "two1nine")
    ensures TokensUpTo(line, 5) == [2, 1, 9]
  {
    TwoOneNineUpTo4(line);
    TwoOneNineAt4(line);
    TokensUpToStep(line, 4);
  }

  /** The scan's outcome at position 5 of "two1nine". */
  lemma TwoOneNineAt5(line: string)
    requires Reads(line, "two1nine")
    ensures TokenAt(line, 5) == None
  {
    NoTokenAt(line, 5, map[]);
  }

  /** The values the scan emits at positions 0 to 5 of "two1nine". */
  lemma TwoOneNineUpTo6(line: string)
    requires Reads(line, "two1nine")
    ensures TokensUpTo(line, 6) == [2, 1, 9]
  {
    TwoOneNineUpTo5(line);
    TwoOneNineAt5(line);
    TokensUpToStep(line, 5);
  }

  /** The scan's outcome at position 6 of "two1nine". */
  lemma TwoOneNineAt6(line: string)
    requires Reads(line, "two1nine")
    ensures TokenAt(line, 6) == None
  {
    NoTokenAt(line, 6, map[9 := 0]);
  }

  /** The values the scan emits at positions 0 to 6 of "two1nine". */
  lemma TwoOneNineUpTo7(line: string)
    requires Reads(line, "two1nine")
    ensures TokensUpTo(line, 7) == [2, 1, 9]
  {
    TwoOneNineUpTo6(line);
    TwoOneNineAt6(line);
    TokensUpToStep(line, 6);
  }

  /** The scan's outcome at position 7 of "two1nine". */
  lemma TwoOneNineAt7(line: string)
    requires Reads(line, "two1nine")
    ensures TokenAt(line, 7) == None
  {
    NoTokenAt(line, 7, map[8 := 0]);
  }

  /** The values the scan emits at positions 0 to 7 of "two1nine". */
  lemma TwoOneNineUpTo8(line: string)
    requires Reads(line, "two1nine")
    ensures TokensUpTo(line, 8) == [2, 1, 9]
  {
    TwoOneNineUpTo7(line);
    TwoOneNineAt7(line);
    TokensUpToStep(line, 7);
  }

  /** "two1nine": words and a digit mix; the line's value is 29. */
  lemma TwoOneNine(line: string)
    requires Reads(line, "two1nine")
    ensures Tokens(line) == [2, 1, 9]
    ensures Combine(Tokens(line)) == 29
  {
    TwoOneNineUpTo8(line);
  }

  /** "a1b2c3": keeping the digit characters in place leaves "123". */
  lemma KeptDigits(line: string)
    requires Reads(line, "a1b2c3")
    ensures DigitChars(line) == "123"
  {
    DigitCharsStep(line, 0);
    DigitCharsStep(line, 1);
    DigitCharsStep(line, 2);
    DigitCharsStep(line, 3);
    DigitCharsStep(line, 4);
    DigitCharsStep(line, 5);
    assert line[..6] == line;
  }

  /** "a1b2c3": part one combines the first digit 1 and the last digit 3. */
  lemma DecodeDigits(line: string)
    requires Reads(line, "a1b2c3")
    ensures HasDigit(line)
    ensures DecodeSpec(line) == 13
  {
    assert IsDigit(line[1]);
    assert FirstDigitAt(line) == 1 by {
      assert !IsDigit(line[0]);
    }
    assert LastDigitAt(line) == 5 by {
      assert IsDigit(line[5]);
    }
  }
}
