/** The parts of Rust's `str` and `u32` behaviour that both solvers rely on,
    restricted to ASCII text: `char::is_numeric`/`to_digit(10)`,
    `char::is_whitespace`, `str::trim`, `str::split` on one character and
    `str::parse::<u32>`.  A canonical decimal rendering `ShowNat` is the
    partner of `ParseU32`. */
module Text {
  import opened Results

  /** Largest value a Rust `u32` holds. */
  const U32_MAX: nat := 0xFFFF_FFFF

  /** ASCII part of `char::is_numeric`. */
  predicate IsDigit(ch: char) {
    '0' <= ch <= '9'
  }

  /** The digits are exactly the ten characters `0` to `9`, and `DigitChar`
      gives back the character `DigitValue` read. */
  lemma DigitCharacters(ch: char)
    ensures IsDigit(ch) <==> ch in "0123456789"
    ensures IsDigit(ch) ==> DigitChar(DigitValue(ch)) == ch
  {
  }

  function DigitValue(ch: char): (d: nat)
    requires IsDigit(ch)
    ensures d <= 9
  {
    (ch - '0') as nat
  }

  function DigitChar(d: nat): (ch: char)
    requires d <= 9
    ensures IsDigit(ch) && DigitValue(ch) == d
  {
    ('0' as int + d) as char
  }

  /** ASCII part of `char::is_whitespace`. */
  predicate IsWhitespace(ch: char) {
    ch == ' ' || ch == '\t' || ch == '\n' || ch == '\r' || ch == '\U{000B}' || ch == '\U{000C}'
  }

  predicate AllDigits(s: string) {
    forall k :: 0 <= k < |s| ==> IsDigit(s[k])
  }

  /** `s` does not contain the character `d`. */
  predicate NoChar(s: string, d: char) {
    forall k :: 0 <= k < |s| ==> s[k] != d
  }

  /** `str::trim_start`: drops leading whitespace. */
  function TrimStart(s: string): string {
    if |s| > 0 && IsWhitespace(s[0]) then TrimStart(s[1..]) else s
  }

  /** `str::trim_end`: drops trailing whitespace. */
  function TrimEnd(s: string): string {
    if |s| > 0 && IsWhitespace(s[|s| - 1]) then TrimEnd(s[..|s| - 1]) else s
  }

  /** `str::trim`: drops leading and trailing whitespace. */
  function Trim(s: string): string {
    TrimEnd(TrimStart(s))
  }

  /** `TrimStart(s)` is a suffix of `s` that is empty or starts with a
      non-whitespace character, and only whitespace was dropped. */
  lemma {:induction false} TrimStartSuffix(s: string)
    ensures |TrimStart(s)| <= |s| && TrimStart(s) == s[|s| - |TrimStart(s)|..]
    ensures forall k :: 0 <= k < |s| - |TrimStart(s)| ==> IsWhitespace(s[k])
    ensures TrimStart(s) == [] || !IsWhitespace(TrimStart(s)[0])
  {
    if |s| > 0 && IsWhitespace(s[0]) {
      TrimStartSuffix(s[1..]);
      assert s[1..][|s| - 1 - |TrimStart(s)|..] == s[|s| - |TrimStart(s)|..];
    }
  }

  /** `TrimEnd(s)` is a prefix of `s` that is empty or ends with a
      non-whitespace character, and only whitespace was dropped. */
  lemma {:induction false} TrimEndPrefix(s: string)
    ensures |TrimEnd(s)| <= |s| && TrimEnd(s) == s[..|TrimEnd(s)|]
    ensures forall k :: |TrimEnd(s)| <= k < |s| ==> IsWhitespace(s[k])
    ensures TrimEnd(s) == [] || !IsWhitespace(TrimEnd(s)[|TrimEnd(s)| - 1])
  {
    if |s| > 0 && IsWhitespace(s[|s| - 1]) {
      TrimEndPrefix(s[..|s| - 1]);
      assert s[..|s| - 1][..|TrimEnd(s)|] == s[..|TrimEnd(s)|];
    }
  }

  /** `Trim(s)` neither starts nor ends with whitespace, and it is the slice
      of `s` between a whitespace prefix and a whitespace suffix. */
  lemma TrimSlice(s: string)
    ensures |Trim(s)| <= |TrimStart(s)| <= |s|
    ensures Trim(s) == [] || (!IsWhitespace(Trim(s)[0]) && !IsWhitespace(Trim(s)[|Trim(s)| - 1]))
    ensures var a := |s| - |TrimStart(s)|;
      a + |Trim(s)| <= |s| && Trim(s) == s[a..a + |Trim(s)|] &&
      (forall k :: 0 <= k < a ==> IsWhitespace(s[k])) &&
      (forall k :: a + |Trim(s)| <= k < |s| ==> IsWhitespace(s[k]))
  {
    var t := TrimStart(s);
    var a := |s| - |t|;
    TrimStartSuffix(s);
    TrimEndPrefix(t);
    forall j | a + |Trim(s)| <= j < |s|
      ensures IsWhitespace(s[j])
    {
      assert t[j - a] == s[j];
    }
  }

  lemma TrimUnchanged(s: string)
    requires s != [] && !IsWhitespace(s[0]) && EndsSolid(s)
    ensures Trim(s) == s
  {
  }

  lemma TrimLeadingSpace(s: string)
    ensures Trim([' '] + s) == Trim(s)
  {
    assert ([' '] + s)[1..] == s;
  }

  /** `str::split` on one character: the maximal pieces between separators,
      always at least one (possibly empty) piece. */
  function Split(s: string, d: char): (r: seq<string>)
    ensures |r| >= 1
  {
    if |s| == 0 then [""]
    else
      var rest := Split(s[1..], d);
      if s[0] == d then [""] + rest
      else [[s[0]] + rest[0]] + rest[1..]
  }

  /** Puts the pieces back together with `sep` between neighbours. */
  function JoinWith(parts: seq<string>, sep: string): string {
    if |parts| == 0 then ""
    else if |parts| == 1 then parts[0]
    else parts[0] + sep + JoinWith(parts[1..], sep)
  }

  lemma {:induction false} SplitNoSeparator(a: string, d: char)
    requires NoChar(a, d)
    ensures Split(a, d) == [a]
  {
    if |a| > 0 {
      SplitNoSeparator(a[1..], d);
      assert [a[0]] + a[1..] == a;
    }
  }

  lemma {:induction false} SplitAfterPiece(a: string, b: string, d: char)
    requires NoChar(a, d)
    ensures Split(a + [d] + b, d) == [a] + Split(b, d)
  {
    var s := a + [d] + b;
    if |a| == 0 {
      assert s[1..] == b;
    } else {
      assert s[1..] == a[1..] + [d] + b;
      SplitAfterPiece(a[1..], b, d);
      assert [s[0]] + a[1..] == a;
    }
  }

  /** Splitting undoes joining with the separator character alone. */
  lemma {:induction false} SplitJoin(parts: seq<string>, d: char)
    requires |parts| >= 1
    requires forall k :: 0 <= k < |parts| ==> NoChar(parts[k], d)
    ensures Split(JoinWith(parts, [d]), d) == parts
  {
    if |parts| == 1 {
      SplitNoSeparator(parts[0], d);
    } else {
      SplitJoin(parts[1..], d);
      SplitAfterPiece(parts[0], JoinWith(parts[1..], [d]), d);
    }
  }

  /** Joining the pieces of a split restores the text. */
  lemma {:induction false} JoinSplit(s: string, d: char)
    ensures JoinWith(Split(s, d), [d]) == s
  {
    if |s| > 0 {
      JoinSplit(s[1..], d);
      var rest := Split(s[1..], d);
      if s[0] == d {
        assert JoinWith([""] + rest, [d]) == "" + [d] + JoinWith(rest, [d]);
      } else if |rest| == 1 {
        assert s == [s[0]] + s[1..];
      } else {
        var parts := [[s[0]] + rest[0]] + rest[1..];
        assert parts[1..] == rest[1..];
        assert JoinWith(rest, [d]) == rest[0] + [d] + JoinWith(rest[1..], [d]);
        assert JoinWith(parts, [d]) == [s[0]] + rest[0] + [d] + JoinWith(rest[1..], [d]);
      }
    }
  }

  /** Value of a non-empty run of ASCII digits, most significant first. */
  function DecimalValue(s: string): nat
    requires AllDigits(s)
  {
    if |s| == 0 then 0 else 10 * DecimalValue(s[..|s| - 1]) + DigitValue(s[|s| - 1])
  }

  /** Canonical decimal rendering of a natural number (no sign, no leading zero). */
  function ShowNat(n: nat): (s: string)
    ensures |s| >= 1 && AllDigits(s)
  {
    if n < 10 then [DigitChar(n)] else ShowNat(n / 10) + [DigitChar(n % 10)]
  }

  /** `str::parse::<u32>`: an optional `+`, then at least one ASCII digit,
      and a value that fits in 32 bits. */
  function ParseU32(s: string): (r: Result<nat>)
    ensures r.Ok? ==> r.value <= U32_MAX
  {
    var digits := if |s| > 0 && s[0] == '+' then s[1..] else s;
    if |digits| == 0 || !AllDigits(digits) then Err
    else if DecimalValue(digits) > U32_MAX then Err
    else Ok(DecimalValue(digits))
  }

  lemma {:induction false} DecimalValueOfShowNat(n: nat)
    ensures DecimalValue(ShowNat(n)) == n
  {
    if n >= 10 {
      DecimalValueOfShowNat(n / 10);
      var s := ShowNat(n);
      assert s[..|s| - 1] == ShowNat(n / 10);
    }
  }

  /** Parsing the canonical rendering of any `u32` value gives it back. */
  lemma ParseShowNat(n: nat)
    requires n <= U32_MAX
    ensures ParseU32(ShowNat(n)) == Ok(n)
  {
    DecimalValueOfShowNat(n);
  }

  /** A parsed number is exactly what its digits (after an optional `+`) spell. */
  lemma ParseU32Accepts(s: string)
    ensures ParseU32(s).Ok? <==>
      var digits := if |s| > 0 && s[0] == '+' then s[1..] else s;
      |digits| > 0 && AllDigits(digits) && DecimalValue(digits) <= U32_MAX
  {
  }

  /** Leading whitespace never survives `Trim`. */
  lemma {:induction false} TrimWhitespacePrefix(ws: string, s: string)
    requires forall k :: 0 <= k < |ws| ==> IsWhitespace(ws[k])
    ensures Trim(ws + s) == Trim(s)
  {
    if |ws| > 0 {
      assert (ws + s)[1..] == ws[1..] + s;
      TrimWhitespacePrefix(ws[1..], s);
    } else {
      assert ws + s == s;
    }
  }

  /** A leading space (not the separator) joins the first piece. */
  lemma SplitLeadingSpace(s: string, d: char)
    requires d != ' '
    ensures Split([' '] + s, d) == [[' '] + Split(s, d)[0]] + Split(s, d)[1..]
  {
    assert ([' '] + s)[1..] == s;
  }

  /** Splitting text joined with "d " gives back the pieces, every piece after
      the first keeping the space that followed its separator. */
  lemma {:induction false} SplitJoinPadded(parts: seq<string>, d: char)
    requires d != ' ' && |parts| >= 1
    requires forall k :: 0 <= k < |parts| ==> NoChar(parts[k], d)
    ensures Split(JoinWith(parts, [d, ' ']), d) ==
      [parts[0]] + seq(|parts| - 1, k requires 0 <= k < |parts| - 1 => [' '] + parts[k + 1])
  {
    if |parts| == 1 {
      SplitNoSeparator(parts[0], d);
    } else {
      var rest := JoinWith(parts[1..], [d, ' ']);
      assert JoinWith(parts, [d, ' ']) == parts[0] + [d] + ([' '] + rest);
      SplitAfterPiece(parts[0], [' '] + rest, d);
      SplitLeadingSpace(rest, d);
      SplitJoinPadded(parts[1..], d);
      var tail := Split(rest, d);
      var want := seq(|parts| - 1, k requires 0 <= k < |parts| - 1 => [' '] + parts[k + 1]);
      assert [[' '] + tail[0]] + tail[1..] == want by {
        assert |tail| == |want|;
        forall k | 0 <= k < |want| ensures ([[' '] + tail[0]] + tail[1..])[k] == want[k] {
          if k > 0 {
            assert tail[k] == [' '] + parts[1..][k];
          }
        }
      }
    }
  }

  lemma {:induction false} JoinWithNoChar(parts: seq<string>, sep: string, d: char)
    requires NoChar(sep, d)
    requires forall k :: 0 <= k < |parts| ==> NoChar(parts[k], d)
    ensures NoChar(JoinWith(parts, sep), d)
  {
    if |parts| > 1 {
      JoinWithNoChar(parts[1..], sep, d);
    }
  }

  /** `s` starts with an ASCII digit. */
  predicate StartsWithDigit(s: string) {
    s != [] && IsDigit(s[0])
  }

  /** `s` ends in a character that `trim` keeps. */
  predicate EndsSolid(s: string) {
    s != [] && !IsWhitespace(s[|s| - 1])
  }

  /** Joined text starts the way its first piece starts. */
  lemma JoinWithStartsWithDigit(parts: seq<string>, sep: string)
    requires |parts| >= 1 && StartsWithDigit(parts[0])
    ensures StartsWithDigit(JoinWith(parts, sep))
  {
    if |parts| > 1 {
      assert JoinWith(parts, sep) == parts[0] + (sep + JoinWith(parts[1..], sep));
    }
  }

  /** Joined text ends the way its last piece ends. */
  lemma {:induction false} JoinWithEndsSolid(parts: seq<string>, sep: string)
    requires |parts| >= 1 && EndsSolid(parts[|parts| - 1])
    ensures EndsSolid(JoinWith(parts, sep))
  {
    if |parts| > 1 {
      assert parts[1..][|parts| - 2] == parts[|parts| - 1];
      JoinWithEndsSolid(parts[1..], sep);
      var rest := JoinWith(parts[1..], sep);
      assert JoinWith(parts, sep) == (parts[0] + sep) + rest;
    }
  }
}
