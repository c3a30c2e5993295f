/** Day 2, the record parser: one line `Game <n>: <draw>; <draw>; ...`, each
    draw a comma-separated list of `<count> <colour>`, becomes a `Game`. */
module GameParser {
  import opened Results
  import opened Text
  import opened CubeGame

  /** One parsed `<count> <colour>` clause. */
  datatype Cube = Cube(color: Color, count: nat)

  /** The `match` on the colour word: exactly "blue", "red" or "green". */
  function ColorNamed(word: string): (r: Result<Color>)
    ensures r.Ok? <==> word == "blue" || word == "red" || word == "green"
  {
    if word == "blue" then Ok(Blue)
    else if word == "red" then Ok(Red)
    else if word == "green" then Ok(Green)
    else Err
  }

  /** One cube clause: trimmed, split on single spaces; the first word is the
      count, the second the colour, later words are ignored.  A clause whose
      only word is a valid count makes the source index past the end and
      panic: an error here. */
  function ParseCube(cube: string): (r: Result<Cube>)
    ensures r.Ok? ==> var words := Split(Trim(cube), ' ');
      |words| >= 2 && ParseU32(words[0]) == Ok(r.value.count) && ColorNamed(words[1]) == Ok(r.value.color)
  {
    var words := Split(Trim(cube), ' ');
    match ParseU32(words[0])
    case Err => Err
    case Ok(count) =>
      if |words| < 2 then Err
      else
        match ColorNamed(words[1])
        case Err => Err
        case Ok(color) => Ok(Cube(color, count))
  }

  /** The source's `entry(color).and_modify(|n| *n += count).or_insert(count)`. */
  function AddCube(m: map<Color, nat>, cube: Cube): (r: map<Color, nat>)
    ensures cube.color in r && Shown(GameSet(r), cube.color) == Shown(GameSet(m), cube.color) + cube.count
    ensures forall c :: c != cube.color ==> (c in r <==> c in m) && Shown(GameSet(r), c) == Shown(GameSet(m), c)
  {
    if cube.color in m then m[cube.color := m[cube.color] + cube.count]
    else m[cube.color := cube.count]
  }

  /** Folds the clauses of one draw into `acc`, left to right. */
  function ParseCubes(cubes: seq<string>, acc: map<Color, nat>): Result<map<Color, nat>>
    decreases |cubes|
  {
    if |cubes| == 0 then Ok(acc)
    else
      match ParseCube(cubes[0])
      case Err => Err
      case Ok(cube) => ParseCubes(cubes[1..], AddCube(acc, cube))
  }

  lemma ParseCubesStep(cubes: seq<string>, j: nat, acc: map<Color, nat>, cube: Cube)
    requires j < |cubes| && ParseCube(cubes[j]) == Ok(cube)
    ensures ParseCubes(cubes[j..], acc) == ParseCubes(cubes[j + 1..], AddCube(acc, cube))
  {
    assert cubes[j..][1..] == cubes[j + 1..];
  }

  /** One `;`-separated draw, its clauses separated by `,`. */
  function ParseSet(text: string): Result<GameSet> {
    match ParseCubes(Split(text, ','), map[])
    case Err => Err
    case Ok(m) => Ok(GameSet(m))
  }

  predicate EveryDrawParses(texts: seq<string>) {
    forall k :: 0 <= k < |texts| ==> ParseSet(texts[k]).Ok?
  }

  /** All draws, in order; any failing draw fails the whole record. */
  function ParseSets(texts: seq<string>): Result<seq<GameSet>> {
    if EveryDrawParses(texts) then
      Ok(seq(|texts|, k requires 0 <= k < |texts| && ParseSet(texts[k]).Ok? => ParseSet(texts[k]).value))
    else Err
  }

  lemma ParseSetsFails(texts: seq<string>, k: nat)
    requires k < |texts| && ParseSet(texts[k]).Err?
    ensures ParseSets(texts) == Err
  {
  }

  /** The draws parse to `data` exactly when each one parses to its entry. */
  lemma ParseSetsSucceeds(texts: seq<string>, data: seq<GameSet>)
    ensures ParseSets(texts) == Ok(data) <==>
      |data| == |texts| && forall k :: 0 <= k < |texts| ==> ParseSet(texts[k]) == Ok(data[k])
  {
    if forall k :: 0 <= k < |texts| ==> ParseSet(texts[k]).Ok? {
      var parsed := seq(|texts|, k requires 0 <= k < |texts| && ParseSet(texts[k]).Ok? => ParseSet(texts[k]).value);
      assert ParseSets(texts) == Ok(parsed);
      assert forall k :: 0 <= k < |texts| ==> ParseSet(texts[k]) == Ok(parsed[k]);
      if |data| == |texts| && forall k :: 0 <= k < |texts| ==> ParseSet(texts[k]) == Ok(data[k]) {
        assert forall k :: 0 <= k < |texts| ==> parsed[k] == data[k];
        assert parsed == data;
      }
    }
  }

  lemma ParseSetsExtend(texts: seq<string>, i: nat, data: seq<GameSet>, next: GameSet)
    requires i < |texts| && ParseSets(texts[..i]) == Ok(data) && ParseSet(texts[i]) == Ok(next)
    ensures ParseSets(texts[..i + 1]) == Ok(data + [next])
  {
    ParseSetsSucceeds(texts[..i], data);
    ParseSetsSucceeds(texts[..i + 1], data + [next]);
  }

  /** Reference value of `parse_game_data`. */
  function ParseGame(row: string): Result<Game> {
    var colonSplit := Split(Trim(row), ':');
    var headerWords := Split(colonSplit[0], ' ');
    if |headerWords| < 2 then Err
    else
      match ParseU32(headerWords[1])
      case Err => Err
      case Ok(index) =>
        if |colonSplit| < 2 then Err
        else
          match ParseSets(Split(Trim(colonSplit[1]), ';'))
          case Err => Err
          case Ok(data) => Ok(Game(index, data))
  }

  /** The body of `parse_game_data`'s outer loop: one draw, built clause by
      clause into a fresh map with the add-or-insert upsert. */
  method ParseSetData(text: string) returns (r: Result<GameSet>)
    ensures r == ParseSet(text)
  {
    var setHashMap: map<Color, nat> := map[];
    var cubes := Split(text, ',');
    for j := 0 to |cubes|
      invariant ParseCubes(cubes, map[]) == ParseCubes(cubes[j..], setHashMap)
    {
      var cubeSplit := Split(Trim(cubes[j]), ' ');
      var count := ParseU32(cubeSplit[0]);
      if count.Err? {
        assert ParseCube(cubes[j]) == Err;
        return Err;
      }
      if |cubeSplit| < 2 {
        assert ParseCube(cubes[j]) == Err;
        return Err;
      }
      var color := ColorNamed(cubeSplit[1]);
      if color.Err? {
        assert ParseCube(cubes[j]) == Err;
        return Err;
      }
      var cube := Cube(color.value, count.value);
      assert ParseCube(cubes[j]) == Ok(cube);
      ParseCubesStep(cubes, j, setHashMap, cube);
      setHashMap := AddCube(setHashMap, cube);
    }
    assert cubes[|cubes|..] == [];
    r := Ok(GameSet(setHashMap));
  }

  /** `parse_game_data`: the header gives the index, then every draw is
      parsed and pushed onto the list in order. */
  method ParseGameData(gameRow: string) returns (r: Result<Game>)
    ensures r == ParseGame(gameRow)
  {
    var colonSplit := Split(Trim(gameRow), ':');
    var indexStrData := colonSplit[0];
    var headerWords := Split(indexStrData, ' ');
    if |headerWords| < 2 {
      return Err;
    }
    var index := ParseU32(headerWords[1]);
    if index.Err? {
      return Err;
    }
    var data: seq<GameSet> := [];
    if |colonSplit| < 2 {
      return Err;
    }
    var setStr := colonSplit[1];
    var sets := Split(Trim(setStr), ';');
    ParseSetsSucceeds([], []);
    assert sets[..0] == [];
    for i := 0 to |sets|
      invariant ParseSets(sets[..i]) == Ok(data)
    {
      var parsed := ParseSetData(sets[i]);
      if parsed.Err? {
        ParseSetsFails(sets, i);
        return Err;
      }
      ParseSetsExtend(sets, i, data, parsed.value);
      data := data + [parsed.value];
    }
    assert sets[..|sets|] == sets;
    return Ok(Game(index.value, data));
  }

  // ---------------------------------------------------------------- lemmas

  /** Folds parsed clauses into `acc` exactly as the parser does. */
  function AddAll(acc: map<Color, nat>, cubes: seq<Cube>): map<Color, nat>
    decreases |cubes|
  {
    if |cubes| == 0 then acc else AddAll(AddCube(acc, cubes[0]), cubes[1..])
  }

  /** Total count of colour `c` over a list of clauses. */
  function Total(cubes: seq<Cube>, c: Color): nat {
    if |cubes| == 0 then 0
    else (if cubes[0].color == c then cubes[0].count else 0) + Total(cubes[1..], c)
  }

  /** Repeated colours within one draw are added up, not overwritten: each
      count is what `acc` had plus every clause of that colour, and a colour
      is present exactly when `acc` had it or some clause names it. */
  lemma {:induction false} AddAllTotals(acc: map<Color, nat>, cubes: seq<Cube>, c: Color)
    ensures Shown(GameSet(AddAll(acc, cubes)), c) == Shown(GameSet(acc), c) + Total(cubes, c)
    ensures c in AddAll(acc, cubes) <==> c in acc || exists k :: 0 <= k < |cubes| && cubes[k].color == c
    decreases |cubes|
  {
    if |cubes| > 0 {
      AddAllTotals(AddCube(acc, cubes[0]), cubes[1..], c);
      if exists k :: 0 <= k < |cubes[1..]| && cubes[1..][k].color == c {
        var k :| 0 <= k < |cubes[1..]| && cubes[1..][k].color == c;
        assert cubes[k + 1].color == c;
      }
      if exists k :: 0 <= k < |cubes| && cubes[k].color == c {
        var k :| 0 <= k < |cubes| && cubes[k].color == c;
        if k > 0 {
          assert cubes[1..][k - 1].color == c;
        }
      }
    }
  }

  /** A list of clauses that each parse folds like the parsed cubes do; a
      list with a failing clause fails. */
  lemma {:induction false} ParseCubesAll(texts: seq<string>, acc: map<Color, nat>, cubes: seq<Cube>)
    requires |texts| == |cubes|
    requires forall k :: 0 <= k < |texts| ==> ParseCube(texts[k]) == Ok(cubes[k])
    ensures ParseCubes(texts, acc) == Ok(AddAll(acc, cubes))
    decreases |texts|
  {
    if |texts| > 0 {
      ParseCubesAll(texts[1..], AddCube(acc, cubes[0]), cubes[1..]);
    }
  }

  lemma {:induction false} ParseCubesFails(texts: seq<string>, acc: map<Color, nat>, k: nat)
    requires k < |texts| && ParseCube(texts[k]).Err?
    ensures ParseCubes(texts, acc) == Err
    decreases k
  {
    if k > 0 {
      match ParseCube(texts[0])
      case Err =>
      case Ok(cube) =>
        ParseCubesFails(texts[1..], AddCube(acc, cube), k - 1);
    }
  }

  /** A clause is rejected when its count is not a `u32`, when it has no
      second word, or when that word is not exactly "blue", "red" or "green". */
  lemma ParseCubeAccepts(cube: string)
    ensures var words := Split(Trim(cube), ' ');
      ParseCube(cube).Ok? <==>
        ParseU32(words[0]).Ok? && |words| >= 2 &&
        (words[1] == "blue" || words[1] == "red" || words[1] == "green")
    ensures ParseCube(cube).Ok? ==> ParseCube(cube).value.count <= U32_MAX
  {
  }

  /** What `parse_game_data` accepts: the second space-separated word before
      the first colon of the trimmed line is a `u32`, a colon is present, and
      every `;`-separated piece of the trimmed text after it parses. */
  lemma ParseGameAccepts(row: string)
    ensures var colonSplit := Split(Trim(row), ':');
      var headerWords := Split(colonSplit[0], ' ');
      ParseGame(row).Ok? <==>
        |headerWords| >= 2 && ParseU32(headerWords[1]).Ok? && |colonSplit| >= 2 &&
        EveryDrawParses(Split(Trim(colonSplit[1]), ';'))
  {
  }

  /** What `parse_game_data` builds: the record's number is that word, and
      it has one draw per `;`-separated piece, in order. */
  lemma ParseGameShape(row: string)
    requires ParseGame(row).Ok?
    ensures var colonSplit := Split(Trim(row), ':');
      var headerWords := Split(colonSplit[0], ' ');
      |headerWords| >= 2 && |colonSplit| >= 2 &&
      var segments := Split(Trim(colonSplit[1]), ';');
      var game := ParseGame(row).value;
      game.index == ParseU32(headerWords[1]).value && game.index <= U32_MAX &&
      |game.data| == |segments| &&
      forall k :: 0 <= k < |segments| ==> ParseSet(segments[k]) == Ok(game.data[k])
  {
    var colonSplit := Split(Trim(row), ':');
    var segments := Split(Trim(colonSplit[1]), ';');
    ParseSetsSucceeds(segments, ParseGame(row).value.data);
  }

  /** Leading indentation (as in the multi-line test input) is ignored. */
  lemma IndentationIgnored(indent: string, row: string)
    requires forall k :: 0 <= k < |indent| ==> IsWhitespace(indent[k])
    ensures ParseGame(indent + row) == ParseGame(row)
  {
    TrimWhitespacePrefix(indent, row);
  }

  // ------------------------------------------------------- rendering

  function ColorName(c: Color): string {
    match c
    case Red => "red"
    case Green => "green"
    case Blue => "blue"
  }

  /** A clause as the puzzle writes it: `<count> <colour>`. */
  function RenderCube(cube: Cube): string {
    ShowNat(cube.count) + " " + ColorName(cube.color)
  }

  /** A draw: its clauses joined by ", ". */
  function RenderDraw(cubes: seq<Cube>): string {
    JoinWith(ClauseTexts(cubes), ", ")
  }

  /** A record line: `Game <index>: ` and the draws joined by "; ". */
  function RenderRecord(index: nat, draws: seq<seq<Cube>>): string {
    "Game " + ShowNat(index) + ": " +
    JoinWith(seq(|draws|, k requires 0 <= k < |draws| => RenderDraw(draws[k])), "; ")
  }

  /** What a record line can hold: `u32` numbers and at least one clause in
      at least one draw. */
  predicate Renderable(index: nat, draws: seq<seq<Cube>>) {
    index <= U32_MAX && |draws| >= 1 &&
    forall k :: 0 <= k < |draws| ==>
      |draws[k]| >= 1 && forall j :: 0 <= j < |draws[k]| ==> draws[k][j].count <= U32_MAX
  }

  lemma ColorNameParses(c: Color)
    ensures ColorNamed(ColorName(c)) == Ok(c)
    ensures ColorName(c) != [] && !IsWhitespace(ColorName(c)[|ColorName(c)| - 1])
  {
  }

  /** The characters a rendered clause is made of. */
  lemma RenderCubeChars(cube: Cube, d: char)
    requires d == ',' || d == ';' || d == ':'
    ensures NoChar(RenderCube(cube), d)
  {
    var n := ShowNat(cube.count);
    assert forall k :: 0 <= k < |n| ==> n[k] != d;
  }

  lemma {:induction false} ParseCubeLeadingSpace(text: string)
    ensures ParseCube([' '] + text) == ParseCube(text)
  {
    TrimLeadingSpace(text);
  }

  lemma ParseRenderCube(cube: Cube)
    requires cube.count <= U32_MAX
    ensures ParseCube(RenderCube(cube)) == Ok(cube)
  {
    var n, name := ShowNat(cube.count), ColorName(cube.color);
    var text := RenderCube(cube);
    ColorNameParses(cube.color);
    assert text == n + [' '] + name;
    assert !IsWhitespace(text[0]) by { assert text[0] == n[0]; }
    assert text[|text| - 1] == name[|name| - 1];
    TrimUnchanged(text);
    assert NoChar(n, ' ') by { assert forall k :: 0 <= k < |n| ==> IsDigit(n[k]); }
    SplitAfterPiece(n, name, ' ');
    SplitNoSeparator(name, ' ');
    ParseShowNat(cube.count);
  }

  /** The clause texts of a draw, before joining. */
  function ClauseTexts(cubes: seq<Cube>): seq<string> {
    seq(|cubes|, k requires 0 <= k < |cubes| => RenderCube(cubes[k]))
  }

  /** The pieces of a rendered draw, split at commas, parse to its clauses. */
  lemma {:induction false} RenderedClausesParse(cubes: seq<Cube>)
    requires |cubes| >= 1 && forall j :: 0 <= j < |cubes| ==> cubes[j].count <= U32_MAX
    ensures var pieces := Split(RenderDraw(cubes), ',');
      |pieces| == |cubes| && forall k :: 0 <= k < |pieces| ==> ParseCube(pieces[k]) == Ok(cubes[k])
  {
    var texts := ClauseTexts(cubes);
    assert RenderDraw(cubes) == JoinWith(texts, [',', ' ']);
    forall k | 0 <= k < |texts| ensures NoChar(texts[k], ',') {
      RenderCubeChars(cubes[k], ',');
    }
    SplitJoinPadded(texts, ',');
    var pieces := Split(RenderDraw(cubes), ',');
    forall k | 0 <= k < |pieces| ensures ParseCube(pieces[k]) == Ok(cubes[k]) {
      ParseRenderCube(cubes[k]);
      if k > 0 {
        assert pieces[k] == [' '] + texts[k];
        ParseCubeLeadingSpace(texts[k]);
      }
    }
  }

  /** A rendered draw parses to the fold of its clauses. */
  lemma ParseRenderDraw(cubes: seq<Cube>)
    requires |cubes| >= 1 && forall j :: 0 <= j < |cubes| ==> cubes[j].count <= U32_MAX
    ensures ParseSet(RenderDraw(cubes)) == Ok(GameSet(AddAll(map[], cubes)))
  {
    RenderedClausesParse(cubes);
    ParseCubesAll(Split(RenderDraw(cubes), ','), map[], cubes);
  }

  /** The space after a `;` does not change how a draw parses. */
  lemma ParseSetLeadingSpace(text: string)
    ensures ParseSet([' '] + text) == ParseSet(text)
  {
    var pieces := Split(text, ',');
    SplitLeadingSpace(text, ',');
    var padded := Split([' '] + text, ',');
    ParseCubeLeadingSpace(pieces[0]);
    assert padded[1..] == pieces[1..];
  }

  function DrawTexts(draws: seq<seq<Cube>>): seq<string> {
    seq(|draws|, k requires 0 <= k < |draws| => RenderDraw(draws[k]))
  }

  lemma DrawTextsAt(draws: seq<seq<Cube>>, k: nat)
    requires k < |draws|
    ensures |DrawTexts(draws)| == |draws| && DrawTexts(draws)[k] == RenderDraw(draws[k])
  {
  }

  /** A rendered draw starts with a digit and ends with a letter. */
  lemma RenderDrawEnds(cubes: seq<Cube>)
    requires |cubes| >= 1
    ensures StartsWithDigit(RenderDraw(cubes)) && EndsSolid(RenderDraw(cubes))
  {
    var texts := ClauseTexts(cubes);
    var first, last := cubes[0], cubes[|cubes| - 1];
    assert texts[0] == ShowNat(first.count) + " " + ColorName(first.color);
    JoinWithStartsWithDigit(texts, ", ");
    ColorNameParses(last.color);
    assert texts[|texts| - 1] == ShowNat(last.count) + " " + ColorName(last.color);
    JoinWithEndsSolid(texts, ", ");
  }

  /** A rendered draw holds no `:` or `;`. */
  lemma RenderDrawNoChar(cubes: seq<Cube>, d: char)
    requires d == ':' || d == ';'
    ensures NoChar(RenderDraw(cubes), d)
  {
    var texts := ClauseTexts(cubes);
    forall k | 0 <= k < |texts| ensures NoChar(texts[k], d) {
      RenderCubeChars(cubes[k], d);
    }
    JoinWithNoChar(texts, ", ", d);
  }

  /** The draws part of a rendered record holds no `:`. */
  lemma RenderedDrawsNoColon(draws: seq<seq<Cube>>)
    requires forall k :: 0 <= k < |draws| ==> |draws[k]| >= 1
    ensures NoChar(JoinWith(DrawTexts(draws), "; "), ':')
  {
    var texts := DrawTexts(draws);
    forall k | 0 <= k < |texts| ensures NoChar(texts[k], ':') {
      RenderDrawNoChar(draws[k], ':');
    }
    JoinWithNoChar(texts, "; ", ':');
  }

  lemma RenderedDrawsFirst(draws: seq<seq<Cube>>)
    requires |draws| >= 1 && |draws[0]| >= 1
    ensures StartsWithDigit(JoinWith(DrawTexts(draws), "; "))
  {
    DrawTextsAt(draws, 0);
    RenderDrawEnds(draws[0]);
    JoinWithStartsWithDigit(DrawTexts(draws), "; ");
  }

  lemma RenderedDrawsLast(draws: seq<seq<Cube>>)
    requires |draws| >= 1 && |draws[|draws| - 1]| >= 1
    ensures EndsSolid(JoinWith(DrawTexts(draws), "; "))
  {
    DrawTextsAt(draws, |draws| - 1);
    RenderDrawEnds(draws[|draws| - 1]);
    JoinWithEndsSolid(DrawTexts(draws), "; ");
  }

  /** The draws part of a rendered record starts with a digit, ends with
      a letter and holds no `:`. */
  lemma RenderedDrawsShape(draws: seq<seq<Cube>>)
    requires |draws| >= 1 && forall k :: 0 <= k < |draws| ==> |draws[k]| >= 1
    ensures var body := JoinWith(DrawTexts(draws), "; ");
      StartsWithDigit(body) && EndsSolid(body) && NoChar(body, ':')
  {
    RenderedDrawsFirst(draws);
    RenderedDrawsLast(draws);
    RenderedDrawsNoColon(draws);
  }

  /** The draws part of a rendered record, after the record's space, parses
      back to the folded draws. */
  lemma {:induction false} RenderedDrawsParse(draws: seq<seq<Cube>>, index: nat)
    requires Renderable(index, draws)
    ensures ParseSets(Split(Trim([' '] + JoinWith(DrawTexts(draws), "; ")), ';')) ==
      Ok(seq(|draws|, k requires 0 <= k < |draws| => GameSet(AddAll(map[], draws[k]))))
  {
    var texts := DrawTexts(draws);
    var body := JoinWith(texts, "; ");
    RenderedDrawsShape(draws);
    TrimLeadingSpace(body);
    TrimUnchanged(body);
    forall k | 0 <= k < |texts| ensures NoChar(texts[k], ';') {
      RenderDrawNoChar(draws[k], ';');
    }
    SplitJoinPadded(texts, ';');
    var segments := Split(body, ';');
    var data := seq(|draws|, k requires 0 <= k < |draws| => GameSet(AddAll(map[], draws[k])));
    forall k | 0 <= k < |segments| ensures ParseSet(segments[k]) == Ok(data[k]) {
      ParseRenderDraw(draws[k]);
      if k > 0 {
        assert segments[k] == [' '] + texts[k];
        ParseSetLeadingSpace(texts[k]);
      }
    }
    ParseSetsSucceeds(segments, data);
  }

  /** The header of a written record is two words, the second the number. */
  lemma HeaderSplit(index: nat)
    ensures Split("Game " + ShowNat(index), ' ') == ["Game", ShowNat(index)]
  {
    var n := ShowNat(index);
    assert NoChar(n, ' ') by {
      assert forall k :: 0 <= k < |n| ==> IsDigit(n[k]);
    }
    assert "Game " + n == "Game" + [' '] + n;
    SplitAfterPiece("Game", n, ' ');
    SplitNoSeparator(n, ' ');
  }

  /** A written record survives `trim` and has exactly one colon, after
      its header. */
  lemma RecordColonSplit(index: nat, draws: seq<seq<Cube>>)
    requires |draws| >= 1 && forall k :: 0 <= k < |draws| ==> |draws[k]| >= 1
    ensures var row := RenderRecord(index, draws);
      Split(Trim(row), ':') == ["Game " + ShowNat(index), [' '] + JoinWith(DrawTexts(draws), "; ")]
  {
    var n := ShowNat(index);
    var body := JoinWith(DrawTexts(draws), "; ");
    RenderedDrawsShape(draws);
    var row := RenderRecord(index, draws);
    var header := "Game " + n;
    assert row == header + [':'] + ([' '] + body);
    assert row[0] == 'G' && row[|row| - 1] == body[|body| - 1];
    TrimUnchanged(row);
    assert NoChar(header, ':') by {
      assert forall k :: 0 <= k < |n| ==> IsDigit(n[k]);
    }
    SplitAfterPiece(header, [' '] + body, ':');
    SplitNoSeparator([' '] + body, ':');
  }

  /** Parsing a rendered record gives back its index and, per draw, the
      per-colour totals of its clauses. */
  lemma ParseRenderedRecord(index: nat, draws: seq<seq<Cube>>)
    requires Renderable(index, draws)
    ensures ParseGame(RenderRecord(index, draws)) ==
      Ok(Game(index, seq(|draws|, k requires 0 <= k < |draws| => GameSet(AddAll(map[], draws[k])))))
  {
    RecordColonSplit(index, draws);
    HeaderSplit(index);
    ParseShowNat(index);
    RenderedDrawsParse(draws, index);
  }

  /** One clause per colour a draw records, in the order red, green, blue. */
  function CubesOf(m: map<Color, nat>): seq<Cube> {
    (if Red in m then [Cube(Red, m[Red])] else []) +
    (if Green in m then [Cube(Green, m[Green])] else []) +
    (if Blue in m then [Cube(Blue, m[Blue])] else [])
  }

  lemma {:induction false} AddAllConcat(acc: map<Color, nat>, a: seq<Cube>, b: seq<Cube>)
    ensures AddAll(acc, a + b) == AddAll(AddAll(acc, a), b)
    decreases |a|
  {
    if |a| > 0 {
      assert (a + b)[1..] == a[1..] + b;
      AddAllConcat(AddCube(acc, a[0]), a[1..], b);
    } else {
      assert a + b == b;
    }
  }

  /** Folding the clauses of a draw rebuilds the draw. */
  lemma AddAllCubesOf(m: map<Color, nat>)
    ensures AddAll(map[], CubesOf(m)) == m
  {
    var red := if Red in m then [Cube(Red, m[Red])] else [];
    var green := if Green in m then [Cube(Green, m[Green])] else [];
    var blue := if Blue in m then [Cube(Blue, m[Blue])] else [];
    AddAllConcat(map[], red + green, blue);
    AddAllConcat(map[], red, green);
    var r1 := AddAll(map[], red);
    var r2 := AddAll(r1, green);
    var r3 := AddAll(r2, blue);
    assert r1 == if Red in m then map[Red := m[Red]] else map[];
    assert r2 == if Green in m then r1[Green := m[Green]] else r1;
    assert r3 == if Blue in m then r2[Blue := m[Blue]] else r2;
    forall c: Color ensures (c in r3 <==> c in m) && (c in m ==> r3[c] == m[c]) {
      match c
      case Red =>
      case Green =>
      case Blue =>
    }
    assert r3.Keys == m.Keys;
  }

  /** A record the puzzle's line format can hold. */
  predicate WellFormed(g: Game) {
    g.index <= U32_MAX && |g.data| >= 1 &&
    forall k :: 0 <= k < |g.data| ==>
      |g.data[k].data| >= 1 && forall c :: c in g.data[k].data ==> g.data[k].data[c] <= U32_MAX
  }

  /** The line for a record, each draw listing its colours in the order red,
      green, blue. */
  function RenderGame(g: Game): string {
    RenderRecord(g.index, seq(|g.data|, k requires 0 <= k < |g.data| => CubesOf(g.data[k].data)))
  }

  /** Every well-formed record survives rendering and parsing. */
  lemma ParseRenderGame(g: Game)
    requires WellFormed(g)
    ensures ParseGame(RenderGame(g)) == Ok(g)
  {
    var draws: seq<seq<Cube>> := seq(|g.data|, k requires 0 <= k < |g.data| => CubesOf(g.data[k].data));
    forall k | 0 <= k < |draws|
      ensures |draws[k]| >= 1 && forall j :: 0 <= j < |draws[k]| ==> draws[k][j].count <= U32_MAX
      ensures GameSet(AddAll(map[], draws[k])) == g.data[k]
    {
      AddAllCubesOf(g.data[k].data);
    }
    ParseRenderedRecord(g.index, draws);
    var data := seq(|draws|, k requires 0 <= k < |draws| => GameSet(AddAll(map[], draws[k])));
    assert data == g.data;
  }
}
