/** Day 2, bag arithmetic: the smallest bag of coloured cubes that explains
    every draw of a game, checking a game against a bag, the "power" of a bag,
    and the two puzzle answers folded over already parsed games. */
module CubeGame {
  import opened Results

  datatype Color = Red | Blue | Green

  const AllColors: set<Color> := {Red, Blue, Green}

  lemma EveryColorListed(c: Color)
    ensures c in AllColors
  {
  }

  /** Cube counts per colour available in (or required of) a bag. */
  datatype Bag = Bag(data: map<Color, nat>)

  /** One draw: the counts shown; a colour absent from the map was not shown. */
  datatype GameSet = GameSet(data: map<Color, nat>)

  /** A game record: its declared number and its draws in order. */
  datatype Game = Game(index: nat, data: seq<GameSet>)

  /** How many cubes of colour `c` a draw shows. */
  function Shown(s: GameSet, c: Color): nat {
    if c in s.data then s.data[c] else 0
  }

  /** `Bag::default()`: every colour present, at zero. */
  function DefaultBag(): (b: Bag)
    ensures b.data.Keys == AllColors
    ensures forall c :: c in b.data ==> b.data[c] == 0
  {
    Bag(map[Red := 0, Blue := 0, Green := 0])
  }

  /** Largest count of colour `c` shown by any of `sets` (0 when none shows it). */
  function MaxShown(sets: seq<GameSet>, c: Color): nat {
    if |sets| == 0 then 0
    else
      var rest := MaxShown(sets[..|sets| - 1], c);
      var last := Shown(sets[|sets| - 1], c);
      if last > rest then last else rest
  }

  /** Reference value of `calculate_minimum_bag`. */
  function MinimumBag(game: Game): (b: Bag)
    ensures b.data.Keys == AllColors
  {
    Bag(map c | c in AllColors :: MaxShown(game.data, c))
  }

  /** The larger of the bag's entry and the draw's count, per colour. */
  function Raised(bag: Bag, draw: GameSet, c: Color): nat
    requires c in bag.data
  {
    if Shown(draw, c) > bag.data[c] then Shown(draw, c) else bag.data[c]
  }

  /** `calculate_minimum_bag`: start from the default bag and raise it to
      every draw in turn.  The source's `Result` is never an error. */
  method CalculateMinimumBag(game: Game) returns (queried: Bag)
    ensures queried == MinimumBag(game)
  {
    queried := DefaultBag();
    for i := 0 to |game.data|
      invariant queried.data.Keys == AllColors
      invariant forall c :: c in AllColors ==> queried.data[c] == MaxShown(game.data[..i], c)
    {
      assert game.data[..i + 1][..i] == game.data[..i];
      queried := RaiseToDraw(queried, game.data[i]);
    }
    assert game.data[..|game.data|] == game.data;
  }

  /** The inner loop of `calculate_minimum_bag`: for every colour the draw
      shows (in the map's own order), raise that entry of the bag to the
      shown count. */
  method RaiseToDraw(bag: Bag, draw: GameSet) returns (raised: Bag)
    requires bag.data.Keys == AllColors
    ensures raised.data.Keys == AllColors
    ensures forall c :: c in AllColors ==> raised.data[c] == Raised(bag, draw, c)
  {
    raised := bag;
    var todo := draw.data.Keys;
    while todo != {}
      invariant todo <= draw.data.Keys
      invariant raised.data.Keys == AllColors
      invariant forall c :: c in AllColors && c !in todo ==> raised.data[c] == Raised(bag, draw, c)
      invariant forall c :: c in AllColors && c in todo ==> raised.data[c] == bag.data[c]
      decreases todo
    {
      var color :| color in todo;
      EveryColorListed(color);
      var count := draw.data[color];
      if count > raised.data[color] {
        raised := Bag(raised.data[color := count]);
      }
      todo := todo - {color};
    }
  }

  /** The bag holds every colour and at least as many cubes of each as the
      game's minimum bag. */
  predicate Feasible(bag: Bag, game: Game) {
    AllColors <= bag.data.Keys &&
    forall c :: c in AllColors ==> MaxShown(game.data, c) <= bag.data[c]
  }

  /** `validate_game`: walk the minimum bag's entries in some order; a colour
      missing from `bag` is an error, an entry above the bag's count answers
      false.  Whatever the order, the answer is true exactly when the bag is
      feasible, and a bag with all three colours never errs. */
  method ValidateGame(bag: Bag, game: Game) returns (r: Result<bool>)
    ensures r == Ok(true) <==> Feasible(bag, game)
    ensures r.Err? ==> !(AllColors <= bag.data.Keys)
    ensures AllColors <= bag.data.Keys ==> r == Ok(Feasible(bag, game))
  {
    var queried := CalculateMinimumBag(game);
    var todo := queried.data.Keys;
    while todo != {}
      invariant todo <= AllColors
      invariant forall c :: c in AllColors && c !in todo ==>
        c in bag.data && MaxShown(game.data, c) <= bag.data[c]
      decreases todo
    {
      var color :| color in todo;
      var foundCount := queried.data[color];
      if color !in bag.data {
        return Err;
      }
      var maxCount := bag.data[color];
      if foundCount > maxCount {
        return Ok(false);
      }
      todo := todo - {color};
    }
    return Ok(true);
  }

  /** `calculate_power`: product of the red, green and blue entries; an absent
      colour is an error. */
  function CalculatePower(bag: Bag): (r: Result<nat>)
    ensures r.Ok? <==> AllColors <= bag.data.Keys
  {
    if Red !in bag.data || Green !in bag.data || Blue !in bag.data then Err
    else Ok(bag.data[Red] * bag.data[Green] * bag.data[Blue])
  }

  /** The bag `part1` checks every game against. */
  function PuzzleBag(): (b: Bag)
    ensures b.data.Keys == AllColors
    ensures b.data[Red] == 12 && b.data[Green] == 13 && b.data[Blue] == 14
  {
    Bag(map[Red := 12, Green := 13, Blue := 14])
  }

  /** Sum of the numbers of the games the puzzle bag can produce. */
  function SumFeasible(games: seq<Game>): nat {
    if |games| == 0 then 0
    else
      var last := games[|games| - 1];
      SumFeasible(games[..|games| - 1]) + (if Feasible(PuzzleBag(), last) then last.index else 0)
  }

  function Power(game: Game): nat {
    MaxShown(game.data, Red) * MaxShown(game.data, Green) * MaxShown(game.data, Blue)
  }

  /** Sum of the powers of the games' minimum bags. */
  function SumPowers(games: seq<Game>): nat {
    if |games| == 0 then 0 else SumPowers(games[..|games| - 1]) + Power(games[|games| - 1])
  }

  /** `part1` without the file: add up the numbers of the feasible games. */
  method Part1(games: seq<Game>) returns (r: Result<nat>)
    ensures r == Ok(SumFeasible(games))
  {
    var bag := PuzzleBag();
    var res := 0;
    for i := 0 to |games|
      invariant res == SumFeasible(games[..i])
    {
      var game := games[i];
      var ok := ValidateGame(bag, game);
      if ok.Err? {
        return Err;
      }
      assert games[..i + 1][..i] == games[..i];
      if ok.value {
        res := res + game.index;
      }
    }
    assert games[..|games|] == games;
    r := Ok(res);
  }

  /** `part2` without the file: add up the powers of the minimum bags. */
  method Part2(games: seq<Game>) returns (r: Result<nat>)
    ensures r == Ok(SumPowers(games))
  {
    var res := 0;
    for i := 0 to |games|
      invariant res == SumPowers(games[..i])
    {
      var minBag := CalculateMinimumBag(games[i]);
      var power := CalculatePower(minBag);
      if power.Err? {
        return Err;
      }
      assert games[..i + 1][..i] == games[..i];
      res := res + power.value;
    }
    assert games[..|games|] == games;
    r := Ok(res);
  }

  // ---------------------------------------------------------------- lemmas

  /** Every count shown in every draw fits in the minimum bag. */
  lemma {:induction false} MaxShownBounds(sets: seq<GameSet>, c: Color, k: nat)
    requires k < |sets|
    ensures Shown(sets[k], c) <= MaxShown(sets, c)
  {
    if k < |sets| - 1 {
      MaxShownBounds(sets[..|sets| - 1], c, k);
      assert sets[..|sets| - 1][k] == sets[k];
    }
  }

  /** Each entry of the minimum bag is 0 or is shown by some draw. */
  lemma {:induction false} MaxShownAttained(sets: seq<GameSet>, c: Color)
    ensures MaxShown(sets, c) == 0 ||
      exists k :: 0 <= k < |sets| && c in sets[k].data && sets[k].data[c] == MaxShown(sets, c)
  {
    if |sets| > 0 {
      var init := sets[..|sets| - 1];
      MaxShownAttained(init, c);
      if MaxShown(sets, c) != Shown(sets[|sets| - 1], c) && MaxShown(init, c) != 0 {
        var k :| 0 <= k < |init| && c in init[k].data && init[k].data[c] == MaxShown(init, c);
        assert sets[k] == init[k];
      }
    }
  }

  /** The minimum bag is the least bag covering every draw: it covers each
      draw, and any count covering each draw is at least its entry. */
  lemma MinimumBagIsLeast(game: Game, c: Color, bound: nat)
    requires forall k :: 0 <= k < |game.data| ==> Shown(game.data[k], c) <= bound
    ensures MinimumBag(game).data[c] <= bound
  {
    MaxShownAttained(game.data, c);
  }

  /** A bag with all three colours is feasible exactly when it holds every draw. */
  lemma FeasibleIffDrawsFit(bag: Bag, game: Game)
    requires AllColors <= bag.data.Keys
    ensures Feasible(bag, game) <==>
      forall k, c :: 0 <= k < |game.data| && c in AllColors ==> Shown(game.data[k], c) <= bag.data[c]
  {
    if Feasible(bag, game) {
      forall k, c | 0 <= k < |game.data| && c in AllColors
        ensures Shown(game.data[k], c) <= bag.data[c]
      {
        MaxShownBounds(game.data, c, k);
      }
    } else {
      var c :| c in AllColors && MaxShown(game.data, c) > bag.data[c];
      MaxShownAttained(game.data, c);
    }
  }

  /** The maximum over a concatenation is the larger of the two maxima. */
  lemma {:induction false} MaxShownAppend(a: seq<GameSet>, b: seq<GameSet>, c: Color)
    ensures MaxShown(a + b, c) == (if MaxShown(a, c) > MaxShown(b, c) then MaxShown(a, c) else MaxShown(b, c))
  {
    if |b| > 0 {
      assert (a + b)[..|a + b| - 1] == a + b[..|b| - 1];
      MaxShownAppend(a, b[..|b| - 1], c);
    } else {
      assert a + b == a;
    }
  }

  /** The order of the draws does not matter to the minimum bag. */
  lemma MinimumBagOrderIndependent(index: nat, a: seq<GameSet>, b: seq<GameSet>)
    ensures MinimumBag(Game(index, a + b)) == MinimumBag(Game(index, b + a))
  {
    forall c | c in AllColors ensures MaxShown(a + b, c) == MaxShown(b + a, c) {
      MaxShownAppend(a, b, c);
      MaxShownAppend(b, a, c);
    }
  }

  /** Idempotence: a game whose only draw is a minimum bag has that bag as
      its own minimum bag. */
  lemma MinimumBagIdempotent(game: Game)
    ensures var b := MinimumBag(game);
      MinimumBag(Game(game.index, [GameSet(b.data)])) == b
  {
    var b := MinimumBag(game);
    var single := [GameSet(b.data)];
    forall c | c in AllColors ensures MaxShown(single, c) == b.data[c] {
      assert single[..0] == [];
    }
  }

  /** The power of the minimum bag is the product of the per-colour maxima. */
  lemma PowerOfMinimumBag(game: Game)
    ensures CalculatePower(MinimumBag(game)) == Ok(Power(game))
  {
  }

  lemma MulLeft(a: nat, x: nat, m: nat)
    requires a <= x
    ensures a * m <= x * m
  {
  }

  lemma MulMonotone(a: nat, b: nat, c: nat, x: nat, y: nat, z: nat)
    requires a <= x && b <= y && c <= z
    ensures a * b * c <= x * y * z
  {
    MulLeft(a, x, b);
    MulLeft(b, y, x);
    MulLeft(a * b, x * y, c);
    MulLeft(c, z, x * y);
  }

  /** No bag that can produce the game has a smaller power than its minimum bag. */
  lemma MinimumBagHasLeastPower(bag: Bag, game: Game)
    requires Feasible(bag, game)
    ensures CalculatePower(bag).Ok?
    ensures Power(game) <= CalculatePower(bag).value
  {
    MulMonotone(MaxShown(game.data, Red), MaxShown(game.data, Green), MaxShown(game.data, Blue),
                bag.data[Red], bag.data[Green], bag.data[Blue]);
  }

  /** The answers split over a concatenation of game lists. */
  lemma {:induction false} SumFeasibleAppend(a: seq<Game>, b: seq<Game>)
    ensures SumFeasible(a + b) == SumFeasible(a) + SumFeasible(b)
  {
    if |b| == 0 {
      assert a + b == a;
    } else {
      assert (a + b)[..|a + b| - 1] == a + b[..|b| - 1];
      SumFeasibleAppend(a, b[..|b| - 1]);
    }
  }

  lemma {:induction false} SumPowersAppend(a: seq<Game>, b: seq<Game>)
    ensures SumPowers(a + b) == SumPowers(a) + SumPowers(b)
  {
    if |b| == 0 {
      assert a + b == a;
    } else {
      assert (a + b)[..|a + b| - 1] == a + b[..|b| - 1];
      SumPowersAppend(a, b[..|b| - 1]);
    }
  }

  /** `test_part2_calculate_power`. */
  lemma PowerExample()
    ensures CalculatePower(Bag(map[Blue := 6, Green := 2, Red := 4])) == Ok(48)
  {
  }

  /** `test_part1_check_game`: games 1 and 30 fit the puzzle bag, the game
      showing 20 blue cubes does not. */
  lemma CheckGameExamples()
    ensures Feasible(PuzzleBag(), Game(1, [
      GameSet(map[Blue := 3, Red := 4]),
      GameSet(map[Red := 1, Green := 2, Blue := 6]),
      GameSet(map[Green := 2])]))
    ensures !Feasible(PuzzleBag(), Game(2, [
      GameSet(map[Blue := 1, Green := 2]),
      GameSet(map[Green := 3, Blue := 20, Red := 1]),
      GameSet(map[Green := 1, Blue := 1])]))
    ensures Feasible(PuzzleBag(), Game(30, [
      GameSet(map[Green := 13, Red := 11, Blue := 11]),
      GameSet(map[Green := 7, Red := 7, Blue := 9]),
      GameSet(map[Green := 11, Red := 11, Blue := 1])]))
  {
    var g1 := [
      GameSet(map[Blue := 3, Red := 4]),
      GameSet(map[Red := 1, Green := 2, Blue := 6]),
      GameSet(map[Green := 2])];
    var g2 := [
      GameSet(map[Blue := 1, Green := 2]),
      GameSet(map[Green := 3, Blue := 20, Red := 1]),
      GameSet(map[Green := 1, Blue := 1])];
    var g30 := [
      GameSet(map[Green := 13, Red := 11, Blue := 11]),
      GameSet(map[Green := 7, Red := 7, Blue := 9]),
      GameSet(map[Green := 11, Red := 11, Blue := 1])];
    forall c | c in AllColors ensures MaxShown(g1, c) <= PuzzleBag().data[c] {
      MinimumBagIsLeast(Game(1, g1), c, PuzzleBag().data[c]);
    }
    forall c | c in AllColors ensures MaxShown(g30, c) <= PuzzleBag().data[c] {
      MinimumBagIsLeast(Game(30, g30), c, PuzzleBag().data[c]);
    }
    MaxShownBounds(g2, Blue, 1);
  }
}
