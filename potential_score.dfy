/**
 * The scoring engine of the current revision (source/calculate-potential-score.ts): given
 * five dice and the scores recorded so far, the score every category would receive if it
 * were taken now, including the joker rule for a repeated five-of-a-kind and the forced
 * zeros of a roll that can score nothing.
 */
module PotentialScore {
  import opened Categories
  import opened Hand

  /** Recorded scores: Some(n) once a category is scored, None while it is open (undefined). */
  type Scores = Card<Option<nat>>

  /** Potential scores: Some(n) for a category offered at n, None where nothing is offered. */
  type Potential = Card<Option<nat>>

  /** `isStraight`: do the dice hold `size` consecutive values? */
  method IsStraight(dice: seq<Face>, size: int) returns (r: bool)
    ensures r == HasRun(dice, size)
  {
    var uniqSortedArray := UniqSort(dice);
    HasRunSameValues(dice, uniqSortedArray, size);
    if |uniqSortedArray| < size {
      TooFewValues(uniqSortedArray, size);
      return false;
    }
    // `last` starts as null; dice values are at least 1, so afterwards it is always truthy
    var last: Option<int> := None;
    var hits := 1;
    for i := 0 to |uniqSortedArray|
      invariant last == if i == 0 then None else Some(uniqSortedArray[i - 1])
      invariant i > 0 ==> hits == RunEnd(uniqSortedArray, i - 1)
      invariant size >= 1 ==> forall j :: 0 <= j < i ==> RunEnd(uniqSortedArray, j) < size
    {
      var element := uniqSortedArray[i];
      var isSequential := last.Some? && element == last.value + 1;
      hits := if isSequential then hits + 1 else 1;
      assert hits == RunEnd(uniqSortedArray, i);
      if hits == size {
        RunSound(uniqSortedArray, i, size);
        return true;
      }
      assert size >= 1 ==> hits < size;
      last := Some(element);
    }
    if size >= 1 {
      NoLongRun(uniqSortedArray, size);
    }
    return false;
  }

  /** `dieNumberToId`: the upper-board category of a face. */
  function DieNumberToId(number: Face): (c: Category)
    ensures c.IsUpper() && UpperFace(c) == number
  {
    if number == 1 then Ones
    else if number == 2 then Twos
    else if number == 3 then Threes
    else if number == 4 then Fours
    else if number == 5 then Fives
    else Sixes
  }

  /** Each upper-board category is the one its own face maps to. */
  lemma DieNumberToIdInverse(c: Category)
    requires c.IsUpper()
    ensures DieNumberToId(UpperFace(c)) == c
  {
  }

  /** Every die has a value: no die of the roll is null. */
  predicate IsRoll(dice: seq<Option<Face>>)
  {
    forall i :: 0 <= i < |dice| ==> dice[i].Some?
  }

  /** The dice values once none of them is null. */
  function Faces(dice: seq<Option<Face>>): (d: seq<Face>)
    requires IsRoll(dice)
    ensures |d| == |dice| && forall i :: 0 <= i < |d| ==> dice[i] == Some(d[i])
  {
    if |dice| == 0 then [] else [dice[0].value] + Faces(dice[1..])
  }

  /** The score each category would earn from the dice under the standard rules, if any. */
  ghost function NaturalCard(d: seq<Face>): (card: Card<Option<nat>>)
  {
    Card(
      UpperScore(d, 1), UpperScore(d, 2), UpperScore(d, 3),
      UpperScore(d, 4), UpperScore(d, 5), UpperScore(d, 6),
      if SomeCountAtLeast(d, 3) then Some(SumOf(d)) else None,
      if SomeCountAtLeast(d, 4) then Some(SumOf(d)) else None,
      if SomeCount(d, 2) && SomeCount(d, 3) then Some(25) else None,
      if HasRun(d, 4) then Some(30) else None,
      if HasRun(d, 5) then Some(40) else None,
      Some(SumOf(d)),
      if SomeCount(d, 5) then Some(50) else None)
  }

  /** The score category `c` would earn from the dice under the standard rules, if any. */
  ghost function NaturalScore(c: Category, d: seq<Face>): (score: Option<nat>)
  {
    NaturalCard(d).Get(c)
  }

  /** An upper-board score: face times count, offered only when the face shows. */
  function UpperScore(d: seq<Face>, f: Face): (score: Option<nat>)
  {
    if Count(d, f) >= 1 then Some(Count(d, f) * f) else None
  }

  /** The sum of the dice, which is never negative. */
  function SumOf(d: seq<Face>): (s: nat)
  {
    SumBounds(d);
    Sum(d)
  }

  /** What the standard rules offer a category: nothing once it is recorded, else what it would earn. */
  function OpenOffer(recorded: Option<nat>, natural: Option<nat>): Option<nat>
  {
    if recorded.Some? then None else natural
  }

  /** The standard offers of all categories, as one record. */
  ghost function StandardCard(d: seq<Face>, scores: Scores): Potential
  {
    var natural := NaturalCard(d);
    Card(
      OpenOffer(scores.ones, natural.ones), OpenOffer(scores.twos, natural.twos),
      OpenOffer(scores.threes, natural.threes), OpenOffer(scores.fours, natural.fours),
      OpenOffer(scores.fives, natural.fives), OpenOffer(scores.sixes, natural.sixes),
      OpenOffer(scores.threeOfAKind, natural.threeOfAKind), OpenOffer(scores.fourOfAKind, natural.fourOfAKind),
      OpenOffer(scores.fullHouse, natural.fullHouse), OpenOffer(scores.smallStraight, natural.smallStraight),
      OpenOffer(scores.largeStraight, natural.largeStraight), OpenOffer(scores.gamble, natural.gamble),
      OpenOffer(scores.fiveDice, natural.fiveDice))
  }

  /** Under the standard rules: what an open category would earn; a recorded one is never offered. */
  ghost function StandardOffer(c: Category, d: seq<Face>, scores: Scores): (o: Option<nat>)
    ensures o == if scores.Get(c).Some? then None else NaturalScore(c, d)
  {
    StandardCard(d, scores).Get(c)
  }

  /** A dead roll: the standard rules offer nothing at all. */
  ghost predicate DeadRoll(d: seq<Face>, scores: Scores)
  {
    StandardCard(d, scores) == Uniform(None)
  }

  /** The joker rule applies: five of a kind again, after five-of-a-kind was recorded at 50 or more. */
  predicate JokerApplies(d: seq<Face>, scores: Scores)
  {
    SomeCount(d, 5) && scores.fiveDice.Some? && scores.fiveDice.value >= 50
  }

  /** The lower-board categories other than five-of-a-kind. */
  const JokerLower: seq<Category> := [ThreeOfAKind, FourOfAKind, FullHouse, SmallStraight, LargeStraight, Gamble]

  /** Every lower-board category other than five-of-a-kind is recorded. */
  predicate LowerBoardFull(scores: Scores)
  {
    scores.threeOfAKind.Some? && scores.fourOfAKind.Some? && scores.fullHouse.Some?
    && scores.smallStraight.Some? && scores.largeStraight.Some? && scores.gamble.Some?
  }

  /** The value a lower-board category takes under the joker rule, whatever the shape of the dice. */
  function JokerScore(c: Category, d: seq<Face>): nat
    requires c in JokerLower
  {
    match c
    case FullHouse => 25
    case SmallStraight => 30
    case LargeStraight => 40
    case _ => SumOf(d)
  }

  /** What the joker branch offers a category. */
  function JokerOffer(c: Category, d: seq<Face>, scores: Scores): Option<nat>
    requires |d| > 0 && scores.fiveDice.Some?
  {
    var upper := DieNumberToId(d[0]);
    if c == FiveDice then Some(scores.fiveDice.value + 100)
    else if scores.Get(upper).None? then (if c == upper then Some(SumOf(d)) else None)
    else if LowerBoardFull(scores) then (if scores.Get(c).None? then Some(0) else None)
    else if c in JokerLower && scores.Get(c).None? then Some(JokerScore(c, d))
    else None
  }

  /** The joker branch's offers, as one record. */
  ghost function JokerCard(d: seq<Face>, scores: Scores): Potential
    requires |d| > 0 && scores.fiveDice.Some?
  {
    Tabulate(c => JokerOffer(c, d, scores))
  }

  /** The forced zeros: every open category at 0, nothing for a recorded one. */
  ghost function ZeroCard(scores: Scores): Potential
  {
    Tabulate(c => if scores.Get(c).Some? then None else Some(0))
  }

  /** `calculatePotentialScore` as a specification: no roll, the joker case, a dead roll or a live one. */
  ghost function PotentialScore(dice: seq<Option<Face>>, scores: Scores): Potential
    requires |dice| == 5
  {
    if !IsRoll(dice) then Uniform(None)
    else
      var d := Faces(dice);
      if JokerApplies(d, scores) then JokerCard(d, scores)
      else if DeadRoll(d, scores) then ZeroCard(scores)
      else StandardCard(d, scores)
  }

  /** What `calculatePotentialScore` offers a category. */
  ghost function Offer(c: Category, dice: seq<Option<Face>>, scores: Scores): Option<nat>
    requires |dice| == 5
  {
    PotentialScore(dice, scores).Get(c)
  }

  /** The zero-fill loop over the keys: every category not yet recorded is offered at 0. */
  method ZeroFill(potential: Potential, scores: Scores) returns (filled: Potential)
    ensures forall c :: filled.Get(c) == if scores.Get(c).None? then Some(0) else potential.Get(c)
  {
    filled := potential;
    for i := 0 to |AllCategories|
      invariant forall c :: filled.Get(c) ==
                  if scores.Get(c).None? && Position(c) < i then Some(0) else potential.Get(c)
    {
      var scoreId := AllCategories[i];
      PositionOfListed(i);
      if scores.Get(scoreId).None? {
        filled := filled.Set(scoreId, Some(0));
      }
    }
  }

  /** The joker branch: the five-of-a-kind bonus, then the upper board, a forced zero or the lower board. */
  method JokerPotential(d: seq<Face>, scores: Scores) returns (potential: Potential)
    requires |d| == 5 && JokerApplies(d, scores)
    ensures forall c :: potential.Get(c) == JokerOffer(c, d, scores)
  {
    var sumOfAllDie := SumOf(d);
    potential := Uniform(None);
    potential := potential.(fiveDice := Some(scores.fiveDice.value + 100));
    var dieScoreId := DieNumberToId(d[0]);
    if scores.Get(dieScoreId).None? {
      potential := potential.Set(dieScoreId, Some(sumOfAllDie));
    } else if scores.threeOfAKind.Some? && scores.fourOfAKind.Some? && scores.fullHouse.Some?
           && scores.smallStraight.Some? && scores.largeStraight.Some? && scores.gamble.Some? {
      potential := ZeroFill(potential, scores);
    } else {
      potential := JokerLowerSection(sumOfAllDie, scores, potential);
    }
  }

  /** The joker's lower-board `if`s: every open lower category gets its fixed joker value. */
  method JokerLowerSection(sumOfAllDie: nat, scores: Scores, base: Potential) returns (potential: Potential)
    ensures potential == base.(threeOfAKind := OpenOffer(scores.threeOfAKind, Some(sumOfAllDie)),
                               fourOfAKind := OpenOffer(scores.fourOfAKind, Some(sumOfAllDie)),
                               fullHouse := OpenOffer(scores.fullHouse, Some(25)),
                               smallStraight := OpenOffer(scores.smallStraight, Some(30)),
                               largeStraight := OpenOffer(scores.largeStraight, Some(40)),
                               gamble := OpenOffer(scores.gamble, Some(sumOfAllDie)))
  {
    potential := base.(threeOfAKind := None, fourOfAKind := None, fullHouse := None,
                       smallStraight := None, largeStraight := None, gamble := None);
    if scores.threeOfAKind.None? {
      potential := potential.(threeOfAKind := Some(sumOfAllDie));
    }
    if scores.fourOfAKind.None? {
      potential := potential.(fourOfAKind := Some(sumOfAllDie));
    }
    if scores.fullHouse.None? {
      potential := potential.(fullHouse := Some(25));
    }
    if scores.smallStraight.None? {
      potential := potential.(smallStraight := Some(30));
    }
    if scores.largeStraight.None? {
      potential := potential.(largeStraight := Some(40));
    }
    if scores.gamble.None? {
      potential := potential.(gamble := Some(sumOfAllDie));
    }
  }

  /** The upper-board `if`s of the standard branch: a face that shows scores count times face. */
  method UpperSection(d: seq<Face>, scores: Scores, countByDie: multiset<int>) returns (potential: Potential)
    requires countByDie == multiset(d)
    ensures var standard := StandardCard(d, scores);
      potential == Uniform(None).(ones := standard.ones, twos := standard.twos, threes := standard.threes,
                                  fours := standard.fours, fives := standard.fives, sixes := standard.sixes)
  {
    ghost var standard := StandardCard(d, scores);
    potential := Uniform(None);
    ghost var before := potential;
    if scores.ones.None? && countByDie[1] > 0 {
      potential := potential.(ones := Some(countByDie[1] * 1));
    }
    assert potential == before.(ones := standard.ones);
    before := potential;
    if scores.twos.None? && countByDie[2] > 0 {
      potential := potential.(twos := Some(countByDie[2] * 2));
    }
    assert potential == before.(twos := standard.twos);
    before := potential;
    if scores.threes.None? && countByDie[3] > 0 {
      potential := potential.(threes := Some(countByDie[3] * 3));
    }
    assert potential == before.(threes := standard.threes);
    before := potential;
    if scores.fours.None? && countByDie[4] > 0 {
      potential := potential.(fours := Some(countByDie[4] * 4));
    }
    assert potential == before.(fours := standard.fours);
    before := potential;
    if scores.fives.None? && countByDie[5] > 0 {
      potential := potential.(fives := Some(countByDie[5] * 5));
    }
    assert potential == before.(fives := standard.fives);
    before := potential;
    if scores.sixes.None? && countByDie[6] > 0 {
      potential := potential.(sixes := Some(countByDie[6] * 6));
    }
    assert potential == before.(sixes := standard.sixes);
  }

  /** The of-a-kind `if`s of the standard branch: three and four of a kind, full house. */
  method KindSection(d: seq<Face>, scores: Scores, upper: Potential) returns (potential: Potential)
    ensures var standard := StandardCard(d, scores);
      potential == upper.(threeOfAKind := standard.threeOfAKind, fourOfAKind := standard.fourOfAKind,
                          fullHouse := standard.fullHouse)
  {
    ghost var standard := StandardCard(d, scores);
    var sumOfAllDie := SumOf(d);
    potential := upper.(threeOfAKind := None, fourOfAKind := None, fullHouse := None);
    if scores.threeOfAKind.None? && SomeCountAtLeast(d, 3) {
      potential := potential.(threeOfAKind := Some(sumOfAllDie));
    }
    assert potential.threeOfAKind == standard.threeOfAKind;
    if scores.fourOfAKind.None? && SomeCountAtLeast(d, 4) {
      potential := potential.(fourOfAKind := Some(sumOfAllDie));
    }
    assert potential.fourOfAKind == standard.fourOfAKind;
    if scores.fullHouse.None? && SomeCount(d, 2) && SomeCount(d, 3) {
      potential := potential.(fullHouse := Some(25));
    }
  }

  /** The straight `if`s of the standard branch. */
  method StraightSection(d: seq<Face>, scores: Scores, upper: Potential) returns (potential: Potential)
    ensures var standard := StandardCard(d, scores);
      potential == upper.(smallStraight := standard.smallStraight, largeStraight := standard.largeStraight)
  {
    ghost var standard := StandardCard(d, scores);
    potential := upper.(smallStraight := None, largeStraight := None);
    if scores.smallStraight.None? {
      var straight := IsStraight(d, 4);
      if straight {
        potential := potential.(smallStraight := Some(30));
      }
    }
    assert potential.smallStraight == standard.smallStraight;
    if scores.largeStraight.None? {
      var straight := IsStraight(d, 5);
      if straight {
        potential := potential.(largeStraight := Some(40));
      }
    }
  }

  /** The lower-board `if`s of the standard branch, filled in after the upper board. */
  method LowerSection(d: seq<Face>, scores: Scores, upper: Potential) returns (potential: Potential)
    requires upper.threeOfAKind.None? && upper.fourOfAKind.None? && upper.fullHouse.None?
    requires upper.smallStraight.None? && upper.largeStraight.None? && upper.gamble.None? && upper.fiveDice.None?
    ensures var standard := StandardCard(d, scores);
      potential == upper.(threeOfAKind := standard.threeOfAKind, fourOfAKind := standard.fourOfAKind,
                          fullHouse := standard.fullHouse, smallStraight := standard.smallStraight,
                          largeStraight := standard.largeStraight, gamble := standard.gamble,
                          fiveDice := standard.fiveDice)
  {
    ghost var standard := StandardCard(d, scores);
    potential := KindSection(d, scores, upper);
    potential := StraightSection(d, scores, potential);
    if scores.gamble.None? {
      potential := potential.(gamble := Some(SumOf(d)));
    }
    assert potential.gamble == standard.gamble;
    if scores.fiveDice.None? && SomeCount(d, 5) {
      potential := potential.(fiveDice := Some(50));
    }
  }

  /** The standard branch: each category the dice satisfy is offered, unless already recorded. */
  method StandardPotential(d: seq<Face>, scores: Scores) returns (potential: Potential)
    ensures potential == StandardCard(d, scores)
  {
    var countByDie := multiset(d);
    potential := UpperSection(d, scores, countByDie);
    potential := LowerSection(d, scores, potential);
  }

  /**
   * `calculatePotentialScore`: nothing for a roll with a null die; otherwise the joker
   * branch, or the standard branch followed by the zero-fill of a roll that scores nothing.
   */
  method CalculatePotentialScore(dice: seq<Option<Face>>, scores: Scores) returns (potential: Potential)
    requires |dice| == 5
    ensures potential == PotentialScore(dice, scores)
  {
    if !IsRoll(dice) {
      return Uniform(None);
    }
    var d := Faces(dice);

    // A repeated five of a kind, with five of a kind already recorded at 50 or more.
    if SomeCount(d, 5) && scores.fiveDice.Some? && scores.fiveDice.value >= 50 {
      potential := JokerPotential(d, scores);
      CardEquality(potential, JokerCard(d, scores));
      return;
    }

    potential := StandardPotential(d, scores);

    // Nothing offered: every slot without a number is offered 0.
    if potential == Uniform(None) {
      potential := ZeroFill(potential, scores);
      CardEquality(potential, ZeroCard(scores));
    }
  }

  /** A roll with a null die offers nothing at all. */
  lemma NotARollOffersNothing(dice: seq<Option<Face>>, scores: Scores, c: Category)
    requires |dice| == 5 && !IsRoll(dice)
    ensures Offer(c, dice, scores).None?
  {
  }

  /** Outside the joker case a recorded category, a recorded 0 included, is never offered again. */
  lemma RecordedNotOfferedAgain(dice: seq<Option<Face>>, scores: Scores, c: Category)
    requires |dice| == 5 && scores.Get(c).Some?
    requires !IsRoll(dice) || !JokerApplies(Faces(dice), scores)
    ensures Offer(c, dice, scores).None?
  {
    if IsRoll(dice) {
      var d := Faces(dice);
      if DeadRoll(d, scores) {
        assert ZeroCard(scores).Get(c).None?;
      } else {
        assert StandardCard(d, scores).Get(c) == StandardOffer(c, d, scores);
      }
    }
  }

  /** In the joker case every category gets what the joker branch offers it. */
  lemma JokerCase(dice: seq<Option<Face>>, scores: Scores, c: Category)
    requires |dice| == 5 && IsRoll(dice) && JokerApplies(Faces(dice), scores)
    ensures Offer(c, dice, scores) == JokerOffer(c, Faces(dice), scores)
  {
    assert PotentialScore(dice, scores) == JokerCard(Faces(dice), scores);
  }

  /** In the joker case the only recorded category offered again is five-of-a-kind. */
  lemma JokerRecordedNotOfferedAgain(dice: seq<Option<Face>>, scores: Scores, c: Category)
    requires |dice| == 5 && IsRoll(dice) && JokerApplies(Faces(dice), scores)
    requires scores.Get(c).Some? && c != FiveDice
    ensures Offer(c, dice, scores).None?
  {
    JokerCase(dice, scores, c);
  }

  /** The dice of a joker all show the first die's face. */
  lemma JokerDice(d: seq<Face>, scores: Scores)
    requires |d| == 5 && JokerApplies(d, scores)
    ensures AllSame(d) && SumOf(d) == 5 * (d[0] as int)
  {
    FiveOfAKindIsAllSame(d);
    SumAllSame(d);
  }

  /**
   * The joker with its upper-board category open: five-of-a-kind is offered at the
   * recorded score plus 100, that upper category at five times its face, and nothing else.
   */
  lemma JokerUpperOpen(dice: seq<Option<Face>>, scores: Scores, c: Category)
    requires |dice| == 5 && IsRoll(dice) && JokerApplies(Faces(dice), scores)
    requires scores.Get(DieNumberToId(Faces(dice)[0])).None?
    ensures var upper := DieNumberToId(Faces(dice)[0]);
      Offer(c, dice, scores) ==
        if c == FiveDice then Some(scores.fiveDice.value + 100)
        else if c == upper then Some((5 * UpperFace(upper)) as nat)
        else None
  {
    JokerDice(Faces(dice), scores);
    JokerCase(dice, scores, c);
  }

  /**
   * The joker with its upper-board category recorded and the rest of the lower board full:
   * every open category is forced to 0, next to the five-of-a-kind bonus.
   */
  lemma JokerForcedZero(dice: seq<Option<Face>>, scores: Scores, c: Category)
    requires |dice| == 5 && IsRoll(dice) && JokerApplies(Faces(dice), scores)
    requires scores.Get(DieNumberToId(Faces(dice)[0])).Some? && LowerBoardFull(scores)
    ensures Offer(c, dice, scores) ==
      if c == FiveDice then Some(scores.fiveDice.value + 100)
      else if scores.Get(c).None? then Some(0)
      else None
  {
    JokerCase(dice, scores, c);
  }

  /**
   * The joker with its upper-board category recorded and some other lower category open:
   * every open lower category gets its joker value whatever the dice look like, and no
   * upper category is offered.
   */
  lemma JokerLowerBoard(dice: seq<Option<Face>>, scores: Scores, c: Category)
    requires |dice| == 5 && IsRoll(dice) && JokerApplies(Faces(dice), scores)
    requires scores.Get(DieNumberToId(Faces(dice)[0])).Some? && !LowerBoardFull(scores)
    ensures Offer(c, dice, scores) ==
      if c == FiveDice then Some(scores.fiveDice.value + 100)
      else if c in JokerLower then OpenOffer(scores.Get(c), Some(JokerScore(c, Faces(dice))))
      else None
  {
    JokerCase(dice, scores, c);
    JokerLowerOffer(Faces(dice), scores, c);
  }

  lemma JokerLowerOffer(d: seq<Face>, scores: Scores, c: Category)
    requires |d| > 0 && scores.fiveDice.Some?
    requires scores.Get(DieNumberToId(d[0])).Some? && !LowerBoardFull(scores)
    ensures JokerOffer(c, d, scores) ==
      if c == FiveDice then Some(scores.fiveDice.value + 100)
      else if c in JokerLower then OpenOffer(scores.Get(c), Some(JokerScore(c, d)))
      else None
  {
  }

  /** Outside the joker case a live roll offers, category by category, what the standard rules offer. */
  lemma LiveRollOffers(dice: seq<Option<Face>>, scores: Scores, c: Category)
    requires |dice| == 5 && IsRoll(dice)
    requires !JokerApplies(Faces(dice), scores) && !DeadRoll(Faces(dice), scores)
    ensures Offer(c, dice, scores) == if scores.Get(c).Some? then None else NaturalScore(c, Faces(dice))
  {
    assert Offer(c, dice, scores) == StandardOffer(c, Faces(dice), scores);
  }

  /** A roll is dead exactly when every category is recorded or not earned by the dice. */
  lemma DeadRollMeaning(d: seq<Face>, scores: Scores)
    ensures DeadRoll(d, scores) <==> forall c :: scores.Get(c).Some? || NaturalScore(c, d).None?
  {
    var standard := StandardCard(d, scores);
    if forall c :: scores.Get(c).Some? || NaturalScore(c, d).None? {
      forall c
        ensures standard.Get(c) == Uniform(None).Get(c)
      {
        assert standard.Get(c) == StandardOffer(c, d, scores);
      }
      CardEquality(standard, Uniform(None));
    }
    if DeadRoll(d, scores) {
      forall c
        ensures scores.Get(c).Some? || NaturalScore(c, d).None?
      {
        assert StandardOffer(c, d, scores) == standard.Get(c);
      }
    }
  }

  /** Gamble is earned by every roll, so a roll can only be dead once gamble is recorded. */
  lemma DeadRollNeedsGamble(d: seq<Face>, scores: Scores)
    requires DeadRoll(d, scores)
    ensures scores.gamble.Some?
  {
    DeadRollMeaning(d, scores);
    assert scores.Get(Gamble).Some? || NaturalScore(Gamble, d).None?;
  }

  /** Outside the joker case a dead roll forces every open category to 0 and offers nothing else. */
  lemma DeadRollOffers(dice: seq<Option<Face>>, scores: Scores, c: Category)
    requires |dice| == 5 && IsRoll(dice)
    requires !JokerApplies(Faces(dice), scores) && DeadRoll(Faces(dice), scores)
    ensures Offer(c, dice, scores) == if scores.Get(c).Some? then None else Some(0)
  {
    assert Offer(c, dice, scores) == ZeroCard(scores).Get(c);
  }

  /** Upper board: a face that shows scores count times face; a face that does not show is not offered. */
  lemma UpperBoardNatural(d: seq<Face>, c: Category)
    requires c.IsUpper()
    ensures var f := UpperFace(c);
      NaturalScore(c, d) == if f in d then Some(Count(d, f) * f) else None
  {
  }

  /** Full house is earned exactly when one face shows three times and another twice. */
  lemma FullHouseNatural(d: seq<Face>)
    requires |d| == 5
    ensures NaturalScore(FullHouse, d) == Some(25) <==>
      exists f, g {:trigger Count(d, f), Count(d, g)} :: Count(d, f) == 3 && Count(d, g) == 2
    ensures NaturalScore(FullHouse, d).Some? ==> NaturalScore(FullHouse, d) == Some(25)
  {
    if exists f, g {:trigger Count(d, f), Count(d, g)} :: Count(d, f) == 3 && Count(d, g) == 2 {
      var f, g :| Count(d, f) == 3 && Count(d, g) == 2;
      assert f in multiset(d) && g in multiset(d);
    }
  }

  /** Five-of-a-kind earns 50 exactly when all five dice match. */
  lemma FiveDiceNatural(d: seq<Face>)
    requires |d| == 5
    ensures NaturalScore(FiveDice, d) == (if AllSame(d) then Some(50) else None)
  {
    FiveOfAKindIsAllSame(d);
  }

  /** Dice that earn four of a kind earn three of a kind, at the same value. */
  lemma FourOfAKindIsThree(d: seq<Face>)
    requires NaturalScore(FourOfAKind, d).Some?
    ensures NaturalScore(ThreeOfAKind, d) == NaturalScore(FourOfAKind, d)
  {
    var f :| f in multiset(d) && Count(d, f) >= 4;
    assert Count(d, f) >= 3;
  }

  /** Dice that earn a large straight earn a small straight. */
  lemma LargeStraightEarnsSmall(d: seq<Face>)
    requires NaturalScore(LargeStraight, d).Some?
    ensures NaturalScore(SmallStraight, d) == Some(30)
  {
    LargeStraightIsSmall(d);
  }
}
