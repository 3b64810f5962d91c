/**
 * The scoring engine of the older revision (source/calculate-potential-scores.ts): from
 * the dice alone, the decimal string each category would score, or null where the dice
 * do not earn it.  Recorded scores play no part here; merging the result into the score
 * board is the caller's business.
 */
module PotentialScores {
  import opened Categories
  import opened Hand
  import opened Decimals
  import PotentialScore

  /** The scorer's result: Some(decimal string) where a category is earned, None for null. */
  type Offers = Card<Option<string>>

  /**
   * `isStraight` with its short-circuit: once the values left cannot extend the current
   * run to `size`, it answers false early.  The answer is the same as without it.
   */
  method IsStraight(values: seq<Face>, size: int) returns (r: bool)
    ensures r == HasRun(values, size)
  {
    var uniqSortedArray := UniqSort(values);
    HasRunSameValues(values, uniqSortedArray, size);
    if |uniqSortedArray| < size {
      TooFewValues(uniqSortedArray, size);
      return false;
    }
    var last: Option<int> := None;
    var hits := 1;
    for index := 0 to |uniqSortedArray|
      invariant last == if index == 0 then None else Some(uniqSortedArray[index - 1])
      invariant index > 0 ==> hits == RunEnd(uniqSortedArray, index - 1)
      invariant size >= 1 ==> forall j :: 0 <= j < index ==> RunEnd(uniqSortedArray, j) < size
    {
      var iteration := index + 1;
      var element := uniqSortedArray[index];
      var isSequential := last.Some? && element == last.value + 1;
      hits := if isSequential then hits + 1 else 1;
      assert hits == RunEnd(uniqSortedArray, index);

      // Stop early once the values still to come cannot lengthen the run to `size`.
      if |uniqSortedArray| - iteration + hits < size {
        forall j | index < j < |uniqSortedArray|
          ensures RunEnd(uniqSortedArray, j) < size
        {
          RunEndGrowth(uniqSortedArray, index, j);
        }
        NoLongRun(uniqSortedArray, size);
        return false;
      }

      if hits == size {
        RunSound(uniqSortedArray, index, size);
        return true;
      }
      assert size >= 1 ==> hits < size;
      last := Some(element);
    }
    if size >= 1 {
      NoLongRun(uniqSortedArray, size);
    }
    return false;
  }

  /** A score written as its decimal string; nothing stays null. */
  function Written(score: Option<nat>): (text: Option<string>)
    ensures text.Some? <==> score.Some?
    ensures text.Some? ==> IsDecimal(text.value) && DecimalValue(text.value) == score.value
  {
    match score
    case None => None
    case Some(n) => DecimalRoundTrip(n); Some(Decimal(n))
  }

  /** Every score of a record written as its decimal string. */
  function WrittenCard(scores: Card<Option<nat>>): (r: Offers)
    ensures forall c :: r.Get(c) == Written(scores.Get(c))
  {
    Card(Written(scores.ones), Written(scores.twos), Written(scores.threes),
         Written(scores.fours), Written(scores.fives), Written(scores.sixes),
         Written(scores.threeOfAKind), Written(scores.fourOfAKind), Written(scores.fullHouse),
         Written(scores.smallStraight), Written(scores.largeStraight), Written(scores.gamble),
         Written(scores.fiveDice))
  }

  /** What the older scorer writes for the dice: the standard earnings, as decimal strings. */
  ghost function Scored(dice: seq<Face>): Offers
  {
    WrittenCard(PotentialScore.NaturalCard(dice))
  }

  /** Every offered score is a decimal string. */
  predicate AllDecimal(offers: Offers)
  {
    forall c :: offers.Get(c).Some? ==> IsDecimal(offers.Get(c).value)
  }

  /** `String(count * face)` when the face shows, else null. */
  function UpperText(countByDie: multiset<int>, face: Face): Option<string>
  {
    if countByDie[face] > 0 then Some(Decimal(countByDie[face] * face)) else None
  }

  /**
   * `calculatePotentialScores`: fills in the record field by field.  Its result is what
   * the newer scorer's standard rules earn from the same dice, written as decimal strings.
   */
  method CalculatePotentialScores(dice: seq<Face>) returns (score: Offers)
    ensures score == Scored(dice)
    ensures AllDecimal(score)
  {
    ghost var natural := PotentialScore.NaturalCard(dice);
    score := Uniform(None);

    var countByDie := multiset(dice);
    var sumOfAllDie := PotentialScore.SumOf(dice);

    score := score.(ones := UpperText(countByDie, 1), twos := UpperText(countByDie, 2),
                    threes := UpperText(countByDie, 3), fours := UpperText(countByDie, 4),
                    fives := UpperText(countByDie, 5), sixes := UpperText(countByDie, 6));

    if SomeCountAtLeast(dice, 4) {
      score := score.(threeOfAKind := Some(Decimal(sumOfAllDie)));
      score := score.(fourOfAKind := Some(Decimal(sumOfAllDie)));
    } else if SomeCount(dice, 3) {
      score := score.(threeOfAKind := Some(Decimal(sumOfAllDie)));
    }
    ThreeOfAKindCases(dice);
    assert score.threeOfAKind == Written(natural.threeOfAKind);
    assert score.fourOfAKind == Written(natural.fourOfAKind);

    if SomeCount(dice, 2) && SomeCount(dice, 3) {
      score := score.(fullHouse := Some(Decimal(25)));
    }
    assert score.fullHouse == Written(natural.fullHouse);

    var large := IsStraight(dice, 5);
    if large {
      score := score.(smallStraight := Some(Decimal(30)));
      score := score.(largeStraight := Some(Decimal(40)));
    } else {
      var small := IsStraight(dice, 4);
      if small {
        score := score.(smallStraight := Some(Decimal(30)));
      }
    }
    LargeStraightIsSmall(dice);
    assert score.smallStraight == Written(natural.smallStraight);
    assert score.largeStraight == Written(natural.largeStraight);

    score := score.(gamble := Some(Decimal(sumOfAllDie)));

    if SomeCount(dice, 5) {
      score := score.(fiveDice := Some(Decimal(50)));
    }
    assert score.fiveDice == Written(natural.fiveDice);
  }

  /** "Some face at least four times, or else one exactly three times" is "some face at least three times". */
  lemma ThreeOfAKindCases(d: seq<int>)
    ensures (SomeCountAtLeast(d, 4) || SomeCount(d, 3)) <==> SomeCountAtLeast(d, 3)
  {
    if SomeCountAtLeast(d, 3) {
      var f :| f in multiset(d) && Count(d, f) >= 3;
      if Count(d, f) == 3 {
        assert SomeCount(d, 3);
      } else {
        assert SomeCountAtLeast(d, 4);
      }
    }
    if SomeCountAtLeast(d, 4) {
      var f :| f in multiset(d) && Count(d, f) >= 4;
      assert Count(d, f) >= 3;
    }
    if SomeCount(d, 3) {
      var f :| f in multiset(d) && Count(d, f) == 3;
      assert Count(d, f) >= 3;
    }
  }

  /** Upper board: the decimal string of count times face when the face shows, null otherwise. */
  lemma UpperBoardWritten(dice: seq<Face>, c: Category)
    requires c.IsUpper()
    ensures var f := UpperFace(c);
      Scored(dice).Get(c) ==
        if f in dice then Some(Decimal(Count(dice, f) * f)) else None
  {
    PotentialScore.UpperBoardNatural(dice, c);
  }

  /**
   * Of a kind: four or more of a face write the sum into both three and four of a kind;
   * exactly three write it into three of a kind only; fewer leave both null.  Five of a
   * kind writes "50" exactly when all five dice match.
   */
  lemma OfAKindWritten(dice: seq<Face>)
    requires |dice| == 5
    ensures var score := Scored(dice);
      var sum := Some(Decimal(PotentialScore.SumOf(dice)));
      && (SomeCountAtLeast(dice, 4) ==> score.threeOfAKind == sum && score.fourOfAKind == sum)
      && (!SomeCountAtLeast(dice, 4) && SomeCount(dice, 3) ==>
            score.threeOfAKind == sum && score.fourOfAKind == None)
      && (!SomeCountAtLeast(dice, 3) ==> score.threeOfAKind == None && score.fourOfAKind == None)
      && score.fiveDice == (if AllSame(dice) then Some("50") else None)
  {
    ThreeOfAKindCases(dice);
    FiveOfAKindIsAllSame(dice);
    assert Decimal(50) == "50";
  }

  /** Straights: a large straight also writes "30" for the small one; a small one alone writes only "30". */
  lemma StraightsWritten(dice: seq<Face>)
    ensures var score := Scored(dice);
      && (HasRun(dice, 5) ==> score.smallStraight == Some("30") && score.largeStraight == Some("40"))
      && (!HasRun(dice, 5) && HasRun(dice, 4) ==> score.smallStraight == Some("30") && score.largeStraight == None)
      && (!HasRun(dice, 4) ==> score.smallStraight == None && score.largeStraight == None)
  {
    LargeStraightIsSmall(dice);
    assert Decimal(30) == "30" && Decimal(40) == "40";
  }

  /** Chance is always the sum; full house is "25" exactly when one face shows three times and another twice. */
  lemma ChanceAndFullHouseWritten(dice: seq<Face>)
    requires |dice| == 5
    ensures var score := Scored(dice);
      && score.gamble == Some(Decimal(PotentialScore.SumOf(dice)))
      && (score.fullHouse == Some("25") <==>
            exists f, g {:trigger Count(dice, f), Count(dice, g)} :: Count(dice, f) == 3 && Count(dice, g) == 2)
      && (score.fullHouse.Some? ==> score.fullHouse == Some("25"))
  {
    PotentialScore.FullHouseNatural(dice);
    assert Decimal(25) == "25";
  }
}
