/**
 * The score board the game keeps and the totals read off it (source/selectors.ts, and the
 * identical getters of the engine and the store).
 */
module Selectors {
  import opened Categories

  /**
   * One category's slot on the score board: open (null), holding a potential score as a
   * numeric string offered after a roll, or holding a recorded score (a number).
   */
  datatype Slot = Open | Potential(text: string) | Recorded(points: nat)

  /** The score board: one slot per category. */
  type Board = Card<Slot>

  /** The numbers recorded in the slots, in order, skipping slots without a number. */
  function Numbers(slots: seq<Slot>): (ns: seq<nat>)
    ensures |ns| <= |slots|
  {
    if |slots| == 0 then []
    else if slots[0].Recorded? then [slots[0].points] + Numbers(slots[1..])
    else Numbers(slots[1..])
  }

  /** The sum of a list of numbers. */
  function SumAll(ns: seq<nat>): nat
  {
    if |ns| == 0 then 0 else ns[0] + SumAll(ns[1..])
  }

  /** What a slot adds to a total: its number if it holds one, else nothing. */
  function Points(slot: Slot): nat
  {
    if slot.Recorded? then slot.points else 0
  }

  /** `selectIsGameOver`: every slot, taken in key order, holds a number. */
  function IsGameOver(board: Board): (over: bool)
    ensures over <==> forall c :: board.Get(c).Recorded?
  {
    EveryListedRecorded(board);
    forall i :: 0 <= i < |AllCategories| ==> board.Get(AllCategories[i]).Recorded?
  }

  /** Every slot in key order holds a number exactly when every category's slot does. */
  lemma EveryListedRecorded(board: Board)
    ensures (forall i :: 0 <= i < |AllCategories| ==> board.Get(AllCategories[i]).Recorded?)
      <==> forall c :: board.Get(c).Recorded?
  {
    if forall i :: 0 <= i < |AllCategories| ==> board.Get(AllCategories[i]).Recorded? {
      forall c
        ensures board.Get(c).Recorded?
      {
        assert AllCategories[Position(c)] == c;
      }
    }
  }

  /** The slots of the upper board, ones to sixes. */
  function UpperSlots(board: Board): seq<Slot>
  {
    [board.ones, board.twos, board.threes, board.fours, board.fives, board.sixes]
  }

  /** The slots of the lower board, three of a kind to five of a kind. */
  function LowerSlots(board: Board): seq<Slot>
  {
    [board.threeOfAKind, board.fourOfAKind, board.fullHouse, board.smallStraight,
     board.largeStraight, board.gamble, board.fiveDice]
  }

  /** Every slot's points added up, slots without a number counting 0. */
  function PointsSum(slots: seq<Slot>): nat
  {
    if |slots| == 0 then 0 else Points(slots[0]) + PointsSum(slots[1..])
  }

  /** Filtering out the slots without a number and summing the rest is summing every slot's points. */
  lemma {:induction false} NumbersSum(slots: seq<Slot>)
    ensures SumAll(Numbers(slots)) == PointsSum(slots)
  {
    if |slots| > 0 {
      NumbersSum(slots[1..]);
      if slots[0].Recorded? {
        assert ([slots[0].points] + Numbers(slots[1..]))[1..] == Numbers(slots[1..]);
      }
    }
  }

  /** `selectUpperBoardSum`: the sum of the numbers on the upper board. */
  function UpperBoardSum(board: Board): (sum: nat)
    ensures sum == Points(board.ones) + Points(board.twos) + Points(board.threes)
                 + Points(board.fours) + Points(board.fives) + Points(board.sixes)
  {
    var slots := UpperSlots(board);
    NumbersSum(slots);
    assert PointsSum(slots[5..]) == Points(board.sixes);
    assert PointsSum(slots[4..]) == Points(board.fives) + PointsSum(slots[5..]);
    assert PointsSum(slots[3..]) == Points(board.fours) + PointsSum(slots[4..]);
    assert PointsSum(slots[2..]) == Points(board.threes) + PointsSum(slots[3..]);
    assert PointsSum(slots[1..]) == Points(board.twos) + PointsSum(slots[2..]);
    SumAll(Numbers(slots))
  }

  /** `selectUpperBoardBonus`: 35 once the upper board sums to 63 or more, else 0. */
  function UpperBoardBonus(board: Board): (bonus: nat)
    ensures bonus == 0 || bonus == 35
    ensures bonus == 35 <==> UpperBoardSum(board) >= 63
  {
    if UpperBoardSum(board) >= 63 then 35 else 0
  }

  /** `selectLowerBoardSum`: the sum of the numbers on the lower board. */
  function LowerBoardSum(board: Board): (sum: nat)
    ensures sum == Points(board.threeOfAKind) + Points(board.fourOfAKind) + Points(board.fullHouse)
                 + Points(board.smallStraight) + Points(board.largeStraight) + Points(board.gamble)
                 + Points(board.fiveDice)
  {
    var slots := LowerSlots(board);
    NumbersSum(slots);
    assert PointsSum(slots[6..]) == Points(board.fiveDice);
    assert PointsSum(slots[5..]) == Points(board.gamble) + PointsSum(slots[6..]);
    assert PointsSum(slots[4..]) == Points(board.largeStraight) + PointsSum(slots[5..]);
    assert PointsSum(slots[3..]) == Points(board.smallStraight) + PointsSum(slots[4..]);
    assert PointsSum(slots[2..]) == Points(board.fullHouse) + PointsSum(slots[3..]);
    assert PointsSum(slots[1..]) == Points(board.fourOfAKind) + PointsSum(slots[2..]);
    SumAll(Numbers(slots))
  }

  /** `selectTotal`: every number on the board counted once, plus the upper-board bonus. */
  function Total(board: Board): (total: nat)
    ensures total == Points(board.ones) + Points(board.twos) + Points(board.threes)
                   + Points(board.fours) + Points(board.fives) + Points(board.sixes)
                   + Points(board.threeOfAKind) + Points(board.fourOfAKind) + Points(board.fullHouse)
                   + Points(board.smallStraight) + Points(board.largeStraight) + Points(board.gamble)
                   + Points(board.fiveDice) + UpperBoardBonus(board)
  {
    UpperBoardSum(board) + UpperBoardBonus(board) + LowerBoardSum(board)
  }

  /** Summing the numbers among the slots is summing every slot's points. */
  lemma {:induction false} SumOfPoints(slots: seq<Slot>, other: seq<Slot>)
    requires |slots| == |other|
    requires forall i :: 0 <= i < |slots| ==> Points(slots[i]) == Points(other[i])
    ensures SumAll(Numbers(slots)) == SumAll(Numbers(other))
  {
    if |slots| > 0 {
      SumOfPoints(slots[1..], other[1..]);
    }
  }

  /** Turning one slot that held no number into `p` adds exactly `p` to the sum. */
  lemma {:induction false} SumOfRecording(slots: seq<Slot>, i: nat, p: nat)
    requires i < |slots| && !slots[i].Recorded?
    ensures SumAll(Numbers(slots[i := Recorded(p)])) == SumAll(Numbers(slots)) + p
  {
    var after := slots[i := Recorded(p)];
    if i == 0 {
      assert after[1..] == slots[1..];
    } else {
      SumOfRecording(slots[1..], i - 1, p);
      assert after[1..] == slots[1..][i - 1 := Recorded(p)];
    }
  }

  /** The totals depend only on the numbers recorded: open and potential slots count for nothing. */
  lemma TotalOfRecorded(board: Board, other: Board)
    requires forall c :: Points(board.Get(c)) == Points(other.Get(c))
    ensures UpperBoardSum(board) == UpperBoardSum(other)
    ensures LowerBoardSum(board) == LowerBoardSum(other)
    ensures Total(board) == Total(other)
  {
    var u, v := UpperSlots(board), UpperSlots(other);
    assert Points(board.Get(Ones)) == Points(other.Get(Ones)) && Points(board.Get(Twos)) == Points(other.Get(Twos));
    assert Points(board.Get(Threes)) == Points(other.Get(Threes)) && Points(board.Get(Fours)) == Points(other.Get(Fours));
    assert Points(board.Get(Fives)) == Points(other.Get(Fives)) && Points(board.Get(Sixes)) == Points(other.Get(Sixes));
    SumOfPoints(u, v);
    var l, w := LowerSlots(board), LowerSlots(other);
    assert Points(board.Get(ThreeOfAKind)) == Points(other.Get(ThreeOfAKind));
    assert Points(board.Get(FourOfAKind)) == Points(other.Get(FourOfAKind));
    assert Points(board.Get(FullHouse)) == Points(other.Get(FullHouse));
    assert Points(board.Get(SmallStraight)) == Points(other.Get(SmallStraight));
    assert Points(board.Get(LargeStraight)) == Points(other.Get(LargeStraight));
    assert Points(board.Get(Gamble)) == Points(other.Get(Gamble));
    assert Points(board.Get(FiveDice)) == Points(other.Get(FiveDice));
    SumOfPoints(l, w);
  }

  /**
   * Recording `p` in a slot that held no number raises the board's sum by `p` and never
   * lowers the total: the bonus can only appear, never disappear.
   */
  lemma RecordingRaisesTotal(board: Board, c: Category, p: nat)
    requires !board.Get(c).Recorded?
    ensures var after := board.Set(c, Recorded(p));
      UpperBoardSum(after) + LowerBoardSum(after) == UpperBoardSum(board) + LowerBoardSum(board) + p
    ensures Total(board.Set(c, Recorded(p))) >= Total(board) + p
  {
    var after := board.Set(c, Recorded(p));
    if c.IsUpper() {
      var i := Position(c);
      assert UpperSlots(after) == UpperSlots(board)[i := Recorded(p)];
      SumOfRecording(UpperSlots(board), i, p);
      assert LowerSlots(after) == LowerSlots(board);
    } else {
      var i := Position(c) - 6;
      assert LowerSlots(after) == LowerSlots(board)[i := Recorded(p)];
      SumOfRecording(LowerSlots(board), i, p);
      assert UpperSlots(after) == UpperSlots(board);
    }
  }
}
