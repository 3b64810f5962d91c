/**
 * The earlier game state (source/store.ts): the roll count of the turn, the dice, the
 * score board and the high scores, with the same four moves as the engine but no rolling
 * phase; a roll merges the older scorer's potential scores into the board itself.
 */
module Store {
  import opened Categories
  import opened Hand
  import opened Decimals
  import opened Selectors
  import opened Turn
  import PotentialScore
  import PotentialScores

  class Game {
    var turn: nat
    var dice: seq<Die>
    var scores: Board
    var topScores: seq<TopScore>

    /**
     * The store's invariant: five dice; at most three rolls a turn; no die held before the
     * first roll of a turn; after it every die shows a face; every potential on the board
     * reads as a number.
     */
    ghost predicate Valid()
      reads this
    {
      && |dice| == 5
      && turn <= 3
      && (turn == 0 ==> forall i :: 0 <= i < 5 ==> !dice[i].held)
      && (turn > 0 ==> AllRolled(dice))
      && PotentialsDecimal(scores)
    }

    /** A new game: no roll yet, unset dice, an open board and no high scores. */
    constructor()
      ensures Valid()
      ensures turn == 0 && dice == NewDice && scores == NewBoard && topScores == []
    {
      turn := 0;
      dice := NewDice;
      scores := NewBoard;
      topScores := [];
    }

    /**
     * `roll`, with the dice landing on `values`: when fewer than three rolls were made this
     * turn and the game is not over, the turn advances by one, every unheld die takes its
     * value and every slot without a number takes the roll's potential score, or '0' when
     * the roll can score nothing; otherwise nothing changes.
     */
    method Roll(values: seq<Face>)
      requires Valid() && |values| == 5
      modifies this
      ensures Valid() && topScores == old(topScores)
      ensures if old(turn < 3 && !IsGameOver(scores)) then
          && turn == old(turn) + 1
          && dice == Rolled(old(dice), values) && AllRolled(dice)
          && scores == Merge(old(scores), PotentialScores.Scored(Values(dice)))
        else turn == old(turn) && dice == old(dice) && scores == old(scores)
    {
      if turn < 3 && !IsGameOver(scores) {
        turn := turn + 1;
        RollUnheld(values);
        Rescore();
      }
    }

    /** The second half of `roll`: the potential scores of the dice, merged into the board. */
    method Rescore()
      requires |dice| == 5 && AllRolled(dice) && PotentialsDecimal(scores)
      modifies this
      ensures turn == old(turn) && dice == old(dice) && topScores == old(topScores)
      ensures scores == Merge(old(scores), PotentialScores.Scored(Values(dice))) && PotentialsDecimal(scores)
    {
      var diceValues := Values(dice);
      var potentialScores := PotentialScores.CalculatePotentialScores(diceValues);

      // A roll is dead when nothing it offers lands on a slot without a number.
      var cannotScore := CannotScoreNow(potentialScores);

      MergeKeepsRecorded(scores, potentialScores);
      MergePotentials(potentialScores, cannotScore);
    }

    /** The loop over the dice: every unheld die takes the value rolled for it. */
    method RollUnheld(values: seq<Face>)
      requires |dice| == 5 && |values| == 5
      requires forall i :: 0 <= i < 5 && dice[i].held ==> 1 <= dice[i].value <= 6
      modifies this
      ensures dice == Rolled(old(dice), values) && |dice| == 5 && AllRolled(dice)
      ensures forall i :: 0 <= i < 5 ==> dice[i].held == old(dice[i].held)
      ensures turn == old(turn) && scores == old(scores) && topScores == old(topScores)
    {
      RolledDice(dice, values);
      RolledShowsFaces(dice, values);
      ghost var before := dice;
      for i := 0 to 5
        invariant |dice| == 5
        invariant forall j :: 0 <= j < 5 ==>
          dice[j] == if j < i && !before[j].held then Die(values[j], false) else before[j]
        invariant turn == old(turn) && scores == old(scores) && topScores == old(topScores)
      {
        if !dice[i].held {
          dice := dice[i := dice[i].(value := values[i])];
        }
      }
      assert dice == Rolled(before, values);
    }

    /** `cannotScore`: the entries the roll offers something for, every one already holding a number. */
    method CannotScoreNow(potentialScores: Card<Option<string>>) returns (cannotScore: bool)
      ensures cannotScore == CannotScore(scores, potentialScores)
    {
      cannotScore := true;
      for i := 0 to |AllCategories|
        invariant cannotScore <==> forall j :: 0 <= j < i ==>
          (potentialScores.Get(AllCategories[j]).Some? ==> scores.Get(AllCategories[j]).Recorded?)
      {
        var id := AllCategories[i];
        if potentialScores.Get(id).Some? && !scores.Get(id).Recorded? {
          cannotScore := false;
        }
      }
    }

    /**
     * The loop over the score slots after a roll: each slot without a number takes '0' on
     * a dead roll, else the potential score for its category.
     */
    method MergePotentials(potentialScores: Card<Option<string>>, cannotScore: bool)
      requires cannotScore == CannotScore(scores, potentialScores)
      modifies this
      ensures scores == Merge(old(scores), potentialScores)
      ensures turn == old(turn) && dice == old(dice) && topScores == old(topScores)
    {
      ghost var start := scores;
      for i := 0 to |AllCategories|
        invariant forall c :: scores.Get(c) == (if Position(c) < i then MergedSlot(start.Get(c), potentialScores.Get(c), cannotScore) else start.Get(c))
        invariant turn == old(turn) && dice == old(dice) && topScores == old(topScores)
      {
        var id := AllCategories[i];
        PositionOfListed(i);
        var potentialScore := potentialScores.Get(id);
        // Slots holding a number are left alone.
        if !scores.Get(id).Recorded? {
          scores := scores.Set(id, if cannotScore then Potential("0")
                                   else if potentialScore.Some? then Potential(potentialScore.value)
                                   else Open);
        }
      }
      CardEquality(scores, Merge(start, potentialScores));
    }

    /** `hold`: toggles die `dieId` once the turn has started; otherwise nothing changes. */
    method Hold(dieId: nat)
      requires Valid() && dieId < 5
      modifies this
      ensures Valid()
      ensures dice == if old(turn > 0) then Toggle(old(dice), dieId) else old(dice)
      ensures turn == old(turn) && scores == old(scores) && topScores == old(topScores)
    {
      if turn > 0 {
        dice := dice[dieId := dice[dieId].(held := !dice[dieId].held)];
      }
    }

    /**
     * `score`: when `scoreId` holds a potential, records it, clears every other potential
     * and starts a new turn; then, if the board is full, the high scores become the single
     * entry of the total.
     */
    method Score(scoreId: Category)
      requires Valid()
      modifies this
      ensures Valid()
      ensures var taken := old(scores.Get(scoreId).Potential?);
        && scores == (if taken then Commit(old(scores), scoreId) else old(scores))
        && dice == (if taken then NewDice else old(dice))
        && turn == (if taken then 0 else old(turn))
      ensures topScores == if IsGameOver(scores) then [TopScore(None, Total(scores))] else old(topScores)
    {
      var potential := scores.Get(scoreId).Potential?;
      if potential {
        TakeScore(scoreId);
      }

      if IsGameOver(scores) {
        topScores := [TopScore(None, Total(scores))];
      }
    }

    /** Taking the potential of `scoreId`: it is recorded, the other potentials are cleared and a new turn starts. */
    method TakeScore(scoreId: Category)
      requires Valid() && scores.Get(scoreId).Potential?
      modifies this
      ensures Valid()
      ensures scores == Commit(old(scores), scoreId) && dice == NewDice && turn == 0
      ensures topScores == old(topScores)
    {
      scores := scores.Set(scoreId, Recorded(DecimalValue(scores.Get(scoreId).text)));

      // The offers not taken go back to open.
      ClearPotentials();

      // A fresh turn: unrolled dice and no rolls made.
      dice := NewDice;
      turn := 0;
    }

    /** The loop over the score slots at the end of a turn: every potential goes back to null. */
    method ClearPotentials()
      modifies this
      ensures scores == Cleared(old(scores))
      ensures turn == old(turn) && dice == old(dice) && topScores == old(topScores)
    {
      ghost var recorded := scores;
      for i := 0 to |AllCategories|
        invariant forall c :: scores.Get(c) == if Position(c) < i then ClearedSlot(recorded.Get(c)) else recorded.Get(c)
        invariant turn == old(turn) && dice == old(dice) && topScores == old(topScores)
      {
        var id := AllCategories[i];
        PositionOfListed(i);
        if scores.Get(id).Potential? {
          scores := scores.Set(id, Open);
        }
      }
      CardEquality(scores, Cleared(recorded));
    }

    /** `restart`: fresh dice, an open board and turn 0; the high scores are kept. */
    method Restart()
      requires Valid()
      modifies this
      ensures Valid()
      ensures dice == NewDice && scores == NewBoard && turn == 0 && topScores == old(topScores)
    {
      dice := NewDice;
      scores := NewBoard;
      turn := 0;
    }
  }

  /**
   * Five sixes on a new board: as the store's `roll` is written, the five-of-a-kind slot
   * stays open, while the intended merge offers "50" there.
   */
  lemma FiveOfAKindLostAsWritten()
    ensures var offers := PotentialScores.Scored([6, 6, 6, 6, 6]);
      && MergeAsWritten(NewBoard, offers).fiveDice == Open
      && Merge(NewBoard, offers).fiveDice == Potential("50")
  {
    FiveSixesOffered();
    OfferedFiveDiceLost(NewBoard, PotentialScores.Scored([6, 6, 6, 6, 6]));
  }

  /** An offer for five of a kind on an open slot: lost as written, kept by the intended merge. */
  lemma OfferedFiveDiceLost(board: Board, offers: Card<Option<string>>)
    requires offers.fiveDice.Some? && board.fiveDice == Open
    ensures MergeAsWritten(board, offers).fiveDice == Open
    ensures Merge(board, offers).fiveDice == Potential(offers.fiveDice.value)
  {
    FiveDiceNeverOfferedAsWritten(board, offers);
    MergeOffers(board, offers, FiveDice);
  }

  /** Five sixes are offered "50" for five of a kind. */
  lemma FiveSixesOffered()
    ensures PotentialScores.Scored([6, 6, 6, 6, 6]).fiveDice == Some("50")
  {
    var d: seq<Face> := [6, 6, 6, 6, 6];
    assert multiset(d)[6] == 5;
    assert 6 in multiset(d) && Count(d, 6) == 5;
    assert PotentialScore.NaturalCard(d).fiveDice == Some(50);
    assert Decimal(50) == "50";
  }

  /**
   * Five sixes when only the ones slot is still open: as written the ones slot stays null
   * and no slot holds a potential, so nothing can be taken after this roll; the intended
   * merge offers '0' for ones.
   */
  lemma LastSlotLostAsWritten()
    ensures var board := Uniform(Recorded(1)).(ones := Open);
      var offers := PotentialScores.Scored([6, 6, 6, 6, 6]);
      && MergeAsWritten(board, offers).ones == Open
      && (forall c :: !MergeAsWritten(board, offers).Get(c).Potential?)
      && !IsGameOver(MergeAsWritten(board, offers))
      && Merge(board, offers).ones == Potential("0")
  {
    FiveSixesOffered();
    FiveSixesNoOnes();
    OfferedFiveDiceBlocksLast(PotentialScores.Scored([6, 6, 6, 6, 6]));
  }

  /**
   * Any offer for five of a kind but none for ones, with only the ones slot open: as written
   * the board gains no potential, while the intended merge forces '0' into ones.
   */
  lemma OfferedFiveDiceBlocksLast(offers: Card<Option<string>>)
    requires offers.fiveDice.Some? && offers.ones.None?
    ensures var board := Uniform(Recorded(1)).(ones := Open);
      && MergeAsWritten(board, offers).ones == Open
      && (forall c :: !MergeAsWritten(board, offers).Get(c).Potential?)
      && !IsGameOver(MergeAsWritten(board, offers))
      && Merge(board, offers).ones == Potential("0")
  {
    var board := Uniform(Recorded(1)).(ones := Open);
    MergeOffers(board, offers, Ones);
  }

  /** Five sixes offer nothing for ones. */
  lemma FiveSixesNoOnes()
    ensures PotentialScores.Scored([6, 6, 6, 6, 6]).ones == None
  {
    var d: seq<Face> := [6, 6, 6, 6, 6];
    assert 1 !in multiset(d);
    assert PotentialScore.NaturalCard(d).ones == None;
  }
}
