/**
 * The game engine (source/game-engine.ts): the state of one game — whether the dice are
 * rolling, the roll count of the turn, the dice, the score board and the high scores —
 * and the four moves a player makes on it.
 */
module Engine {
  import opened Categories
  import opened Decimals
  import opened Selectors
  import opened Turn
  import PotentialScores

  class GameEngine {
    var rolling: bool
    var turn: nat
    var dice: seq<Die>
    var scores: Board
    var topScores: seq<TopScore>

    /**
     * The engine's invariant: five dice; at most three rolls a turn; no die is held before the first roll of a turn and a held die shows a
     * face; once a roll has settled every die shows a face; every potential on the board reads as a number.
     */
    ghost predicate Valid()
      reads this
    {
      && |dice| == 5
      && turn <= 3
      && (turn == 0 ==> forall i :: 0 <= i < 5 ==> !dice[i].held)
      && (forall i :: 0 <= i < 5 && dice[i].held ==> 1 <= dice[i].value <= 6)
      && (!rolling && turn > 0 ==> AllRolled(dice))
      && PotentialsDecimal(scores)
    }

    /** A new game: not rolling, no roll yet, unset dice, an open board and no high scores. */
    constructor()
      ensures Valid()
      ensures !rolling && turn == 0 && dice == NewDice && scores == NewBoard && topScores == []
    {
      rolling := false;
      turn := 0;
      dice := NewDice;
      scores := NewBoard;
      topScores := [];
    }

    /**
     * The first half of `roll`: when no roll is under way, fewer than three rolls were made
     * this turn and the game is not over, the turn advances by one and the dice start
     * rolling; otherwise nothing changes.
     */
    method StartRoll() returns (started: bool)
      requires Valid()
      modifies this
      ensures Valid()
      ensures started == old(!rolling && turn < 3 && !IsGameOver(scores))
      ensures started ==> turn == old(turn) + 1 && rolling
      ensures !started ==> turn == old(turn) && rolling == old(rolling)
      ensures dice == old(dice) && scores == old(scores) && topScores == old(topScores)
    {
      started := !rolling && turn < 3 && !IsGameOver(scores);
      if started {
        turn := turn + 1;
        rolling := true;
      }
    }

    /**
     * The second half of `roll`, once the dice settle on `values`: every unheld die takes
     * its value, rolling stops, and the board takes the roll's potential scores (with the
     * forced '0' of a roll that can score nothing) in every slot without a number.
     */
    method FinishRoll(values: seq<Face>)
      requires Valid() && rolling && |values| == 5
      modifies this
      ensures Valid()
      ensures !rolling && turn == old(turn) && topScores == old(topScores)
      ensures dice == Rolled(old(dice), values) && AllRolled(dice)
      ensures scores == Merge(old(scores), PotentialScores.Scored(Values(dice)))
    {
      RollUnheld(values);
      rolling := false;
      Rescore();
    }

    /** The second half of a settled roll: the potential scores of the dice, merged into the board by `Merge`. */
    method Rescore()
      requires |dice| == 5 && AllRolled(dice) && PotentialsDecimal(scores)
      modifies this
      ensures rolling == old(rolling) && turn == old(turn) && dice == old(dice) && topScores == old(topScores)
      ensures scores == Merge(old(scores), PotentialScores.Scored(Values(dice))) && PotentialsDecimal(scores)
    {
      var diceValues := Values(dice);
      var potentials := PotentialScores.CalculatePotentialScores(diceValues);
      MergeKeepsRecorded(scores, potentials);
      scores := Merge(scores, potentials);
    }

    /** The loop over the dice: every unheld die takes the value rolled for it. */
    method RollUnheld(values: seq<Face>)
      requires |dice| == 5 && |values| == 5
      requires forall i :: 0 <= i < 5 && dice[i].held ==> 1 <= dice[i].value <= 6
      modifies this
      ensures dice == Rolled(old(dice), values) && |dice| == 5 && AllRolled(dice)
      ensures forall i :: 0 <= i < 5 ==> dice[i].held == old(dice[i].held)
      ensures rolling == old(rolling) && turn == old(turn) && scores == old(scores) && topScores == old(topScores)
    {
      RolledDice(dice, values);
      RolledShowsFaces(dice, values);
      ghost var before := dice;
      for i := 0 to 5
        invariant |dice| == 5
        invariant forall j :: 0 <= j < 5 ==>
          dice[j] == if j < i && !before[j].held then Die(values[j], false) else before[j]
        invariant rolling == old(rolling) && turn == old(turn) && scores == old(scores) && topScores == old(topScores)
      {
        if !dice[i].held {
          dice := dice[i := dice[i].(value := values[i])];
        }
      }
      assert dice == Rolled(before, values);
    }

    /**
     * `roll`: a start followed, when it started, by the dice settling on `values`; during
     * a roll already under way, after three rolls or once the game is over, nothing changes.
     */
    method Roll(values: seq<Face>)
      requires Valid() && |values| == 5
      modifies this
      ensures Valid() && topScores == old(topScores)
      ensures if old(!rolling && turn < 3 && !IsGameOver(scores)) then
          && !rolling
          && turn == old(turn) + 1
          && dice == Rolled(old(dice), values) && AllRolled(dice)
          && scores == Merge(old(scores), PotentialScores.Scored(Values(dice)))
        else rolling == old(rolling) && turn == old(turn) && dice == old(dice) && scores == old(scores)
    {
      var started := StartRoll();
      if started {
        FinishRoll(values);
      }
    }

    /** `hold`: toggles die `dieId` when no roll is under way and the turn has started; otherwise nothing changes. */
    method Hold(dieId: nat)
      requires Valid() && dieId < 5
      modifies this
      ensures Valid()
      ensures dice == if old(!rolling && turn > 0) then Toggle(old(dice), dieId) else old(dice)
      ensures rolling == old(rolling) && turn == old(turn) && scores == old(scores) && topScores == old(topScores)
    {
      if !rolling && turn > 0 {
        dice := dice[dieId := dice[dieId].(held := !dice[dieId].held)];
      }
    }

    /**
     * `score`: when no roll is under way and `scoreId` holds a potential, records it, clears
     * every other potential and starts a new turn; then, if the board is full, appends the
     * total, stamped with `timestamp`, to the high scores — even when nothing was recorded.
     */
    method Score(scoreId: Category, timestamp: int)
      requires Valid()
      modifies this
      ensures Valid()
      ensures var taken := old(!rolling && scores.Get(scoreId).Potential?);
        && scores == (if taken then Commit(old(scores), scoreId) else old(scores))
        && dice == (if taken then NewDice else old(dice))
        && turn == (if taken then 0 else old(turn))
        && rolling == old(rolling)
      ensures topScores == old(topScores) + if IsGameOver(scores) then [TopScore(Some(timestamp), Total(scores))] else []
    {
      var isPotential := scores.Get(scoreId).Potential?;
      if !rolling && isPotential {
        TakeScore(scoreId);
      }

      if IsGameOver(scores) {
        topScores := topScores + [TopScore(Some(timestamp), Total(scores))];
      }
    }

    /** Taking the potential of `scoreId`: it is recorded, the other potentials are cleared and a new turn starts. */
    method TakeScore(scoreId: Category)
      requires Valid() && scores.Get(scoreId).Potential?
      modifies this
      ensures Valid()
      ensures scores == Commit(old(scores), scoreId) && dice == NewDice && turn == 0
      ensures rolling == old(rolling) && topScores == old(topScores)
    {
      scores := scores.Set(scoreId, Recorded(DecimalValue(scores.Get(scoreId).text)));

      // The offers not taken go back to open.
      ClearPotentials();

      // A fresh turn: unrolled dice and no rolls made.
      dice := NewDice;
      turn := 0;
    }

    /** The loop over the score slots at the end of a turn: every potential goes back to open. */
    method ClearPotentials()
      modifies this
      ensures scores == Cleared(old(scores))
      ensures rolling == old(rolling) && turn == old(turn) && dice == old(dice) && topScores == old(topScores)
    {
      ghost var recorded := scores;
      for i := 0 to |AllCategories|
        invariant forall c :: scores.Get(c) == if Position(c) < i then ClearedSlot(recorded.Get(c)) else recorded.Get(c)
        invariant rolling == old(rolling) && turn == old(turn) && dice == old(dice) && topScores == old(topScores)
      {
        var id := AllCategories[i];
        PositionOfListed(i);
        if scores.Get(id).Potential? {
          scores := scores.Set(id, Open);
        }
      }
      CardEquality(scores, Cleared(recorded));
    }

    /** `restart`: fresh dice, an open board and turn 0; the high scores and the rolling flag are kept. */
    method Restart()
      requires Valid()
      modifies this
      ensures Valid()
      ensures dice == NewDice && scores == NewBoard && turn == 0
      ensures rolling == old(rolling) && topScores == old(topScores)
    {
      dice := NewDice;
      scores := NewBoard;
      turn := 0;
    }
  }
}
