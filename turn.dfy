/**
 * The rules the engine and the store share for one turn: the five dice and their hold
 * flags, merging a roll's potential scores into the score board (with the forced '0' of
 * a roll that can score nothing), and committing one potential score.
 */
module Turn {
  import opened Categories
  import opened Decimals
  import opened Selectors

  /** A die: its value (0 before the first roll of a turn, else the face shown) and whether it is held. */
  datatype Die = Die(value: int, held: bool)

  /** The dice at the start of a turn: five unset, unheld dice (`initialState.dice`). */
  const NewDice: seq<Die> := [Die(0, false), Die(0, false), Die(0, false), Die(0, false), Die(0, false)]

  /** The score board at the start of a game: every slot open (`initialState.scores`). */
  const NewBoard: Board := Uniform(Open)

  /** An entry of the high-score list: the engine stamps it with a time, the store does not. */
  datatype TopScore = TopScore(timestamp: Option<int>, score: nat)

  /** Every die shows a face. */
  predicate AllRolled(dice: seq<Die>)
  {
    forall i :: 0 <= i < |dice| ==> 1 <= dice[i].value <= 6
  }

  /** The values of the dice, in order. */
  function Values(dice: seq<Die>): (values: seq<Face>)
    requires AllRolled(dice)
    ensures |values| == |dice| && forall i :: 0 <= i < |dice| ==> values[i] == dice[i].value
  {
    if |dice| == 0 then [] else [dice[0].value as Face] + Values(dice[1..])
  }

  /** The dice after a roll: each unheld die shows the value rolled for it, held dice keep theirs. */
  function Rolled(dice: seq<Die>, values: seq<Face>): (after: seq<Die>)
    requires |values| == |dice|
    ensures |after| == |dice|
  {
    if |dice| == 0 then []
    else [if dice[0].held then dice[0] else dice[0].(value := values[0])] + Rolled(dice[1..], values[1..])
  }

  /** A roll keeps every held die and sets every unheld one to its rolled value, changing no hold flag. */
  lemma {:induction false} RolledDice(dice: seq<Die>, values: seq<Face>)
    requires |values| == |dice|
    ensures forall i :: 0 <= i < |dice| ==>
      Rolled(dice, values)[i] == if dice[i].held then dice[i] else Die(values[i], false)
  {
    if |dice| > 0 {
      RolledDice(dice[1..], values[1..]);
    }
  }

  /** Held dice keep their value and every die afterwards shows a face, provided held dice already did. */
  lemma RolledShowsFaces(dice: seq<Die>, values: seq<Face>)
    requires |values| == |dice|
    requires forall i :: 0 <= i < |dice| && dice[i].held ==> 1 <= dice[i].value <= 6
    ensures AllRolled(Rolled(dice, values))
  {
    RolledDice(dice, values);
  }

  /** The dice with die `i`'s held flag flipped. */
  function Toggle(dice: seq<Die>, i: nat): (after: seq<Die>)
    requires i < |dice|
    ensures |after| == |dice| && after[i].held == !dice[i].held && after[i].value == dice[i].value
    ensures forall j :: 0 <= j < |dice| && j != i ==> after[j] == dice[j]
  {
    dice[i := dice[i].(held := !dice[i].held)]
  }

  /** Holding a die twice releases it again. */
  lemma ToggleTwice(dice: seq<Die>, i: nat)
    requires i < |dice|
    ensures Toggle(Toggle(dice, i), i) == dice
  {
    assert forall j :: 0 <= j < |dice| ==> Toggle(Toggle(dice, i), i)[j] == dice[j];
  }

  /** Every potential on the board is a decimal string, so `Number` reads it as a score. */
  predicate PotentialsDecimal(board: Board)
  {
    forall c :: board.Get(c).Potential? ==> IsDecimal(board.Get(c).text)
  }

  /**
   * `cannotScore`: every category the roll offers something for already holds a number,
   * so the roll can score nothing.
   */
  function CannotScore(board: Board, offers: Card<Option<string>>): (cannot: bool)
    ensures cannot <==> forall c :: offers.Get(c).Some? ==> board.Get(c).Recorded?
  {
    EveryListedTaken(board, offers);
    forall i :: 0 <= i < |AllCategories| ==>
      (offers.Get(AllCategories[i]).Some? ==> board.Get(AllCategories[i]).Recorded?)
  }

  /** Every offered category in key order holds a number exactly when every offered category does. */
  lemma EveryListedTaken(board: Board, offers: Card<Option<string>>)
    ensures (forall i :: 0 <= i < |AllCategories| ==>
               (offers.Get(AllCategories[i]).Some? ==> board.Get(AllCategories[i]).Recorded?))
      <==> forall c :: offers.Get(c).Some? ==> board.Get(c).Recorded?
  {
    if forall i :: 0 <= i < |AllCategories| ==>
         (offers.Get(AllCategories[i]).Some? ==> board.Get(AllCategories[i]).Recorded?) {
      forall c | offers.Get(c).Some?
        ensures board.Get(c).Recorded?
      {
        assert AllCategories[Position(c)] == c;
      }
    }
  }

  /** One slot after a roll: a number stays; otherwise '0' on a dead roll, else the offer (string or null). */
  function MergedSlot(slot: Slot, offer: Option<string>, cannotScore: bool): Slot
  {
    if slot.Recorded? then slot
    else if cannotScore then Potential("0")
    else if offer.Some? then Potential(offer.value)
    else Open
  }

  /** The board after a roll: each slot merged with the offer for its category. */
  function Merge(board: Board, offers: Card<Option<string>>): (merged: Board)
    ensures var cannotScore := CannotScore(board, offers);
      forall c :: merged.Get(c) == MergedSlot(board.Get(c), offers.Get(c), cannotScore)
  {
    var cannotScore := CannotScore(board, offers);
    Card(
      MergedSlot(board.ones, offers.ones, cannotScore), MergedSlot(board.twos, offers.twos, cannotScore),
      MergedSlot(board.threes, offers.threes, cannotScore), MergedSlot(board.fours, offers.fours, cannotScore),
      MergedSlot(board.fives, offers.fives, cannotScore), MergedSlot(board.sixes, offers.sixes, cannotScore),
      MergedSlot(board.threeOfAKind, offers.threeOfAKind, cannotScore),
      MergedSlot(board.fourOfAKind, offers.fourOfAKind, cannotScore),
      MergedSlot(board.fullHouse, offers.fullHouse, cannotScore),
      MergedSlot(board.smallStraight, offers.smallStraight, cannotScore),
      MergedSlot(board.largeStraight, offers.largeStraight, cannotScore),
      MergedSlot(board.gamble, offers.gamble, cannotScore),
      MergedSlot(board.fiveDice, offers.fiveDice, cannotScore))
  }

  /**
   * After a roll every number on the board is kept, the game is not over unless it was,
   * and every potential is a decimal string when the offers are.
   */
  lemma MergeKeepsRecorded(board: Board, offers: Card<Option<string>>)
    requires forall c :: offers.Get(c).Some? ==> IsDecimal(offers.Get(c).value)
    ensures forall c :: board.Get(c).Recorded? ==> Merge(board, offers).Get(c) == board.Get(c)
    ensures forall c :: !board.Get(c).Recorded? ==> !Merge(board, offers).Get(c).Recorded?
    ensures PotentialsDecimal(Merge(board, offers))
    ensures Total(Merge(board, offers)) == Total(board)
  {
    var merged := Merge(board, offers);
    assert IsDecimal("0");
    forall c
      ensures Points(merged.Get(c)) == Points(board.Get(c))
    {
    }
    TotalOfRecorded(merged, board);
  }

  /** A dead roll puts '0' in every slot without a number; a live one puts each offer there as it is. */
  lemma MergeOffers(board: Board, offers: Card<Option<string>>, c: Category)
    requires !board.Get(c).Recorded?
    ensures CannotScore(board, offers) ==> Merge(board, offers).Get(c) == Potential("0")
    ensures !CannotScore(board, offers) && offers.Get(c).Some? ==>
      Merge(board, offers).Get(c) == Potential(offers.Get(c).value)
    ensures !CannotScore(board, offers) && offers.Get(c).None? ==> Merge(board, offers).Get(c) == Open
  {
  }

  /**
   * The dead-roll test as the store's `roll` is written: the five-of-a-kind offer is never
   * matched with a slot holding a number, so any such offer makes the roll live.
   */
  function CannotScoreAsWritten(board: Board, offers: Card<Option<string>>): (cannot: bool)
    ensures cannot <==> offers.fiveDice.None? && CannotScore(board, offers)
  {
    assert offers.fiveDice.None? ==> offers.(fiveDice := None) == offers;
    CannotScore(board, offers.(fiveDice := None)) && offers.fiveDice.None?
  }

  /**
   * The board after a roll as the store's `roll` is written: it reads the five-of-a-kind
   * offer under the key 'fiveDice', which the older scorer never writes (it writes
   * 'tahtzee'), and checks the 'tahtzee' offer against a slot the board does not have.
   */
  function MergeAsWritten(board: Board, offers: Card<Option<string>>): (merged: Board)
    ensures var cannotScore := CannotScoreAsWritten(board, offers);
      forall c :: merged.Get(c) == MergedSlot(board.Get(c), if c == FiveDice then None else offers.Get(c), cannotScore)
  {
    var cannotScore := CannotScoreAsWritten(board, offers);
    Card(
      MergedSlot(board.ones, offers.ones, cannotScore), MergedSlot(board.twos, offers.twos, cannotScore),
      MergedSlot(board.threes, offers.threes, cannotScore), MergedSlot(board.fours, offers.fours, cannotScore),
      MergedSlot(board.fives, offers.fives, cannotScore), MergedSlot(board.sixes, offers.sixes, cannotScore),
      MergedSlot(board.threeOfAKind, offers.threeOfAKind, cannotScore),
      MergedSlot(board.fourOfAKind, offers.fourOfAKind, cannotScore),
      MergedSlot(board.fullHouse, offers.fullHouse, cannotScore),
      MergedSlot(board.smallStraight, offers.smallStraight, cannotScore),
      MergedSlot(board.largeStraight, offers.largeStraight, cannotScore),
      MergedSlot(board.gamble, offers.gamble, cannotScore),
      MergedSlot(board.fiveDice, None, cannotScore))
  }

  /**
   * As written, the five-of-a-kind slot never receives the offer for five of a kind: it
   * can only ever hold a number, stay open, or be forced to '0'.
   */
  lemma FiveDiceNeverOfferedAsWritten(board: Board, offers: Card<Option<string>>)
    ensures var slot := MergeAsWritten(board, offers).fiveDice;
      slot == board.fiveDice || slot == Open || slot == Potential("0")
    ensures offers.fiveDice.Some? && !board.fiveDice.Recorded? ==> MergeAsWritten(board, offers).fiveDice == Open
  {
  }

  /** Where the five-of-a-kind offer is absent, the written merge and the intended one agree. */
  lemma MergeAsWrittenAgrees(board: Board, offers: Card<Option<string>>)
    requires offers.fiveDice.None?
    ensures MergeAsWritten(board, offers) == Merge(board, offers)
  {
    assert offers.(fiveDice := None) == offers;
  }

  /** A slot when the turn ends: a potential not taken goes back to open. */
  function ClearedSlot(slot: Slot): Slot
  {
    if slot.Potential? then Open else slot
  }

  /** The board once the turn ends: every potential cleared, numbers and open slots kept. */
  function Cleared(board: Board): (cleared: Board)
    ensures forall c :: cleared.Get(c) == ClearedSlot(board.Get(c))
  {
    Card(
      ClearedSlot(board.ones), ClearedSlot(board.twos), ClearedSlot(board.threes),
      ClearedSlot(board.fours), ClearedSlot(board.fives), ClearedSlot(board.sixes),
      ClearedSlot(board.threeOfAKind), ClearedSlot(board.fourOfAKind), ClearedSlot(board.fullHouse),
      ClearedSlot(board.smallStraight), ClearedSlot(board.largeStraight), ClearedSlot(board.gamble),
      ClearedSlot(board.fiveDice))
  }

  /** Taking the potential score of `c`: it becomes the number it reads as, and the other potentials are cleared. */
  function Commit(board: Board, c: Category): (after: Board)
    requires board.Get(c).Potential? && IsDigits(board.Get(c).text)
    ensures after.Get(c) == Recorded(DecimalValue(board.Get(c).text))
    ensures forall k :: k != c ==> after.Get(k) == ClearedSlot(board.Get(k))
  {
    Cleared(board.Set(c, Recorded(DecimalValue(board.Get(c).text))))
  }

  /**
   * Committing records `c` at the value its potential reads as, clears every other
   * potential, keeps every number and every open slot, and raises the total by at least
   * the value recorded.
   */
  lemma CommitEffect(board: Board, c: Category)
    requires board.Get(c).Potential? && IsDigits(board.Get(c).text)
    ensures var after := Commit(board, c);
      && after.Get(c) == Recorded(DecimalValue(board.Get(c).text))
      && (forall k :: k != c ==> after.Get(k) == ClearedSlot(board.Get(k)))
      && (forall k :: !after.Get(k).Potential?)
      && Total(after) >= Total(board) + DecimalValue(board.Get(c).text)
  {
    var value := DecimalValue(board.Get(c).text);
    var recorded := board.Set(c, Recorded(value));
    RecordingRaisesTotal(board, c, value);
    forall k
      ensures Points(Cleared(recorded).Get(k)) == Points(recorded.Get(k))
    {
    }
    TotalOfRecorded(Cleared(recorded), recorded);
  }

  /** A potential read back from an offer is the score the scorer computed. */
  lemma CommitOffered(board: Board, c: Category, n: nat)
    requires board.Get(c) == Potential(Decimal(n))
    ensures Commit(board, c).Get(c) == Recorded(n)
  {
    DecimalRoundTrip(n);
  }
}
