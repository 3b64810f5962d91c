/** Score categories, die faces and the small datatypes every part of the game shares. */
module Categories {

  datatype Option<+T> = None | Some(value: T)

  /** The face a rolled die shows. */
  type Face = v: int | 1 <= v <= 6 witness 1

  /**
   * The thirteen scoring categories.  The revisions name two of them differently:
   * `Gamble` is 'gamble' in the newer scorer and 'chance' in the older scorer, the
   * engine and the store; `FiveDice` is '5Dice' in the newer scorer, 'fiveDice' in the
   * engine and the store, and 'tahtzee' in the older scorer and in model.ts.
   */
  datatype Category =
    | Ones | Twos | Threes | Fours | Fives | Sixes
    | ThreeOfAKind | FourOfAKind | FullHouse | SmallStraight | LargeStraight | Gamble | FiveDice
  {
    /** The six face-value categories of the upper board. */
    predicate IsUpper() {
      Ones? || Twos? || Threes? || Fours? || Fives? || Sixes?
    }
  }

  /** The categories in the key order of the score records. */
  const AllCategories: seq<Category> :=
    [Ones, Twos, Threes, Fours, Fives, Sixes,
     ThreeOfAKind, FourOfAKind, FullHouse, SmallStraight, LargeStraight, Gamble, FiveDice]

  /** The upper board, in the order the totals list it. */
  const UpperBoard: seq<Category> := [Ones, Twos, Threes, Fours, Fives, Sixes]

  /** The lower board, in the order the totals list it. */
  const LowerBoard: seq<Category> :=
    [ThreeOfAKind, FourOfAKind, FullHouse, SmallStraight, LargeStraight, Gamble, FiveDice]

  /** The face an upper-board category counts. */
  function UpperFace(c: Category): (f: Face)
    requires c.IsUpper()
  {
    match c
    case Ones => 1
    case Twos => 2
    case Threes => 3
    case Fours => 4
    case Fives => 5
    case Sixes => 6
  }

  /** Every category is a key of the score record, exactly once, on exactly one board. */
  lemma CategoryListed(c: Category)
    ensures c in AllCategories
    ensures c in UpperBoard <==> c.IsUpper()
    ensures c in LowerBoard <==> !c.IsUpper()
  {
    match c
    case Ones =>
    case Twos =>
    case Threes =>
    case Fours =>
    case Fives =>
    case Sixes =>
    case ThreeOfAKind =>
    case FourOfAKind =>
    case FullHouse =>
    case SmallStraight =>
    case LargeStraight =>
    case Gamble =>
    case FiveDice =>
  }

  /** Where a category stands in the key order. */
  function Position(c: Category): (i: nat)
    ensures i < |AllCategories| && AllCategories[i] == c
  {
    match c
    case Ones => 0
    case Twos => 1
    case Threes => 2
    case Fours => 3
    case Fives => 4
    case Sixes => 5
    case ThreeOfAKind => 6
    case FourOfAKind => 7
    case FullHouse => 8
    case SmallStraight => 9
    case LargeStraight => 10
    case Gamble => 11
    case FiveDice => 12
  }

  /** The key order lists each category once: position and category determine each other. */
  lemma PositionOfListed(i: nat)
    requires i < |AllCategories|
    ensures Position(AllCategories[i]) == i
  {
  }

  /** No category is listed twice. */
  predicate Distinct(cs: seq<Category>) {
    forall i, j :: 0 <= i < j < |cs| ==> cs[i] != cs[j]
  }

  /**
   * A record with one entry per category, as the score objects keyed by category are:
   * recorded scores, potential scores and the score board all have this shape.
   */
  datatype Card<T> = Card(
    ones: T, twos: T, threes: T, fours: T, fives: T, sixes: T,
    threeOfAKind: T, fourOfAKind: T, fullHouse: T, smallStraight: T, largeStraight: T,
    gamble: T, fiveDice: T)
  {
    /** The entry for `c` (`card[c]`). */
    function Get(c: Category): T
    {
      match c
      case Ones => ones
      case Twos => twos
      case Threes => threes
      case Fours => fours
      case Fives => fives
      case Sixes => sixes
      case ThreeOfAKind => threeOfAKind
      case FourOfAKind => fourOfAKind
      case FullHouse => fullHouse
      case SmallStraight => smallStraight
      case LargeStraight => largeStraight
      case Gamble => gamble
      case FiveDice => fiveDice
    }

    /** The record with the entry for `c` replaced by `v` (`card[c] = v`). */
    function Set(c: Category, v: T): (r: Card<T>)
      ensures r.Get(c) == v
      ensures forall k :: k != c ==> r.Get(k) == Get(k)
    {
      match c
      case Ones => this.(ones := v)
      case Twos => this.(twos := v)
      case Threes => this.(threes := v)
      case Fours => this.(fours := v)
      case Fives => this.(fives := v)
      case Sixes => this.(sixes := v)
      case ThreeOfAKind => this.(threeOfAKind := v)
      case FourOfAKind => this.(fourOfAKind := v)
      case FullHouse => this.(fullHouse := v)
      case SmallStraight => this.(smallStraight := v)
      case LargeStraight => this.(largeStraight := v)
      case Gamble => this.(gamble := v)
      case FiveDice => this.(fiveDice := v)
    }
  }

  /** The record whose entry for each category is `f` of it. */
  ghost function Tabulate<T>(f: Category -> T): (r: Card<T>)
    ensures forall c :: r.Get(c) == f(c)
  {
    Card(f(Ones), f(Twos), f(Threes), f(Fours), f(Fives), f(Sixes),
         f(ThreeOfAKind), f(FourOfAKind), f(FullHouse), f(SmallStraight), f(LargeStraight),
         f(Gamble), f(FiveDice))
  }

  /** The record with the same entry everywhere. */
  function Uniform<T>(v: T): (r: Card<T>)
    ensures forall c :: r.Get(c) == v
  {
    Card(v, v, v, v, v, v, v, v, v, v, v, v, v)
  }

  /** Two records are equal when they agree on every category. */
  lemma CardEquality<T>(a: Card<T>, b: Card<T>)
    requires forall c :: a.Get(c) == b.Get(c)
    ensures a == b
  {
    assert a.Get(Ones) == b.Get(Ones) && a.Get(Twos) == b.Get(Twos) && a.Get(Threes) == b.Get(Threes);
    assert a.Get(Fours) == b.Get(Fours) && a.Get(Fives) == b.Get(Fives) && a.Get(Sixes) == b.Get(Sixes);
    assert a.Get(ThreeOfAKind) == b.Get(ThreeOfAKind) && a.Get(FourOfAKind) == b.Get(FourOfAKind);
    assert a.Get(FullHouse) == b.Get(FullHouse) && a.Get(SmallStraight) == b.Get(SmallStraight);
    assert a.Get(LargeStraight) == b.Get(LargeStraight) && a.Get(Gamble) == b.Get(Gamble);
    assert a.Get(FiveDice) == b.Get(FiveDice);
  }
}
