/** The scoresheet data model of Kniffel Extreme: cells, the two sections of a
    sheet, the string keys the sections use, and the table of fixed lower scores. */
module Game {
  import opened Common

  /** One scoresheet entry. `value` is `None` while nothing is recorded (the source's
      `null`); a struck cell keeps its value but scores nothing. */
  datatype Cell = Cell(value: Option<int>, struck: bool)

  datatype UpperField = Ones | Twos | Threes | Fours | Fives | Sixes

  datatype LowerField =
    | ThreeOfKind | FourOfKind | TwoPairs | ThreePairs | TwoThrees | FullHouse
    | LargeFullHouse | SmallStraight | LargeStraight | Highway | Kniffel
    | KniffelExtreme | Under10 | Over33 | Chance | SuperChance

  /** The six upper fields, in declaration order. */
  const UpperFields: seq<UpperField> := [Ones, Twos, Threes, Fours, Fives, Sixes]

  /** The sixteen lower fields, in declaration order. */
  const LowerFields: seq<LowerField> :=
    [ThreeOfKind, FourOfKind, TwoPairs, ThreePairs, TwoThrees, FullHouse,
     LargeFullHouse, SmallStraight, LargeStraight, Highway, Kniffel,
     KniffelExtreme, Under10, Over33, Chance, SuperChance]

  datatype UpperSection = UpperSection(ones: Cell, twos: Cell, threes: Cell,
                                       fours: Cell, fives: Cell, sixes: Cell)
  {
    function Get(f: UpperField): Cell
    {
      match f
      case Ones => ones
      case Twos => twos
      case Threes => threes
      case Fours => fours
      case Fives => fives
      case Sixes => sixes
    }

    /** `{...section, [f]: c}`. */
    function With(f: UpperField, c: Cell): (r: UpperSection)
      ensures r.Get(f) == c
      ensures forall g :: g != f ==> r.Get(g) == Get(g)
    {
      match f
      case Ones => this.(ones := c)
      case Twos => this.(twos := c)
      case Threes => this.(threes := c)
      case Fours => this.(fours := c)
      case Fives => this.(fives := c)
      case Sixes => this.(sixes := c)
    }
  }

  datatype LowerSection = LowerSection(
    threeOfKind: Cell, fourOfKind: Cell, twoPairs: Cell, threePairs: Cell,
    twoThrees: Cell, fullHouse: Cell, largeFullHouse: Cell, smallStraight: Cell,
    largeStraight: Cell, highway: Cell, kniffel: Cell, kniffelExtreme: Cell,
    under10: Cell, over33: Cell, chance: Cell, superChance: Cell)
  {
    function Get(f: LowerField): Cell
    {
      match f
      case ThreeOfKind => threeOfKind
      case FourOfKind => fourOfKind
      case TwoPairs => twoPairs
      case ThreePairs => threePairs
      case TwoThrees => twoThrees
      case FullHouse => fullHouse
      case LargeFullHouse => largeFullHouse
      case SmallStraight => smallStraight
      case LargeStraight => largeStraight
      case Highway => highway
      case Kniffel => kniffel
      case KniffelExtreme => kniffelExtreme
      case Under10 => under10
      case Over33 => over33
      case Chance => chance
      case SuperChance => superChance
    }

    /** `{...section, [f]: c}`. */
    function With(f: LowerField, c: Cell): (r: LowerSection)
      ensures r.Get(f) == c
      ensures forall g :: g != f ==> r.Get(g) == Get(g)
    {
      match f
      case ThreeOfKind => this.(threeOfKind := c)
      case FourOfKind => this.(fourOfKind := c)
      case TwoPairs => this.(twoPairs := c)
      case ThreePairs => this.(threePairs := c)
      case TwoThrees => this.(twoThrees := c)
      case FullHouse => this.(fullHouse := c)
      case LargeFullHouse => this.(largeFullHouse := c)
      case SmallStraight => this.(smallStraight := c)
      case LargeStraight => this.(largeStraight := c)
      case Highway => this.(highway := c)
      case Kniffel => this.(kniffel := c)
      case KniffelExtreme => this.(kniffelExtreme := c)
      case Under10 => this.(under10 := c)
      case Over33 => this.(over33 := c)
      case Chance => this.(chance := c)
      case SuperChance => this.(superChance := c)
    }
  }

  /** The property name of an upper field in the stored object. */
  function UpperKey(f: UpperField): string
  {
    match f
    case Ones => "ones"
    case Twos => "twos"
    case Threes => "threes"
    case Fours => "fours"
    case Fives => "fives"
    case Sixes => "sixes"
  }

  /** The property name of a lower field in the stored object. */
  function LowerKey(f: LowerField): string
  {
    match f
    case ThreeOfKind => "threeOfKind"
    case FourOfKind => "fourOfKind"
    case TwoPairs => "twoPairs"
    case ThreePairs => "threePairs"
    case TwoThrees => "twoThrees"
    case FullHouse => "fullHouse"
    case LargeFullHouse => "largeFullHouse"
    case SmallStraight => "smallStraight"
    case LargeStraight => "largeStraight"
    case Highway => "highway"
    case Kniffel => "kniffel"
    case KniffelExtreme => "kniffelExtreme"
    case Under10 => "under10"
    case Over33 => "over33"
    case Chance => "chance"
    case SuperChance => "superChance"
  }

  /** `FIXED_SCORES`: the points a fixed-score lower field awards when achieved. */
  const FixedScores: map<string, nat> := map[
    "threePairs" := 35,
    "twoThrees" := 45,
    "fullHouse" := 25,
    "largeFullHouse" := 45,
    "smallStraight" := 30,
    "largeStraight" := 40,
    "highway" := 50,
    "kniffel" := 50,
    "kniffelExtreme" := 75,
    "over33" := 40]

  /** The table lookup the scorer does with a lower field's key. */
  function FixedScore(f: LowerField): Option<nat>
  {
    if LowerKey(f) in FixedScores then Some(FixedScores[LowerKey(f)]) else None
  }

  /** The position of an upper field in `UpperFields`. */
  function UpperIndex(f: UpperField): nat
  {
    match f
    case Ones => 0
    case Twos => 1
    case Threes => 2
    case Fours => 3
    case Fives => 4
    case Sixes => 5
  }

  /** The position of a lower field in `LowerFields`. */
  function LowerIndex(f: LowerField): nat
  {
    match f
    case ThreeOfKind => 0
    case FourOfKind => 1
    case TwoPairs => 2
    case ThreePairs => 3
    case TwoThrees => 4
    case FullHouse => 5
    case LargeFullHouse => 6
    case SmallStraight => 7
    case LargeStraight => 8
    case Highway => 9
    case Kniffel => 10
    case KniffelExtreme => 11
    case Under10 => 12
    case Over33 => 13
    case Chance => 14
    case SuperChance => 15
  }

  /** The upper section has exactly six fields, ones..sixes: `UpperFields` lists
      every field once and `UpperIndex` is its inverse. */
  lemma UpperFieldsExact()
    ensures |UpperFields| == 6
    ensures forall f :: UpperIndex(f) < 6 && UpperFields[UpperIndex(f)] == f
    ensures forall i :: 0 <= i < 6 ==> UpperIndex(UpperFields[i]) == i
    ensures NoDup(UpperFields)
  {
    forall i, j | 0 <= i < j < |UpperFields| ensures UpperFields[i] != UpperFields[j] {
      assert UpperIndex(UpperFields[i]) == i && UpperIndex(UpperFields[j]) == j;
    }
  }

  /** The lower section has exactly sixteen fields: `LowerFields` lists every
      field once and `LowerIndex` is its inverse. */
  lemma LowerFieldsExact()
    ensures |LowerFields| == 16
    ensures forall f :: LowerIndex(f) < 16 && LowerFields[LowerIndex(f)] == f
    ensures forall i :: 0 <= i < 16 ==> LowerIndex(LowerFields[i]) == i
    ensures NoDup(LowerFields)
  {
    forall i, j | 0 <= i < j < |LowerFields| ensures LowerFields[i] != LowerFields[j] {
      assert LowerIndex(LowerFields[i]) == i && LowerIndex(LowerFields[j]) == j;
    }
  }

  /** `FIXED_SCORES` holds exactly ten keys, each the key of a lower field. */
  lemma FixedScoresKeys()
    ensures FixedScores.Keys == {LowerKey(ThreePairs), LowerKey(TwoThrees), LowerKey(FullHouse),
                                 LowerKey(LargeFullHouse), LowerKey(SmallStraight),
                                 LowerKey(LargeStraight), LowerKey(Highway), LowerKey(Kniffel),
                                 LowerKey(KniffelExtreme), LowerKey(Over33)}
    ensures forall k :: k in FixedScores ==> exists f :: LowerKey(f) == k
    ensures |FixedScores| == 10
  {
  }

  /** The ten fixed-score fields award the listed points. */
  lemma FixedScoreValues()
    ensures FixedScore(ThreePairs) == Some(35) && FixedScore(TwoThrees) == Some(45)
    ensures FixedScore(FullHouse) == Some(25) && FixedScore(LargeFullHouse) == Some(45)
    ensures FixedScore(SmallStraight) == Some(30) && FixedScore(LargeStraight) == Some(40)
    ensures FixedScore(Highway) == Some(50) && FixedScore(Kniffel) == Some(50)
    ensures FixedScore(KniffelExtreme) == Some(75) && FixedScore(Over33) == Some(40)
  {
  }

  /** The free-form fields, under10 among them, and the doubled superChance are not in the table. */
  lemma FreeFieldsNotFixed()
    ensures FixedScore(ThreeOfKind) == None && FixedScore(FourOfKind) == None
    ensures FixedScore(TwoPairs) == None && FixedScore(Under10) == None
    ensures FixedScore(Chance) == None && FixedScore(SuperChance) == None
  {
  }
}
