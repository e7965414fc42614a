/** The scorer: section sums, the upper bonus and the grand total of one sheet
    (any pair of an upper and a lower section). */
module Score {
  import opened Common
  import opened Game

  /** The upper sum from which the bonus is paid, and the bonus itself. */
  const BonusThreshold: int := 73
  const BonusPoints: int := 45

  /** JavaScript truthiness of a cell's `value`: recorded and non-zero. */
  predicate Truthy(c: Cell)
  {
    c.value.Some? && c.value.value != 0
  }

  /** `cell.value || 0`. */
  function ValueOrZero(c: Cell): int
  {
    if Truthy(c) then c.value.value else 0
  }

  /** What one upper cell adds in the reduce of `calculateUpperSum`: nothing when
      struck or empty, otherwise its value. */
  function UpperPoints(c: Cell): (r: int)
    ensures c.struck || c.value.None? ==> r == 0
    ensures !c.struck && c.value.Some? ==> r == c.value.value
  {
    if c.struck then 0 else ValueOrZero(c)
  }

  /** The upper cells named in `fs`, summed. */
  function SumUpper(u: UpperSection, fs: seq<UpperField>): int
  {
    if |fs| == 0 then 0 else UpperPoints(u.Get(fs[0])) + SumUpper(u, fs[1..])
  }

  /** `calculateUpperSum`: each of the six upper cells counts once, by its points. */
  function UpperSum(u: UpperSection): (r: int)
    ensures r == UpperPoints(u.ones) + UpperPoints(u.twos) + UpperPoints(u.threes)
               + UpperPoints(u.fours) + UpperPoints(u.fives) + UpperPoints(u.sixes)
  {
    SumUpperCells(u);
    SumUpper(u, UpperFields)
  }

  /** `calculateUpperBonus`. */
  function UpperBonus(sum: int): (r: int)
    ensures r == 0 || r == BonusPoints
    ensures r == BonusPoints <==> sum >= BonusThreshold
  {
    if sum >= 73 then 45 else 0
  }

  /** `calculateUpperTotal`: the upper sum, raised by the bonus exactly when the sum
      reaches the threshold. */
  function UpperTotal(u: UpperSection): (r: int)
    ensures r == UpperSum(u) || r == UpperSum(u) + BonusPoints
    ensures r == UpperSum(u) + BonusPoints <==> UpperSum(u) >= BonusThreshold
  {
    var sum := UpperSum(u);
    sum + UpperBonus(sum)
  }

  /** What one lower cell adds in the reduce of `calculateLowerSum`: nothing when
      struck; a field found in the fixed-score table scores its table constant when its
      value is truthy; superChance scores its value twice; any other field its value. */
  function LowerPoints(f: LowerField, c: Cell): (r: int)
    ensures c.struck || c.value.None? ==> r == 0
  {
    if c.struck then 0
    else
      match FixedScore(f)
      case Some(points) => if Truthy(c) then points else 0
      case None =>
        if f == SuperChance && Truthy(c) then c.value.value * 2
        else ValueOrZero(c)
  }

  /** The lower cells named in `fs`, summed. */
  function SumLower(l: LowerSection, fs: seq<LowerField>): int
  {
    if |fs| == 0 then 0 else LowerPoints(fs[0], l.Get(fs[0])) + SumLower(l, fs[1..])
  }

  /** `calculateLowerSum`: a sheet whose lower cells all score nothing sums to 0, and
      cells that score nothing negative cannot make the sum negative. */
  function LowerSum(l: LowerSection): (r: int)
    ensures (forall f :: LowerPoints(f, l.Get(f)) == 0) ==> r == 0
    ensures (forall f :: LowerPoints(f, l.Get(f)) >= 0) ==> r >= 0
  {
    SumLowerSigns(l, LowerFields);
    SumLower(l, LowerFields)
  }

  /** `calculateGrandTotal`: both sums, plus the bonus exactly when the upper sum
      reaches the threshold. */
  function GrandTotal(u: UpperSection, l: LowerSection): (r: int)
    ensures r == UpperSum(u) + LowerSum(l) + (if UpperSum(u) >= BonusThreshold then BonusPoints else 0)
  {
    UpperTotal(u) + LowerSum(l)
  }

  /** One step of the upper reduce, at any position of the field list. */
  lemma SumUpperStep(u: UpperSection, fs: seq<UpperField>, k: nat)
    requires k < |fs|
    ensures SumUpper(u, fs[k..]) == UpperPoints(u.Get(fs[k])) + SumUpper(u, fs[k + 1..])
  {
    assert fs[k..][1..] == fs[k + 1..];
  }

  /** The upper reduce over `UpperFields`, cell by cell. */
  lemma SumUpperCells(u: UpperSection)
    ensures SumUpper(u, UpperFields)
         == UpperPoints(u.ones) + UpperPoints(u.twos) + UpperPoints(u.threes)
          + UpperPoints(u.fours) + UpperPoints(u.fives) + UpperPoints(u.sixes)
  {
    var fs := UpperFields;
    SumUpperStep(u, fs, 0);
    SumUpperStep(u, fs, 1);
    SumUpperStep(u, fs, 2);
    SumUpperStep(u, fs, 3);
    SumUpperStep(u, fs, 4);
    SumUpperStep(u, fs, 5);
    assert fs[6..] == [];
    assert fs[0..] == fs;
  }

  /** Cells that all score nothing add up to nothing; cells that score nothing
      negative add up to a non-negative sum. */
  lemma {:induction false} SumLowerSigns(l: LowerSection, fs: seq<LowerField>)
    ensures (forall f :: LowerPoints(f, l.Get(f)) == 0) ==> SumLower(l, fs) == 0
    ensures (forall f :: LowerPoints(f, l.Get(f)) >= 0) ==> SumLower(l, fs) >= 0
  {
    if |fs| > 0 {
      SumLowerSigns(l, fs[1..]);
    }
  }

  /** Cells that contribute nothing add up to nothing. */
  lemma {:induction false} SumUpperZero(u: UpperSection, fs: seq<UpperField>)
    requires forall f :: f in fs ==> UpperPoints(u.Get(f)) == 0
    ensures SumUpper(u, fs) == 0
  {
    if |fs| > 0 {
      assert fs[0] in fs;
      SumUpperZero(u, fs[1..]);
    }
  }

  /** Cells that contribute nothing add up to nothing. */
  lemma {:induction false} SumLowerZero(l: LowerSection, fs: seq<LowerField>)
    requires forall f :: f in fs ==> LowerPoints(f, l.Get(f)) == 0
    ensures SumLower(l, fs) == 0
  {
    if |fs| > 0 {
      assert fs[0] in fs;
      SumLowerZero(l, fs[1..]);
    }
  }

  /** The totals as the source composes them: the upper total is the sum plus 45
      exactly when the sum reaches 73, and the grand total adds the lower sum. This
      only spells out the definitions; what the sums add up is stated by `UpperSum`,
      `LowerSum`, `UpperSumWith` and `LowerSumWith`. */
  lemma Totals(u: UpperSection, l: LowerSection)
    ensures UpperTotal(u) == UpperSum(u) + (if UpperSum(u) >= 73 then 45 else 0)
    ensures GrandTotal(u, l) == UpperTotal(u) + LowerSum(l)
  {
  }

  /** Replacing one upper cell changes the sum by that cell's contribution only. */
  lemma {:induction false} SumUpperWith(u: UpperSection, fs: seq<UpperField>, f: UpperField, c: Cell)
    requires NoDup(fs)
    ensures SumUpper(u.With(f, c), fs)
         == SumUpper(u, fs) + (if f in fs then UpperPoints(c) - UpperPoints(u.Get(f)) else 0)
  {
    if |fs| > 0 {
      assert NoDup(fs[1..]);
      SumUpperWith(u, fs[1..], f, c);
      assert fs == [fs[0]] + fs[1..];
      assert f in fs <==> f == fs[0] || f in fs[1..];
      assert f == fs[0] ==> f !in fs[1..];
    }
  }

  lemma UpperSumWith(u: UpperSection, f: UpperField, c: Cell)
    ensures UpperSum(u.With(f, c)) == UpperSum(u) - UpperPoints(u.Get(f)) + UpperPoints(c)
  {
    UpperFieldsExact();
    SumUpperWith(u, UpperFields, f, c);
  }

  /** Replacing one lower cell changes the sum by that cell's contribution only. */
  lemma {:induction false} SumLowerWith(l: LowerSection, fs: seq<LowerField>, f: LowerField, c: Cell)
    requires NoDup(fs)
    ensures SumLower(l.With(f, c), fs)
         == SumLower(l, fs) + (if f in fs then LowerPoints(f, c) - LowerPoints(f, l.Get(f)) else 0)
  {
    if |fs| > 0 {
      assert NoDup(fs[1..]);
      SumLowerWith(l, fs[1..], f, c);
      assert fs == [fs[0]] + fs[1..];
      assert f in fs <==> f == fs[0] || f in fs[1..];
      assert f == fs[0] ==> f !in fs[1..];
    }
  }

  lemma LowerSumWith(l: LowerSection, f: LowerField, c: Cell)
    ensures LowerSum(l.With(f, c)) == LowerSum(l) - LowerPoints(f, l.Get(f)) + LowerPoints(f, c)
  {
    LowerFieldsExact();
    SumLowerWith(l, LowerFields, f, c);
  }

  /** Striking an upper cell takes exactly its contribution out of the sum; striking
      keeps the stored value, so un-striking restores the sum. */
  lemma StrikeUpper(u: UpperSection, f: UpperField)
    ensures var s := u.With(f, u.Get(f).(struck := true));
            UpperSum(s) == UpperSum(u) - UpperPoints(u.Get(f))
            && (!u.Get(f).struck ==> s.With(f, s.Get(f).(struck := false)) == u)
  {
    var s := u.With(f, u.Get(f).(struck := true));
    UpperSumWith(u, f, u.Get(f).(struck := true));
    if !u.Get(f).struck {
      var back := s.With(f, s.Get(f).(struck := false));
      assert forall g :: back.Get(g) == u.Get(g);
      match f
      case Ones =>
      case Twos =>
      case Threes =>
      case Fours =>
      case Fives =>
      case Sixes =>
    }
  }

  /** Striking a lower cell takes exactly its contribution out of the sum, whatever
      value it stores; un-striking it gives the previous sum back. */
  lemma StrikeLower(l: LowerSection, f: LowerField)
    ensures var s := l.With(f, l.Get(f).(struck := true));
            LowerSum(s) == LowerSum(l) - LowerPoints(f, l.Get(f))
            && (!l.Get(f).struck ==> LowerSum(s.With(f, s.Get(f).(struck := false))) == LowerSum(l))
  {
    var s := l.With(f, l.Get(f).(struck := true));
    LowerSumWith(l, f, l.Get(f).(struck := true));
    LowerSumWith(s, f, s.Get(f).(struck := false));
  }

  /** How each kind of lower field scores: a struck cell nothing; a fixed-score field
      its table constant when its value is truthy, whatever the magnitude, otherwise 0;
      superChance twice its value; every other field (under10 included) its raw value. */
  lemma LowerPointsByKind(f: LowerField, c: Cell)
    ensures c.struck ==> LowerPoints(f, c) == 0
    ensures !c.struck && FixedScore(f).Some? ==>
              LowerPoints(f, c) == (if Truthy(c) then FixedScore(f).value else 0)
    ensures !c.struck && f == SuperChance ==> LowerPoints(f, c) == 2 * ValueOrZero(c)
    ensures !c.struck && f in {ThreeOfKind, FourOfKind, TwoPairs, Under10, Chance} ==>
              LowerPoints(f, c) == ValueOrZero(c)
  {
    FreeFieldsNotFixed();
  }

  /** A fixed-score field does not look at the magnitude of its value. */
  lemma FixedIgnoresMagnitude(f: LowerField, c: Cell, d: Cell)
    requires FixedScore(f).Some?
    requires c.struck == d.struck && Truthy(c) == Truthy(d)
    ensures LowerPoints(f, c) == LowerPoints(f, d)
  {
  }

  /** A sheet whose cells are all empty, or all struck, scores 0 in every total. */
  lemma EmptySheetScoresZero(u: UpperSection, l: LowerSection)
    requires forall f :: u.Get(f).struck || u.Get(f).value.None?
    requires forall f :: l.Get(f).struck || l.Get(f).value.None?
    ensures UpperSum(u) == 0 && UpperTotal(u) == 0 && LowerSum(l) == 0 && GrandTotal(u, l) == 0
  {
    SumUpperZero(u, UpperFields);
    SumLowerZero(l, LowerFields);
  }

  /** The upper half of the example sheet: ones..sixes = 1..6 add up to 21, which
      earns no bonus. */
  lemma ExampleUpper(u: UpperSection)
    requires u == UpperSection(Cell(Some(1), false), Cell(Some(2), false), Cell(Some(3), false),
                               Cell(Some(4), false), Cell(Some(5), false), Cell(Some(6), false))
    ensures UpperSum(u) == 21 && UpperTotal(u) == 21
  {
    var e := Cell(None, false);
    var u1 := u.With(Ones, e);
    var u2 := u1.With(Twos, e);
    var u3 := u2.With(Threes, e);
    var u4 := u3.With(Fours, e);
    var u5 := u4.With(Fives, e);
    var u6 := u5.With(Sixes, e);
    UpperSumWith(u, Ones, e);
    UpperSumWith(u1, Twos, e);
    UpperSumWith(u2, Threes, e);
    UpperSumWith(u3, Fours, e);
    UpperSumWith(u4, Fives, e);
    UpperSumWith(u5, Sixes, e);
    SumUpperZero(u6, UpperFields);
  }

  /** The lower half of the example sheet: kniffel achieved (50) and superChance 10
      (doubled to 20), all else empty, add up to 70. */
  lemma ExampleLower(l: LowerSection)
    requires l.kniffel == Cell(Some(1), false) && l.superChance == Cell(Some(10), false)
    requires forall f :: f != Kniffel && f != SuperChance ==> l.Get(f) == Cell(None, false)
    ensures LowerSum(l) == 70
  {
    var e := Cell(None, false);
    var l1 := l.With(Kniffel, e);
    var l2 := l1.With(SuperChance, e);
    LowerSumWith(l, Kniffel, e);
    LowerSumWith(l1, SuperChance, e);
    assert forall f :: LowerPoints(f, l2.Get(f)) == 0;
    ExamplePoints();
  }

  /** A ticked kniffel scores its table constant 50; a superChance of 10 scores 20. */
  lemma ExamplePoints()
    ensures LowerPoints(Kniffel, Cell(Some(1), false)) == 50
    ensures LowerPoints(SuperChance, Cell(Some(10), false)) == 20
  {
    FixedScoreValues();
    FreeFieldsNotFixed();
  }

  /** The example sheet: upper total 21, lower sum 70, grand total 91. */
  lemma ExampleSheet(u: UpperSection, l: LowerSection)
    requires u == UpperSection(Cell(Some(1), false), Cell(Some(2), false), Cell(Some(3), false),
                               Cell(Some(4), false), Cell(Some(5), false), Cell(Some(6), false))
    requires l.kniffel == Cell(Some(1), false) && l.superChance == Cell(Some(10), false)
    requires forall f :: f != Kniffel && f != SuperChance ==> l.Get(f) == Cell(None, false)
    ensures UpperTotal(u) == 21 && LowerSum(l) == 70 && GrandTotal(u, l) == 91
  {
    ExampleUpper(u);
    ExampleLower(l);
  }

  /** Striking chance after entering 20 removes its 20 points; un-striking it
      without touching the value brings them back. */
  lemma StruckChanceExample(l: LowerSection)
    requires l.chance == Cell(Some(20), false)
    ensures LowerSum(l.With(Chance, Cell(Some(20), true))) == LowerSum(l) - 20
    ensures LowerSum(l.With(Chance, Cell(Some(20), true)).With(Chance, Cell(Some(20), false))) == LowerSum(l)
  {
    FreeFieldsNotFixed();
    StrikeLower(l, Chance);
  }

  /** Under the scorer as written, ticking under10 (the interface stores 1) scores 1
      point: the field is not in the fixed-score table. */
  lemma Under10ScoresRawValue()
    ensures LowerPoints(Under10, Cell(Some(1), false)) == 1
  {
    FreeFieldsNotFixed();
  }
}
