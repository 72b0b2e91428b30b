/**
  The Nine Star Ki calculator: a birth year is reduced to a digit 1..9, the
  main number is derived from it by gender, the heart (energy) and trend
  numbers follow from the birth month and day, each year has a universal
  energy from a nine-year cycle, and the five elements interact through a
  supportive and a challenging cycle.
 */
module NineStarKi {
  import opened Common
  import PyText

  datatype Element = Water | Earth | Wood | Metal | Fire

  /** One entry of the number-to-element table: element, archetype and traits. */
  datatype Profile = Profile(element: Element, archetype: string, traits: string)

  /** The `elements` table; `None` is a missing key (Python raises KeyError). */
  function ElementTable(n: int): (p: Option<Profile>)
    ensures p.Some? <==> 1 <= n <= 9
  {
    match n
    case 1 => Some(Profile(Water, "The Diplomat", "Introspective, wise, flexible"))
    case 2 => Some(Profile(Earth, "The Nurturer", "Gentle, supportive, detail-oriented"))
    case 3 => Some(Profile(Wood, "The Pioneer", "Energetic, impulsive, action-oriented"))
    case 4 => Some(Profile(Wood, "The Charmer", "Romantic, creative, social"))
    case 5 => Some(Profile(Earth, "The Leader", "Powerful, commanding, transformative"))
    case 6 => Some(Profile(Metal, "The Mentor", "Responsible, perfectionist, idealistic"))
    case 7 => Some(Profile(Metal, "The Innovator", "Communicative, playful, pleasure-seeking"))
    case 8 => Some(Profile(Earth, "The Influencer", "Ambitious, determined, results-driven"))
    case 9 => Some(Profile(Fire, "The Inspiration", "Passionate, visionary, charismatic"))
    case _ => None
  }

  // ---------------------------------------------------------------------------
  // Main, energy and trend numbers

  /** `sum(int(d) for d in str(year))` for a year without a sign. */
  function DigitSum(year: nat): nat
  {
    if year < 10 then year else DigitSum(year / 10) + year % 10
  }

  /** The digit sum keeps the residue modulo 9 (casting out nines). */
  lemma {:induction false} DigitSumMod9(year: nat)
    ensures DigitSum(year) % 9 == year % 9
  {
    if year >= 10 {
      var q, d := year / 10, year % 10;
      DigitSumMod9(q);
      ModNineAdd(DigitSum(q), q, d);
      assert year == 9 * q + (q + d);
      ModNineShift(q + d, q);
    }
  }

  lemma ModNineAdd(a: int, b: int, c: int)
    requires a % 9 == b % 9
    ensures (a + c) % 9 == (b + c) % 9
  {
    assert a + c == 9 * (a / 9) + (a % 9 + c);
    assert b + c == 9 * (b / 9) + (b % 9 + c);
    ModNineShift(a % 9 + c, a / 9);
    ModNineShift(b % 9 + c, b / 9);
  }

  /** `(year_sum - 1) % 9 + 1`: the digit sum reduced to a single digit. */
  function ReducedYear(year: nat): nat
  {
    (DigitSum(year) - 1) % 9 + 1
  }

  lemma ModNineShift(x: int, a: int)
    ensures (9 * a + x) % 9 == x % 9
  {
  }

  lemma ReduceDigit(s: int)
    ensures (s - 1) % 9 + 1 == if s % 9 == 0 then 9 else s % 9
  {
    var q, a := (s - 1) % 9, (s - 1) / 9;
    assert s == 9 * a + q + 1;
  }

  /** The reduced year is the year's residue modulo 9, with 0 read as 9. */
  lemma ReducedYearDigit(year: nat)
    ensures ReducedYear(year) == if year % 9 == 0 then 9 else year % 9
    ensures 1 <= ReducedYear(year) <= 9
  {
    var s := DigitSum(year);
    DigitSumMod9(year);
    ReduceDigit(s);
  }

  /** `gender.lower() == 'm'`. */
  predicate IsMale(gender: string)
  {
    PyText.Lower(gender) == "m"
  }

  /** The gender test accepts exactly "m" and "M"; every other string is female. */
  lemma IsMaleExactly(gender: string)
    ensures IsMale(gender) <==> gender == "m" || gender == "M"
  {
    if gender == "m" || gender == "M" {
      assert PyText.Lower(gender)[0] == 'm';
    }
    if IsMale(gender) {
      assert |gender| == 1 && PyText.LowerChar(gender[0]) == 'm';
    }
  }

  /** `calculate_main_number` as written: the male branch has a `<= 0` guard
      that never fires, so a reduced year of 1 gives a male main number of 10. */
  function MainNumber(year: nat, gender: string): int
  {
    var reduced := ReducedYear(year);
    if IsMale(gender) then
      var m := 11 - reduced;
      if m <= 0 then m + 9 else m
    else
      var f := reduced + 4;
      if f > 9 then f - 9 else f
  }

  /** The female branch always yields a digit 1..9: the year plus 4, modulo 9. */
  lemma FemaleMainNumberInRange(year: nat, gender: string)
    requires !IsMale(gender)
    ensures 1 <= MainNumber(year, gender) <= 9
    ensures MainNumber(year, gender) == WrapNine(year + 4)
  {
    ReducedYearDigit(year);
    var k, a := year % 9, year / 9;
    assert year == 9 * a + k;
    ModNineShift(k + 4, a);
  }

  /** The male branch yields 2..10, and 10 exactly when the reduced year is 1. */
  lemma MaleMainNumberRange(year: nat, gender: string)
    requires IsMale(gender)
    ensures 2 <= MainNumber(year, gender) <= 10
    ensures MainNumber(year, gender) == 11 - ReducedYear(year)
    ensures MainNumber(year, gender) == 10 <==> year % 9 == 1
  {
    ReducedYearDigit(year);
  }

  /** A man born in 1990 gets main number 10, which the element table lacks. */
  lemma MaleMainNumberTen()
    ensures MainNumber(1990, "M") == 10
    ensures ElementTable(MainNumber(1990, "M")).None?
  {
    IsMaleExactly("M");
    ReducedYearDigit(1990);
  }

  /** The main number as the traditional rule intends it: the male value
      wraps from 10 back to 1, so every main number is a key of the table. */
  function MainNumberFixed(year: nat, gender: string): (m: int)
    ensures 1 <= m <= 9
    ensures ElementTable(m).Some?
  {
    ReducedYearDigit(year);
    var reduced := ReducedYear(year);
    if IsMale(gender) then
      var m := 11 - reduced;
      if m > 9 then m - 9 else m
    else
      var f := reduced + 4;
      if f > 9 then f - 9 else f
  }

  lemma MaleResidue(year: nat)
    ensures WrapNine(2 - year) == if year % 9 == 1 then 1 else 11 - (if year % 9 == 0 then 9 else year % 9)
  {
    var k, a := year % 9, year / 9;
    assert 2 - year == 9 * -a + (2 - k);
    ModNineShift(2 - k, -a);
  }

  /** The corrected main number in closed form: (2 - year) mod 9 for men,
      (year + 4) mod 9 for women, 0 read as 9. */
  lemma MainNumberFixedClosedForm(year: nat, gender: string)
    ensures MainNumberFixed(year, gender) ==
      if IsMale(gender) then WrapNine(2 - year) else WrapNine(year + 4)
  {
    ReducedYearDigit(year);
    if IsMale(gender) {
      MaleResidue(year);
    } else {
      FemaleMainNumberInRange(year, gender);
    }
  }

  /** The corrected rule differs from the written one only on the value 10. */
  lemma MainNumberFixedAgrees(year: nat, gender: string)
    ensures MainNumber(year, gender) != 10 ==> MainNumberFixed(year, gender) == MainNumber(year, gender)
    ensures MainNumber(year, gender) == 10 ==> MainNumberFixed(year, gender) == 1
  {
    ReducedYearDigit(year);
  }

  /** `x % 9` with 0 read as 9 (Python's `%` agrees with Dafny's for a positive divisor). */
  function WrapNine(x: int): (r: int)
    ensures 1 <= r <= 9
    ensures r % 9 == x % 9
  {
    var k := x % 9;
    if k == 0 then 9 else k
  }

  /** `calculate_energy_number`: (main + month - 1) mod 9, with 0 read as 9. */
  function EnergyNumber(month: int, main: int): (r: int)
    ensures 1 <= r <= 9
    ensures r % 9 == (main + month - 1) % 9
  {
    WrapNine(main + month - 1)
  }

  /** `calculate_trend_number`: (energy + day - 1) mod 9, with 0 read as 9. */
  function TrendNumber(day: int, energy: int): (r: int)
    ensures 1 <= r <= 9
    ensures r % 9 == (energy + day - 1) % 9
  {
    WrapNine(energy + day - 1)
  }

  // ---------------------------------------------------------------------------
  // Universal year energy

  const CyclePattern: seq<int> := [5, 6, 7, 8, 9, 1, 2, 3, 4]

  /** `get_current_year_energy` with the current year passed in. */
  function YearEnergy(year: int): int
  {
    CyclePattern[(year - 2000) % 9]
  }

  /** The cycle in closed form: 2000 has energy 5 and each year adds one, wrapping 9 to 1. */
  lemma YearEnergyClosedForm(year: int)
    ensures YearEnergy(year) == (year - 2000 + 4) % 9 + 1
    ensures 1 <= YearEnergy(year) <= 9
  {
    var k := (year - 2000) % 9;
    assert (year - 2000 + 4) % 9 == (k + 4) % 9;
  }

  lemma YearEnergyBase()
    ensures YearEnergy(2000) == 5
  {
  }

  /** The year energy repeats every nine years. */
  lemma YearEnergyPeriodic(year: int)
    ensures YearEnergy(year + 9) == YearEnergy(year)
  {
    assert (year + 9 - 2000) % 9 == (year - 2000) % 9;
  }

  /** Each following year has the next energy, and 9 is followed by 1. */
  lemma YearEnergySuccessor(year: int)
    ensures YearEnergy(year + 1) == if YearEnergy(year) == 9 then 1 else YearEnergy(year) + 1
  {
    YearEnergyClosedForm(year);
    YearEnergyClosedForm(year + 1);
  }

  // ---------------------------------------------------------------------------
  // Element interactions

  /** `supportive_cycles[e]`: the element that `e` feeds. */
  function SupportiveCycle(e: Element): seq<Element>
  {
    match e
    case Water => [Wood]
    case Wood => [Fire]
    case Fire => [Earth]
    case Earth => [Metal]
    case Metal => [Water]
  }

  /** `challenging_cycles[e]`: the element that `e` overcomes. */
  function ChallengingCycle(e: Element): seq<Element>
  {
    match e
    case Water => [Fire]
    case Fire => [Metal]
    case Metal => [Wood]
    case Wood => [Earth]
    case Earth => [Water]
  }

  /** The branch of `get_element_interaction` taken. The source reports both
      `Harmony` (equal elements) and `Balanced` (its final fallback) as
      "Neutral"; they differ in the advice text. */
  datatype Interaction = Harmony | Supportive | Nourishing | Challenging | Controlling | Balanced
  {
    function Label(): string {
      match this
      case Harmony => "Neutral"
      case Supportive => "Supportive"
      case Nourishing => "Nourishing"
      case Challenging => "Challenging"
      case Controlling => "Controlling"
      case Balanced => "Neutral"
    }

    function Advice(): string {
      match this
      case Harmony => "You are in harmony with this year's energy. Focus on stability and consistency."
      case Supportive => "This year's energy supports you. A great time for growth and new beginnings."
      case Nourishing => "You nourish this year's energy. Focus on giving and contribution."
      case Challenging => "This year may bring challenges. Focus on patience and adaptability."
      case Controlling => "You control this year's energy. A good time for leadership and making changes."
      case Balanced => "A balanced year. Focus on maintaining harmony."
    }
  }

  /** `get_element_interaction`: the first matching test of the if-chain wins. */
  function ElementInteraction(user: Element, year: Element): Interaction
  {
    if user == year then Harmony
    else if year in SupportiveCycle(user) then Supportive
    else if user in SupportiveCycle(year) then Nourishing
    else if year in ChallengingCycle(user) then Challenging
    else if user in ChallengingCycle(year) then Controlling
    else Balanced
  }

  /** Equal elements are in harmony; distinct elements never reach the
      fallback branch, so they always get one of the four directed interactions. */
  lemma InteractionExhaustive(user: Element, year: Element)
    ensures ElementInteraction(user, year) == Harmony <==> user == year
    ensures ElementInteraction(user, year) != Balanced
  {
  }

  /** The relation read from the other side: supportive against nourishing,
      challenging against controlling. */
  lemma InteractionDuality(a: Element, b: Element)
    requires a != b
    ensures ElementInteraction(a, b) == Supportive <==> ElementInteraction(b, a) == Nourishing
    ensures ElementInteraction(a, b) == Challenging <==> ElementInteraction(b, a) == Controlling
  {
  }
}
