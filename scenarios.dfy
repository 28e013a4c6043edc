/**
 * Worked examples of the extractor and the router on concrete messages, each
 * pinned down by the general lemmas of the model.
 */
module Scenarios {
  import opened Wrappers
  import opened Text
  import opened Patterns
  import opened Preferences
  import opened Router

  // ---------------------------------------------------------------------------
  // "busco algo de 150 mil bs": one amount with its unit gives a band of 20%.
  // ---------------------------------------------------------------------------

  const Amount150: string := "busco algo de 150 mil bs"

  lemma Value150()
    ensures AllDigits("150") && DigitsValue("150") == 150
  {
    assert "150"[..2] == "15" && "15"[..1] == "1" && "1"[..0] == "";
    assert DigitsValue("1") == 1;
    assert DigitsValue("15") == 15;
  }

  lemma Amount150Number()
    ensures DigitRunEnd(Amount150, 14) == 17 && NumberEnd(Amount150, 14) == 17
    ensures NumberValue(Amount150, 14) == 150.0
  {
    assert DigitRunEnd(Amount150, 17) == 17;
    assert DigitRunEnd(Amount150, 14) == 17;
    assert Amount150[14..17] == "150";
    Value150();
  }

  lemma Amount150Match()
    ensures MatchesAt(AmountWithUnit, Amount150, 14)
    ensures forall j :: 0 <= j < 14 ==> !MatchesAt(AmountWithUnit, Amount150, j)
  {
    Amount150Number();
    assert SpaceRunEnd(Amount150, 18) == 18;
    assert SpaceRunEnd(Amount150, 17) == 18;
    assert Amount150[18..21] == "mil";
    assert OccursAt(Amount150, 18, "mil");
    forall j | 0 <= j < 14 ensures !IsDigit(Amount150[j]) {
    }
  }

  /** The first pattern reads 150 and scales it by the "mil" in the text. */
  lemma Amount150Budget()
    ensures Budget(Amount150) == Some(BudgetRange(120000.0, 180000.0))
  {
    Amount150Match();
    AmountWithUnitDecides(Amount150, 14);
    Amount150Number();
  }

  // ---------------------------------------------------------------------------
  // "entre 500 y 800 mil": the amount-with-unit pattern is tried before the range
  // pattern, so the second amount alone decides the budget.
  // ---------------------------------------------------------------------------

  const Range500To800: string := "entre 500 y 800 mil"

  lemma Value800()
    ensures AllDigits("800") && DigitsValue("800") == 800
  {
    assert "800"[..2] == "80" && "80"[..1] == "8" && "8"[..0] == "";
    assert DigitsValue("8") == 8;
    assert DigitsValue("80") == 80;
  }

  lemma Range500To800Number()
    ensures DigitRunEnd(Range500To800, 12) == 15 && NumberEnd(Range500To800, 12) == 15
    ensures NumberValue(Range500To800, 12) == 800.0
  {
    assert DigitRunEnd(Range500To800, 15) == 15;
    assert DigitRunEnd(Range500To800, 12) == 15;
    assert Range500To800[12..15] == "800";
    Value800();
  }

  /** Each digit of "500" runs into the connective "y", which is no unit. */
  lemma Range500To800FirstAmountHasNoUnit(j: nat)
    requires 6 <= j < 9
    ensures !MatchesAt(AmountWithUnit, Range500To800, j)
  {
    assert DigitRunEnd(Range500To800, 9) == 9;
    assert DigitRunEnd(Range500To800, j) == 9;
    assert NumberEnd(Range500To800, j) == 9;
    assert SpaceRunEnd(Range500To800, 10) == 10;
    assert SpaceRunEnd(Range500To800, 9) == 10;
    assert Range500To800[10] == 'y';
  }

  lemma Range500To800Match()
    ensures MatchesAt(AmountWithUnit, Range500To800, 12)
    ensures forall j :: 0 <= j < 12 ==> !MatchesAt(AmountWithUnit, Range500To800, j)
  {
    Range500To800Number();
    assert SpaceRunEnd(Range500To800, 16) == 16;
    assert SpaceRunEnd(Range500To800, 15) == 16;
    assert Range500To800[16..19] == "mil";
    assert OccursAt(Range500To800, 16, "mil");
    forall j | 0 <= j < 12 ensures !MatchesAt(AmountWithUnit, Range500To800, j) {
      if 6 <= j < 9 {
        Range500To800FirstAmountHasNoUnit(j);
      } else {
        assert !IsDigit(Range500To800[j]);
      }
    }
  }

  /** The budget is the band around 800 thousand, not the range from 500 to 800 thousand. */
  lemma Range500To800Budget()
    ensures Budget(Range500To800) == Some(BudgetRange(640000.0, 960000.0))
  {
    Range500To800Match();
    AmountWithUnitDecides(Range500To800, 12);
    Range500To800Number();
  }

  // ---------------------------------------------------------------------------
  // "entre 9 y 2": only the range pattern matches, and it keeps the bounds as written.
  // ---------------------------------------------------------------------------

  const Range9To2: string := "entre 9 y 2"

  lemma Range9To2Numbers()
    ensures NumberEnd(Range9To2, 6) == 7 && NumberValue(Range9To2, 6) == 9.0
    ensures NumberEnd(Range9To2, 10) == 11 && NumberValue(Range9To2, 10) == 2.0
  {
    assert DigitRunEnd(Range9To2, 7) == 7;
    assert DigitRunEnd(Range9To2, 6) == 7;
    assert DigitRunEnd(Range9To2, 11) == 11;
    assert DigitRunEnd(Range9To2, 10) == 11;
    assert Range9To2[6..7] == "9" && "9"[..0] == "";
    assert Range9To2[10..11] == "2" && "2"[..0] == "";
  }

  /** Neither digit is followed by a unit, and neither begins a run of four digits. */
  lemma Range9To2DigitNoAmount(j: nat)
    requires j == 6 || j == 10
    ensures !MatchesAt(AmountWithUnit, Range9To2, j) && !MatchesAt(LongAmount, Range9To2, j)
  {
    Range9To2Numbers();
    if j == 6 {
      assert SpaceRunEnd(Range9To2, 8) == 8;
      assert SpaceRunEnd(Range9To2, 7) == 8;
    } else {
      assert SpaceRunEnd(Range9To2, 11) == 11;
    }
  }

  lemma Range9To2NoAmount()
    ensures forall j :: 0 <= j <= |Range9To2| ==> !MatchesAt(AmountWithUnit, Range9To2, j) && !MatchesAt(LongAmount, Range9To2, j)
  {
    forall j | 0 <= j <= |Range9To2|
      ensures !MatchesAt(AmountWithUnit, Range9To2, j) && !MatchesAt(LongAmount, Range9To2, j)
    {
      if j == 6 || j == 10 {
        Range9To2DigitNoAmount(j);
      } else if j < |Range9To2| {
        assert !IsDigit(Range9To2[j]);
        assert DigitRunEnd(Range9To2, j) == j;
      }
    }
  }

  lemma Range9To2Match()
    ensures MatchesAt(Between, Range9To2, 0)
    ensures BetweenFirst(Range9To2, 0) == 6
    ensures BetweenSecond(Range9To2, BetweenConnective(Range9To2, 6)) == 10
  {
    Range9To2Numbers();
    assert Range9To2[0..5] == "entre";
    assert SpaceRunEnd(Range9To2, 6) == 6;
    assert SpaceRunEnd(Range9To2, 5) == 6;
    assert SpaceRunEnd(Range9To2, 8) == 8;
    assert SpaceRunEnd(Range9To2, 7) == 8;
    assert SpaceRunEnd(Range9To2, 10) == 10;
    assert SpaceRunEnd(Range9To2, 9) == 10;
  }

  lemma Range9To2Unscaled()
    ensures Scale(Range9To2) == 1.0
  {
    AbsentFirstLetter(Range9To2, "mil");
    AbsentFirstLetter(Range9To2, "k");
  }

  /** The range is read with its bounds in the order written, so its minimum exceeds its
      maximum. */
  lemma Range9To2Budget()
    ensures Budget(Range9To2) == Some(BudgetRange(9.0, 2.0))
  {
    Range9To2NoAmount();
    Range9To2Match();
    BetweenDecides(Range9To2, 0);
    Range9To2Numbers();
    Range9To2Unscaled();
  }

  // ---------------------------------------------------------------------------
  // Keyword tests are substring tests, so they fire inside longer words.
  // ---------------------------------------------------------------------------

  /** "inversion" holds the visit word "ver", so a message about an investment is handed to
      an agent as a visit request. */
  lemma InvestmentReadsAsVisit(query: string, history: string, services: Services)
    requires Contains(Lower(query), "inversion")
    ensures Respond(query, history, services) == Outcome(Responded(VisitResponse), [])
  {
    assert OccursAt("inversion", 2, "ver");
    ContainsInside(Lower(query), "inversion", "ver", 2);
    assert VisitWords[1] == "ver";
  }

  /** "playa" holds the urgency word "ya", so a message about the beach is read as urgent. */
  lemma BeachReadsAsUrgent(q: string)
    requires Contains(q, "playa")
    ensures UrgencyOf(q) == Alta
  {
    assert OccursAt("playa", 3, "ya");
    ContainsInside(q, "playa", "ya", 3);
    assert ["urgente", "pronto", "ya", "inmediato", "hoy"][2] == "ya";
  }

  // ---------------------------------------------------------------------------
  // "kinder 2500": the "k" of "kinder" is taken for the unit, so 2500 is read as
  // two and a half million.
  // ---------------------------------------------------------------------------

  const Kinder2500: string := "kinder 2500"

  lemma Value2500()
    ensures AllDigits("2500") && DigitsValue("2500") == 2500
  {
    assert "2500"[..3] == "250" && "250"[..2] == "25" && "25"[..1] == "2" && "2"[..0] == "";
    assert DigitsValue("2") == 2;
    assert DigitsValue("25") == 25;
    assert DigitsValue("250") == 250;
  }

  /** Each digit of "2500" runs to the end of the text, where no unit follows. */
  lemma Kinder2500DigitNoAmount(j: nat)
    requires 7 <= j < 11
    ensures DigitRunEnd(Kinder2500, j) == 11
    ensures !MatchesAt(AmountWithUnit, Kinder2500, j)
  {
    assert DigitRunEnd(Kinder2500, 11) == 11;
    assert NumberEnd(Kinder2500, j) == 11;
    assert SpaceRunEnd(Kinder2500, 11) == 11;
  }

  lemma Kinder2500NoAmount()
    ensures forall j :: 0 <= j <= |Kinder2500| ==> !MatchesAt(AmountWithUnit, Kinder2500, j)
  {
    forall j | 0 <= j <= |Kinder2500| ensures !MatchesAt(AmountWithUnit, Kinder2500, j) {
      if 7 <= j < 11 {
        Kinder2500DigitNoAmount(j);
      }
    }
  }

  lemma Kinder2500Match()
    ensures MatchesAt(LongAmount, Kinder2500, 7)
    ensures forall j :: 0 <= j < 7 ==> !MatchesAt(LongAmount, Kinder2500, j)
    ensures IntegerAt(Kinder2500, 7) == 2500
  {
    Kinder2500DigitNoAmount(7);
    forall j | 0 <= j < 7 ensures DigitRunEnd(Kinder2500, j) == j {
      assert !IsDigit(Kinder2500[j]);
    }
    assert Kinder2500[7..11] == "2500";
    Value2500();
  }

  /** The "k" of "kinder" multiplies the amount 2500 by 1000. */
  lemma Kinder2500Budget()
    ensures Budget(Kinder2500) == Some(BudgetRange(2000000.0, 3000000.0))
  {
    Kinder2500NoAmount();
    Kinder2500Match();
    LongAmountDecides(Kinder2500, 7);
    AnyLetterKScales(Kinder2500);
  }
}
