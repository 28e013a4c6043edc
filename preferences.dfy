/**
 * The preference extractor (`analyze_client_preferences`): a fixed sequence of
 * per-field rules over the lower-cased customer message, filling a
 * `ClientPreferences` record field by field.
 */
module Preferences {
  import opened Wrappers
  import opened Text
  import opened Patterns

  datatype BudgetRange = BudgetRange(min: real, max: real)

  datatype PropertyType = Casa | Departamento | Terreno | Oficina {
    /** The string the record carries. */
    function Name(): string {
      match this
      case Casa => "casa"
      case Departamento => "departamento"
      case Terreno => "terreno"
      case Oficina => "oficina"
    }
  }

  datatype Urgency = Alta | Media | Baja {
    function Name(): string {
      match this
      case Alta => "alta"
      case Media => "media"
      case Baja => "baja"
    }
  }

  /** The value of a `ClientPreferences` record. */
  datatype Preferences = Preferences(
    budgetRange: Option<BudgetRange>,
    locationPreferences: seq<string>,
    propertyType: Option<PropertyType>,
    bedrooms: Option<nat>,
    bathrooms: Option<nat>,
    additionalFeatures: seq<string>,
    urgency: Option<Urgency>)

  // ---------------------------------------------------------------------------
  // Budget
  // ---------------------------------------------------------------------------

  /** The budget patterns, in the order they are tried. */
  const PricePatterns: seq<Pattern> := [AmountWithUnit, LongAmount, Between]

  /** The factor applied to every amount: 1000 when "mil" or "k" occurs anywhere in the text. */
  function Scale(q: string): real
  {
    if Contains(q, "mil") || Contains(q, "k") then 1000.0 else 1.0
  }

  /** The band of plus or minus 20% around one stated amount. */
  function Band(amount: real): BudgetRange
  {
    BudgetRange(amount * 0.8, amount * 1.2)
  }

  /** The budget a match of the price pattern `p` starting at `i` reads, with the amounts as
      written. */
  function RangeFor(p: Pattern, q: string, i: nat): BudgetRange
    requires !p.CountBefore? && i <= |q| && MatchesAt(p, q, i)
  {
    match p
    case AmountWithUnit =>
      Band(NumberValue(q, i))
    case LongAmount =>
      Band(IntegerAt(q, i) as real)
    case Between =>
      var a := BetweenFirst(q, i);
      var b := BetweenSecond(q, BetweenConnective(q, a));
      BudgetRange(NumberValue(q, a), NumberValue(q, b))
  }

  /** The budget of the first price pattern from the `n`-th on that matches anywhere, taken at
      its leftmost match, with the amounts as written. */
  function FirstBudget(q: string, n: nat): Option<BudgetRange>
    requires n <= |PricePatterns|
    decreases |PricePatterns| - n
  {
    if n == |PricePatterns| then None
    else match Search(PricePatterns[n], q)
      case Some(i) => Some(RangeFor(PricePatterns[n], q, i))
      case None => FirstBudget(q, n + 1)
  }

  /** Both ends of a budget range, multiplied by `factor`. */
  function Scaled(r: BudgetRange, factor: real): BudgetRange
  {
    BudgetRange(r.min * factor, r.max * factor)
  }

  /** A budget, when there is one, multiplied by `factor`. */
  function Times(b: Option<BudgetRange>, factor: real): Option<BudgetRange>
  {
    match b
    case None => None
    case Some(r) => Some(Scaled(r, factor))
  }

  /** The budget range read from the text, if any: the first pattern's reading, with every
      amount multiplied by the text's factor. */
  function Budget(q: string): Option<BudgetRange>
  {
    Times(FirstBudget(q, 0), Scale(q))
  }

  /** A single letter "k" anywhere in the text, even inside a word such as "kinder", sets the
      factor to 1000, so every amount of the budget is read as thousands. */
  lemma AnyLetterKScales(q: string)
    requires 'k' in q
    ensures Scale(q) == 1000.0
    ensures Budget(q) == Times(FirstBudget(q, 0), 1000.0)
  {
    var k :| 0 <= k < |q| && q[k] == 'k';
    assert q[k..k + 1] == "k";
    ContainsWitness(q, k, "k");
  }

  /** No budget is read exactly when none of the three patterns matches anywhere. */
  lemma BudgetAbsent(q: string)
    ensures Budget(q).None? <==> forall p, i :: p in PricePatterns && 0 <= i <= |q| ==> !MatchesAt(p, q, i)
  {
    assert Budget(q).None? <==> Search(AmountWithUnit, q).None? && Search(LongAmount, q).None? && Search(Between, q).None? by {
      assert PricePatterns[0] == AmountWithUnit && PricePatterns[1] == LongAmount && PricePatterns[2] == Between;
    }
    LeftmostSpec(AmountWithUnit, q, 0);
    LeftmostSpec(LongAmount, q, 0);
    LeftmostSpec(Between, q, 0);
    if Budget(q).None? {
      forall p, i | p in PricePatterns && 0 <= i <= |q| ensures !MatchesAt(p, q, i) {
        assert p == AmountWithUnit || p == LongAmount || p == Between;
      }
    }
  }

  /** The first pattern with a match anywhere decides the budget, at its leftmost match. */
  method ExtractBudget(q: string) returns (budget: Option<BudgetRange>)
    ensures budget == Budget(q)
  {
    budget := None;
    var n := 0;
    while n < |PricePatterns|
      invariant 0 <= n <= |PricePatterns|
      invariant forall m :: 0 <= m < n ==> Search(PricePatterns[m], q).None?
      invariant budget == None
    {
      var pattern := PricePatterns[n];
      var matches := Search(pattern, q);
      if matches.Some? {
        budget := Some(Scaled(RangeFor(pattern, q, matches.value), Scale(q)));
        FirstPatternDecides(q, n);
        break;
      }
      n := n + 1;
    }
    if budget.None? {
      FirstPatternDecides(q, |PricePatterns|);
    }
  }

  /** When the patterns before the `n`-th find nothing, the budget is the `n`-th one's. */
  lemma FirstPatternDecides(q: string, n: nat)
    requires n <= |PricePatterns|
    requires forall m :: 0 <= m < n ==> Search(PricePatterns[m], q).None?
    ensures Budget(q) == Times(FirstBudget(q, n), Scale(q))
  {
    if n >= 1 { assert Search(PricePatterns[0], q).None?; }
    if n >= 2 { assert Search(PricePatterns[1], q).None?; }
    if n >= 3 { assert Search(PricePatterns[2], q).None?; }
  }

  /** A number followed by "mil" or "k" decides the budget wherever it stands, and forces the
      factor 1000: the budget is the band from 800 to 1200 times the leftmost such number. */
  lemma {:induction false} AmountWithUnitDecides(q: string, i: nat)
    requires i <= |q| && MatchesAt(AmountWithUnit, q, i)
    requires forall j :: 0 <= j < i ==> !MatchesAt(AmountWithUnit, q, j)
    ensures Scale(q) == 1000.0
    ensures Budget(q) == Some(BudgetRange(800.0 * NumberValue(q, i), 1200.0 * NumberValue(q, i)))
  {
    SearchFinds(AmountWithUnit, q, i);
    assert PricePatterns[0] == AmountWithUnit;
    assert Budget(q) == Some(Scaled(RangeFor(AmountWithUnit, q, i), Scale(q)));
    var k := SpaceRunEnd(q, NumberEnd(q, i));
    if OccursAt(q, k, "mil") {
      ContainsWitness(q, k, "mil");
    } else {
      ContainsWitness(q, k, "k");
    }
  }

  /** Without a number followed by a unit, a run of four or more digits decides the budget:
      the band of plus or minus 20% around the whole run, scaled. */
  lemma {:induction false} LongAmountDecides(q: string, i: nat)
    requires forall j :: 0 <= j <= |q| ==> !MatchesAt(AmountWithUnit, q, j)
    requires i <= |q| && MatchesAt(LongAmount, q, i)
    requires forall j :: 0 <= j < i ==> !MatchesAt(LongAmount, q, j)
    ensures var amount := IntegerAt(q, i) as real * Scale(q);
            Budget(q) == Some(BudgetRange(0.8 * amount, 1.2 * amount))
    ensures 0.0 <= Budget(q).value.min <= Budget(q).value.max
  {
    LongAmountRead(q, i);
    var x := IntegerAt(q, i) as real;
    assert FirstBudget(q, 0) == Some(Band(x));
    BandScaled(x, Scale(q));
  }

  /** The reading behind `LongAmountDecides`, before the factor is applied. */
  lemma LongAmountRead(q: string, i: nat)
    requires forall j :: 0 <= j <= |q| ==> !MatchesAt(AmountWithUnit, q, j)
    requires i <= |q| && MatchesAt(LongAmount, q, i)
    requires forall j :: 0 <= j < i ==> !MatchesAt(LongAmount, q, j)
    ensures FirstBudget(q, 0) == Some(RangeFor(LongAmount, q, i))
  {
    LeftmostSpec(AmountWithUnit, q, 0);
    SearchFinds(LongAmount, q, i);
    assert PricePatterns[0] == AmountWithUnit && PricePatterns[1] == LongAmount;
  }

  /** Scaling the band around `x` is the band around the scaled amount. */
  lemma BandScaled(x: real, factor: real)
    requires factor == 1000.0 || factor == 1.0
    ensures Scaled(Band(x), factor) == BudgetRange(0.8 * (x * factor), 1.2 * (x * factor))
    ensures x >= 0.0 ==> 0.0 <= 0.8 * (x * factor) <= 1.2 * (x * factor)
  {
  }

  /** Only when neither kind of single amount occurs is "entre N y M" read, and then its two
      numbers are taken as written, in that order, each multiplied by the factor. */
  lemma {:induction false} BetweenDecides(q: string, i: nat)
    requires forall j :: 0 <= j <= |q| ==> !MatchesAt(AmountWithUnit, q, j) && !MatchesAt(LongAmount, q, j)
    requires i <= |q| && MatchesAt(Between, q, i)
    requires forall j :: 0 <= j < i ==> !MatchesAt(Between, q, j)
    ensures var a := BetweenFirst(q, i);
            var b := BetweenSecond(q, BetweenConnective(q, a));
            Budget(q) == Some(Scaled(BudgetRange(NumberValue(q, a), NumberValue(q, b)), Scale(q)))
  {
    assert PricePatterns[0] == AmountWithUnit && PricePatterns[1] == LongAmount && PricePatterns[2] == Between;
    LeftmostSpec(AmountWithUnit, q, 0);
    assert FirstBudget(q, 0) == FirstBudget(q, 1);
    LeftmostSpec(LongAmount, q, 0);
    assert FirstBudget(q, 1) == FirstBudget(q, 2);
    SearchFinds(Between, q, i);
  }

  /** A budget whose minimum exceeds its maximum can only come from "entre N y M". */
  lemma {:induction false} UnorderedOnlyFromBetween(q: string)
    requires Budget(q).Some? && Budget(q).value.min > Budget(q).value.max
    ensures forall j :: 0 <= j <= |q| ==> !MatchesAt(AmountWithUnit, q, j) && !MatchesAt(LongAmount, q, j)
    ensures exists j :: 0 <= j <= |q| && MatchesAt(Between, q, j)
  {
    LeftmostSpec(AmountWithUnit, q, 0);
    LeftmostSpec(LongAmount, q, 0);
    LeftmostSpec(Between, q, 0);
    assert Search(AmountWithUnit, q).None?;
    assert Search(LongAmount, q).None?;
  }

  // ---------------------------------------------------------------------------
  // Locations and amenities
  // ---------------------------------------------------------------------------

  /** The zones that are recognised, in the order they are reported. */
  const Zones: seq<string> := ["equipetrol", "zona norte", "zona sur", "centro", "urubo", "la guardia"]

  /** Amenity keywords and the label each contributes, in declaration order. */
  const FeatureKeywords: seq<(string, string)> := [
    ("piscina", "piscina"),
    ("garage", "garage"),
    ("jardin", "jardín"),
    ("parrillero", "parrillero"),
    ("seguridad", "seguridad 24/7"),
    ("amoblado", "amoblado"),
    ("balcon", "balcón")
  ]

  predicate Distinct(xs: seq<string>) {
    forall a, b :: 0 <= a < b < |xs| ==> xs[a] != xs[b]
  }

  /** Position of the first occurrence of `x` in `xs`. */
  function IndexOf(xs: seq<string>, x: string): (n: nat)
    requires x in xs
    ensures n < |xs| && xs[n] == x
    ensures forall m :: 0 <= m < n ==> xs[m] != x
  {
    if xs[0] == x then 0 else 1 + IndexOf(xs[1..], x)
  }

  /** Every element of `r` comes from `ref`, strictly later in `ref` than the one before it. */
  predicate InOrderOf(ref: seq<string>, r: seq<string>) {
    && (forall a :: 0 <= a < |r| ==> r[a] in ref)
    && forall a, b :: 0 <= a < b < |r| && r[a] in ref && r[b] in ref ==> IndexOf(ref, r[a]) < IndexOf(ref, r[b])
  }

  /** `[w for w in words if w in q]`. */
  function PresentWords(words: seq<string>, q: string): seq<string>
  {
    if |words| == 0 then []
    else PresentWords(words[..|words| - 1], q) + (if Contains(q, words[|words| - 1]) then [words[|words| - 1]] else [])
  }

  /** The labels of the entries of `table` whose keyword occurs in `q`, in table order. */
  function PresentLabels(table: seq<(string, string)>, q: string): seq<string>
  {
    if |table| == 0 then []
    else PresentLabels(table[..|table| - 1], q) + (if Contains(q, table[|table| - 1].0) then [table[|table| - 1].1] else [])
  }

  function Labels(table: seq<(string, string)>): (r: seq<string>)
    ensures |r| == |table| && forall j :: 0 <= j < |table| ==> r[j] == table[j].1
  {
    seq(|table|, j requires 0 <= j < |table| => table[j].1)
  }

  /** Appending an element that comes later in `ref` than all of `r` keeps `r` in order. */
  lemma InOrderAppend(ref: seq<string>, r: seq<string>, x: string, n: nat)
    requires InOrderOf(ref, r) && n < |ref| && ref[n] == x
    requires Distinct(ref)
    requires forall a :: 0 <= a < |r| ==> IndexOf(ref, r[a]) < n
    ensures InOrderOf(ref, r + [x])
  {
    assert IndexOf(ref, x) == n;
  }

  lemma {:induction false} PresentWordsSpec(words: seq<string>, q: string)
    ensures var r := PresentWords(words, q);
            && (forall x :: x in r <==> x in words && Contains(q, x))
            && |r| <= |words|
            && (Distinct(words) ==> InOrderOf(words, r) && forall a :: 0 <= a < |r| ==> IndexOf(words, r[a]) < |words|)
    decreases |words|
  {
    if |words| > 0 {
      var init := words[..|words| - 1];
      var last := words[|words| - 1];
      PresentWordsSpec(init, q);
      assert words == init + [last];
      var r0 := PresentWords(init, q);
      if Distinct(words) {
        assert Distinct(init);
        forall a | 0 <= a < |r0| ensures r0[a] in words && IndexOf(words, r0[a]) == IndexOf(init, r0[a]) {
          var n := IndexOf(init, r0[a]);
          assert words[n] == r0[a];
        }
        assert InOrderOf(words, r0);
        if Contains(q, last) {
          InOrderAppend(words, r0, last, |words| - 1);
        }
      }
    }
  }

  lemma {:induction false} PresentLabelsSpec(table: seq<(string, string)>, q: string)
    ensures var r := PresentLabels(table, q);
            && (forall x :: x in r <==> exists j :: 0 <= j < |table| && table[j].1 == x && Contains(q, table[j].0))
            && |r| <= |table|
            && (Distinct(Labels(table)) ==> InOrderOf(Labels(table), r))
    decreases |table|
  {
    if |table| > 0 {
      var init := table[..|table| - 1];
      var last := table[|table| - 1];
      PresentLabelsSpec(init, q);
      var r0 := PresentLabels(init, q);
      var ls := Labels(table);
      assert Labels(init) == ls[..|table| - 1];
      forall x ensures x in PresentLabels(table, q) <==> exists j :: 0 <= j < |table| && table[j].1 == x && Contains(q, table[j].0) {
        if x in PresentLabels(table, q) && x !in r0 {
          assert table[|table| - 1].1 == x && Contains(q, table[|table| - 1].0);
        }
        if exists j :: 0 <= j < |table| && table[j].1 == x && Contains(q, table[j].0) {
          var j :| 0 <= j < |table| && table[j].1 == x && Contains(q, table[j].0);
          if j < |table| - 1 { assert init[j] == table[j]; }
        }
      }
      if Distinct(ls) {
        assert Distinct(Labels(init));
        forall a | 0 <= a < |r0| ensures r0[a] in ls && IndexOf(ls, r0[a]) == IndexOf(Labels(init), r0[a]) {
          var n := IndexOf(Labels(init), r0[a]);
          assert ls[n] == r0[a];
        }
        assert InOrderOf(ls, r0);
        if Contains(q, last.0) {
          InOrderAppend(ls, r0, last.1, |table| - 1);
        }
      }
    }
  }

  /** The zones named in the text, in the fixed zone order. */
  function LocationPreferences(q: string): seq<string>
  {
    PresentWords(Zones, q)
  }

  /** The amenity labels whose keywords occur in the text, in declaration order. */
  function AdditionalFeatures(q: string): seq<string>
  {
    PresentLabels(FeatureKeywords, q)
  }

  /** Exactly the named zones, each once, in the fixed zone order. */
  lemma LocationPreferencesSpec(q: string)
    ensures var r := LocationPreferences(q);
            && (forall z :: z in r <==> z in Zones && Contains(q, z))
            && InOrderOf(Zones, r) && Distinct(r) && |r| <= 6
  {
    ZonesDistinct();
    PresentWordsSpec(Zones, q);
    InOrderDistinct(Zones, LocationPreferences(q));
  }

  lemma ZonesDistinct()
    ensures Distinct(Zones)
  {
  }

  lemma FeatureLabelsDistinct()
    ensures Distinct(Labels(FeatureKeywords))
  {
  }

  /** Exactly the labels of the keywords that occur, each once, in declaration order, at most seven. */
  lemma AdditionalFeaturesSpec(q: string)
    ensures var r := AdditionalFeatures(q);
            && (forall x :: x in r <==> exists j :: 0 <= j < |FeatureKeywords| && FeatureKeywords[j].1 == x && Contains(q, FeatureKeywords[j].0))
            && InOrderOf(Labels(FeatureKeywords), r) && Distinct(r) && |r| <= 7
  {
    FeatureLabelsDistinct();
    PresentLabelsSpec(FeatureKeywords, q);
    InOrderDistinct(Labels(FeatureKeywords), AdditionalFeatures(q));
  }

  /** A sequence kept in the order of `ref` repeats nothing. */
  lemma InOrderDistinct(ref: seq<string>, r: seq<string>)
    requires InOrderOf(ref, r)
    ensures Distinct(r)
  {
  }

  /** `features.append(label)` for every keyword that occurs, in declaration order. */
  method FeatureList(q: string) returns (features: seq<string>)
    ensures features == AdditionalFeatures(q)
  {
    features := [];
    for n := 0 to |FeatureKeywords|
      invariant features == PresentLabels(FeatureKeywords[..n], q)
    {
      var (keyword, feature) := FeatureKeywords[n];
      assert FeatureKeywords[..n + 1][..n] == FeatureKeywords[..n];
      if Contains(q, keyword) {
        features := features + [feature];
      }
    }
    assert FeatureKeywords[..|FeatureKeywords|] == FeatureKeywords;
  }

  // ---------------------------------------------------------------------------
  // Property type, room counts, urgency
  // ---------------------------------------------------------------------------

  /** Priority rules: the label of the first rule one of whose words occurs in the text. */
  function FirstRule<L>(rules: seq<(L, seq<string>)>, q: string): Option<L>
  {
    if |rules| == 0 then None
    else if ContainsAny(q, rules[0].1) then Some(rules[0].0)
    else FirstRule(rules[1..], q)
  }

  /** A rule wins exactly when one of its words occurs and no earlier rule's word does. */
  lemma {:induction false} FirstRuleWins<L>(rules: seq<(L, seq<string>)>, q: string, k: nat)
    requires k < |rules| && ContainsAny(q, rules[k].1)
    requires forall j :: 0 <= j < k ==> !ContainsAny(q, rules[j].1)
    ensures FirstRule(rules, q) == Some(rules[k].0)
  {
    if k > 0 {
      assert !ContainsAny(q, rules[0].1);
      FirstRuleWins(rules[1..], q, k - 1);
    }
  }

  /** No rule applies exactly when none of their words occurs. */
  lemma {:induction false} FirstRuleNone<L>(rules: seq<(L, seq<string>)>, q: string)
    ensures FirstRule(rules, q).None? <==> forall j :: 0 <= j < |rules| ==> !ContainsAny(q, rules[j].1)
  {
    if |rules| > 0 {
      FirstRuleNone(rules[1..], q);
      assert forall j :: 1 <= j < |rules| ==> rules[j] == rules[1..][j - 1];
    }
  }

  /** The property types by priority, each with the words that select it. */
  const PropertyTypeRules: seq<(PropertyType, seq<string>)> := [
    (Casa, ["casa"]),
    (Departamento, ["departamento", "depto"]),
    (Terreno, ["terreno"]),
    (Oficina, ["oficina"])
  ]

  /** The urgency levels above the default, by priority, each with the words that select it. */
  const UrgencyRules: seq<(Urgency, seq<string>)> := [
    (Alta, ["urgente", "pronto", "ya", "inmediato", "hoy"]),
    (Media, ["próximo mes", "próxima semana"])
  ]

  /** The `if`/`elif` chain choosing the property type. */
  function PropertyTypeOf(q: string): Option<PropertyType>
  {
    if Contains(q, "casa") then Some(Casa)
    else if Contains(q, "departamento") || Contains(q, "depto") then Some(Departamento)
    else if Contains(q, "terreno") then Some(Terreno)
    else if Contains(q, "oficina") then Some(Oficina)
    else None
  }

  /** The `if`/`elif`/`else` chain choosing the urgency. */
  function UrgencyOf(q: string): Urgency
  {
    if ContainsAny(q, ["urgente", "pronto", "ya", "inmediato", "hoy"]) then Alta
    else if ContainsAny(q, ["próximo mes", "próxima semana"]) then Media
    else Baja
  }

  lemma ContainsAnyOne(q: string, w: string)
    ensures ContainsAny(q, [w]) <==> Contains(q, w)
  {
    if Contains(q, w) { assert [w][0] == w; }
  }

  lemma ContainsAnyTwo(q: string, v: string, w: string)
    ensures ContainsAny(q, [v, w]) <==> Contains(q, v) || Contains(q, w)
  {
    if Contains(q, v) { assert [v, w][0] == v; }
    if Contains(q, w) { assert [v, w][1] == w; }
  }

  /** The chain is the first applicable rule of the priority table. */
  lemma PropertyTypeByPriority(q: string)
    ensures PropertyTypeOf(q) == FirstRule(PropertyTypeRules, q)
  {
    var rules := PropertyTypeRules;
    ContainsAnyOne(q, "casa");
    ContainsAnyTwo(q, "departamento", "depto");
    ContainsAnyOne(q, "terreno");
    ContainsAnyOne(q, "oficina");
    assert rules[0].1 == ["casa"] && rules[1].1 == ["departamento", "depto"];
    assert rules[2].1 == ["terreno"] && rules[3].1 == ["oficina"];
    if Contains(q, "casa") {
      FirstRuleWins(rules, q, 0);
    } else if Contains(q, "departamento") || Contains(q, "depto") {
      FirstRuleWins(rules, q, 1);
    } else if Contains(q, "terreno") {
      FirstRuleWins(rules, q, 2);
    } else if Contains(q, "oficina") {
      FirstRuleWins(rules, q, 3);
    } else {
      FirstRuleNone(rules, q);
    }
  }

  /** The chain is the first applicable rule of the priority table, `baja` when none applies. */
  lemma UrgencyByPriority(q: string)
    ensures UrgencyOf(q) == FirstRule(UrgencyRules, q).GetOr(Baja)
  {
    var rules := UrgencyRules;
    assert rules[0].1 == ["urgente", "pronto", "ya", "inmediato", "hoy"];
    assert rules[1].1 == ["próximo mes", "próxima semana"];
    if UrgencyOf(q) == Alta {
      FirstRuleWins(rules, q, 0);
    } else if UrgencyOf(q) == Media {
      FirstRuleWins(rules, q, 1);
    } else {
      FirstRuleNone(rules, q);
    }
  }

  /** Bedroom words: `(\d+)\s*(?:dormitorio|habitacion|cuarto)`. */
  const BedroomWords: seq<string> := ["dormitorio", "habitacion", "cuarto"]

  /** Bathroom word: `(\d+)\s*baño`. */
  const BathroomWords: seq<string> := ["baño"]

  /** Both word lists start with a letter, so `RoomCountSpec` applies to both counts. */
  lemma RoomWordsAreKeywords()
    ensures Keywords(BedroomWords) && Keywords(BathroomWords)
  {
  }

  /** `int(group(1))` of the leftmost digits-then-word match, if any. */
  function RoomCount(q: string, words: seq<string>): Option<nat>
  {
    match Search(CountBefore(words), q)
    case None => None
    case Some(i) => Some(IntegerAt(q, i))
  }

  /** The count is absent exactly when no digits-then-word match exists, and otherwise it is the
      value of the digits of the leftmost match the regular expression admits. */
  lemma {:induction false} RoomCountSpec(q: string, words: seq<string>, i: nat, j: nat, k: nat)
    requires Keywords(words)
    ensures RoomCount(q, words).None? <==> forall i', j', k' :: 0 <= i' && 0 <= j' && 0 <= k' ==> !CountSpan(q, words, i', j', k')
    ensures (CountSpan(q, words, i, j, k) && forall i', j', k' :: 0 <= i' < i && 0 <= j' && 0 <= k' ==> !CountSpan(q, words, i', j', k'))
            ==> RoomCount(q, words) == Some(DigitsValue(q[i..j]))
  {
    forall i', j', k' | CountSpan(q, words, i', j', k') ensures MatchesAt(CountBefore(words), q, i') {
      CountBeforeExact(q, words, i', j', k');
    }
    LeftmostSpec(CountBefore(words), q, 0);
    var found := Search(CountBefore(words), q);
    if found.Some? {
      var m := found.value;
      CountBeforeExact(q, words, m, 0, 0);
    }
    if CountSpan(q, words, i, j, k) && (forall i', j', k' :: 0 <= i' < i && 0 <= j' && 0 <= k' ==> !CountSpan(q, words, i', j', k')) {
      CountBeforeExact(q, words, i, j, k);
      forall m | 0 <= m < i ensures !MatchesAt(CountBefore(words), q, m) {
        CountBeforeExact(q, words, m, 0, 0);
      }
      SearchFinds(CountBefore(words), q, i);
    }
  }

  // ---------------------------------------------------------------------------
  // The whole extraction
  // ---------------------------------------------------------------------------

  /** What `analyze_client_preferences` returns for a message. */
  function ExtractPreferences(query: string): (r: Preferences)
    ensures r.urgency.Some?
  {
    var q := Lower(query);
    Preferences(
      Budget(q),
      LocationPreferences(q),
      PropertyTypeOf(q),
      RoomCount(q, BedroomWords),
      RoomCount(q, BathroomWords),
      AdditionalFeatures(q),
      Some(UrgencyOf(q)))
  }

  /** The extraction does not depend on letter case. */
  lemma ExtractionIgnoresCase(query: string)
    ensures ExtractPreferences(Lower(query)) == ExtractPreferences(query)
  {
    LowerIdempotent(query);
  }

  /** The record the endpoint fills in place. */
  class ClientPreferences {
    var budgetRange: Option<BudgetRange>
    var locationPreferences: seq<string>
    var propertyType: Option<PropertyType>
    var bedrooms: Option<nat>
    var bathrooms: Option<nat>
    var additionalFeatures: seq<string>
    var urgency: Option<Urgency>

    /** Every field absent or empty, as the record's defaults are. */
    constructor ()
      ensures Value() == Preferences(None, [], None, None, None, [], None)
    {
      budgetRange := None;
      locationPreferences := [];
      propertyType := None;
      bedrooms := None;
      bathrooms := None;
      additionalFeatures := [];
      urgency := None;
    }

    function Value(): Preferences
      reads this
    {
      Preferences(budgetRange, locationPreferences, propertyType, bedrooms, bathrooms, additionalFeatures, urgency)
    }
  }

  /** The property-type chain: sets the field only when a type word occurs. */
  method SetPropertyType(preferences: ClientPreferences, q: string)
    modifies preferences
    ensures preferences.Value() == old(preferences.Value()).(propertyType :=
              if PropertyTypeOf(q).Some? then PropertyTypeOf(q) else old(preferences.propertyType))
  {
    if Contains(q, "casa") {
      preferences.propertyType := Some(Casa);
    } else if Contains(q, "departamento") || Contains(q, "depto") {
      preferences.propertyType := Some(Departamento);
    } else if Contains(q, "terreno") {
      preferences.propertyType := Some(Terreno);
    } else if Contains(q, "oficina") {
      preferences.propertyType := Some(Oficina);
    }
  }

  /** The urgency chain, which always sets the field. */
  method SetUrgency(preferences: ClientPreferences, q: string)
    modifies preferences
    ensures preferences.Value() == old(preferences.Value()).(urgency := Some(UrgencyOf(q)))
  {
    if ContainsAny(q, ["urgente", "pronto", "ya", "inmediato", "hoy"]) {
      preferences.urgency := Some(Alta);
    } else if ContainsAny(q, ["próximo mes", "próxima semana"]) {
      preferences.urgency := Some(Media);
    } else {
      preferences.urgency := Some(Baja);
    }
  }

  /** Runs the per-field rules in order over the lower-cased message, filling a fresh record. */
  method AnalyzeClientPreferences(query: string) returns (preferences: ClientPreferences)
    ensures fresh(preferences)
    ensures preferences.Value() == ExtractPreferences(query)
  {
    var q := Lower(query);
    preferences := new ClientPreferences();

    preferences.budgetRange := ExtractBudget(q);

    preferences.locationPreferences := LocationPreferences(q);

    SetPropertyType(preferences, q);

    preferences.bedrooms := RoomCount(q, BedroomWords);
    preferences.bathrooms := RoomCount(q, BathroomWords);

    preferences.additionalFeatures := FeatureList(q);

    SetUrgency(preferences, q);
  }
}
