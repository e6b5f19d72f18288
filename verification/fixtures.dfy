/** Concrete work orders from the repository's sample payloads, run through
    the model: the sample ingredient's surplus, the history printout whose
    total disagrees with its own rows, and the new-format date rewrite. */
module Fixtures {
  import opened Numbers
  import opened Json
  import opened Expiry
  import opened WorkOrderTotals
  import opened DateFormat

  function Weighing(date: string, weight: real): ExpEntry {
    ExpObj(JStr(date), JNum(Fin(weight)))
  }

  /** "Bahan A" of the flat sample payload: two expiry-dated weighings. */
  const BahanA: Ingredient := Ingredient(
    JStr("Bahan A"), JStr("ING-001"), JNum(Fin(500.0)), JNum(Fin(502.5)),
    JNum(Fin(475.0)), JNum(Fin(525.0)),
    [Weighing("2025-12-31", 300.5), Weighing("2026-01-15", 202.0)])

  /** Two rows; the first carries a total of 502.5 against a target of 500,
      a surplus of 2.5, and the tolerance bounds. */
  lemma BahanASurplus(parse: string -> Num)
    ensures |ExpandIngredient(parse, BahanA)| == 2
    ensures LeadOf(parse, BahanA).total == Fin(502.5)
    ensures LeadOf(parse, BahanA).resolution == Fin(2.5)
    ensures LeadOf(parse, BahanA).surplus
    ensures LeadOf(parse, BahanA).min == Shown(Fin(475.0))
    ensures ScreenTable(parse, [BahanA]).total == Some(TotalRow(Fin(500.0), Fin(502.5), Fin(2.5), true))
  {
    TwoWeighingsTotal(parse, BahanA, "2025-12-31", 300.5, "2026-01-15", 202.0);
    LeadCells(parse, BahanA, 500.0, 502.5, 475.0);
    OneIngredientScreenTotal(parse, BahanA, 500.0, 502.5);
  }

  /** An ingredient whose recorded accumulated mass (500) lags the sum of its
      expiry-dated weighings (300.5 + 202). */
  const Lagging: Ingredient := Ingredient(
    JStr("Bahan D"), JStr("ING-004"), JNum(Fin(500.0)), JNum(Fin(500.0)),
    JNull, JNull,
    [Weighing("2025-12-31", 300.5), Weighing("2026-01-15", 202.0)])

  /** The history printout shows 502.5 in the ingredient's "Total" cell but
      500 in the "Total" row below it, with a resolution of 0 under a row
      resolution of +2.5; the on-screen table and the receiver printout show
      502.5 in both places. */
  lemma HistoryPrintDrift(parse: string -> Num)
    ensures Sum(LeadTotals(Leads(TableRows(parse, [Lagging])))) == Fin(502.5)
    ensures HistoryPrintTable(parse, [Lagging]).total == Some(TotalRow(Fin(500.0), Fin(500.0), Fin(0.0), true))
    ensures ScreenTable(parse, [Lagging]).total == Some(TotalRow(Fin(500.0), Fin(502.5), Fin(2.5), true))
    ensures ReceiverPrintTable(parse, [Lagging]) == ScreenTable(parse, [Lagging])
  {
    LaggingCells(parse);
    LaggingHistoryPrintTotal(parse);
    LaggingScreenTotal(parse);
    ReceiverPrintTableIsScreenTable(parse, [Lagging]);
  }

  /** The `totalWeight` cells of the lagging ingredient's table add up to 502.5. */
  lemma LaggingCells(parse: string -> Num)
    ensures Sum(LeadTotals(Leads(TableRows(parse, [Lagging])))) == Fin(502.5)
  {
    TwoWeighingsTotal(parse, Lagging, "2025-12-31", 300.5, "2026-01-15", 202.0);
    OneIngredientFold(parse, Lagging);
    TableTotalsMatchSummary(parse, [Lagging]);
  }

  /** The history printout's "Total" row reads the accumulated mass, 500. */
  lemma LaggingHistoryPrintTotal(parse: string -> Num)
    ensures HistoryPrintTable(parse, [Lagging]).total == Some(TotalRow(Fin(500.0), Fin(500.0), Fin(0.0), true))
  {
    OneIngredientHistoryTotal(parse, Lagging, 500.0, 500.0);
  }

  /** The on-screen "Total" row reads the weighings, 502.5. */
  lemma LaggingScreenTotal(parse: string -> Num)
    ensures ScreenTable(parse, [Lagging]).total == Some(TotalRow(Fin(500.0), Fin(502.5), Fin(2.5), true))
  {
    TwoWeighingsTotal(parse, Lagging, "2025-12-31", 300.5, "2026-01-15", 202.0);
    OneIngredientScreenTotal(parse, Lagging, 500.0, 502.5);
  }

  /** The first-row cells of an ingredient with a numeric target and a finite total. */
  lemma LeadCells(parse: string -> Num, ing: Ingredient, target: real, total: real, lo: real)
    requires ing.targetMass == JNum(Fin(target)) && RowTotal(parse, ing) == Fin(total)
    requires ing.toleranceMin == JNum(Fin(lo))
    ensures LeadOf(parse, ing).min == Shown(Fin(lo))
    ensures LeadOf(parse, ing).total == Fin(total)
    ensures LeadOf(parse, ing).resolution == Fin(total - target)
    ensures LeadOf(parse, ing).surplus <==> total >= target
  {
  }

  /** The on-screen total row of a one-ingredient table. */
  lemma OneIngredientScreenTotal(parse: string -> Num, ing: Ingredient, target: real, total: real)
    requires ing.targetMass == JNum(Fin(target)) && RowTotal(parse, ing) == Fin(total)
    ensures ScreenTable(parse, [ing]).total == Some(TotalRow(Fin(target), Fin(total), Fin(total - target), total >= target))
  {
    assert ScaledOf(parse, ing) == Fin(target);
    assert FoldTotals(parse, [ing]) == Totals(Fin(target), Fin(total)) by {
      OneIngredientFold(parse, ing);
      SummaryActualIsRowTotal(parse, ing);
    }
    assert SummaryTotals(parse, [ing]) == Some(Totals(Fin(target), Fin(total)));
    RowOfFinite(target, total);
  }

  /** The history printout's total row of a one-ingredient table. */
  lemma OneIngredientHistoryTotal(parse: string -> Num, ing: Ingredient, target: real, mass: real)
    requires ing.targetMass == JNum(Fin(target)) && ing.accumulatedMass == JNum(Fin(mass))
    ensures HistoryPrintTable(parse, [ing]).total == Some(TotalRow(Fin(target), Fin(mass), Fin(mass - target), mass >= target))
  {
    assert ScaledOf(parse, ing) == Fin(target) && AccumulatedOf(parse, ing) == Fin(mass);
    assert HistoryPrintTotals(parse, [ing]) == Some(PrintTotals(Fin(target), Fin(target), Fin(mass))) by {
      OneIngredientPrintFold(parse, ing, FromAccumulated);
    }
    RowOfFinite(target, mass);
  }

  lemma RowOfFinite(scaled: real, actual: real)
    ensures TotalRowOf(Fin(scaled), Fin(actual)) == TotalRow(Fin(scaled), Fin(actual), Fin(actual - scaled), actual >= scaled)
  {
  }

  /** An ingredient with two weighed entries totals their sum. */
  lemma TwoWeighingsTotal(parse: string -> Num, ing: Ingredient, d1: string, w1: real, d2: string, w2: real)
    requires ing.expDates == [Weighing(d1, w1), Weighing(d2, w2)]
    ensures RowTotal(parse, ing) == Fin(w1 + w2)
    ensures |ExpandIngredient(parse, ing)| == 2
  {
    var ws := ExpWeights(parse, ing.expDates);
    assert ws[0] == Fin(w1) && ws[1] == Fin(w2);
    assert ws[..1][..0] == [] && ws[..2] == ws;
    assert Sum(ws[..1]) == Fin(w1);
  }

  /** The totals fold over one ingredient is that ingredient's contribution. */
  lemma OneIngredientFold(parse: string -> Num, ing: Ingredient)
    ensures FoldTotals(parse, [ing]) == Contribution(parse, ing)
  {
    assert [ing][..0] == [];
    AddZeroLeft(ScaledOf(parse, ing));
    AddZeroLeft(SummaryActual(parse, ing));
  }

  /** The print fold over one ingredient. */
  lemma OneIngredientPrintFold(parse: string -> Num, ing: Ingredient, source: ActualSource)
    ensures PrintFold(parse, [ing], source) ==
            PrintTotals(ScaledOf(parse, ing), ScaledOf(parse, ing), ActualOf(parse, source, ing))
  {
    assert [ing][..0] == [];
    AddZeroLeft(ScaledOf(parse, ing));
    AddZeroLeft(ActualOf(parse, source, ing));
  }

  /** Without expiry entries the accumulated mass becomes one "-" row. */
  lemma FallbackRow(parse: string -> Num)
    ensures var ing := Ingredient(JStr("X"), JStr("X-1"), JNum(Fin(200.0)), JNum(Fin(100.5)), JNull, JNull, []);
            var rows := ExpandIngredient(parse, ing);
            && |rows| == 1
            && rows[0].expDate == JStr("-") && rows[0].weight == Fin(100.5) && rows[0].weightShown
            && rows[0].lead.value.resolution == Fin(-99.5) && !rows[0].lead.value.surplus
  {
  }

  /** `DayMonthYear` for a concrete string and its expected rewrite. */
  lemma Rewrites(s: string, d: string, m: string, y: string, out: string)
    requires '/' !in d && '/' !in m && '/' !in y
    requires s == d + "/" + m + "/" + y
    requires out == y + "-" + PadStart2(m) + "-" + PadStart2(d)
    ensures ConvertDateStr(s) == Some(out)
  {
    DayMonthYear(d, m, y);
  }

  /** The new-format sample date. */
  lemma SampleDate()
    ensures ConvertDateStr("30/08/2027") == Some("2027-08-30")
  {
    Rewrites("30/08/2027", "30", "08", "2027", "2027-08-30");
  }

  /** A single-digit day and month are padded. */
  lemma ShortDate()
    ensures ConvertDateStr("8/3/2027") == Some("2027-03-08")
  {
    Rewrites("8/3/2027", "8", "3", "2027", "2027-03-08");
  }

  /** An ISO date is kept. */
  lemma IsoDateKept()
    ensures ConvertDateStr("2024-01-15") == Some("2024-01-15")
  {
    assert IsIsoDate("2024-01-15");
  }
}
