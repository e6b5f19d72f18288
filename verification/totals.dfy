/** Work-order totals and the summary table built from them. Three copies of
    the totals fold exist: the on-screen fold (identical in both detail views),
    the receiver view's print fold (same rule, plus a `base` column) and the
    history view's print fold, which sums `current_accumulated_mass` and
    ignores `exp_dates`. They are kept apart here and related by lemmas. */
module WorkOrderTotals {
  import opened Numbers
  import opened Json
  import opened Expiry

  datatype Totals = Totals(scaled: Num, actual: Num)

  datatype PrintTotals = PrintTotals(base: Num, scaled: Num, actual: Num)

  /** `parseFloat(target_mass || 0) || 0`: the target as the folds read it. */
  function ScaledOf(parse: string -> Num, ing: Ingredient): Num {
    CoerceOrZero(parse, ing.targetMass)
  }

  /** The fold's own copy of the per-ingredient actual weight: the sum over
      `exp_dates` when there are entries, else `parseFloat(current_accumulated_mass || 0) || 0`. */
  function SummaryActual(parse: string -> Num, ing: Ingredient): Num {
    if |ing.expDates| > 0 then Sum(ExpWeights(parse, ing.expDates))
    else CoerceOrZero(parse, ing.accumulatedMass)
  }

  /** The history print fold's per-ingredient actual weight. */
  function AccumulatedOf(parse: string -> Num, ing: Ingredient): Num {
    CoerceOrZero(parse, ing.accumulatedMass)
  }

  function Plus(a: Totals, b: Totals): Totals {
    Totals(Add(a.scaled, b.scaled), Add(a.actual, b.actual))
  }

  function Contribution(parse: string -> Num, ing: Ingredient): Totals {
    Totals(ScaledOf(parse, ing), SummaryActual(parse, ing))
  }

  /** `ingredients.reduce(..., {scaled: 0, actual: 0})`, in list order. The
      scaled total is never NaN. */
  function FoldTotals(parse: string -> Num, ings: seq<Ingredient>): (t: Totals)
    ensures t.scaled.Fin?
  {
    if |ings| == 0 then Totals(Fin(0.0), Fin(0.0))
    else Plus(FoldTotals(parse, ings[..|ings| - 1]), Contribution(parse, ings[|ings| - 1]))
  }

  /** The actual total is NaN exactly when some ingredient's actual weight is. */
  lemma FoldActualNaN(parse: string -> Num, ings: seq<Ingredient>)
    ensures FoldTotals(parse, ings).actual.NaN? <==>
            exists i :: 0 <= i < |ings| && SummaryActual(parse, ings[i]).NaN?
  {
    var rs := RowTotals(parse, ings);
    FoldTotalsAreSums(parse, ings);
    SumNaN(rs);
    forall i | 0 <= i < |ings|
      ensures rs[i] == SummaryActual(parse, ings[i])
    {
      SummaryActualIsRowTotal(parse, ings[i]);
    }
  }

  /** `summaryTotals` of the on-screen views: null exactly when there are no
      ingredients. */
  function SummaryTotals(parse: string -> Num, ings: seq<Ingredient>): (r: Option<Totals>)
    ensures r.None? <==> |ings| == 0
    ensures r.Some? ==> r.value.scaled.Fin?
  {
    if |ings| == 0 then None else Some(FoldTotals(parse, ings))
  }

  /** `totalResolution`: 0 without totals, otherwise actual minus scaled,
      NaN when either is. */
  function TotalResolution(t: Option<Totals>): (r: Num)
    ensures t.None? ==> r == Fin(0.0)
    ensures t.Some? ==> (r.NaN? <==> t.value.actual.NaN? || t.value.scaled.NaN?)
    ensures t.Some? && r.Fin? ==> r.val == t.value.actual.val - t.value.scaled.val
  {
    match t
    case None => Fin(0.0)
    case Some(s) => Sub(s.actual, s.scaled)
  }

  /** Which per-ingredient actual weight a print fold adds up: the receiver
      printout reuses the on-screen sum over `exp_dates`, the history printout
      reads `current_accumulated_mass`. */
  datatype ActualSource = FromSummary | FromAccumulated

  function ActualOf(parse: string -> Num, source: ActualSource, ing: Ingredient): Num {
    match source
    case FromSummary => SummaryActual(parse, ing)
    case FromAccumulated => AccumulatedOf(parse, ing)
  }

  /** The print folds: `base` and `scaled` both read the target; `source`
      is the one place the two print copies differ. */
  function PrintFold(parse: string -> Num, ings: seq<Ingredient>, source: ActualSource): (t: PrintTotals)
    ensures t.base == t.scaled
    ensures t.scaled.Fin?
  {
    if |ings| == 0 then PrintTotals(Fin(0.0), Fin(0.0), Fin(0.0))
    else
      var acc := PrintFold(parse, ings[..|ings| - 1], source);
      var ing := ings[|ings| - 1];
      PrintTotals(Add(acc.base, ScaledOf(parse, ing)), Add(acc.scaled, ScaledOf(parse, ing)),
                  Add(acc.actual, ActualOf(parse, source, ing)))
  }

  /** The receiver view's print totals. */
  function ReceiverPrintTotals(parse: string -> Num, ings: seq<Ingredient>): (r: Option<PrintTotals>)
    ensures r.None? <==> |ings| == 0
    ensures r.Some? ==> r.value.base == r.value.scaled
  {
    if |ings| == 0 then None
    else Some(PrintFold(parse, ings, FromSummary))
  }

  /** The history view's print totals: `actual` sums the accumulated masses. */
  function HistoryPrintTotals(parse: string -> Num, ings: seq<Ingredient>): (r: Option<PrintTotals>)
    ensures r.None? <==> |ings| == 0
    ensures r.Some? ==> r.value.base == r.value.scaled && r.value.actual.Fin?
  {
    if |ings| == 0 then None
    else
      var t := PrintFold(parse, ings, FromAccumulated);
      HistoryPrintActualIsFinite(parse, ings);
      Some(t)
  }

  lemma {:induction false} HistoryPrintActualIsFinite(parse: string -> Num, ings: seq<Ingredient>)
    ensures PrintFold(parse, ings, FromAccumulated).actual.Fin?
  {
    if |ings| > 0 {
      HistoryPrintActualIsFinite(parse, ings[..|ings| - 1]);
    }
  }

  /** The per-ingredient actual weight in the fold is the row-level
      `totalWeight` of the same ingredient. */
  lemma SummaryActualIsRowTotal(parse: string -> Num, ing: Ingredient)
    ensures SummaryActual(parse, ing) == RowTotal(parse, ing)
  {
  }

  function RowTotals(parse: string -> Num, ings: seq<Ingredient>): (ts: seq<Num>)
    ensures |ts| == |ings|
  {
    seq(|ings|, i requires 0 <= i < |ings| => RowTotal(parse, ings[i]))
  }

  function Targets(parse: string -> Num, ings: seq<Ingredient>): (ts: seq<Num>)
    ensures |ts| == |ings|
  {
    seq(|ings|, i requires 0 <= i < |ings| => ScaledOf(parse, ings[i]))
  }

  /** The on-screen totals are the sum of the targets and the sum of the
      row-level `totalWeight`s. */
  lemma {:induction false} FoldTotalsAreSums(parse: string -> Num, ings: seq<Ingredient>)
    ensures FoldTotals(parse, ings) == Totals(Sum(Targets(parse, ings)), Sum(RowTotals(parse, ings)))
  {
    if |ings| > 0 {
      var init := ings[..|ings| - 1];
      FoldTotalsAreSums(parse, init);
      assert Targets(parse, ings)[..|ings| - 1] == Targets(parse, init);
      assert RowTotals(parse, ings)[..|ings| - 1] == RowTotals(parse, init);
      SummaryActualIsRowTotal(parse, ings[|ings| - 1]);
    }
  }

  /** Removing one ingredient from the fold and adding its contribution last
      gives the same totals. */
  lemma {:induction false} FoldTotalsRemove(parse: string -> Num, ings: seq<Ingredient>, j: nat)
    requires j < |ings|
    ensures FoldTotals(parse, ings) ==
            Plus(FoldTotals(parse, ings[..j] + ings[j + 1..]), Contribution(parse, ings[j]))
  {
    var n := |ings|;
    var rest := ings[..j] + ings[j + 1..];
    RemoveAt(ings, j);
    if j < n - 1 {
      var init := ings[..n - 1];
      var inner := init[..j] + init[j + 1..];
      FoldTotalsRemove(parse, init, j);
      PlusSwap(FoldTotals(parse, inner), Contribution(parse, ings[j]), Contribution(parse, ings[n - 1]));
    }
  }

  /** Removing the element at `j` before or after dropping the last one. */
  lemma RemoveAt<T>(xs: seq<T>, j: nat)
    requires j < |xs|
    ensures var rest := xs[..j] + xs[j + 1..];
            && |rest| == |xs| - 1
            && (j == |xs| - 1 ==> rest == xs[..|xs| - 1])
            && (j < |xs| - 1 ==>
                  && rest[..|rest| - 1] == xs[..|xs| - 1][..j] + xs[..|xs| - 1][j + 1..]
                  && rest[|rest| - 1] == xs[|xs| - 1]
                  && xs[..|xs| - 1][j] == xs[j])
  {
  }

  /** Two contributions can be added in either order. */
  lemma PlusSwap(f: Totals, x: Totals, y: Totals)
    ensures Plus(Plus(f, x), y) == Plus(Plus(f, y), x)
  {
    AddAssociative(f.scaled, x.scaled, y.scaled);
    AddAssociative(f.scaled, y.scaled, x.scaled);
    AddCommutative(x.scaled, y.scaled);
    AddAssociative(f.actual, x.actual, y.actual);
    AddAssociative(f.actual, y.actual, x.actual);
    AddCommutative(x.actual, y.actual);
  }

  /** The totals do not depend on the order of the ingredients. */
  lemma {:induction false} FoldTotalsPermutation(parse: string -> Num, a: seq<Ingredient>, b: seq<Ingredient>)
    requires multiset(a) == multiset(b)
    ensures FoldTotals(parse, a) == FoldTotals(parse, b)
  {
    if |a| == 0 {
      assert |b| == |multiset(b)| == 0;
    } else {
      var x := a[|a| - 1];
      var init := a[..|a| - 1];
      assert a == init + [x];
      assert multiset(init) == multiset(a) - multiset{x};
      assert x in multiset(b);
      var j :| 0 <= j < |b| && b[j] == x;
      var rest := b[..j] + b[j + 1..];
      MultisetRemove(b, j);
      FoldTotalsPermutation(parse, init, rest);
      FoldTotalsRemove(parse, b, j);
    }
  }

  /** The receiver view prints the same scaled and actual totals it shows. */
  lemma {:induction false} ReceiverPrintFoldIsSummaryFold(parse: string -> Num, ings: seq<Ingredient>)
    ensures PrintFold(parse, ings, FromSummary).scaled == FoldTotals(parse, ings).scaled
    ensures PrintFold(parse, ings, FromSummary).actual == FoldTotals(parse, ings).actual
  {
    if |ings| > 0 {
      ReceiverPrintFoldIsSummaryFold(parse, ings[..|ings| - 1]);
    }
  }

  lemma ReceiverPrintMatchesScreen(parse: string -> Num, ings: seq<Ingredient>)
    ensures ReceiverPrintTotals(parse, ings).Some? <==> SummaryTotals(parse, ings).Some?
    ensures ReceiverPrintTotals(parse, ings).Some? ==>
              ReceiverPrintTotals(parse, ings).value.scaled == SummaryTotals(parse, ings).value.scaled &&
              ReceiverPrintTotals(parse, ings).value.actual == SummaryTotals(parse, ings).value.actual
  {
    ReceiverPrintFoldIsSummaryFold(parse, ings);
  }

  /** The history print totals read only targets and accumulated masses:
      changing any ingredient's `exp_dates` leaves them as they are. */
  lemma {:induction false} HistoryPrintIgnoresExpDates(parse: string -> Num, a: seq<Ingredient>, b: seq<Ingredient>)
    requires |a| == |b|
    requires forall i :: 0 <= i < |a| ==> a[i].(expDates := []) == b[i].(expDates := [])
    ensures HistoryPrintTotals(parse, a) == HistoryPrintTotals(parse, b)
  {
    HistoryPrintFoldIgnoresExpDates(parse, a, b);
  }

  lemma {:induction false} HistoryPrintFoldIgnoresExpDates(parse: string -> Num, a: seq<Ingredient>, b: seq<Ingredient>)
    requires |a| == |b|
    requires forall i :: 0 <= i < |a| ==> a[i].(expDates := []) == b[i].(expDates := [])
    ensures PrintFold(parse, a, FromAccumulated) == PrintFold(parse, b, FromAccumulated)
  {
    if |a| > 0 {
      var n := |a| - 1;
      assert a[n].(expDates := []) == b[n].(expDates := []);
      assert a[n].targetMass == b[n].targetMass && a[n].accumulatedMass == b[n].accumulatedMass;
      HistoryPrintFoldIgnoresExpDates(parse, a[..n], b[..n]);
    }
  }

  /** When no ingredient has `exp_dates`, the history print totals agree with
      the on-screen totals. */
  lemma {:induction false} HistoryPrintMatchesScreenWithoutExpDates(parse: string -> Num, ings: seq<Ingredient>)
    requires forall i :: 0 <= i < |ings| ==> |ings[i].expDates| == 0
    ensures PrintFold(parse, ings, FromAccumulated).scaled == FoldTotals(parse, ings).scaled
    ensures PrintFold(parse, ings, FromAccumulated).actual == FoldTotals(parse, ings).actual
  {
    if |ings| > 0 {
      HistoryPrintMatchesScreenWithoutExpDates(parse, ings[..|ings| - 1]);
    }
  }

  // ---------------------------------------------------------------------
  // The summary table: rows, placeholder and total row

  /** `xs.flatMap(f)` */
  function FlatMap<T, U>(f: T -> seq<U>, xs: seq<T>): seq<U> {
    if |xs| == 0 then [] else FlatMap(f, xs[..|xs| - 1]) + f(xs[|xs| - 1])
  }

  lemma {:induction false} FlatMapAppend<T, U>(f: T -> seq<U>, a: seq<T>, b: seq<T>)
    ensures FlatMap(f, a + b) == FlatMap(f, a) + FlatMap(f, b)
  {
    if |b| > 0 {
      var ab := a + b;
      assert ab[..|ab| - 1] == a + b[..|b| - 1];
      assert ab[|ab| - 1] == b[|b| - 1];
      FlatMapAppend(f, a, b[..|b| - 1]);
    } else {
      assert a + b == a;
    }
  }

  /** `ingredients.flatMap(...)`: the rows of every ingredient, ingredients
      in list order and never sorted; every ingredient has at least one row. */
  function TableRows(parse: string -> Num, ings: seq<Ingredient>): (rows: seq<Row>)
    ensures |rows| == 0 <==> |ings| == 0
  {
    FlatMap(ing => ExpandIngredient(parse, ing), ings)
  }

  /** The first-row cells present in a list of rows, in row order. */
  function Leads(rows: seq<Row>): seq<Lead> {
    if |rows| == 0 then []
    else Leads(rows[..|rows| - 1]) + (if rows[|rows| - 1].lead.Some? then [rows[|rows| - 1].lead.value] else [])
  }

  lemma {:induction false} LeadsAppend(a: seq<Row>, b: seq<Row>)
    ensures Leads(a + b) == Leads(a) + Leads(b)
  {
    if |b| > 0 {
      var ab := a + b;
      assert ab[..|ab| - 1] == a + b[..|b| - 1];
      assert ab[|ab| - 1] == b[|b| - 1];
      LeadsAppend(a, b[..|b| - 1]);
    } else {
      assert a + b == a;
    }
  }

  /** Each ingredient contributes exactly one set of first-row cells. */
  lemma ExpandIngredientLeads(parse: string -> Num, ing: Ingredient)
    ensures Leads(ExpandIngredient(parse, ing)) == [LeadOf(parse, ing)]
  {
    LeadsOfFirstOnly(ExpandIngredient(parse, ing));
  }

  lemma {:induction false} LeadsOfFirstOnly(rows: seq<Row>)
    requires |rows| > 0 && rows[0].lead.Some?
    requires forall i :: 0 < i < |rows| ==> rows[i].lead.None?
    ensures Leads(rows) == [rows[0].lead.value]
  {
    var init := rows[..|rows| - 1];
    if |rows| == 1 {
      assert init == [];
    } else {
      assert init[0] == rows[0];
      assert forall i :: 0 < i < |init| ==> init[i] == rows[i];
      LeadsOfFirstOnly(init);
      assert Leads(rows) == Leads(init) + [];
    }
  }

  function LeadsOf(parse: string -> Num, ings: seq<Ingredient>): (ls: seq<Lead>)
    ensures |ls| == |ings|
  {
    seq(|ings|, i requires 0 <= i < |ings| => LeadOf(parse, ings[i]))
  }

  /** The table shows one set of first-row cells per ingredient, in list
      order. */
  lemma {:induction false} TableRowsLeads(parse: string -> Num, ings: seq<Ingredient>)
    ensures Leads(TableRows(parse, ings)) == LeadsOf(parse, ings)
  {
    if |ings| > 0 {
      var init := ings[..|ings| - 1];
      var last := ings[|ings| - 1];
      TableRowsLeads(parse, init);
      TableRowsSnoc(parse, ings);
      LeadsAppend(TableRows(parse, init), ExpandIngredient(parse, last));
      ExpandIngredientLeads(parse, last);
      LeadsOfSnoc(parse, ings);
    }
  }

  lemma TableRowsSnoc(parse: string -> Num, ings: seq<Ingredient>)
    requires |ings| > 0
    ensures TableRows(parse, ings) == TableRows(parse, ings[..|ings| - 1]) + ExpandIngredient(parse, ings[|ings| - 1])
  {
  }

  lemma LeadsOfSnoc(parse: string -> Num, ings: seq<Ingredient>)
    requires |ings| > 0
    ensures LeadsOf(parse, ings) == LeadsOf(parse, ings[..|ings| - 1]) + [LeadOf(parse, ings[|ings| - 1])]
  {
    var ls, init := LeadsOf(parse, ings), LeadsOf(parse, ings[..|ings| - 1]);
    forall i | 0 <= i < |init|
      ensures ls[i] == init[i]
    {
      assert ings[..|ings| - 1][i] == ings[i];
    }
    Snoc(ls, init, LeadOf(parse, ings[|ings| - 1]));
  }

  /** A sequence that agrees with `init` and then ends in `x` is `init + [x]`. */
  lemma Snoc<T>(xs: seq<T>, init: seq<T>, x: T)
    requires |xs| == |init| + 1 && xs[|init|] == x
    requires forall i :: 0 <= i < |init| ==> xs[i] == init[i]
    ensures xs == init + [x]
  {
  }

  /** Concatenating ingredient lists concatenates their rows: the table
      keeps list order. */
  lemma TableRowsAppend(parse: string -> Num, a: seq<Ingredient>, b: seq<Ingredient>)
    ensures TableRows(parse, a + b) == TableRows(parse, a) + TableRows(parse, b)
  {
    FlatMapAppend(ing => ExpandIngredient(parse, ing), a, b);
  }

  function LeadTotals(ls: seq<Lead>): (ts: seq<Num>)
    ensures |ts| == |ls|
  {
    seq(|ls|, i requires 0 <= i < |ls| => ls[i].total)
  }

  /** The `totalWeight` cells of the table add up to the fold's actual total. */
  lemma TableTotalsMatchSummary(parse: string -> Num, ings: seq<Ingredient>)
    requires |ings| > 0
    ensures Sum(LeadTotals(Leads(TableRows(parse, ings)))) == SummaryTotals(parse, ings).value.actual
  {
    TableRowsLeads(parse, ings);
    FoldTotalsAreSums(parse, ings);
    assert LeadTotals(LeadsOf(parse, ings)) == RowTotals(parse, ings);
  }

  datatype TotalRow = TotalRow(scaled: Num, actual: Num, resolution: Num, surplus: bool)

  /** Either the rows or the "no ingredients" placeholder row. */
  datatype Body = Placeholder | Rows(rows: seq<Row>)

  datatype Table = Table(body: Body, total: Option<TotalRow>)

  function TotalRowOf(scaled: Num, actual: Num): (t: TotalRow)
    ensures t.resolution == Sub(actual, scaled)
    ensures t.surplus <==> t.resolution.Fin? && t.resolution.val >= 0.0
  {
    var resolution := Sub(actual, scaled);
    TotalRow(scaled, actual, resolution, NonNegative(resolution))
  }

  function BodyOf(parse: string -> Num, ings: seq<Ingredient>): Body {
    if |ings| > 0 then Rows(TableRows(parse, ings)) else Placeholder
  }

  /** The on-screen summary table of either detail view. */
  function ScreenTable(parse: string -> Num, ings: seq<Ingredient>): (t: Table)
    ensures t.body.Placeholder? <==> |ings| == 0
    ensures t.total.None? <==> |ings| == 0
    ensures t.total.Some? ==>
              t.total.value.resolution == TotalResolution(SummaryTotals(parse, ings)) &&
              t.total.value.actual == Sum(RowTotals(parse, ings)) &&
              t.total.value.scaled == Sum(Targets(parse, ings))
  {
    var totals := SummaryTotals(parse, ings);
    FoldTotalsAreSums(parse, ings);
    Table(BodyOf(parse, ings),
          match totals
          case None => None
          case Some(s) => Some(TotalRowOf(s.scaled, s.actual)))
  }

  /** The receiver view's printed table. */
  function ReceiverPrintTable(parse: string -> Num, ings: seq<Ingredient>): (t: Table)
    ensures t.body.Placeholder? <==> |ings| == 0
    ensures t.total.None? <==> |ings| == 0
  {
    Table(BodyOf(parse, ings),
          match ReceiverPrintTotals(parse, ings)
          case None => None
          case Some(s) => Some(TotalRowOf(s.scaled, s.actual)))
  }

  /** The history view's printed table: the same rows, but a total row built
      from the accumulated masses. */
  function HistoryPrintTable(parse: string -> Num, ings: seq<Ingredient>): (t: Table)
    ensures t.body.Placeholder? <==> |ings| == 0
    ensures t.total.None? <==> |ings| == 0
  {
    Table(BodyOf(parse, ings),
          match HistoryPrintTotals(parse, ings)
          case None => None
          case Some(s) => Some(TotalRowOf(s.scaled, s.actual)))
  }

  /** The receiver printout and its on-screen table are the same table, so the
      printed "Total" row is the sum of the printed `totalWeight` cells. */
  lemma ReceiverPrintTableIsScreenTable(parse: string -> Num, ings: seq<Ingredient>)
    ensures ReceiverPrintTable(parse, ings) == ScreenTable(parse, ings)
    ensures |ings| > 0 ==>
              ReceiverPrintTable(parse, ings).total.value.actual ==
              Sum(LeadTotals(Leads(TableRows(parse, ings))))
  {
    ReceiverPrintMatchesScreen(parse, ings);
    if |ings| > 0 {
      TableTotalsMatchSummary(parse, ings);
    }
  }
}
