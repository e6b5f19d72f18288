/** One ingredient of a work order and the rows the summary table and the
    printed report draw for it: one row per expiry-dated sub-weighing, or a
    single "-" row carrying the accumulated mass when there are none. The two
    detail views and their two print generators all repeat this same code. */
module Expiry {
  import opened Numbers
  import opened Json

  /** An element of `exp_dates`. Current producers send objects
      `{exp_date, actual_weight}`; older ones sent bare date strings.
      A missing `actual_weight` is `JUndef`. */
  datatype ExpEntry =
    | ExpObj(expDate: JsonVal, actualWeight: JsonVal)
    | ExpLabel(text: string)

  /** The ingredient fields the views read. An absent or null `exp_dates`
      behaves exactly like an empty one and is represented as `[]`. */
  datatype Ingredient = Ingredient(
    name: JsonVal,
    code: JsonVal,
    targetMass: JsonVal,
    accumulatedMass: JsonVal,
    toleranceMin: JsonVal,
    toleranceMax: JsonVal,
    expDates: seq<ExpEntry>)

  /** A tolerance cell: a number, or "-" when the bound is null or undefined. */
  datatype Bound = Shown(value: Num) | Dash

  /** The cells that appear only on an ingredient's first row. */
  datatype Lead = Lead(
    name: JsonVal,
    code: JsonVal,
    min: Bound,
    scaled: Num,
    max: Bound,
    total: Num,
    resolution: Num,
    surplus: bool)

  /** One table row: the first row of an ingredient carries its `Lead`; every
      row shows an expiry label and, when positive, a weight. */
  datatype Row = Row(lead: Option<Lead>, expDate: JsonVal, weight: Num, weightShown: bool)

  function Max1(n: nat): nat {
    if n == 0 then 1 else n
  }

  /** `typeof e === 'object' && e.actual_weight !== undefined` */
  predicate Weighed(e: ExpEntry) {
    e.ExpObj? && e.actualWeight != JUndef
  }

  /** The weight an entry adds to the ingredient total. */
  function EntryWeight(parse: string -> Num, e: ExpEntry): Num {
    if Weighed(e) then Coerce(parse, e.actualWeight) else Fin(0.0)
  }

  function ExpWeights(parse: string -> Num, es: seq<ExpEntry>): (ws: seq<Num>)
    ensures |ws| == |es|
  {
    seq(|es|, i requires 0 <= i < |es| => EntryWeight(parse, es[i]))
  }

  /** `typeof e === 'string' ? e : e.exp_date` */
  function EntryLabel(e: ExpEntry): JsonVal {
    match e
    case ExpLabel(s) => JStr(s)
    case ExpObj(d, _) => d
  }

  /** `expDatesData`: the entries themselves, or one synthesised "-" entry
      whose weight is `parseFloat(current_accumulated_mass || 0)`. */
  function DisplayEntries(parse: string -> Num, ing: Ingredient): (es: seq<ExpEntry>)
    ensures |es| == Max1(|ing.expDates|)
    ensures |ing.expDates| > 0 ==> es == ing.expDates
    ensures |ing.expDates| == 0 ==> es[0].ExpObj? && es[0].expDate == JStr("-")
  {
    if |ing.expDates| > 0 then ing.expDates
    else [ExpObj(JStr("-"), JNum(Coerce(parse, ing.accumulatedMass)))]
  }

  /** `totalWeight`: the sum of the weights of the displayed entries. Without
      entries it is the accumulated mass, where a value that does not parse
      counts as 0 (the synthesised weight passes through `|| 0` once more). */
  function RowTotal(parse: string -> Num, ing: Ingredient): (t: Num)
    ensures |ing.expDates| > 0 ==> t == Sum(ExpWeights(parse, ing.expDates))
    ensures |ing.expDates| == 0 ==> t == CoerceOrZero(parse, ing.accumulatedMass)
  {
    FallbackTotal(parse, ing);
    Sum(ExpWeights(parse, DisplayEntries(parse, ing)))
  }

  /** The synthesised entry's weight, summed alone, is the accumulated mass
      read with `|| 0` twice. */
  lemma FallbackTotal(parse: string -> Num, ing: Ingredient)
    ensures |ing.expDates| == 0 ==>
              Sum(ExpWeights(parse, DisplayEntries(parse, ing))) == CoerceOrZero(parse, ing.accumulatedMass)
  {
    if |ing.expDates| == 0 {
      var m := Coerce(parse, ing.accumulatedMass);
      var e := ExpObj(JStr("-"), JNum(m));
      assert DisplayEntries(parse, ing) == [e];
      assert ExpWeights(parse, [e]) == [EntryWeight(parse, e)];
      assert EntryWeight(parse, e) == OrZero(m);
      SumSingle(OrZero(m));
    }
  }

  /** `minWeight` / `maxWeight` */
  function BoundOf(parse: string -> Num, v: JsonVal): (b: Bound)
    ensures b.Dash? <==> v == JNull || v == JUndef
    ensures b.Shown? ==> b.value == Coerce(parse, v)
  {
    if v != JNull && v != JUndef then Shown(Coerce(parse, v)) else Dash
  }

  /** The first-row cells; `scaledWeight` here is the unguarded
      `parseFloat(target_mass || 0)`. */
  function LeadOf(parse: string -> Num, ing: Ingredient): (l: Lead)
    ensures l.total == RowTotal(parse, ing)
    ensures l.scaled == Coerce(parse, ing.targetMass)
    ensures l.min == BoundOf(parse, ing.toleranceMin) && l.max == BoundOf(parse, ing.toleranceMax)
    ensures l.resolution == Sub(l.total, l.scaled)
    ensures l.surplus <==> l.resolution.Fin? && l.resolution.val >= 0.0
    ensures l.name == (if Truthy(ing.name) then ing.name else JStr("-"))
    ensures l.code == (if Truthy(ing.code) then ing.code else JStr("-"))
  {
    var total := RowTotal(parse, ing);
    var scaled := Coerce(parse, ing.targetMass);
    var resolution := Sub(total, scaled);
    Lead(Or(ing.name, JStr("-")), Or(ing.code, JStr("-")),
         BoundOf(parse, ing.toleranceMin), scaled, BoundOf(parse, ing.toleranceMax),
         total, resolution, NonNegative(resolution))
  }

  /** `actualWeight` of the row at `idx`: an unweighed entry shows the
      accumulated mass on the first row and nothing after it. */
  function RowWeight(parse: string -> Num, ing: Ingredient, e: ExpEntry, idx: nat): Num {
    if Weighed(e) then Coerce(parse, e.actualWeight)
    else if idx == 0 then Coerce(parse, ing.accumulatedMass)
    else Fin(0.0)
  }

  /** The rows of one ingredient, in `exp_dates` order. */
  function ExpandIngredient(parse: string -> Num, ing: Ingredient): (rows: seq<Row>)
    ensures |rows| == Max1(|ing.expDates|)
    ensures forall i :: 0 <= i < |rows| ==> (rows[i].lead.Some? <==> i == 0)
    ensures rows[0].lead == Some(LeadOf(parse, ing))
    ensures forall i :: 0 <= i < |rows| ==> (rows[i].weightShown <==> rows[i].weight.Fin? && rows[i].weight.val > 0.0)
    ensures forall i :: 0 <= i < |ing.expDates| ==> rows[i].expDate == EntryLabel(ing.expDates[i])
    ensures forall i :: 0 <= i < |ing.expDates| && Weighed(ing.expDates[i]) ==>
              rows[i].weight == Coerce(parse, ing.expDates[i].actualWeight)
    ensures forall i :: 0 < i < |ing.expDates| && !Weighed(ing.expDates[i]) ==> rows[i].weight == Fin(0.0)
    ensures |ing.expDates| > 0 && !Weighed(ing.expDates[0]) ==> rows[0].weight == Coerce(parse, ing.accumulatedMass)
    ensures |ing.expDates| == 0 ==>
              rows[0].expDate == JStr("-") && rows[0].weight == CoerceOrZero(parse, ing.accumulatedMass)
  {
    var es := DisplayEntries(parse, ing);
    var lead := LeadOf(parse, ing);
    seq(|es|, i requires 0 <= i < |es| =>
      var w := RowWeight(parse, ing, es[i], i);
      Row(if i == 0 then Some(lead) else None, EntryLabel(es[i]), w, Positive(w)))
  }

  function RowWeights(rows: seq<Row>): (ws: seq<Num>)
    ensures |ws| == |rows|
    ensures forall i :: 0 <= i < |rows| ==> ws[i] == rows[i].weight
  {
    seq(|rows|, i requires 0 <= i < |rows| => rows[i].weight)
  }

  /** The weights shown on an ingredient's rows add up to its total, except
      that an unweighed first entry (a bare date string, say) shows the
      accumulated mass although it adds nothing to the total. */
  lemma DisplayedWeightsSum(parse: string -> Num, ing: Ingredient)
    ensures Sum(RowWeights(ExpandIngredient(parse, ing))) ==
      if |ing.expDates| > 0 && !Weighed(ing.expDates[0])
      then Add(RowTotal(parse, ing), Coerce(parse, ing.accumulatedMass))
      else RowTotal(parse, ing)
  {
    if |ing.expDates| == 0 {
      FallbackWeightSum(parse, ing);
    } else {
      EntryWeightsSum(parse, ing);
    }
  }

  lemma FallbackWeightSum(parse: string -> Num, ing: Ingredient)
    requires |ing.expDates| == 0
    ensures Sum(RowWeights(ExpandIngredient(parse, ing))) == RowTotal(parse, ing)
  {
    var shown := RowWeights(ExpandIngredient(parse, ing));
    var x := CoerceOrZero(parse, ing.accumulatedMass);
    assert |shown| == 1 && shown[0] == x;
    assert shown[..0] == [];
    assert Sum(shown) == Add(Sum(shown[..0]), shown[0]);
    AddZeroLeft(x);
  }

  lemma EntryWeightsSum(parse: string -> Num, ing: Ingredient)
    requires |ing.expDates| > 0
    ensures Sum(RowWeights(ExpandIngredient(parse, ing))) ==
      if Weighed(ing.expDates[0]) then RowTotal(parse, ing)
      else Add(RowTotal(parse, ing), Coerce(parse, ing.accumulatedMass))
  {
    var shown := RowWeights(ExpandIngredient(parse, ing));
    var ws := ExpWeights(parse, ing.expDates);
    ShownTail(parse, ing);
    SumSameTail(shown, ws);
    if !Weighed(ing.expDates[0]) {
      AddZeroRight(Sum(ws[1..]));
    }
  }

  /** After the first row, the shown weights are the entry weights. */
  lemma ShownTail(parse: string -> Num, ing: Ingredient)
    requires |ing.expDates| > 0
    ensures RowWeights(ExpandIngredient(parse, ing))[1..] == ExpWeights(parse, ing.expDates)[1..]
  {
  }
}
