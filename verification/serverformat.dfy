/** `transformToServerFormat` of the new-format sender: the nested `workOrder`
    is lifted to the root, `operator_name` falls back to `operator_full_name`,
    every expiry date goes through `convertDateFormat`, and `reject_reason` is
    kept only when truthy. Property reads of null or undefined and `.map` on a
    non-array throw, so the transform is partial. */
module ServerFormat {
  import opened Json
  import opened DateFormat
  import opened MoReceiver

  /** `xs.map(f)` where `f` may throw: the first throw aborts the map. */
  function MapAll(f: JsonVal -> Completion<JsonVal>, xs: seq<JsonVal>): (r: Completion<seq<JsonVal>>)
    ensures r.Normal? <==> forall i :: 0 <= i < |xs| ==> f(xs[i]).Normal?
    ensures r.Normal? ==> |r.value| == |xs| && forall i :: 0 <= i < |xs| ==> r.value[i] == f(xs[i]).value
  {
    if |xs| == 0 then Normal([])
    else
      match MapAll(f, xs[..|xs| - 1])
      case Throws => Throws
      case Normal(init) =>
        match f(xs[|xs| - 1])
        case Throws => Throws
        case Normal(y) => Normal(init + [y])
  }

  /** `v.map(f)`: only arrays have a `map` method. */
  function ArrayMap(v: JsonVal, f: JsonVal -> Completion<JsonVal>): (r: Completion<JsonVal>)
    ensures r.Normal? <==> v.JArr? && forall i :: 0 <= i < |v.items| ==> f(v.items[i]).Normal?
    ensures r.Normal? ==> r.value.JArr? && |r.value.items| == |v.items|
    ensures r.Normal? ==> forall i :: 0 <= i < |v.items| ==> r.value.items[i] == f(v.items[i]).value
  {
    if !v.JArr? then Throws
    else
      match MapAll(f, v.items)
      case Throws => Throws
      case Normal(ys) => Normal(JArr(ys))
  }

  /** One element of `exp_dates`: an object with exactly the converted date
      and the copied weight. */
  function TransformExp(exp: JsonVal): (r: Completion<JsonVal>)
    ensures exp == JUndef || exp == JNull ==> r.Throws?
    ensures r.Normal? ==> r.value.JObj? && r.value.fields.Keys == {"exp_date", "actual_weight"}
    ensures r.Normal? ==> r.value.fields["actual_weight"] == Get(exp, "actual_weight")
    ensures r.Normal? ==> ConvertDate(Get(exp, "exp_date")) == Normal(r.value.fields["exp_date"])
  {
    match Member(exp, "exp_date")
    case Throws => Throws
    case Normal(d) =>
      match ConvertDate(d)
      case Throws => Throws
      case Normal(c) => Normal(JObj(map["exp_date" := c, "actual_weight" := Get(exp, "actual_weight")]))
  }

  /** The fields a transformed ingredient carries. */
  const IngredientFields: set<string> :=
    {"ingredient_id", "ingredient_code", "ingredient_name", "target_mass",
     "current_accumulated_mass", "current_status", "tolerance_min", "tolerance_max",
     "exp_dates", "sessions"}

  /** The transformed ingredient object: the scalar fields copied, the
      converted `exp_dates` and the untouched `sessions`. */
  function IngredientOut(ing: JsonVal, es: JsonVal): (m: map<string, JsonVal>)
    ensures m.Keys == IngredientFields
    ensures m["exp_dates"] == es
    ensures forall k :: k in IngredientFields && k != "exp_dates" ==> m[k] == Get(ing, k)
  {
    map k | k in IngredientFields :: if k == "exp_dates" then es else Get(ing, k)
  }

  /** One element of `ingredients`: its fields copied, its `exp_dates`
      transformed entry by entry. */
  function TransformIngredient(ing: JsonVal): (r: Completion<JsonVal>)
    ensures ing == JUndef || ing == JNull || !Get(ing, "exp_dates").JArr? ==> r.Throws?
    ensures r.Normal? ==> r.value.JObj? && r.value.fields.Keys == IngredientFields
    ensures r.Normal? ==> forall k :: k in IngredientFields && k != "exp_dates" ==> r.value.fields[k] == Get(ing, k)
    ensures r.Normal? ==>
              var es := r.value.fields["exp_dates"];
              && es.JArr? && |es.items| == |Get(ing, "exp_dates").items|
              && forall j :: 0 <= j < |es.items| ==> TransformExp(Get(ing, "exp_dates").items[j]) == Normal(es.items[j])
  {
    if ing == JUndef || ing == JNull then Throws
    else
      match ArrayMap(Get(ing, "exp_dates"), TransformExp)
      case Throws => Throws
      case Normal(es) => Normal(JObj(IngredientOut(ing, es)))
  }

  /** The fields of a transformed root other than `reject_reason`. */
  const RootFields: set<string> :=
    {"work_order", "sku", "formulation_name", "production_date", "planned_quantity",
     "status", "operator_name", "end_time", "ingredients"}

  /** The flattened root: the work-order fields lifted, `operator_name`
      falling back to `operator_full_name`, and `reject_reason` only when
      truthy. */
  function RootOut(wo: JsonVal, ings: JsonVal, rr: JsonVal): (m: map<string, JsonVal>)
    ensures m.Keys == RootFields + (if Truthy(rr) then {"reject_reason"} else {})
    ensures m["work_order"] == Get(wo, "work_order") && m["sku"] == Get(wo, "sku")
    ensures m["formulation_name"] == Get(wo, "formulation_name")
    ensures m["production_date"] == Get(wo, "production_date")
    ensures m["planned_quantity"] == Get(wo, "planned_quantity")
    ensures m["status"] == Get(wo, "status") && m["end_time"] == Get(wo, "end_time")
    ensures m["operator_name"] == Or(Get(wo, "operator_name"), Get(wo, "operator_full_name"))
    ensures m["ingredients"] == ings
    ensures "reject_reason" in m <==> Truthy(rr)
    ensures "reject_reason" in m ==> m["reject_reason"] == rr
  {
    var base := map k | k in RootFields ::
      if k == "operator_name" then Or(Get(wo, "operator_name"), Get(wo, "operator_full_name"))
      else if k == "ingredients" then ings
      else Get(wo, k);
    if Truthy(rr) then base["reject_reason" := rr] else base
  }

  /** `transformToServerFormat(newData)`: a missing payload or `workOrder`,
      or a non-array `ingredients`, throws; otherwise the flattened root with
      the ingredients transformed one by one. */
  function Transform(newData: JsonVal): (r: Completion<JsonVal>)
    ensures Get(newData, "workOrder") == JUndef || Get(newData, "workOrder") == JNull ==> r.Throws?
    ensures !Get(newData, "ingredients").JArr? ==> r.Throws?
    ensures r.Normal? ==>
              && r.value.JObj?
              && r.value.fields.Keys == RootFields + (if Truthy(Get(newData, "reject_reason")) then {"reject_reason"} else {})
    ensures r.Normal? ==>
              var ings := r.value.fields["ingredients"];
              && ings.JArr? && |ings.items| == |Get(newData, "ingredients").items|
              && forall i :: 0 <= i < |ings.items| ==>
                   TransformIngredient(Get(newData, "ingredients").items[i]) == Normal(ings.items[i])
  {
    if newData == JUndef || newData == JNull then Throws
    else
      var wo := Get(newData, "workOrder");
      if wo == JUndef || wo == JNull then Throws
      else
        match ArrayMap(Get(newData, "ingredients"), TransformIngredient)
        case Throws => Throws
        case Normal(ings) => Normal(JObj(RootOut(wo, ings, Get(newData, "reject_reason"))))
  }

  /** When an expiry entry converts: it is an object-like value whose
      `exp_date` is falsy or a string. */
  predicate ExpShaped(exp: JsonVal) {
    exp != JUndef && exp != JNull &&
    var d := Get(exp, "exp_date"); !Truthy(d) || d.JStr?
  }

  predicate IngredientShaped(ing: JsonVal) {
    && ing != JUndef && ing != JNull
    && Get(ing, "exp_dates").JArr?
    && forall j :: 0 <= j < |Get(ing, "exp_dates").items| ==> ExpShaped(Get(ing, "exp_dates").items[j])
  }

  /** The inputs the transform accepts, stated independently of it. */
  predicate Shaped(newData: JsonVal) {
    && Get(newData, "workOrder") != JUndef && Get(newData, "workOrder") != JNull
    && Get(newData, "ingredients").JArr?
    && forall i :: 0 <= i < |Get(newData, "ingredients").items| ==> IngredientShaped(Get(newData, "ingredients").items[i])
  }

  lemma TransformExpShape(exp: JsonVal)
    ensures TransformExp(exp).Normal? <==> ExpShaped(exp)
    ensures TransformExp(exp).Normal? ==>
              && Get(TransformExp(exp).value, "exp_date") == ConvertDate(Get(exp, "exp_date")).value
              && Get(TransformExp(exp).value, "actual_weight") == Get(exp, "actual_weight")
  {
  }

  lemma TransformIngredientShape(ing: JsonVal)
    ensures TransformIngredient(ing).Normal? <==> IngredientShaped(ing)
  {
    if ing != JUndef && ing != JNull && Get(ing, "exp_dates").JArr? {
      var items := Get(ing, "exp_dates").items;
      forall j | 0 <= j < |items|
        ensures TransformExp(items[j]).Normal? <==> ExpShaped(items[j])
      {
        TransformExpShape(items[j]);
      }
    }
  }

  /** The transform succeeds exactly on `Shaped` inputs. */
  lemma TransformSucceedsIffShaped(newData: JsonVal)
    ensures Transform(newData).Normal? <==> Shaped(newData)
  {
    var ingsV := Get(newData, "ingredients");
    if ingsV.JArr? {
      forall i | 0 <= i < |ingsV.items|
        ensures TransformIngredient(ingsV.items[i]).Normal? <==> IngredientShaped(ingsV.items[i])
      {
        TransformIngredientShape(ingsV.items[i]);
      }
    }
  }

  /** The root of the result: the lifted work-order fields, the operator
      fallback and `reject_reason` only when truthy; nothing is left nested
      under `workOrder`. */
  lemma TransformRoot(newData: JsonVal)
    requires Transform(newData).Normal?
    ensures var t := Transform(newData).value;
            var wo := Get(newData, "workOrder");
            && t.JObj?
            && Get(t, "workOrder") == JUndef
            && Get(t, "work_order") == Get(wo, "work_order")
            && Get(t, "sku") == Get(wo, "sku")
            && Get(t, "formulation_name") == Get(wo, "formulation_name")
            && Get(t, "production_date") == Get(wo, "production_date")
            && Get(t, "planned_quantity") == Get(wo, "planned_quantity")
            && Get(t, "status") == Get(wo, "status")
            && Get(t, "end_time") == Get(wo, "end_time")
            && Get(t, "operator_name") == Or(Get(wo, "operator_name"), Get(wo, "operator_full_name"))
            && ("reject_reason" in t.fields <==> Truthy(Get(newData, "reject_reason")))
            && ("reject_reason" in t.fields ==> t.fields["reject_reason"] == Get(newData, "reject_reason"))
  {
    TransformValue(newData);
    RootOutReads(Get(newData, "workOrder"), ArrayMap(Get(newData, "ingredients"), TransformIngredient).value,
                 Get(newData, "reject_reason"));
  }

  lemma RootOutReads(wo: JsonVal, ings: JsonVal, rr: JsonVal)
    ensures var t := JObj(RootOut(wo, ings, rr));
            && Get(t, "workOrder") == JUndef
            && Get(t, "work_order") == Get(wo, "work_order")
            && Get(t, "sku") == Get(wo, "sku")
            && Get(t, "formulation_name") == Get(wo, "formulation_name")
            && Get(t, "production_date") == Get(wo, "production_date")
            && Get(t, "planned_quantity") == Get(wo, "planned_quantity")
            && Get(t, "status") == Get(wo, "status")
            && Get(t, "end_time") == Get(wo, "end_time")
            && Get(t, "operator_name") == Or(Get(wo, "operator_name"), Get(wo, "operator_full_name"))
  {
  }

  /** A successful transform is the flattened root over the transformed
      ingredients. */
  lemma TransformValue(newData: JsonVal)
    requires Transform(newData).Normal?
    ensures ArrayMap(Get(newData, "ingredients"), TransformIngredient).Normal?
    ensures Transform(newData).value ==
              JObj(RootOut(Get(newData, "workOrder"), ArrayMap(Get(newData, "ingredients"), TransformIngredient).value,
                           Get(newData, "reject_reason")))
  {
  }

  /** Every ingredient of the result is the transform of the input's
      ingredient at the same place: its fields are copied, `sessions`
      included, and its `exp_dates` keep their number, empty or not. */
  lemma TransformIngredients(newData: JsonVal, i: nat)
    requires Transform(newData).Normal?
    requires i < |Get(newData, "ingredients").items|
    ensures var ingsOut := Get(Transform(newData).value, "ingredients");
            var ing := Get(newData, "ingredients").items[i];
            && ingsOut.JArr? && |ingsOut.items| == |Get(newData, "ingredients").items|
            && ingsOut.items[i].JObj? && ingsOut.items[i].fields.Keys == IngredientFields
            && (forall k :: k in IngredientFields && k != "exp_dates" ==> Get(ingsOut.items[i], k) == Get(ing, k))
            && Get(ingsOut.items[i], "exp_dates").JArr?
            && |Get(ingsOut.items[i], "exp_dates").items| == |Get(ing, "exp_dates").items|
  {
    var ing := Get(newData, "ingredients").items[i];
    assert TransformIngredient(ing).Normal?;
  }

  /** Expiry entries keep their order; each `actual_weight` is copied and each
      `exp_date` converted. */
  lemma TransformExpDates(newData: JsonVal, i: nat, j: nat)
    requires Transform(newData).Normal?
    requires i < |Get(newData, "ingredients").items|
    requires j < |Get(Get(newData, "ingredients").items[i], "exp_dates").items|
    ensures var ingsOut := Get(Transform(newData).value, "ingredients");
            var ing := Get(newData, "ingredients").items[i];
            var exp := Get(ing, "exp_dates").items[j];
            && i < |ingsOut.items| && j < |Get(ingsOut.items[i], "exp_dates").items|
            && Get(Get(ingsOut.items[i], "exp_dates").items[j], "exp_date") == ConvertDate(Get(exp, "exp_date")).value
            && Get(Get(ingsOut.items[i], "exp_dates").items[j], "actual_weight") == Get(exp, "actual_weight")
  {
    TransformIngredients(newData, i);
    var ing := Get(newData, "ingredients").items[i];
    var exp := Get(ing, "exp_dates").items[j];
    TransformExpShape(exp);
  }

  /** The root fields the new format would otherwise supply as fallbacks. */
  predicate NoRootColumns(newData: JsonVal) {
    && Get(newData, "work_order") == JUndef && Get(newData, "sku") == JUndef
    && Get(newData, "formulation_name") == JUndef && Get(newData, "production_date") == JUndef
    && Get(newData, "planned_quantity") == JUndef && Get(newData, "status") == JUndef
    && Get(newData, "operator_name") == JUndef && Get(newData, "end_time") == JUndef
  }

  /** A transformed payload is flat, so the receiver stores it under the
      lifted `work_order` with the lifted columns. Compared with posting the
      new format as it is, the row differs only in `operator_name`, which now
      falls back to `operator_full_name` (when the root does not repeat the
      column fields, as the new format does not). */
  lemma TransformedPayloadStored(newData: JsonVal)
    requires Transform(newData).Normal?
    requires NoRootColumns(newData)
    ensures var t := Transform(newData).value;
            var wo := Get(newData, "workOrder");
            && (Truthy(WorkOrderKey(t)) <==> Truthy(Get(wo, "work_order")))
            && (Truthy(WorkOrderKey(t)) ==> WorkOrderKey(t) == WorkOrderKey(newData))
            && WriteColumns(t) == WriteColumns(newData).(operatorName :=
                 Pick(Or(Get(wo, "operator_name"), Get(wo, "operator_full_name")), JUndef))
  {
    TransformRoot(newData);
    FlatPayloadColumns(Transform(newData).value, newData);
  }

  /** The column comparison for any flat payload `t` carrying the work-order
      fields of `newData` at its root. */
  lemma FlatPayloadColumns(t: JsonVal, newData: JsonVal)
    requires NoRootColumns(newData)
    requires var wo := Get(newData, "workOrder");
             && Get(t, "workOrder") == JUndef
             && Get(t, "work_order") == Get(wo, "work_order")
             && Get(t, "sku") == Get(wo, "sku")
             && Get(t, "formulation_name") == Get(wo, "formulation_name")
             && Get(t, "production_date") == Get(wo, "production_date")
             && Get(t, "planned_quantity") == Get(wo, "planned_quantity")
             && Get(t, "status") == Get(wo, "status")
             && Get(t, "end_time") == Get(wo, "end_time")
             && Get(t, "operator_name") == Or(Get(wo, "operator_name"), Get(wo, "operator_full_name"))
    ensures var wo := Get(newData, "workOrder");
            && (Truthy(WorkOrderKey(t)) <==> Truthy(Get(wo, "work_order")))
            && (Truthy(WorkOrderKey(t)) ==> WorkOrderKey(t) == WorkOrderKey(newData))
            && WriteColumns(t) == WriteColumns(newData).(operatorName :=
                 Pick(Or(Get(wo, "operator_name"), Get(wo, "operator_full_name")), JUndef))
  {
    FlatPayloadKey(t, newData);
    var wo := Get(newData, "workOrder");
    var op := Or(Get(wo, "operator_name"), Get(wo, "operator_full_name"));
    var c := WriteColumns(t);
    var d := WriteColumns(newData);
    assert c.sku == d.sku by { LiftedColumn(t, newData, "sku"); }
    assert c.formulationName == d.formulationName by { LiftedColumn(t, newData, "formulation_name"); }
    assert c.productionDate == d.productionDate by { LiftedColumn(t, newData, "production_date"); }
    assert c.plannedQuantity == d.plannedQuantity by { LiftedColumn(t, newData, "planned_quantity"); }
    assert c.status == d.status by { LiftedColumn(t, newData, "status"); }
    assert c.endTime == d.endTime by { LiftedColumn(t, newData, "end_time"); }
    assert c.operatorName == Pick(op, JUndef) by { NestedReadsWorkOrder(t, "operator_name"); }
  }

  /** The lifted `work_order` is the stored key. */
  lemma FlatPayloadKey(t: JsonVal, newData: JsonVal)
    requires Get(newData, "work_order") == JUndef && Get(t, "workOrder") == JUndef
    requires Get(t, "work_order") == Get(Get(newData, "workOrder"), "work_order")
    ensures Truthy(WorkOrderKey(t)) <==> Truthy(Get(Get(newData, "workOrder"), "work_order"))
    ensures Truthy(WorkOrderKey(t)) ==> WorkOrderKey(t) == WorkOrderKey(newData)
  {
    LiftedColumn(t, newData, "work_order");
    NestedReadsWorkOrder(newData, "work_order");
  }

  /** A value read from the root of a flat payload picks like the same value
      read from `workOrder` of a nested one with nothing at its root. */
  lemma LiftedColumn(flat: JsonVal, nested: JsonVal, key: string)
    requires Get(flat, "workOrder") == JUndef
    requires Get(flat, key) == Get(Get(nested, "workOrder"), key)
    requires Get(nested, key) == JUndef
    ensures Pick(Nested(flat, key), Get(flat, key)) == Pick(Nested(nested, key), Get(nested, key))
    ensures PickDefined(Nested(flat, key), Get(flat, key)) == PickDefined(Nested(nested, key), Get(nested, key))
    ensures Truthy(Or(Nested(flat, key), Get(flat, key))) <==> Truthy(Or(Nested(nested, key), Get(nested, key)))
    ensures Truthy(Or(Nested(flat, key), Get(flat, key))) ==>
              Or(Nested(flat, key), Get(flat, key)) == Or(Nested(nested, key), Get(nested, key))
  {
    NestedReadsWorkOrder(flat, key);
    NestedReadsWorkOrder(nested, key);
  }
}
