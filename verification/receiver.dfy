/** The receiver server: `POST /api/mo/receive` normalises a work-order
    payload and upserts it into `received_work_orders`, `GET
    /api/mo-receiver/:id` flattens a stored payload again, `DELETE
    /api/mo-receiver/:id` removes a row. The SQLite table is a map from the
    UNIQUE `work_order` to its row, plus the AUTOINCREMENT counter, which
    every executed upsert advances, whether it inserts or updates. */
module MoReceiver {
  import opened Json

  /** The columns written besides `work_order`, `data_json` and the timestamps. */
  datatype Columns = Columns(
    sku: JsonVal,
    formulationName: JsonVal,
    productionDate: JsonVal,
    plannedQuantity: JsonVal,
    status: JsonVal,
    operatorName: JsonVal,
    endTime: JsonVal)

  datatype Record = Record(id: nat, columns: Columns, dataJson: JsonVal)

  datatype Db = Db(rows: map<JsonVal, Record>, nextId: nat)

  datatype ReceiveReply = Unauthorized | BadRequest | ServerError | Stored(workOrder: JsonVal, id: nat)

  /** The flattened work order `GET` returns. */
  datatype Detail = Detail(workOrder: JsonVal, columns: Columns, ingredients: JsonVal)

  datatype ReadReply = NotFound | Found(detail: Detail)

  datatype DeleteReply = Deleted | NoSuchRow

  function ReceiveStatus(r: ReceiveReply): int {
    match r
    case Unauthorized => 401
    case BadRequest => 400
    case ServerError => 500
    case Stored(_, _) => 200
  }

  function ReadStatus(r: ReadReply): int {
    if r.NotFound? then 404 else 200
  }

  function DeleteStatus(r: DeleteReply): int {
    if r.NoSuchRow? then 404 else 200
  }

  /** A header is accepted when present and starting with "Bearer "; the
      token itself is not checked. */
  predicate Authorized(auth: Option<string>) {
    auth.Some? && "Bearer " <= auth.value
  }

  /** `data.workOrder || {}` */
  function NestedPart(body: JsonVal): JsonVal {
    Or(Get(body, "workOrder"), JObj(map[]))
  }

  /** `workOrder.work_order || data.work_order` (the same on write and read). */
  function WorkOrderKey(body: JsonVal): JsonVal {
    Or(Get(NestedPart(body), "work_order"), Get(body, "work_order"))
  }

  /** `nested || root || null`: the result is never a falsy value other than null. */
  function Pick(nested: JsonVal, root: JsonVal): (r: JsonVal)
    ensures r == JNull || Truthy(r)
    ensures Truthy(nested) ==> r == nested
    ensures !Truthy(nested) && Truthy(root) ==> r == root
    ensures !Truthy(nested) && !Truthy(root) ==> r == JNull
  {
    Or(Or(nested, root), JNull)
  }

  /** `nested !== undefined ? nested : (root !== undefined ? root : null)`:
      a nested 0, "" or null still wins. */
  function PickDefined(nested: JsonVal, root: JsonVal): (r: JsonVal)
    ensures r != JUndef
    ensures nested != JUndef ==> r == nested
    ensures nested == JUndef && root != JUndef ==> r == root
    ensures nested == JUndef && root == JUndef ==> r == JNull
  {
    IfDefined(nested, IfDefined(root, JNull))
  }

  function Nested(body: JsonVal, key: string): JsonVal {
    Get(NestedPart(body), key)
  }

  /** The `|| {}` fallback never changes a nested read: a falsy `workOrder`
      has no fields either. */
  lemma NestedReadsWorkOrder(body: JsonVal, key: string)
    ensures Nested(body, key) == Get(Get(body, "workOrder"), key)
  {
  }

  /** `v` is what `nested || root || null` yields: the first truthy
      candidate, or null when neither is truthy. */
  predicate FirstTruthy(v: JsonVal, nested: JsonVal, root: JsonVal) {
    && (Truthy(nested) ==> v == nested)
    && (!Truthy(nested) && Truthy(root) ==> v == root)
    && (!Truthy(nested) && !Truthy(root) ==> v == JNull)
  }

  /** `v` is what the `!== undefined` chain yields: the first defined
      candidate, or null when neither is defined. */
  predicate FirstDefined(v: JsonVal, nested: JsonVal, root: JsonVal) {
    && (nested != JUndef ==> v == nested)
    && (nested == JUndef && root != JUndef ==> v == root)
    && (nested == JUndef && root == JUndef ==> v == JNull)
  }

  /** The column values the receive handler writes. */
  function WriteColumns(body: JsonVal): Columns {
    Columns(
      Pick(Nested(body, "sku"), Get(body, "sku")),
      Pick(Nested(body, "formulation_name"), Get(body, "formulation_name")),
      Pick(Nested(body, "production_date"), Get(body, "production_date")),
      PickDefined(Nested(body, "planned_quantity"), Get(body, "planned_quantity")),
      Pick(Nested(body, "status"), Get(body, "status")),
      Pick(Nested(body, "operator_name"), Get(body, "operator_name")),
      Pick(Nested(body, "end_time"), Get(body, "end_time")))
  }

  /** Every stored column but `planned_quantity` is truthy or null: the
      first truthy candidate, else null. `planned_quantity` is never
      undefined, and keeps a defined falsy value such as 0 or "". */
  lemma WriteColumnsChoice(body: JsonVal)
    ensures Truthy(WriteColumns(body).sku) || WriteColumns(body).sku == JNull
    ensures Truthy(WriteColumns(body).formulationName) || WriteColumns(body).formulationName == JNull
    ensures Truthy(WriteColumns(body).productionDate) || WriteColumns(body).productionDate == JNull
    ensures Truthy(WriteColumns(body).status) || WriteColumns(body).status == JNull
    ensures Truthy(WriteColumns(body).operatorName) || WriteColumns(body).operatorName == JNull
    ensures Truthy(WriteColumns(body).endTime) || WriteColumns(body).endTime == JNull
    ensures WriteColumns(body).plannedQuantity != JUndef
    ensures FirstTruthy(WriteColumns(body).sku, Nested(body, "sku"), Get(body, "sku"))
    ensures FirstTruthy(WriteColumns(body).formulationName, Nested(body, "formulation_name"), Get(body, "formulation_name"))
    ensures FirstTruthy(WriteColumns(body).productionDate, Nested(body, "production_date"), Get(body, "production_date"))
    ensures FirstDefined(WriteColumns(body).plannedQuantity, Nested(body, "planned_quantity"), Get(body, "planned_quantity"))
    ensures FirstTruthy(WriteColumns(body).status, Nested(body, "status"), Get(body, "status"))
    ensures FirstTruthy(WriteColumns(body).operatorName, Nested(body, "operator_name"), Get(body, "operator_name"))
    ensures FirstTruthy(WriteColumns(body).endTime, Nested(body, "end_time"), Get(body, "end_time"))
  {
  }

  /** The response `data` of `GET`: the same precedence as on write except
      that `sku` uses `!== undefined`, and `ingredients || []`. */
  function ReadView(full: JsonVal): (d: Detail)
    ensures d.workOrder == WorkOrderKey(full)
    ensures d.columns.sku == PickDefined(Nested(full, "sku"), Get(full, "sku"))
    ensures d.columns.(sku := JNull) == WriteColumns(full).(sku := JNull)
    ensures Truthy(Get(full, "ingredients")) ==> d.ingredients == Get(full, "ingredients")
    ensures !Truthy(Get(full, "ingredients")) ==> d.ingredients == JArr([])
  {
    var w := WriteColumns(full);
    Detail(WorkOrderKey(full),
           w.(sku := PickDefined(Nested(full, "sku"), Get(full, "sku"))),
           Or(Get(full, "ingredients"), JArr([])))
  }

  /** What every stored row satisfies: it is the normalisation of its own
      `data_json`, under a truthy key. */
  predicate Stores(key: JsonVal, rec: Record) {
    && rec.dataJson != JUndef && rec.dataJson != JNull
    && Truthy(key)
    && WorkOrderKey(rec.dataJson) == key
    && rec.columns == WriteColumns(rec.dataJson)
  }

  /** The table invariant: ids are below the counter and unique, and every row
      is consistent with its payload. */
  predicate Valid(db: Db) {
    && (forall k :: k in db.rows ==> db.rows[k].id < db.nextId && Stores(k, db.rows[k]))
    && (forall k1, k2 :: k1 in db.rows && k2 in db.rows && db.rows[k1].id == db.rows[k2].id ==> k1 == k2)
  }

  /** `POST /api/mo/receive` as a transition on the table. */
  function Receive(db: Db, auth: Option<string>, body: JsonVal): (r: (ReceiveReply, Db))
    ensures !Authorized(auth) ==> r == (Unauthorized, db)
    ensures Authorized(auth) && (body == JUndef || body == JNull) ==> r == (ServerError, db)
    ensures r.0.BadRequest? <==>
              Authorized(auth) && body != JUndef && body != JNull && !Truthy(WorkOrderKey(body))
    ensures r.0.Stored? <==>
              Authorized(auth) && body != JUndef && body != JNull && Truthy(WorkOrderKey(body))
    ensures !r.0.Stored? ==> r.1 == db
    ensures r.0.Stored? ==>
              var key := WorkOrderKey(body);
              && r.0.workOrder == key
              && r.1.rows.Keys == db.rows.Keys + {key}
              && r.1.rows[key] == Record(r.0.id, WriteColumns(body), body)
              && r.1 == Db(db.rows[key := r.1.rows[key]], db.nextId + 1)
              && (key in db.rows ==> r.0.id == db.rows[key].id)
              && (key !in db.rows ==> r.0.id == db.nextId)
              && r.1.nextId == db.nextId + 1
    ensures forall k :: k in db.rows && k != WorkOrderKey(body) ==> k in r.1.rows && r.1.rows[k] == db.rows[k]
  {
    if !Authorized(auth) then (Unauthorized, db)
    else if body == JUndef || body == JNull then (ServerError, db)
    else
      var key := WorkOrderKey(body);
      if !Truthy(key) then (BadRequest, db)
      else
        var id := if key in db.rows then db.rows[key].id else db.nextId;
        (Stored(key, id), Db(db.rows[key := Record(id, WriteColumns(body), body)], db.nextId + 1))
  }

  lemma ReceivePreservesValid(db: Db, auth: Option<string>, body: JsonVal)
    requires Valid(db)
    ensures Valid(Receive(db, auth, body).1)
  {
    var (r, db') := Receive(db, auth, body);
    if r.Stored? {
      var key := WorkOrderKey(body);
      UpsertPreservesValid(db, key, db'.rows[key]);
    }
  }

  /** Writing a consistent row under its key and advancing the counter keeps
      the invariant when the row keeps the key's id, or takes the counter's
      value. */
  lemma UpsertPreservesValid(db: Db, key: JsonVal, rec: Record)
    requires Valid(db)
    requires Stores(key, rec)
    requires key in db.rows ==> rec.id == db.rows[key].id
    requires key !in db.rows ==> rec.id == db.nextId
    ensures Valid(Db(db.rows[key := rec], db.nextId + 1))
  {
    var next := db.nextId + 1;
    var rows := db.rows[key := rec];
    forall k | k in rows
      ensures rows[k].id < next && Stores(k, rows[k])
    {
      if k != key {
        assert rows[k] == db.rows[k];
      }
    }
    forall k1, k2 | k1 in rows && k2 in rows && k1 != k2
      ensures rows[k1].id != rows[k2].id
    {
      if k1 != key && k2 != key {
        assert rows[k1] == db.rows[k1] && rows[k2] == db.rows[k2];
      } else if k1 == key {
        assert rows[k2] == db.rows[k2];
      } else {
        assert rows[k1] == db.rows[k1];
      }
    }
  }

  /** Receiving the same payload twice leaves the rows as receiving it once,
      and answers with the same id. The counter still moves on: the repeated
      upsert allocates a rowid before it meets the UNIQUE conflict. */
  lemma ReceiveIdempotent(db: Db, auth: Option<string>, body: JsonVal)
    ensures var (r1, db1) := Receive(db, auth, body);
            var (r2, db2) := Receive(db1, auth, body);
            && r2 == r1
            && db2.rows == db1.rows
            && (r1.Stored? ==> db2.nextId == db1.nextId + 1)
            && (!r1.Stored? ==> db2 == db1)
  {
    var (r, db') := Receive(db, auth, body);
    if r.Stored? {
      var key := WorkOrderKey(body);
      assert db'.rows[key := Record(r.id, WriteColumns(body), body)] == db'.rows;
    }
  }

  /** Receiving a work order, the same work order again, then another one
      answers ids n, n and n + 2: the update in the middle uses up n + 1. */
  lemma UpdateConsumesId(n: nat, auth: Option<string>, a: JsonVal, b: JsonVal)
    requires Authorized(auth)
    requires a != JUndef && a != JNull && Truthy(WorkOrderKey(a))
    requires b != JUndef && b != JNull && Truthy(WorkOrderKey(b))
    requires WorkOrderKey(a) != WorkOrderKey(b)
    ensures var (r1, db1) := Receive(Db(map[], n), auth, a);
            var (r2, db2) := Receive(db1, auth, a);
            var (r3, db3) := Receive(db2, auth, b);
            r1.Stored? && r2.Stored? && r3.Stored? &&
            r1.id == n && r2.id == n && r3.id == n + 2
  {
  }

  /** `GET /api/mo-receiver/:id` */
  function Read(db: Db, id: int): (r: ReadReply)
    requires Valid(db)
    ensures r.NotFound? <==> forall k :: k in db.rows ==> db.rows[k].id != id
    ensures r.Found? ==>
              exists k :: k in db.rows && db.rows[k].id == id &&
                r.detail == ReadView(db.rows[k].dataJson) && r.detail.workOrder == k
  {
    if exists k :: k in db.rows && db.rows[k].id == id then
      var k :| k in db.rows && db.rows[k].id == id;
      Found(ReadView(db.rows[k].dataJson))
    else NotFound
  }

  /** `DELETE /api/mo-receiver/:id`: removes the rows with that id (at most
      one) and never rewinds the id counter. */
  function Delete(db: Db, id: int): (r: (DeleteReply, Db))
    ensures r.0.NoSuchRow? <==> forall k :: k in db.rows ==> db.rows[k].id != id
    ensures r.0.NoSuchRow? ==> r.1 == db
    ensures r.1.nextId == db.nextId
    ensures forall k :: k in r.1.rows <==> k in db.rows && db.rows[k].id != id
    ensures forall k :: k in r.1.rows ==> r.1.rows[k] == db.rows[k]
  {
    if forall k :: k in db.rows ==> db.rows[k].id != id then (NoSuchRow, db)
    else (Deleted, Db(db.rows - (set k | k in db.rows && db.rows[k].id == id), db.nextId))
  }

  lemma DeletePreservesValid(db: Db, id: int)
    requires Valid(db)
    ensures Valid(Delete(db, id).1)
  {
  }

  /** The HTTP statuses the three handlers answer with: 401 exactly without
      a `Bearer ` header, 400 exactly for a falsy `work_order`, 200 exactly
      when the request is stored, and 404 exactly when no row has the id. */
  lemma HttpStatuses(db: Db, auth: Option<string>, body: JsonVal, id: int)
    requires Valid(db)
    ensures ReceiveStatus(Receive(db, auth, body).0) == 401 <==> !Authorized(auth)
    ensures ReceiveStatus(Receive(db, auth, body).0) == 400 <==>
              Authorized(auth) && body != JUndef && body != JNull && !Truthy(WorkOrderKey(body))
    ensures ReceiveStatus(Receive(db, auth, body).0) == 200 <==>
              Authorized(auth) && body != JUndef && body != JNull && Truthy(WorkOrderKey(body))
    ensures ReadStatus(Read(db, id)) == 404 <==> forall k :: k in db.rows ==> db.rows[k].id != id
    ensures DeleteStatus(Delete(db, id).0) == 404 <==> forall k :: k in db.rows ==> db.rows[k].id != id
  {
  }

  /** What was stored can be read back by the id the receive answered with. */
  lemma ReceiveThenRead(db: Db, auth: Option<string>, body: JsonVal)
    requires Valid(db)
    requires Receive(db, auth, body).0.Stored?
    ensures Valid(Receive(db, auth, body).1)
    ensures Read(Receive(db, auth, body).1, Receive(db, auth, body).0.id) == Found(ReadView(body))
  {
    var (r, db') := Receive(db, auth, body);
    ReceivePreservesValid(db, auth, body);
    assert db'.rows[r.workOrder].id == r.id;
  }

  /** A work order deleted and received again gets a fresh id. */
  lemma DeleteThenReceiveFreshId(db: Db, id: int, auth: Option<string>, body: JsonVal)
    requires Valid(db)
    requires Delete(db, id).0.Deleted?
    requires Receive(Delete(db, id).1, auth, body).0.Stored?
    requires WorkOrderKey(body) in db.rows && db.rows[WorkOrderKey(body)].id == id
    ensures Receive(Delete(db, id).1, auth, body).0.id != id
  {
  }

  /** The two payload shapes carrying the same work-order fields `w` next to
      the same other fields `rest`. */
  function NestedShape(w: map<string, JsonVal>, rest: map<string, JsonVal>): JsonVal {
    JObj(rest["workOrder" := JObj(w)])
  }

  function FlatShape(w: map<string, JsonVal>, rest: map<string, JsonVal>): JsonVal {
    JObj(rest + w)
  }

  /** Nested and flat payloads carrying the same values are accepted alike,
      stored under the same key with the same columns, and read back the same.
      (A falsy nested `work_order` is dropped by `||` while a flat one is kept,
      but either way the request is refused.) */
  lemma NestedAndFlatAgree(w: map<string, JsonVal>, rest: map<string, JsonVal>)
    requires "workOrder" !in w && "workOrder" !in rest && "ingredients" !in w
    requires w.Keys !! rest.Keys
    ensures Truthy(WorkOrderKey(NestedShape(w, rest))) <==> Truthy(WorkOrderKey(FlatShape(w, rest)))
    ensures Truthy(WorkOrderKey(NestedShape(w, rest))) ==>
              && WorkOrderKey(NestedShape(w, rest)) == WorkOrderKey(FlatShape(w, rest))
              && ReadView(NestedShape(w, rest)) == ReadView(FlatShape(w, rest))
    ensures WriteColumns(NestedShape(w, rest)) == WriteColumns(FlatShape(w, rest))
  {
    var n := NestedShape(w, rest);
    var f := FlatShape(w, rest);
    assert Truthy(WorkOrderKey(n)) <==> Truthy(WorkOrderKey(f)) by { ShapeColumn(w, rest, "work_order"); }
    assert Truthy(WorkOrderKey(n)) ==> WorkOrderKey(n) == WorkOrderKey(f) by { ShapeColumn(w, rest, "work_order"); }
    NestedAndFlatColumns(w, rest);
    if Truthy(WorkOrderKey(n)) {
      NestedAndFlatRead(w, rest);
    }
  }

  /** Both shapes read back the same view. */
  lemma NestedAndFlatRead(w: map<string, JsonVal>, rest: map<string, JsonVal>)
    requires "workOrder" !in w && "workOrder" !in rest && "ingredients" !in w
    requires w.Keys !! rest.Keys
    requires WriteColumns(NestedShape(w, rest)) == WriteColumns(FlatShape(w, rest))
    requires WorkOrderKey(NestedShape(w, rest)) == WorkOrderKey(FlatShape(w, rest))
    ensures ReadView(NestedShape(w, rest)) == ReadView(FlatShape(w, rest))
  {
    var n := NestedShape(w, rest);
    var f := FlatShape(w, rest);
    var rn, rf := ReadView(n), ReadView(f);
    assert rn.columns == rf.columns by {
      assert rn.columns.sku == rf.columns.sku by { ShapeColumn(w, rest, "sku"); }
      SameColumnsBesideSku(rn.columns, rf.columns);
    }
    assert rn.ingredients == rf.ingredients by {
      assert Get(n, "ingredients") == Get(f, "ingredients");
    }
  }

  lemma SameColumnsBesideSku(c: Columns, d: Columns)
    requires c.sku == d.sku && c.(sku := JNull) == d.(sku := JNull)
    ensures c == d
  {
  }

  /** Both shapes store the same columns. */
  lemma NestedAndFlatColumns(w: map<string, JsonVal>, rest: map<string, JsonVal>)
    requires "workOrder" !in w && "workOrder" !in rest
    requires w.Keys !! rest.Keys
    ensures WriteColumns(NestedShape(w, rest)) == WriteColumns(FlatShape(w, rest))
  {
    var c := WriteColumns(NestedShape(w, rest));
    var d := WriteColumns(FlatShape(w, rest));
    assert c.sku == d.sku by { ShapeColumn(w, rest, "sku"); }
    assert c.formulationName == d.formulationName by { ShapeColumn(w, rest, "formulation_name"); }
    assert c.productionDate == d.productionDate by { ShapeColumn(w, rest, "production_date"); }
    assert c.plannedQuantity == d.plannedQuantity by { ShapeColumn(w, rest, "planned_quantity"); }
    assert c.status == d.status by { ShapeColumn(w, rest, "status"); }
    assert c.operatorName == d.operatorName by { ShapeColumn(w, rest, "operator_name"); }
    assert c.endTime == d.endTime by { ShapeColumn(w, rest, "end_time"); }
  }

  /** One field read from either shape picks the same value. */
  lemma ShapeColumn(w: map<string, JsonVal>, rest: map<string, JsonVal>, key: string)
    requires "workOrder" !in w && "workOrder" !in rest
    requires w.Keys !! rest.Keys
    requires key != "workOrder"
    ensures var n := NestedShape(w, rest);
            var f := FlatShape(w, rest);
            && Pick(Nested(n, key), Get(n, key)) == Pick(Nested(f, key), Get(f, key))
            && PickDefined(Nested(n, key), Get(n, key)) == PickDefined(Nested(f, key), Get(f, key))
            && (Truthy(Or(Nested(n, key), Get(n, key))) <==> Truthy(Or(Nested(f, key), Get(f, key))))
            && (Truthy(Or(Nested(n, key), Get(n, key))) ==> Or(Nested(n, key), Get(n, key)) == Or(Nested(f, key), Get(f, key)))
  {
    var n := NestedShape(w, rest);
    var f := FlatShape(w, rest);
    NestedReadsWorkOrder(n, key);
    NestedReadsWorkOrder(f, key);
  }

  /** `sku` is the one field whose read precedence differs from its write
      precedence: a nested falsy `sku` is shown on read but skipped on write. */
  lemma SkuReadWriteDiverge()
    ensures var body := JObj(map["workOrder" := JObj(map["work_order" := JStr("MO-1"), "sku" := JStr("")]),
                                 "sku" := JStr("SKU-1")]);
            && WriteColumns(body).sku == JStr("SKU-1")
            && ReadView(body).columns.sku == JStr("")
  {
    var body := JObj(map["workOrder" := JObj(map["work_order" := JStr("MO-1"), "sku" := JStr("")]),
                         "sku" := JStr("SKU-1")]);
    assert Nested(body, "sku") == JStr("");
  }

  /** Read and write agree on `sku` whenever each candidate is absent or truthy. */
  lemma SkuAgreesWhenTruthyOrAbsent(body: JsonVal)
    requires Nested(body, "sku") == JUndef || Truthy(Nested(body, "sku"))
    requires Get(body, "sku") == JUndef || Truthy(Get(body, "sku"))
    ensures ReadView(body).columns == WriteColumns(body)
  {
  }
}
