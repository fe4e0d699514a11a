/**
 The services that write stores, products, SKUs, stock and performance records (services/skus.py,
 services/inventory.py, services/performance.py, services/imports.py), one request after the other:
 what holds in every database they can produce, and what a preview promises there.
 */
module Backoffice {
  import opened Common
  import opened Dates
  import opened Imports
  import opened ImportEffects
  import Inventory
  import Performance
  import PerformanceRecords

  datatype Write =
    | SetStore(id: int, store: StoreRow)
    | AddProduct(product: Product)
    | ChangeProduct(productId: nat, product: Product)
    | AddSku(sku: Sku)
    | ChangeSku(skuId: nat, sku: Sku)
    | Stock(skuId: nat, operation: Inventory.Operation)
    | AddRecord(owner: nat, payload: Performance.Payload)
    | ChangeRecord(recordId: nat, payload: Performance.Payload, expected: int)
    | VoidRecord(recordId: nat, expected: int)
    | ConfirmFile(raws: seq<RawRow>, valid: seq<bool>)

  const Empty := Db(map[], [], [], map[], map[], 0)

  predicate AllowsActiveSku(db: Db, productId: int) {
    ProductExists(db, productId) && db.products[productId].status != Inactive
    && StoreActive(db, db.products[productId].storeId)
  }

  predicate CodeFree(env: Env, db: Db, sku: Sku, except: nat) {
    forall i | 0 <= i < |db.skus| && i != except :: !IsSku(env, db.skus[i], sku.productId, sku.code)
  }

  predicate MayRecord(env: Env, db: Db, productId: nat, x: Performance.Payload, except: Option<nat>) {
    && ProductExists(db, productId) && Performance.ValidPayload(x) && Performance.FitsColumns(x)
    && env.linksOk(productId, x)
    && PerformanceRecords.PeriodAvailable(db.records, productId, x.start, x.end, except)
  }

  /** A request; one that is rejected, or that the database refuses, changes nothing. */
  function Perform(env: Env, db: Db, w: Write): Db {
    match w
    case SetStore(id, store) => db.(stores := db.stores[id := store])
    case AddProduct(product) => db.(products := db.products + [product])
    case ChangeProduct(id, product) =>
      if id >= |db.products| then db else db.(products := db.products[id := product])
    case AddSku(sku) =>
      if !AllowsActiveSku(db, sku.productId) || !CodeFree(env, db, sku, |db.skus|) then db
      else db.(skus := db.skus + [sku], stock := db.stock[|db.skus| := Inventory.NewItem])
    case ChangeSku(id, sku) =>
      if id >= |db.skus| || sku.productId != db.skus[id].productId || !CodeFree(env, db, sku, id) then db
      else db.(skus := db.skus[id := sku])
    case Stock(id, operation) =>
      if id !in db.stock then db else db.(stock := db.stock[id := Inventory.Operate(db.stock[id], operation)])
    case AddRecord(owner, x) =>
      if !MayRecord(env, db, owner, x, None) then db
      else db.(records := db.records[db.nextRecord := PerformanceRecords.NewRecord(owner, x)],
           nextRecord := db.nextRecord + 1)
    case ChangeRecord(id, x, expected) =>
      if !PerformanceRecords.Matches(db.records, id, expected) ||
         !MayRecord(env, db, db.records[id].productId, x, Some(id)) then db
      else db.(records := db.records[id := PerformanceRecords.Rewritten(db.records[id], x)])
    case VoidRecord(id, expected) =>
      if !PerformanceRecords.Matches(db.records, id, expected) then db
      else db.(records := db.records[id := PerformanceRecords.Voided(db.records[id])])
    case ConfirmFile(raws, valid) =>
      if |raws| != |valid| then db
      else (match ConfirmUpto(env, db, raws, valid, |raws|) case Some(after) => after case None => db)
  }

  function PerformAll(env: Env, db: Db, writes: seq<Write>): Db
    decreases |writes|
  {
    if writes == [] then db else PerformAll(env, Perform(env, db, writes[0]), writes[1..])
  }

  lemma EmptyInv()
    ensures DbInv(Empty)
  {
  }

  /** SKU creation writes the inventory row beside the SKU. */
  lemma SkuWritesKeepDb(env: Env, db: Db, w: Write)
    requires DbInv(db) && (w.AddSku? || w.ChangeSku? || w.Stock?)
    ensures DbInv(Perform(env, db, w))
  {
    Inventory.NewItemInv();
    if w.Stock? && w.skuId in db.stock {
      Inventory.OperateKeepsInv(db.stock[w.skuId], w.operation);
    }
  }

  /** A checked record, new or rewritten, on the table alone. */
  lemma RecordPut(db: Db, id: nat, r: Performance.Record, nextRecord: nat)
    requires DbInv(db) && db.nextRecord <= nextRecord && id < nextRecord && Performance.ValidRecord(r)
    requires PerformanceRecords.PeriodAvailable(db.records, r.productId, r.payload.start, r.payload.end, Some(id))
    ensures DbInv(db.(records := db.records[id := r], nextRecord := nextRecord))
  {
    PerformanceRecords.PutKeepsDisjoint(db.records, id, r);
  }

  lemma AddRecordKeepsDb(env: Env, db: Db, owner: nat, x: Performance.Payload)
    requires DbInv(db)
    ensures DbInv(Perform(env, db, AddRecord(owner, x)))
  {
    if MayRecord(env, db, owner, x, None) {
      RecordPut(db, db.nextRecord, PerformanceRecords.NewRecord(owner, x), db.nextRecord + 1);
    }
  }

  lemma ChangeRecordKeepsDb(env: Env, db: Db, id: nat, x: Performance.Payload, expected: int)
    requires DbInv(db)
    ensures DbInv(Perform(env, db, ChangeRecord(id, x, expected)))
  {
    if PerformanceRecords.Matches(db.records, id, expected) &&
       MayRecord(env, db, db.records[id].productId, x, Some(id)) {
      RecordPut(db, id, PerformanceRecords.Rewritten(db.records[id], x), db.nextRecord);
    }
  }

  lemma VoidRecordKeepsDb(env: Env, db: Db, id: nat, expected: int)
    requires DbInv(db)
    ensures DbInv(Perform(env, db, VoidRecord(id, expected)))
  {
  }

  lemma RecordWritesKeepDb(env: Env, db: Db, w: Write)
    requires DbInv(db) && (w.AddRecord? || w.ChangeRecord? || w.VoidRecord?)
    ensures DbInv(Perform(env, db, w))
  {
    match w
    case AddRecord(owner, x) => AddRecordKeepsDb(env, db, owner, x);
    case ChangeRecord(id, x, expected) => ChangeRecordKeepsDb(env, db, id, x, expected);
    case VoidRecord(id, expected) => VoidRecordKeepsDb(env, db, id, expected);
  }

  lemma PerformKeepsDb(env: Env, db: Db, w: Write)
    requires DbInv(db)
    ensures DbInv(Perform(env, db, w))
  {
    if w.AddSku? || w.ChangeSku? || w.Stock? {
      SkuWritesKeepDb(env, db, w);
    } else if w.AddRecord? || w.ChangeRecord? || w.VoidRecord? {
      RecordWritesKeepDb(env, db, w);
    } else if w.ConfirmFile? && |w.raws| == |w.valid| {
      ConfirmKeepsDb(env, db, w.raws, w.valid, |w.raws|);
    }
  }

  /**
   In every database the services can produce, by any sequence of requests and confirmed files: each SKU
   has its inventory row, each ledger replays to its row, and active periods of a product are disjoint.
   */
  lemma {:induction false} StoresStayInOrder(env: Env, db: Db, writes: seq<Write>)
    requires DbInv(db)
    ensures DbInv(PerformAll(env, db, writes))
    decreases |writes|
  {
    if writes != [] {
      PerformKeepsDb(env, db, writes[0]);
      StoresStayInOrder(env, Perform(env, db, writes[0]), writes[1..]);
    }
  }

  /**
   What a preview promises in every such database, for every file: the confirmation goes through if and
   only if each row that is due fits its columns, and then imports exactly the rows that are due.
   */
  lemma PreviewInPractice(env: Env, writes: seq<Write>, kind: ImportKind, raws: seq<RawRow>, valid: seq<bool>)
    requires OneKind(kind, raws) && IsPreview(env, PerformAll(env, Empty, writes), raws, valid)
    ensures var db := PerformAll(env, Empty, writes);
            var r := ConfirmUpto(env, db, raws, valid, |raws|);
            && (r.Some? <==> forall i | 0 <= i < |raws| :: Due(env, raws, valid, i) ==> Fits(raws[i].row))
            && (r.Some? ==> DbInv(r.value) && forall i | 0 <= i < |raws| ::
                  ImportsRow(env, db, raws, valid, i) <==> Due(env, raws, valid, i))
  {
    EmptyInv();
    StoresStayInOrder(env, Empty, writes);
    var db := PerformAll(env, Empty, writes);
    InitializedPreview(env, db, kind, raws, valid);
    ConfirmKeepsDb(env, db, raws, valid, |raws|);
  }

  lemma PerformKeepsCodes(env: Env, db: Db, w: Write)
    requires DbInv(db) && CodesUnique(env, db.skus)
    ensures CodesUnique(env, Perform(env, db, w).skus)
  {
    if w.ConfirmFile? && |w.raws| == |w.valid| {
      ConfirmKeepsCodes(env, db, w.raws, w.valid, |w.raws|);
    }
  }

  lemma {:induction false} CodesStayUnique(env: Env, db: Db, writes: seq<Write>)
    requires DbInv(db) && CodesUnique(env, db.skus)
    ensures CodesUnique(env, PerformAll(env, db, writes).skus)
    decreases |writes|
  {
    if writes != [] {
      PerformKeepsDb(env, db, writes[0]);
      PerformKeepsCodes(env, db, writes[0]);
      CodesStayUnique(env, Perform(env, db, writes[0]), writes[1..]);
    }
  }

  /**
   What a confirmed file leaves in every such database: each row that was imported is there, its SKU being
   the only one with its code, and nothing else has been added or changed.
   */
  lemma ConfirmedFileIsThere(env: Env, writes: seq<Write>, kind: ImportKind, raws: seq<RawRow>, valid: seq<bool>,
                             after: Db)
    requires OneKind(kind, raws) && IsPreview(env, PerformAll(env, Empty, writes), raws, valid)
    requires ConfirmUpto(env, PerformAll(env, Empty, writes), raws, valid, |raws|) == Some(after)
    ensures var db := PerformAll(env, Empty, writes);
            && OnlyTheFile(env, db, raws, valid, |raws|, after)
            && forall j | 0 <= j < |raws| && Due(env, raws, valid, j) :: Says(env, after, raws[j].row)
  {
    var db := PerformAll(env, Empty, writes);
    EmptyInv();
    StoresStayInOrder(env, Empty, writes);
    CodesStayUnique(env, Empty, writes);
    InitializedPreview(env, db, kind, raws, valid);
    var same := ConfirmTouchesOnlyTheFile(env, db, raws, valid, |raws|);
    forall j | 0 <= j < |raws| && Due(env, raws, valid, j) ensures Says(env, after, raws[j].row) {
      var again := ConfirmedIsSaid(env, db, kind, raws, valid, |raws|, j);
    }
  }

  // ----- a file that is valid and cannot be confirmed -----------------------------

  /** One cent spent and ten thousand earned on one day. */
  const HighReturn := Performance.Payload(RawDate(2026, 9, 1), RawDate(2026, 9, 1), 0, 0, 0, 1, 1_000_000, [])

  const OneProduct :=
    [SetStore(1, StoreRow(true, "shop")), AddProduct(Product(1, "cup", "shop", Active, Details("", 0)))]

  /** The preview marks its only row valid, and the confirmation aborts. */
  lemma ValidFileAborts(env: Env)
    requires env.linksOk(0, HighReturn)
    ensures var db := PerformAll(env, Empty, OneProduct);
            var file := [Readable(PerformanceRow(0, HighReturn))];
            IsPreview(env, db, file, [true]) && ConfirmUpto(env, db, file, [true], 1) == None
  {
    var first, second := OneProduct[0], OneProduct[1];
    assert OneProduct[1..] == [second] && [second][1..] == [];
    var db := Perform(env, Perform(env, Empty, first), second);
    assert PerformAll(env, Perform(env, Empty, first), [second]) == PerformAll(env, db, []);
    var row := PerformanceRow(0, HighReturn);
    assert db.records == map[] && |db.products| == 1;
    assert Validate(env, db, row).Ok?;
    HighReturnAborts(env, db, 0, HighReturn);
    assert ConfirmUpto(env, db, [Readable(row)], [true], 0) == Some(db);
    assert PreviewRow(env, db, [Readable(row)], [true], 0);
  }
}
