/**
 What an import leaves in the database (services/imports.py), read off the tables afterwards: first one
 row, then a whole confirmed file.
 */
module ImportEffects {
  import opened Common
  import opened Dates
  import opened Imports
  import Inventory
  import Performance
  import PerformanceRecords

  /** No product has two SKUs of one code. */
  ghost predicate CodesUnique(env: Env, skus: seq<Sku>) {
    forall i, k | 0 <= i < |skus| && 0 <= k < |skus| && i != k :: !IsSku(env, skus[k], skus[i].productId, skus[i].code)
  }

  /** SKU `i` has this product and code, and no other has. */
  ghost predicate OnlySku(env: Env, skus: seq<Sku>, i: int, productId: int, code: string) {
    0 <= i < |skus| && forall k | 0 <= k < |skus| :: IsSku(env, skus[k], productId, code) <==> k == i
  }

  lemma {:induction false} FindSkuFinds(env: Env, skus: seq<Sku>, productId: int, code: string)
    ensures FindSku(env, skus, productId, code).None? <==>
            forall k | 0 <= k < |skus| :: !IsSku(env, skus[k], productId, code)
  {
    if skus != [] {
      var init := skus[..|skus| - 1];
      FindSkuFinds(env, init, productId, code);
      assert forall k | 0 <= k < |init| :: init[k] == skus[k];
      if k :| 0 <= k < |skus| && IsSku(env, skus[k], productId, code) {
        assert k == |init| || IsSku(env, init[k], productId, code);
      }
    }
  }

  lemma FindSkuOnly(env: Env, skus: seq<Sku>, productId: int, code: string)
    requires CodesUnique(env, skus)
    ensures forall i: nat :: FindSku(env, skus, productId, code) == Some(i) <==> OnlySku(env, skus, i, productId, code)
  {
    FindSkuFinds(env, skus, productId, code);
    var found := FindSku(env, skus, productId, code);
    if found.Some? {
      forall k | 0 <= k < |skus| && k != found.value ensures !IsSku(env, skus[k], productId, code) {
        assert !IsSku(env, skus[k], skus[found.value].productId, skus[found.value].code);
      }
    }
  }

  // ----- what stops a SKU row -----------------------------------------------------------

  /** An inactive SKU gets no more than it has, and a new one that is inactive gets nothing. */
  ghost predicate NoGrowth(env: Env, db: Db, d: SkuData)
    requires SkusInitialized(db)
  {
    d.active ||
    (&& (forall i | 0 <= i < |db.skus| && IsSku(env, db.skus[i], d.productId, d.code) ::
           d.stock <= db.stock[i].stock && d.locked <= db.stock[i].locked)
     && ((forall i | 0 <= i < |db.skus| :: !IsSku(env, db.skus[i], d.productId, d.code)) ==>
           d.stock <= 0 && d.locked <= 0))
  }

  predicate ProductOpen(db: Db, id: int) {
    0 <= id < |db.products| && db.products[id].status != Inactive
  }

  /** Preview and handler ask the same of a SKU row, but for the store, which only the preview looks at. */
  lemma SkuRowDecides(env: Env, db: Db, d: SkuData)
    requires CodesUnique(env, db.skus) && SkusInitialized(db)
    ensures Validate(env, db, SkuRow(d)).Ok? <==>
            && ProductOpen(db, d.productId)
            && db.products[d.productId].storeId in db.stores && db.stores[db.products[d.productId].storeId].active
            && 0 <= d.locked <= d.stock && d.warning >= 0 && NoGrowth(env, db, d)
    ensures Passes(env, db, SkuRow(d)) <==>
            ProductOpen(db, d.productId) && d.locked <= d.stock && NoGrowth(env, db, d)
  {
    FindSkuOnly(env, db.skus, d.productId, d.code);
    FindSkuFinds(env, db.skus, d.productId, d.code);
    var found := FindSku(env, db.skus, d.productId, d.code);
    if found.Some? {
      assert OnlySku(env, db.skus, found.value, d.productId, d.code);
    }
  }

  /** A product row needs an active store in which the database sees no product of that name. */
  lemma ProductRowDecides(env: Env, db: Db, row: Row)
    requires row.ProductRow?
    ensures var accepted :=
              && row.storeId in db.stores && db.stores[row.storeId].active
              && forall i | 0 <= i < |db.products| :: db.products[i].storeId == row.storeId ==>
                   env.collate(db.products[i].name) != env.collate(row.name);
            && (Validate(env, db, row).Ok? <==> accepted)
            && (Passes(env, db, row) <==> accepted && row.details.urlLength <= 2048)
  {
  }

  /** Day `day` belongs to the period of `x`. */
  predicate InPeriod(x: Performance.Payload, day: Date) {
    Le(x.start, day) && Le(day, x.end)
  }

  ghost predicate ShareDay(x: Performance.Payload, y: Performance.Payload) {
    exists day: Date :: InPeriod(x, day) && InPeriod(y, day)
  }

  lemma OverlapIsSharedDay(x: Performance.Payload, y: Performance.Payload)
    requires Le(x.start, x.end) && Le(y.start, y.end)
    ensures ShareDay(x, y) <==> Le(x.start, y.end) && Le(y.start, x.end)
  {
    if Le(x.start, y.end) && Le(y.start, x.end) {
      var day := if Le(x.start, y.start) then y.start else x.start;
      assert InPeriod(x, day) && InPeriod(y, day);
    }
  }

  /** A performance row needs a product, links that fit it, and days no active record of the product has. */
  lemma RecordRowDecides(env: Env, db: Db, row: Row)
    requires row.PerformanceRow? && PerformanceRecords.MetricsCurrent(db.records)
    ensures var x := row.payload;
            var accepted :=
              && 0 <= row.productId < |db.products| && env.linksOk(row.productId, x) && Performance.ValidPayload(x)
              && forall id | id in db.records && db.records[id].active && db.records[id].productId == row.productId ::
                   !ShareDay(db.records[id].payload, x);
            && (Validate(env, db, row).Ok? <==> accepted)
            && (Passes(env, db, row) <==> accepted && x.impressions < 0x1_0000_0000_0000_0000)
  {
    if Performance.ValidPayload(row.payload) {
      forall id | id in db.records
        ensures Overlap(db.records[id].payload.start, db.records[id].payload.end, row.payload.start, row.payload.end)
           <==> ShareDay(db.records[id].payload, row.payload)
      {
        assert Performance.ValidRecord(db.records[id]);
        OverlapIsSharedDay(db.records[id].payload, row.payload);
      }
    }
  }

  /** Quantities of 31 bits and locations of 255 characters fit; any product row does. */
  lemma FitsDecides(row: Row)
    ensures row.ProductRow? ==> Fits(row)
    ensures row.SkuRow? ==>
              var d := row.data;
              (Fits(row) <==>
                && 0 <= d.stock < 0x8000_0000 && 0 <= d.locked < 0x8000_0000 && 0 <= d.warning < 0x8000_0000
                && (d.location.Some? ==> |d.location.value| <= 255))
  {
  }

  // ----- rows of one file ---------------------------------------------------------------

  /** Two rows that cannot both be imported: one name, one code, or a common day. */
  ghost predicate Twins(env: Env, a: Row, b: Row) {
    match (a, b)
    case (ProductRow(s, n, _, _), ProductRow(s', n', _, _)) => s == s' && env.fold(n) == env.fold(n')
    case (SkuRow(d), SkuRow(d')) => d.productId == d'.productId && env.fold(d.code) == env.fold(d'.code)
    case (PerformanceRow(p, x), PerformanceRow(p', y)) => p == p' && ShareDay(x, y)
    case _ => false
  }

  /** The preview compares texts of dates; what it finds are common days. */
  lemma ClashIsTwins(env: Env, db: Db, a: Row, b: Row)
    requires Validate(env, db, a).Ok? && Validate(env, db, b).Ok?
    ensures Clash(env, a, b) <==> Twins(env, a, b)
  {
    if a.PerformanceRow? && b.PerformanceRow? {
      IsoOrder(a.payload.start, b.payload.end);
      IsoOrder(b.payload.start, a.payload.end);
      OverlapIsSharedDay(a.payload, b.payload);
    }
  }

  /** A row is marked valid exactly when it passes by itself and no earlier valid row is its twin. */
  lemma ValidExactlyWhen(env: Env, db: Db, raws: seq<RawRow>, valid: seq<bool>, k: nat)
    requires IsPreview(env, db, raws, valid) && k < |raws|
    ensures valid[k] <==>
            && raws[k].Readable? && Validate(env, db, raws[k].row).Ok?
            && forall j | 0 <= j < k && valid[j] :: raws[j].Readable? && !Twins(env, raws[j].row, raws[k].row)
  {
    forall j | 0 <= j < k && valid[j]
      ensures raws[j].Readable? && Validate(env, db, raws[j].row).Ok?
    {
      assert PreviewRow(env, db, raws, valid, j);
    }
    if raws[k].Readable? && Validate(env, db, raws[k].row).Ok? {
      forall j | 0 <= j < k && valid[j]
        ensures Clash(env, raws[j].row, raws[k].row) <==> Twins(env, raws[j].row, raws[k].row)
      {
        ClashIsTwins(env, db, raws[j].row, raws[k].row);
      }
    }
    assert valid[k] <==> PreviewRow(env, db, raws, valid, k);
  }

  // ----- what a row says, and whether the database says so ------------------------------

  predicate ProductAt(db: Db, i: int, row: Row)
    requires row.ProductRow?
  {
    && 0 <= i < |db.products| && row.storeId in db.stores
    && db.products[i] == Product(row.storeId, row.name, db.stores[row.storeId].platform, row.status, row.details)
  }

  /** SKU and stock have what the row says. */
  predicate SkuAt(db: Db, i: int, d: SkuData) {
    && 0 <= i < |db.skus| && i in db.stock
    && db.skus[i].productId == d.productId && db.skus[i].name == d.name
    && db.skus[i].active == d.active && db.skus[i].details == d.details
    && var s := db.stock[i];
       s.stock == d.stock && s.locked == d.locked && s.warning == d.warning && s.location == d.location
  }

  predicate RecordAt(db: Db, id: nat, row: Row)
    requires row.PerformanceRow?
  {
    && id in db.records
    && var r := db.records[id];
       r.productId == row.productId && r.payload == row.payload && r.active && r.version == 1
  }

  /** The data of the row is in the database, once. */
  ghost predicate Says(env: Env, db: Db, row: Row) {
    match row
    case ProductRow(_, _, _, _) => exists i :: ProductAt(db, i, row)
    case SkuRow(d) => exists i :: OnlySku(env, db.skus, i, d.productId, d.code) && SkuAt(db, i, d)
    case PerformanceRow(_, _) => exists id :: RecordAt(db, id, row)
  }

  /** SKUs the row does not name stay as they are, and their stock. */
  predicate SkuKept(before: Db, after: Db, k: int) {
    && 0 <= k < |before.skus| && k < |after.skus| && after.skus[k] == before.skus[k]
    && (k in before.stock <==> k in after.stock) && (k in before.stock ==> after.stock[k] == before.stock[k])
  }

  /** And everything else. */
  ghost predicate RestKept(env: Env, before: Db, after: Db, row: Row) {
    && after.stores == before.stores && before.products <= after.products && |before.skus| <= |after.skus|
    && (row.ProductRow? || after.products == before.products)
    && (row.SkuRow? || (after.skus == before.skus && after.stock == before.stock))
    && (row.PerformanceRow? || (after.records == before.records && after.nextRecord == before.nextRecord))
    && (forall id | id in before.records :: id in after.records && after.records[id] == before.records[id])
    && (row.SkuRow? ==>
          forall k | 0 <= k < |before.skus| && !IsSku(env, before.skus[k], row.data.productId, row.data.code) ::
            SkuKept(before, after, k))
  }

  /** One SKU was put into the table, in its own place or at the end. */
  ghost predicate PutAt(env: Env, before: seq<Sku>, after: seq<Sku>, i: int, productId: int, code: string) {
    && 0 <= i < |after| && |before| <= |after|
    && (forall k | 0 <= k < |after| && k != i :: k < |before| && after[k] == before[k])
    && IsSku(env, after[i], productId, code)
    && (if i < |before| then OnlySku(env, before, i, productId, code)
        else forall k | 0 <= k < |before| :: !IsSku(env, before[k], productId, code))
  }

  lemma PutIsOnly(env: Env, before: seq<Sku>, after: seq<Sku>, i: int, productId: int, code: string)
    requires CodesUnique(env, before) && PutAt(env, before, after, i, productId, code)
    ensures CodesUnique(env, after) && OnlySku(env, after, i, productId, code)
  {
    forall k | 0 <= k < |after| ensures IsSku(env, after[k], productId, code) <==> k == i {
      var sku := after[k];
      if k != i && i < |before| {
        assert IsSku(env, before[k], productId, code) <==> k == i;
      }
    }
    forall a, b | 0 <= a < |after| && 0 <= b < |after| && a != b
      ensures !IsSku(env, after[b], after[a].productId, after[a].code)
    {
      assert a != i ==> !IsSku(env, after[a], productId, code);
      assert b != i ==> !IsSku(env, after[b], productId, code);
    }
  }

  /** What the handler writes for a SKU row. */
  lemma SkuWritten(env: Env, db: Db, d: SkuData) returns (i: int)
    requires CodesUnique(env, db.skus) && Importable(env, db, SkuRow(d))
    ensures var after := Import(env, db, SkuRow(d)).value;
            && PutAt(env, db.skus, after.skus, i, d.productId, d.code)
            && (i < |db.skus| ==> |after.skus| == |db.skus| && i in db.stock && after.skus[i].code == db.skus[i].code)
            && (i >= |db.skus| ==> |after.skus| == |db.skus| + 1 && i == |db.skus| && after.skus[i].code == d.code)
            && after.skus[i].productId == d.productId && after.skus[i].name == d.name
            && after.skus[i].active == d.active && after.skus[i].details == d.details
            && var item := if i < |db.skus| then db.stock[i] else Inventory.NewItem;
            after == db.(skus := after.skus,
                     stock := db.stock[i := Inventory.Imported(item, d.stock, d.locked, d.warning, d.location)])
  {
    var found := FindSku(env, db.skus, d.productId, d.code);
    FindSkuOnly(env, db.skus, d.productId, d.code);
    FindSkuFinds(env, db.skus, d.productId, d.code);
    i := if found.Some? then found.value else |db.skus|;
  }

  /**
   An imported SKU row: one SKU of the product has the code, an older one with its own spelling of it or a
   new one. It has what the row says, its ledger goes on, and no other SKU or stock row is touched.
   */
  lemma SkuImported(env: Env, db: Db, d: SkuData) returns (i: int)
    requires DbInv(db) && CodesUnique(env, db.skus) && Importable(env, db, SkuRow(d))
    ensures var after := Import(env, db, SkuRow(d)).value;
            && OnlySku(env, after.skus, i, d.productId, d.code) && SkuAt(after, i, d)
            && CodesUnique(env, after.skus) && RestKept(env, db, after, SkuRow(d))
            && (if i < |db.skus| then
                  && OnlySku(env, db.skus, i, d.productId, d.code) && |after.skus| == |db.skus|
                  && after.skus[i].code == db.skus[i].code
                  && i in db.stock && db.stock[i].ledger <= after.stock[i].ledger
                else
                  && i == |db.skus| && |after.skus| == |db.skus| + 1 && after.skus[i].code == d.code
                  && forall k | 0 <= k < |db.skus| :: !IsSku(env, db.skus[k], d.productId, d.code))
  {
    i := SkuWritten(env, db, d);
    var after := Import(env, db, SkuRow(d)).value;
    PutIsOnly(env, db.skus, after.skus, i, d.productId, d.code);
    StockWritten(db, after, i, d);
  }

  lemma StockWritten(db: Db, after: Db, i: int, d: SkuData)
    requires DbInv(db) && 0 <= d.locked <= d.stock && (0 <= i < |db.skus| ==> i in db.stock)
    requires var item := if 0 <= i < |db.skus| then db.stock[i] else Inventory.NewItem;
             after.stock == db.stock[i := Inventory.Imported(item, d.stock, d.locked, d.warning, d.location)]
    ensures var s := after.stock[i];
            && s.stock == d.stock && s.locked == d.locked && s.warning == d.warning && s.location == d.location
            && (0 <= i < |db.skus| ==> db.stock[i].ledger <= s.ledger)
  {
    Inventory.NewItemInv();
    var item := if 0 <= i < |db.skus| then db.stock[i] else Inventory.NewItem;
    Inventory.ImportedInv(item, d.stock, d.locked, d.warning, d.location);
  }

  /** An imported product row: one product more, with the platform of its store. */
  lemma ProductImported(env: Env, db: Db, row: Row)
    requires row.ProductRow? && Importable(env, db, row)
    ensures var after := Import(env, db, row).value;
            && ProductAt(after, |db.products|, row) && |after.products| == |db.products| + 1
            && RestKept(env, db, after, row)
  {
  }

  /** An imported performance row: one active record more, with the rates of its numbers. */
  lemma RecordImported(env: Env, db: Db, row: Row) returns (id: nat)
    requires row.PerformanceRow? && DbOk(db) && Importable(env, db, row)
    ensures var after := Import(env, db, row).value;
            && id !in db.records && RecordAt(after, id, row) && after.records.Keys == db.records.Keys + {id}
            && Performance.ValidRecord(after.records[id])
            && RestKept(env, db, after, row)
  {
    id := db.nextRecord;
  }

  /** What one row of any kind leaves. */
  lemma RowImported(env: Env, db: Db, row: Row)
    requires DbInv(db) && CodesUnique(env, db.skus) && Importable(env, db, row)
    ensures var after := Import(env, db, row).value;
            Says(env, after, row) && RestKept(env, db, after, row) && CodesUnique(env, after.skus) && DbInv(after)
  {
    ImportKeepsDb(env, db, row);
    match row
    case ProductRow(_, _, _, _) => ProductImported(env, db, row);
    case SkuRow(d) => var i := SkuImported(env, db, d);
    case PerformanceRow(_, _) => var id := RecordImported(env, db, row);
  }

  // ----- a whole file -------------------------------------------------------------------

  /** What a row said stays said when a row of the same kind is imported that does not clash with it. */
  lemma StaysSaid(env: Env, db: Db, said: Row, row: Row)
    requires DbInv(db) && CodesUnique(env, db.skus) && Importable(env, db, row)
    requires Says(env, db, said) && KindOf(said) == KindOf(row) && !Clash(env, said, row)
    ensures Says(env, Import(env, db, row).value, said)
  {
    RowImported(env, db, row);
    var after := Import(env, db, row).value;
    match said
    case ProductRow(_, _, _, _) =>
      var i :| ProductAt(db, i, said);
      assert ProductAt(after, i, said);
    case SkuRow(d) => SkuStaysSaid(env, db, d, row.data);
    case PerformanceRow(_, _) =>
      var id :| RecordAt(db, id, said);
      assert RecordAt(after, id, said);
  }

  lemma SkuStaysSaid(env: Env, db: Db, d: SkuData, e: SkuData)
    requires DbInv(db) && CodesUnique(env, db.skus) && Importable(env, db, SkuRow(e))
    requires Says(env, db, SkuRow(d)) && !Clash(env, SkuRow(d), SkuRow(e))
    ensures Says(env, Import(env, db, SkuRow(e)).value, SkuRow(d))
  {
    var i :| OnlySku(env, db.skus, i, d.productId, d.code) && SkuAt(db, i, d);
    var j := SkuImported(env, db, e);
    var after := Import(env, db, SkuRow(e)).value;
    assert IsSku(env, db.skus[i], d.productId, d.code);
    assert SkuKept(db, after, i);
    assert IsSku(env, after.skus[j], e.productId, e.code);
    forall k | 0 <= k < |after.skus| ensures IsSku(env, after.skus[k], d.productId, d.code) <==> k == i {
      if k < |db.skus| && k != j {
        assert after.skus[k] == db.skus[k];
      }
    }
    assert OnlySku(env, after.skus, i, d.productId, d.code);
    assert SkuAt(after, i, d);
  }

  lemma {:induction false} ConfirmKeepsCodes(env: Env, db: Db, raws: seq<RawRow>, valid: seq<bool>, k: nat)
    requires k <= |raws| == |valid| && DbInv(db) && CodesUnique(env, db.skus)
    ensures var r := ConfirmUpto(env, db, raws, valid, k);
            r.Some? ==> DbInv(r.value) && CodesUnique(env, r.value.skus)
  {
    ConfirmKeepsDb(env, db, raws, valid, k);
    if k > 0 {
      ConfirmKeepsCodes(env, db, raws, valid, k - 1);
      if ImportsRow(env, db, raws, valid, k - 1) {
        RowImported(env, ConfirmUpto(env, db, raws, valid, k - 1).value, raws[k - 1].row);
      }
    }
  }

  /** Row `k - 1` takes the database from `before` to `after`, or leaves it. */
  ghost predicate Turn(env: Env, db: Db, raws: seq<RawRow>, valid: seq<bool>, k: nat, before: Db, after: Db) {
    && 0 < k <= |raws| == |valid| && DbInv(before) && CodesUnique(env, before.skus)
    && if ImportsRow(env, db, raws, valid, k - 1) then Import(env, before, raws[k - 1].row) == Ok(after)
       else after == before
  }

  lemma IsTurn(env: Env, db: Db, raws: seq<RawRow>, valid: seq<bool>, k: nat)
    requires 0 < k <= |raws| == |valid| && ConfirmUpto(env, db, raws, valid, k).Some?
    requires var before := ConfirmUpto(env, db, raws, valid, k - 1);
             before.Some? && DbInv(before.value) && CodesUnique(env, before.value.skus)
    ensures var before, after := ConfirmUpto(env, db, raws, valid, k - 1).value,
                                 ConfirmUpto(env, db, raws, valid, k).value;
            Turn(env, db, raws, valid, k, before, after) && after.stores == before.stores
  {
  }

  lemma ValidRowsDoNotClash(env: Env, db: Db, raws: seq<RawRow>, valid: seq<bool>, j: nat, k: nat)
    requires IsPreview(env, db, raws, valid) && j < k < |raws| && valid[j] && valid[k] && raws[j].Readable?
    ensures raws[k].Readable? && !Clash(env, raws[j].row, raws[k].row)
  {
    assert PreviewRow(env, db, raws, valid, k);
  }

  lemma SaidNext(env: Env, db: Db, kind: ImportKind, raws: seq<RawRow>, valid: seq<bool>, k: nat, before: Db,
                 after: Db, j: nat)
    requires Turn(env, db, raws, valid, k, before, after) && IsPreview(env, db, raws, valid) && OneKind(kind, raws)
    requires j < k - 1 && valid[j] && raws[j].Readable? && Says(env, before, raws[j].row)
    ensures Says(env, after, raws[j].row)
  {
    if ImportsRow(env, db, raws, valid, k - 1) {
      ValidRowsDoNotClash(env, db, raws, valid, j, k - 1);
      StaysSaid(env, before, raws[j].row, raws[k - 1].row);
    }
  }

  /** Whatever has been imported is in the database when the confirmation is through. */
  lemma {:induction false} ConfirmedIsSaid(env: Env, db: Db, kind: ImportKind, raws: seq<RawRow>, valid: seq<bool>,
                                           k: nat, j: nat) returns (after: Db)
    requires DbInv(db) && CodesUnique(env, db.skus) && OneKind(kind, raws) && IsPreview(env, db, raws, valid)
    requires j < k <= |raws| && ConfirmUpto(env, db, raws, valid, k).Some? && ImportsRow(env, db, raws, valid, j)
    ensures ConfirmUpto(env, db, raws, valid, k) == Some(after) && Says(env, after, raws[j].row)
  {
    var before;
    before, after := TurnAt(env, db, raws, valid, k);
    if j == k - 1 {
      RowImported(env, before, raws[j].row);
    } else {
      var same := ConfirmedIsSaid(env, db, kind, raws, valid, k - 1, j);
      SaidNext(env, db, kind, raws, valid, k, before, after, j);
    }
  }

  lemma TurnAt(env: Env, db: Db, raws: seq<RawRow>, valid: seq<bool>, k: nat) returns (before: Db, after: Db)
    requires DbInv(db) && CodesUnique(env, db.skus) && 0 < k <= |raws| == |valid|
    requires ConfirmUpto(env, db, raws, valid, k).Some?
    ensures ConfirmUpto(env, db, raws, valid, k - 1) == Some(before)
    ensures ConfirmUpto(env, db, raws, valid, k) == Some(after)
    ensures Turn(env, db, raws, valid, k, before, after) && after.stores == before.stores
  {
    ConfirmKeepsCodes(env, db, raws, valid, k - 1);
    IsTurn(env, db, raws, valid, k);
    before, after := ConfirmUpto(env, db, raws, valid, k - 1).value, ConfirmUpto(env, db, raws, valid, k).value;
  }

  // ----- nothing else -------------------------------------------------------------------

  /** Among the first `k` rows, one that was imported names this SKU. */
  ghost predicate NamedByFile(env: Env, db: Db, raws: seq<RawRow>, valid: seq<bool>, k: nat, sku: Sku)
    requires k <= |raws| == |valid|
  {
    exists j :: 0 <= j < k && ImportsRow(env, db, raws, valid, j) && raws[j].row.SkuRow? &&
                IsSku(env, sku, raws[j].row.data.productId, raws[j].row.data.code)
  }

  ghost predicate ProductOfFile(env: Env, db: Db, raws: seq<RawRow>, valid: seq<bool>, k: nat, after: Db, p: int)
    requires k <= |raws| == |valid|
  {
    exists j :: 0 <= j < k && ImportsRow(env, db, raws, valid, j) && raws[j].row.ProductRow? &&
                ProductAt(after, p, raws[j].row)
  }

  ghost predicate RecordOfFile(env: Env, db: Db, raws: seq<RawRow>, valid: seq<bool>, k: nat, after: Db, id: nat)
    requires k <= |raws| == |valid|
  {
    exists j :: 0 <= j < k && ImportsRow(env, db, raws, valid, j) && raws[j].row.PerformanceRow? &&
                RecordAt(after, id, raws[j].row)
  }

  ghost predicate ProductsFromFile(env: Env, db: Db, raws: seq<RawRow>, valid: seq<bool>, k: nat, after: Db)
    requires k <= |raws| == |valid|
  {
    && db.products <= after.products
    && forall p | |db.products| <= p < |after.products| :: ProductOfFile(env, db, raws, valid, k, after, p)
  }

  ghost predicate RecordsFromFile(env: Env, db: Db, raws: seq<RawRow>, valid: seq<bool>, k: nat, after: Db)
    requires k <= |raws| == |valid|
  {
    && (forall id | id in db.records :: id in after.records && after.records[id] == db.records[id])
    && forall id | id in after.records && id !in db.records :: RecordOfFile(env, db, raws, valid, k, after, id)
  }

  ghost predicate SkusFromFile(env: Env, db: Db, raws: seq<RawRow>, valid: seq<bool>, k: nat, after: Db)
    requires k <= |raws| == |valid|
  {
    && |db.skus| <= |after.skus|
    && forall i | 0 <= i < |after.skus| ::
         SkuKept(db, after, i) || NamedByFile(env, db, raws, valid, k, after.skus[i])
  }

  /** Everything is as it was, or is what an imported row says, or is a SKU that one names. */
  ghost predicate OnlyTheFile(env: Env, db: Db, raws: seq<RawRow>, valid: seq<bool>, k: nat, after: Db)
    requires k <= |raws| == |valid|
  {
    && after.stores == db.stores && ProductsFromFile(env, db, raws, valid, k, after)
    && RecordsFromFile(env, db, raws, valid, k, after) && SkusFromFile(env, db, raws, valid, k, after)
  }

  lemma ProductsNext(env: Env, db: Db, raws: seq<RawRow>, valid: seq<bool>, k: nat, before: Db, after: Db)
    requires Turn(env, db, raws, valid, k, before, after)
    requires ProductsFromFile(env, db, raws, valid, k - 1, before)
    ensures ProductsFromFile(env, db, raws, valid, k, after)
  {
    if ImportsRow(env, db, raws, valid, k - 1) {
      RowImported(env, before, raws[k - 1].row);
      if raws[k - 1].row.ProductRow? {
        ProductImported(env, before, raws[k - 1].row);
      }
    }
    forall p | |db.products| <= p < |after.products| ensures ProductOfFile(env, db, raws, valid, k, after, p) {
      if p < |before.products| {
        assert ProductOfFile(env, db, raws, valid, k - 1, before, p);
        assert after.products[p] == before.products[p];
      }
    }
  }

  lemma RecordsNext(env: Env, db: Db, raws: seq<RawRow>, valid: seq<bool>, k: nat, before: Db, after: Db)
    requires Turn(env, db, raws, valid, k, before, after)
    requires RecordsFromFile(env, db, raws, valid, k - 1, before)
    ensures RecordsFromFile(env, db, raws, valid, k, after)
  {
    var added := 0;
    if ImportsRow(env, db, raws, valid, k - 1) {
      RowImported(env, before, raws[k - 1].row);
      if raws[k - 1].row.PerformanceRow? {
        added := RecordImported(env, before, raws[k - 1].row);
      }
    }
    forall id | id in after.records && id !in db.records ensures RecordOfFile(env, db, raws, valid, k, after, id) {
      if id in before.records {
        assert RecordOfFile(env, db, raws, valid, k - 1, before, id);
        assert after.records[id] == before.records[id];
      }
    }
  }

  lemma SkusNext(env: Env, db: Db, raws: seq<RawRow>, valid: seq<bool>, k: nat, before: Db, after: Db)
    requires Turn(env, db, raws, valid, k, before, after)
    requires SkusFromFile(env, db, raws, valid, k - 1, before)
    ensures SkusFromFile(env, db, raws, valid, k, after)
  {
    if ImportsRow(env, db, raws, valid, k - 1) {
      RowImported(env, before, raws[k - 1].row);
      if raws[k - 1].row.SkuRow? {
        var at := SkuImported(env, before, raws[k - 1].row.data);
      }
    }
    forall i | 0 <= i < |after.skus|
      ensures SkuKept(db, after, i) || NamedByFile(env, db, raws, valid, k, after.skus[i])
    {
      SkuNext(env, db, raws, valid, k, before, after, i);
    }
  }

  lemma SkuNext(env: Env, db: Db, raws: seq<RawRow>, valid: seq<bool>, k: nat, before: Db, after: Db, i: int)
    requires 0 < k <= |raws| == |valid| && 0 <= i < |after.skus|
    requires SkusFromFile(env, db, raws, valid, k - 1, before)
    requires (ImportsRow(env, db, raws, valid, k - 1) && raws[k - 1].row.SkuRow? &&
              IsSku(env, after.skus[i], raws[k - 1].row.data.productId, raws[k - 1].row.data.code)) ||
             SkuKept(before, after, i)
    ensures SkuKept(db, after, i) || NamedByFile(env, db, raws, valid, k, after.skus[i])
  {
    if SkuKept(before, after, i) {
      assert SkuKept(db, before, i) || NamedByFile(env, db, raws, valid, k - 1, before.skus[i]);
    }
  }

  lemma OneTurn(env: Env, db: Db, raws: seq<RawRow>, valid: seq<bool>, k: nat, before: Db, after: Db)
    requires Turn(env, db, raws, valid, k, before, after) && after.stores == before.stores
    requires OnlyTheFile(env, db, raws, valid, k - 1, before)
    ensures OnlyTheFile(env, db, raws, valid, k, after)
  {
    ProductsNext(env, db, raws, valid, k, before, after);
    RecordsNext(env, db, raws, valid, k, before, after);
    SkusNext(env, db, raws, valid, k, before, after);
  }

  lemma NothingYet(env: Env, db: Db, raws: seq<RawRow>, valid: seq<bool>)
    requires |raws| == |valid|
    ensures OnlyTheFile(env, db, raws, valid, 0, db)
  {
  }

  /** After a confirmation every table is as it was, but for what its imported rows say. */
  lemma {:induction false} ConfirmTouchesOnlyTheFile(env: Env, db: Db, raws: seq<RawRow>, valid: seq<bool>, k: nat)
    returns (after: Db)
    requires DbInv(db) && CodesUnique(env, db.skus) && k <= |raws| == |valid|
    requires ConfirmUpto(env, db, raws, valid, k).Some?
    ensures ConfirmUpto(env, db, raws, valid, k) == Some(after) && OnlyTheFile(env, db, raws, valid, k, after)
  {
    after := db;
    if k == 0 {
      NothingYet(env, db, raws, valid);
    } else {
      var before;
      before, after := TurnAt(env, db, raws, valid, k);
      var same := ConfirmTouchesOnlyTheFile(env, db, raws, valid, k - 1);
      OneTurn(env, db, raws, valid, k, before, after);
    }
  }
}
