/**
 Preview and confirmation as the loops they are (services/imports.py): a file-level set of keys and
 a list of periods during preview, a savepoint around each row during confirmation.
 */
module ImportCentre {
  import opened Common
  import opened Dates
  import opened Imports
  import Inventory
  import Performance
  import PerformanceRecords

  // ----- preview ----------------------------------------------------------------

  /** The business key of a row, as the preview puts it into its set. */
  datatype Key =
    | ProductKey(storeId: int, folded: string)
    | SkuKey(productId: int, folded: string)
    | PeriodKey(productId: int, start: string, end: string)

  function KeyOf(env: Env, row: Row): Key {
    match row
    case ProductRow(storeId, name, _, _) => ProductKey(storeId, env.fold(name))
    case SkuRow(d) => SkuKey(d.productId, env.fold(d.code))
    case PerformanceRow(productId, p) => PeriodKey(productId, Iso(p.start), Iso(p.end))
  }

  datatype Period = Period(start: string, end: string)

  function PeriodOf(row: Row): Period
    requires row.PerformanceRow?
  {
    Period(Iso(row.payload.start), Iso(row.payload.end))
  }

  predicate TextOverlap(a: Period, b: Period) {
    TextLe(a.start, b.end) && TextLe(b.start, a.end)
  }

  predicate KeyAt(env: Env, raws: seq<RawRow>, valid: seq<bool>, j: int, key: Key) {
    0 <= j < |valid| <= |raws| && valid[j] && raws[j].Readable? && KeyOf(env, raws[j].row) == key
  }

  predicate PeriodAt(raws: seq<RawRow>, valid: seq<bool>, j: int, productId: int, x: Period) {
    && 0 <= j < |valid| <= |raws| && valid[j] && raws[j].Readable? && raws[j].row.PerformanceRow?
    && raws[j].row.productId == productId && PeriodOf(raws[j].row) == x
  }

  /** The set holds exactly the keys of the valid rows decided so far. */
  ghost predicate KeysOk(env: Env, raws: seq<RawRow>, valid: seq<bool>, seen: set<Key>) {
    && (forall key | key in seen :: exists j :: KeyAt(env, raws, valid, j, key))
    && (forall j, key | KeyAt(env, raws, valid, j, key) :: key in seen)
  }

  /** The lists hold exactly the periods of the valid rows decided so far. */
  ghost predicate PeriodsOk(raws: seq<RawRow>, valid: seq<bool>, periods: map<int, seq<Period>>) {
    && (forall p, x | p in periods && x in periods[p] :: exists j :: PeriodAt(raws, valid, j, p, x))
    && (forall j, p, x | PeriodAt(raws, valid, j, p, x) :: p in periods && x in periods[p])
  }

  ghost predicate Collected(env: Env, raws: seq<RawRow>, valid: seq<bool>,
                            seen: set<Key>, periods: map<int, seq<Period>>)
  {
    KeysOk(env, raws, valid, seen) && PeriodsOk(raws, valid, periods)
  }

  /** Two valid periods with the same text overlap. */
  lemma SameKeyClashes(env: Env, a: Row, b: Row)
    requires KeyOf(env, a) == KeyOf(env, b)
    requires b.PerformanceRow? ==> Performance.ValidPayload(b.payload)
    ensures Clash(env, a, b)
  {
    if b.PerformanceRow? {
      IsoOrder(b.payload.start, b.payload.end);
    }
  }

  /** What the file-level checks see in one row, against what the preview rule says. */
  lemma ChecksMeanClash(env: Env, raws: seq<RawRow>, valid: seq<bool>,
                        seen: set<Key>, periods: map<int, seq<Period>>, row: Row)
    requires |valid| <= |raws| && Collected(env, raws, valid, seen, periods)
    requires row.PerformanceRow? ==> Performance.ValidPayload(row.payload)
    ensures (KeyOf(env, row) in seen ||
             (row.PerformanceRow? && row.productId in periods &&
              exists x :: x in periods[row.productId] && TextOverlap(x, PeriodOf(row)))) <==>
            exists j :: 0 <= j < |valid| && valid[j] && raws[j].Readable? && Clash(env, raws[j].row, row)
  {
    if KeyOf(env, row) in seen {
      var j :| KeyAt(env, raws, valid, j, KeyOf(env, row));
      SameKeyClashes(env, raws[j].row, row);
    }
    if j :| 0 <= j < |valid| && valid[j] && raws[j].Readable? && Clash(env, raws[j].row, row) {
      if row.PerformanceRow? {
        assert PeriodAt(raws, valid, j, row.productId, PeriodOf(raws[j].row));
        assert TextOverlap(PeriodOf(raws[j].row), PeriodOf(row));
      } else {
        assert KeyAt(env, raws, valid, j, KeyOf(env, row));
      }
    }
  }

  method AnyOverlap(periods: seq<Period>, x: Period) returns (r: bool)
    ensures r <==> exists y :: y in periods && TextOverlap(y, x)
  {
    r := false;
    for i := 0 to |periods|
      invariant r <==> exists y :: y in periods[..i] && TextOverlap(y, x)
    {
      assert periods[..i + 1] == periods[..i] + [periods[i]];
      r := r || TextOverlap(periods[i], x);
    }
    assert periods[..|periods|] == periods;
  }

  /** The file-level part of one row's check. */
  method ClashesInFile(env: Env, row: Row, seen: set<Key>, periods: map<int, seq<Period>>) returns (r: bool)
    ensures r <==> KeyOf(env, row) in seen ||
                   (row.PerformanceRow? && row.productId in periods &&
                    exists x :: x in periods[row.productId] && TextOverlap(x, PeriodOf(row)))
  {
    if KeyOf(env, row) in seen {
      return true;
    }
    r := false;
    if row.PerformanceRow? && row.productId in periods {
      r := AnyOverlap(periods[row.productId], PeriodOf(row));
    }
  }

  function WithPeriod(periods: map<int, seq<Period>>, row: Row): map<int, seq<Period>> {
    if !row.PerformanceRow? then periods
    else
      var before := if row.productId in periods then periods[row.productId] else [];
      periods[row.productId := before + [PeriodOf(row)]]
  }

  lemma CollectedInvalid(env: Env, raws: seq<RawRow>, valid: seq<bool>, seen: set<Key>, periods: map<int, seq<Period>>)
    requires |valid| < |raws| && Collected(env, raws, valid, seen, periods)
    ensures Collected(env, raws, valid + [false], seen, periods)
  {
    assert forall j, key :: KeyAt(env, raws, valid + [false], j, key) <==> KeyAt(env, raws, valid, j, key);
    assert forall j, p, x :: PeriodAt(raws, valid + [false], j, p, x) <==> PeriodAt(raws, valid, j, p, x);
  }

  lemma KeysValid(env: Env, raws: seq<RawRow>, valid: seq<bool>, seen: set<Key>)
    requires |valid| < |raws| && raws[|valid|].Readable? && KeysOk(env, raws, valid, seen)
    ensures KeysOk(env, raws, valid + [true], seen + {KeyOf(env, raws[|valid|].row)})
  {
    var next := valid + [true];
    var own := KeyOf(env, raws[|valid|].row);
    assert forall j, key ::
        KeyAt(env, raws, next, j, key) <==> KeyAt(env, raws, valid, j, key) || (j == |valid| && key == own);
    assert KeyAt(env, raws, next, |valid|, own);
    forall key | key in seen + {own} ensures exists j :: KeyAt(env, raws, next, j, key) {
      if key in seen {
        var j :| KeyAt(env, raws, valid, j, key);
        assert KeyAt(env, raws, next, j, key);
      }
    }
  }

  /** The rows at which a period is found, after one more valid row. */
  lemma PeriodAtNext(raws: seq<RawRow>, valid: seq<bool>, j: int, p: int, x: Period)
    requires |valid| < |raws| && raws[|valid|].Readable?
    ensures var row := raws[|valid|].row;
            PeriodAt(raws, valid + [true], j, p, x) <==>
              PeriodAt(raws, valid, j, p, x) ||
              (j == |valid| && row.PerformanceRow? && p == row.productId && x == PeriodOf(row))
  {
  }

  lemma PeriodsValid(raws: seq<RawRow>, valid: seq<bool>, periods: map<int, seq<Period>>)
    requires |valid| < |raws| && raws[|valid|].Readable? && PeriodsOk(raws, valid, periods)
    ensures PeriodsOk(raws, valid + [true], WithPeriod(periods, raws[|valid|].row))
  {
    var next := valid + [true];
    var periods' := WithPeriod(periods, raws[|valid|].row);
    forall p, x | p in periods' && x in periods'[p] ensures exists j :: PeriodAt(raws, next, j, p, x) {
      if p in periods && x in periods[p] {
        var j :| PeriodAt(raws, valid, j, p, x);
        PeriodAtNext(raws, valid, j, p, x);
      } else {
        PeriodAtNext(raws, valid, |valid|, p, x);
      }
    }
    forall j, p, x | PeriodAt(raws, next, j, p, x) ensures p in periods' && x in periods'[p] {
      PeriodAtNext(raws, valid, j, p, x);
    }
  }

  function CountTrue(valid: seq<bool>): nat {
    if valid == [] then 0 else CountTrue(valid[..|valid| - 1]) + (if valid[|valid| - 1] then 1 else 0)
  }

  /** The loop of `upload_and_preview`. */
  method PreviewRows(env: Env, db: Db, raws: seq<RawRow>) returns (valid: seq<bool>, validRows: nat, failedRows: nat)
    ensures IsPreview(env, db, raws, valid)
    ensures validRows == CountTrue(valid) && validRows + failedRows == |raws|
  {
    valid, validRows := [], 0;
    var seen: set<Key> := {};
    var periods: map<int, seq<Period>> := map[];
    while |valid| < |raws|
      invariant |valid| <= |raws|
      invariant Collected(env, raws, valid, seen, periods)
      invariant Decided(env, db, raws, valid)
      invariant validRows == CountTrue(valid) <= |valid|
    {
      var raw := raws[|valid|];
      var ok := raw.Readable? && Validate(env, db, raw.row).Ok?;
      if ok {
        ChecksMeanClash(env, raws, valid, seen, periods, raw.row);
        var clash := ClashesInFile(env, raw.row, seen, periods);
        ok := !clash;
      }
      RowDecided(env, db, raws, valid, seen, periods, ok);
      AppendedLast(valid, ok);
      if ok {
        periods := WithPeriod(periods, raw.row);
        seen := seen + {KeyOf(env, raw.row)};
        validRows := validRows + 1;
      }
      valid := valid + [ok];
    }
    DecidedIsPreview(env, db, raws, valid);
    failedRows := |raws| - validRows;
  }

  /** Every row decided so far obeys the preview rule. */
  ghost predicate Decided(env: Env, db: Db, raws: seq<RawRow>, valid: seq<bool>)
    requires |valid| <= |raws|
  {
    forall i | 0 <= i < |valid| :: valid[i] <==> PrefixRow(env, db, raws, valid, i)
  }

  lemma DecidedIsPreview(env: Env, db: Db, raws: seq<RawRow>, valid: seq<bool>)
    requires |valid| == |raws| && Decided(env, db, raws, valid)
    ensures IsPreview(env, db, raws, valid)
  {
    forall i | 0 <= i < |raws| ensures valid[i] <==> PreviewRow(env, db, raws, valid, i) {
      assert valid[i] <==> PrefixRow(env, db, raws, valid, i);
    }
  }

  /** One more decided row, with the sets the loop keeps beside it. */
  lemma RowDecided(env: Env, db: Db, raws: seq<RawRow>, valid: seq<bool>,
                   seen: set<Key>, periods: map<int, seq<Period>>, ok: bool)
    requires |valid| < |raws| && Decided(env, db, raws, valid) && Collected(env, raws, valid, seen, periods)
    requires ok <==> PrefixRow(env, db, raws, valid, |valid|)
    ensures Decided(env, db, raws, valid + [ok])
    ensures Collected(env, raws, valid + [ok],
                      if ok then seen + {KeyOf(env, raws[|valid|].row)} else seen,
                      if ok then WithPeriod(periods, raws[|valid|].row) else periods)
  {
    PrefixExtends(env, db, raws, valid, ok);
    if ok {
      KeysValid(env, raws, valid, seen);
      PeriodsValid(raws, valid, periods);
    } else {
      CollectedInvalid(env, raws, valid, seen, periods);
    }
  }

  /** The preview rule for a row of the part decided so far, and for the next one. */
  predicate PrefixRow(env: Env, db: Db, raws: seq<RawRow>, valid: seq<bool>, i: int)
    requires 0 <= i <= |valid| && i < |raws| && |valid| <= |raws|
  {
    && raws[i].Readable?
    && Validate(env, db, raws[i].row).Ok?
    && !exists j :: 0 <= j < i && valid[j] && raws[j].Readable? && Clash(env, raws[j].row, raws[i].row)
  }

  lemma PrefixExtends(env: Env, db: Db, raws: seq<RawRow>, valid: seq<bool>, ok: bool)
    requires |valid| < |raws|
    ensures forall i | 0 <= i <= |valid| ::
              PrefixRow(env, db, raws, valid + [ok], i) <==> PrefixRow(env, db, raws, valid, i)
  {
    var next := valid + [ok];
    forall i | 0 <= i <= |valid| ensures PrefixRow(env, db, raws, next, i) <==> PrefixRow(env, db, raws, valid, i) {
      assert forall j | 0 <= j < i :: next[j] == valid[j];
    }
  }

  // ----- confirmation -----------------------------------------------------------

  datatype BatchStatus = Uploaded | Validated | Importing | Completed

  datatype RowStatus = Invalid | Valid | Imported | RowFailed

  /** `DatabaseFailed` is the database's error for a row, which nothing in the loop catches. */
  datatype BatchError = BatchStateInvalid | DatabaseFailed

  datatype Nested = RowImported | RowRejected | LoopAborted

  class Batch {
    const raws: seq<RawRow>
    var status: BatchStatus
    var rowStatus: seq<RowStatus>
    var validRows: nat
    var successRows: nat
    var failedRows: nat

    /** A freshly previewed batch. */
    constructor (env: Env, db: Db, raws: seq<RawRow>)
      ensures this.raws == raws && status == Validated && |rowStatus| == |raws|
      ensures IsPreview(env, db, raws, ValidFlags(rowStatus)) && validRows == CountTrue(ValidFlags(rowStatus))
      ensures forall i | 0 <= i < |raws| :: Ready(raws[i], rowStatus[i])
      ensures validRows + failedRows == |raws|
    {
      this.raws := raws;
      var valid, good, bad := PreviewRows(env, db, raws);
      status := Validated;
      rowStatus := seq(|valid|, i requires 0 <= i < |valid| => if valid[i] then Valid else Invalid);
      validRows, successRows, failedRows := good, 0, bad;
      new;
      assert ValidFlags(rowStatus) == valid;
      forall i | 0 <= i < |raws| ensures Ready(raws[i], rowStatus[i]) {
        assert valid[i] ==> PreviewRow(env, db, raws, valid, i);
      }
    }
  }

  /** A row as the preview leaves it; only a row with normalized data can be valid. */
  predicate Ready(raw: RawRow, s: RowStatus) {
    s == Invalid || (s == Valid && raw.Readable?)
  }

  function ValidFlags(rows: seq<RowStatus>): seq<bool> {
    seq(|rows|, i requires 0 <= i < |rows| => rows[i] == Valid)
  }

  function StatusAfter(env: Env, db: Db, raws: seq<RawRow>, rows: seq<RowStatus>, k: nat): RowStatus
    requires k < |raws| == |rows|
  {
    if rows[k] != Valid then rows[k]
    else if ImportsRow(env, db, raws, ValidFlags(rows), k) then Imported
    else RowFailed
  }

  function CountStatus(rows: seq<RowStatus>, s: RowStatus): nat {
    if rows == [] then 0 else CountStatus(rows[..|rows| - 1], s) + (if rows[|rows| - 1] == s then 1 else 0)
  }

  lemma {:induction false} CountStatusUpdate(rows: seq<RowStatus>, k: int, to: RowStatus, s: RowStatus)
    requires 0 <= k < |rows|
    ensures CountStatus(rows[k := to], s)
         == CountStatus(rows, s) - (if rows[k] == s then 1 else 0) + (if to == s then 1 else 0)
  {
    var last := |rows| - 1;
    if k == last {
      assert rows[k := to][..last] == rows[..last];
    } else {
      assert rows[k := to][..last] == rows[..last][k := to];
      CountStatusUpdate(rows[..last], k, to, s);
    }
  }

  /** The first `k` rows have their outcome, the others wait. */
  ghost predicate TakenUpto(env: Env, db: Db, raws: seq<RawRow>, before: seq<RowStatus>, rows: seq<RowStatus>, k: nat)
    requires k <= |raws| == |before| == |rows|
  {
    forall i | 0 <= i < |raws| :: rows[i] == if i < k then StatusAfter(env, db, raws, before, i) else before[i]
  }

  lemma RowTaken(env: Env, db: Db, raws: seq<RawRow>, before: seq<RowStatus>, rows: seq<RowStatus>, k: nat,
                 to: RowStatus)
    requires k < |raws| == |before| == |rows| && TakenUpto(env, db, raws, before, rows, k)
    requires to == StatusAfter(env, db, raws, before, k)
    ensures TakenUpto(env, db, raws, before, rows[k := to], k + 1)
    ensures to == rows[k] ==> TakenUpto(env, db, raws, before, rows, k + 1)
  {
    assert to == rows[k] ==> rows[k := to] == rows;
  }

  /** Row `k` at its turn, in the database its predecessors left. */
  lemma TurnOf(env: Env, db: Db, raws: seq<RawRow>, before: seq<RowStatus>, k: nat, current: Db)
    requires k < |raws| == |before| && Ready(raws[k], before[k])
    requires ConfirmUpto(env, db, raws, ValidFlags(before), k) == Some(current)
    ensures ConfirmUpto(env, db, raws, ValidFlags(before), k + 1)
         == ConfirmOne(env, current, raws[k], before[k] == Valid)
    ensures before[k] == Valid ==>
              raws[k].Readable? &&
              StatusAfter(env, db, raws, before, k)
              == if Importable(env, current, raws[k].row) then Imported else RowFailed
    ensures before[k] != Valid ==> StatusAfter(env, db, raws, before, k) == before[k]
  {
  }

  predicate Counted(rows: seq<RowStatus>, success: nat, invalid: nat) {
    success == CountStatus(rows, Imported) && invalid == CountStatus(rows, Invalid) + CountStatus(rows, RowFailed)
  }

  /** A valid row takes its outcome. */
  lemma CountsAfter(rows: seq<RowStatus>, k: int, to: RowStatus)
    requires 0 <= k < |rows| && rows[k] == Valid && to in {Imported, RowFailed}
    ensures CountStatus(rows[k := to], Imported) == CountStatus(rows, Imported) + (if to == Imported then 1 else 0)
    ensures CountStatus(rows[k := to], Invalid) == CountStatus(rows, Invalid)
    ensures CountStatus(rows[k := to], RowFailed) == CountStatus(rows, RowFailed) + (if to == RowFailed then 1 else 0)
  {
    CountStatusUpdate(rows, k, to, Imported);
    CountStatusUpdate(rows, k, to, Invalid);
    CountStatusUpdate(rows, k, to, RowFailed);
  }

  /** A valid row at its turn, with the counter that goes up. */
  lemma RowDone(env: Env, start: Db, raws: seq<RawRow>, before: seq<RowStatus>, rows: seq<RowStatus>, k: nat,
                current: Db, after: Db, imported: bool, success: nat, invalid: nat)
    requires k < |raws| == |before| == |rows| && Ready(raws[k], before[k]) && rows[k] == Valid && raws[k].Readable?
    requires TakenUpto(env, start, raws, before, rows, k) && Counted(rows, success, invalid)
    requires ConfirmUpto(env, start, raws, ValidFlags(before), k) == Some(current)
    requires ConfirmOne(env, current, raws[k], true) == Some(after)
    requires imported <==> Importable(env, current, raws[k].row)
    ensures ConfirmUpto(env, start, raws, ValidFlags(before), k + 1) == Some(after)
    ensures var taken := rows[k := if imported then Imported else RowFailed];
            && TakenUpto(env, start, raws, before, taken, k + 1)
            && Counted(taken, if imported then success + 1 else success, if imported then invalid else invalid + 1)
  {
    var to := if imported then Imported else RowFailed;
    TurnOf(env, start, raws, before, k, current);
    CountsAfter(rows, k, to);
    RowTaken(env, start, raws, before, rows, k, to);
  }

  lemma {:induction false} CountsPartition(rows: seq<RowStatus>)
    ensures CountStatus(rows, Invalid) + CountStatus(rows, Valid) + CountStatus(rows, Imported)
          + CountStatus(rows, RowFailed) == |rows|
  {
    if rows != [] {
      CountsPartition(rows[..|rows| - 1]);
    }
  }

  lemma {:induction false} NoneLeft(rows: seq<RowStatus>, s: RowStatus)
    requires forall i | 0 <= i < |rows| :: rows[i] != s
    ensures CountStatus(rows, s) == 0
  {
    if rows != [] {
      NoneLeft(rows[..|rows| - 1], s);
    }
  }

  class Centre {
    var db: Db
    const env: Env

    constructor (env: Env, db: Db)
      ensures this.env == env && this.db == db
    {
      this.env := env;
      this.db := db;
    }

    method ImportProductRow(row: Row) returns (error: Option<ImportError>)
      requires row.ProductRow?
      modifies this
      ensures error.None? ==> Import(env, old(db), row) == Ok(db)
      ensures error.Some? ==> Import(env, old(db), row) == Err(error.value)
    {
      if row.details.urlLength > MAX_URL {
        return Some(SchemaInvalid);
      }
      if !StoreActive(db, row.storeId) {
        return Some(StoreInvalid);
      }
      if NameTaken(env, db.products, row.storeId, row.name) {
        return Some(ProductDuplicate);
      }
      var product := Product(row.storeId, row.name, db.stores[row.storeId].platform, row.status, row.details);
      db := db.(products := db.products + [product]);
      error := None;
    }

    /** Overwrites an existing SKU before the last checks: an error may leave those fields changed. */
    method ImportSkuRow(d: SkuData) returns (error: Option<ImportError>)
      modifies this
      ensures error.None? ==> Import(env, old(db), SkuRow(d)) == Ok(db)
      ensures error.Some? ==> Import(env, old(db), SkuRow(d)) == Err(error.value)
    {
      if !ProductExists(db, d.productId) || db.products[d.productId].status == Inactive {
        return Some(ProductInvalid);
      }
      var found := FindSku(env, db.skus, d.productId, d.code);
      var id: nat;
      var item: Inventory.Item;
      if found.None? {
        id := |db.skus|;
        db := db.(skus := db.skus + [SkuOf(d)]);
        item := Inventory.NewItem;
        db := db.(stock := db.stock[id := item]);
      } else {
        id := found.value;
        db := db.(skus := db.skus[id := Overwritten(db.skus[id], d)]);
        if id !in db.stock {
          return Some(InventoryNotInitialized);
        }
        item := db.stock[id];
      }
      if d.locked > d.stock {
        return Some(InventoryInvalid);
      }
      if !d.active && (d.stock > item.stock || d.locked > item.locked) {
        return Some(SkuInactive);
      }
      if item.locked > d.stock {
        item := Inventory.ToTarget(item, true, d.locked);
      }
      item := Inventory.ToTarget(item, false, d.stock);
      item := Inventory.ToTarget(item, true, d.locked);
      item := item.(warning := d.warning, location := d.location);
      if !Fits(SkuRow(d)) {
        return Some(DatabaseError); // from the flush at the end of the savepoint
      }
      db := db.(stock := db.stock[id := item]);
      assert db.stock == old(db).stock[id := item];
      error := None;
    }

    method ImportPerformanceRow(row: Row) returns (error: Option<ImportError>)
      requires row.PerformanceRow?
      modifies this
      ensures error.None? ==> Import(env, old(db), row) == Ok(db)
      ensures error.Some? ==> Import(env, old(db), row) == Err(error.value)
    {
      var p := row.payload;
      if !Performance.ValidPayload(p) {
        return Some(PeriodInvalid);
      }
      if p.impressions >= JSON_INTEGERS {
        return Some(SchemaInvalid);
      }
      if !ProductExists(db, row.productId) {
        return Some(ProductInvalid);
      }
      if !env.linksOk(row.productId, p) {
        return Some(LinksInvalid);
      }
      if !PerformanceRecords.PeriodAvailable(db.records, row.productId, p.start, p.end, None) {
        return Some(PeriodTaken);
      }
      if !Performance.FitsColumns(p) {
        return Some(DatabaseError);
      }
      db := db.(records := db.records[db.nextRecord := PerformanceRecords.NewRecord(row.productId, p)]);
      db := db.(nextRecord := db.nextRecord + 1);
      error := None;
    }

    method ImportRow(row: Row) returns (error: Option<ImportError>)
      modifies this
      ensures error.None? ==> Import(env, old(db), row) == Ok(db)
      ensures error.Some? ==> Import(env, old(db), row) == Err(error.value)
    {
      match row
      case ProductRow(_, _, _, _) => error := ImportProductRow(row);
      case SkuRow(d) => error := ImportSkuRow(d);
      case PerformanceRow(_, _) => error := ImportPerformanceRow(row);
    }

    /** `with session.begin_nested()`: an error inside takes everything back to the savepoint. */
    method ImportRowNested(row: Row) returns (r: Nested)
      modifies this
      ensures r.RowImported? <==> Importable(env, old(db), row)
      ensures r.RowImported? ==> Import(env, old(db), row) == Ok(db)
      ensures r.LoopAborted? <==> Import(env, old(db), row) == Err(DatabaseError)
      ensures !r.RowImported? ==> db == old(db)
    {
      var savepoint := db;
      var error := ImportRow(row);
      if error.None? {
        return RowImported;
      }
      db := savepoint;
      r := if error == Some(DatabaseError) then LoopAborted else RowRejected;
    }

    /** One valid row of the loop. */
    method ConfirmRow(raw: RawRow) returns (r: Nested)
      requires raw.Readable?
      modifies this
      ensures r.LoopAborted? <==> ConfirmOne(env, old(db), raw, true).None?
      ensures !r.LoopAborted? ==> ConfirmOne(env, old(db), raw, true) == Some(db)
      ensures r.RowImported? <==> Importable(env, old(db), raw.row)
    {
      r := ImportRowNested(raw.row);
    }

    /** The row loop of confirmation, with its two counters; an error it does not catch leaves it. */
    method ConfirmRows(raws: seq<RawRow>, before: seq<RowStatus>)
      returns (rows: seq<RowStatus>, success: nat, invalid: nat, aborted: bool)
      requires |before| == |raws| && forall i | 0 <= i < |raws| :: Ready(raws[i], before[i])
      modifies this
      ensures aborted <==> ConfirmUpto(env, old(db), raws, ValidFlags(before), |raws|).None?
      ensures |rows| == |raws|
      ensures !aborted ==>
                && ConfirmUpto(env, old(db), raws, ValidFlags(before), |raws|) == Some(db)
                && TakenUpto(env, old(db), raws, before, rows, |raws|)
                && Counted(rows, success, invalid)
      ensures DbInv(old(db)) && !aborted ==> DbInv(db)
    {
      rows := before;
      ghost var valid := ValidFlags(before);
      NoneLeft(before, Imported);
      NoneLeft(before, RowFailed);
      success := 0;
      invalid := CountInvalid(before);
      for k := 0 to |raws|
        invariant |rows| == |raws|
        invariant ConfirmUpto(env, old(db), raws, valid, k) == Some(db)
        invariant TakenUpto(env, old(db), raws, before, rows, k)
        invariant Counted(rows, success, invalid)
      {
        ghost var current := db;
        TurnOf(env, old(db), raws, before, k, current);
        if rows[k] == Valid {
          var r := ConfirmRow(raws[k]);
          if r.LoopAborted? {
            AbortIsFinal(env, old(db), raws, valid, k + 1, |raws|);
            aborted := true;
            return;
          }
          RowDone(env, old(db), raws, before, rows, k, current, db, r.RowImported?, success, invalid);
          if r.RowImported? {
            rows := rows[k := Imported];
            success := success + 1;
          } else {
            rows := rows[k := RowFailed];
            invalid := invalid + 1;
          }
        } else {
          RowTaken(env, old(db), raws, before, rows, k, rows[k]);
        }
      }
      aborted := false;
      ConfirmKeepsDb(env, old(db), raws, valid, |raws|);
    }

    /**
     Confirms a batch. Either the database becomes the sequential application of exactly the imported
     rows, a failed row leaves no trace and the counts add up; or a row the database refuses aborts the
     whole confirmation, nothing changes and the batch stays validated. Confirming again changes nothing.
     */
    method ConfirmBatch(batch: Batch) returns (error: Option<BatchError>)
      requires |batch.rowStatus| == |batch.raws|
      requires batch.status == Validated ==>
                 forall i | 0 <= i < |batch.raws| :: Ready(batch.raws[i], batch.rowStatus[i])
      modifies this, batch
      ensures error == Some(BatchStateInvalid) <==> old(batch.status) !in {Validated, Completed}
      ensures error == Some(DatabaseFailed) <==>
                && old(batch.status) == Validated
                && ConfirmUpto(env, old(db), batch.raws, ValidFlags(old(batch.rowStatus)), |batch.raws|).None?
      ensures batch.validRows == old(batch.validRows) && |batch.rowStatus| == |batch.raws|
      ensures old(batch.status) != Validated || error.Some? ==>
                db == old(db) && batch.status == old(batch.status) && batch.rowStatus == old(batch.rowStatus)
                && batch.successRows == old(batch.successRows) && batch.failedRows == old(batch.failedRows)
      ensures old(batch.status) == Validated && error.None? ==>
                && batch.status == Completed
                && ConfirmUpto(env, old(db), batch.raws, ValidFlags(old(batch.rowStatus)), |batch.raws|) == Some(db)
                && (forall k | 0 <= k < |batch.raws| ::
                      batch.rowStatus[k] == StatusAfter(env, old(db), batch.raws, old(batch.rowStatus), k))
                && batch.successRows == CountStatus(batch.rowStatus, Imported)
                && batch.successRows + batch.failedRows == |batch.raws|
      ensures DbInv(old(db)) ==> DbInv(db)
    {
      error := None;
      if batch.status == Completed {
        return;
      }
      if batch.status != Validated {
        return Some(BatchStateInvalid);
      }
      var committed := db;
      batch.status := Importing;
      var rows, success, invalid, aborted := ConfirmRows(batch.raws, batch.rowStatus);
      if aborted {
        db, batch.status := committed, Validated; // the session ends without a commit
        return Some(DatabaseFailed);
      }
      CountsPartition(rows);
      NoneLeft(rows, Valid);
      batch.rowStatus := rows;
      batch.successRows := success;
      batch.failedRows := invalid;
      batch.status := Completed;
    }

    /**
     Preview and confirm with nothing written in between: unless a row that is due does not fit its
     columns, the rows imported are exactly the rows that are due; all valid ones, in a plain file.
     */
    method PreviewThenConfirm(kind: ImportKind, raws: seq<RawRow>)
      returns (batch: Batch, valid: seq<bool>, error: Option<BatchError>)
      requires DbInv(db) && OneKind(kind, raws)
      modifies this
      ensures fresh(batch) && batch.raws == raws && |batch.rowStatus| == |raws| && DbInv(db)
      ensures IsPreview(env, old(db), raws, valid)
      ensures error.None? <==>
                forall i | 0 <= i < |raws| :: Due(env, raws, valid, i) ==> Fits(raws[i].row)
      ensures error.None? ==>
                && batch.status == Completed
                && forall i | 0 <= i < |raws| :: batch.rowStatus[i] == Imported <==> Due(env, raws, valid, i)
      ensures error.None? ==> batch.successRows + batch.failedRows == |raws| && batch.successRows <= batch.validRows
      ensures error.None? && Plain(env, raws) ==> batch.successRows == batch.validRows
      ensures error.Some? ==> error == Some(DatabaseFailed) && db == old(db) && batch.status == Validated
    {
      batch := new Batch(env, db, raws);
      ghost var rows0 := batch.rowStatus;
      valid := ValidFlags(batch.rowStatus);
      InitializedPreview(env, db, kind, raws, valid);
      error := ConfirmBatch(batch);
      assert error.Some? ==> error.value.DatabaseFailed?;
      if error.None? {
        ImportedAre(env, old(db), raws, rows0, batch.rowStatus);
      }
    }
  }

  /** After a completed confirmation of an initialized database, for the counters of the batch. */
  lemma ImportedAre(env: Env, db: Db, raws: seq<RawRow>, before: seq<RowStatus>, rows: seq<RowStatus>)
    requires |before| == |raws| == |rows| && forall i | 0 <= i < |raws| :: Ready(raws[i], before[i])
    requires IsPreview(env, db, raws, ValidFlags(before))
    requires forall i | 0 <= i < |raws| :: rows[i] == StatusAfter(env, db, raws, before, i)
    requires forall i | 0 <= i < |raws| ::
               ImportsRow(env, db, raws, ValidFlags(before), i) <==> Due(env, raws, ValidFlags(before), i)
    ensures forall i | 0 <= i < |raws| :: rows[i] == Imported <==> Due(env, raws, ValidFlags(before), i)
    ensures CountStatus(rows, Imported) <= CountTrue(ValidFlags(before))
    ensures Plain(env, raws) ==> CountStatus(rows, Imported) == CountTrue(ValidFlags(before))
  {
    forall i | 0 <= i < |raws| ensures rows[i] == Imported <==> Due(env, raws, ValidFlags(before), i) {
      assert Ready(raws[i], before[i]);
    }
    FewerCount(rows, ValidFlags(before));
    if Plain(env, raws) {
      PlainIsDue(env, db, raws, ValidFlags(before));
      SameCount(rows, ValidFlags(before));
    }
  }

  lemma {:induction false} FewerCount(rows: seq<RowStatus>, valid: seq<bool>)
    requires |rows| == |valid| && forall i | 0 <= i < |rows| :: rows[i] == Imported ==> valid[i]
    ensures CountStatus(rows, Imported) <= CountTrue(valid)
  {
    if rows != [] {
      FewerCount(rows[..|rows| - 1], valid[..|valid| - 1]);
    }
  }

  lemma {:induction false} SameCount(rows: seq<RowStatus>, valid: seq<bool>)
    requires |rows| == |valid| && forall i | 0 <= i < |rows| :: (rows[i] == Imported) == valid[i]
    ensures CountStatus(rows, Imported) == CountTrue(valid)
  {
    if rows != [] {
      SameCount(rows[..|rows| - 1], valid[..|valid| - 1]);
    }
  }

  method CountInvalid(rows: seq<RowStatus>) returns (n: nat)
    ensures n == CountStatus(rows, Invalid)
  {
    n := 0;
    for i := 0 to |rows|
      invariant n == CountStatus(rows[..i], Invalid)
    {
      assert rows[..i + 1][..i] == rows[..i];
      n := n + (if rows[i] == Invalid then 1 else 0);
    }
    assert rows[..|rows|] == rows;
  }
}
