/**
 The import centre (services/imports.py): what one row needs to pass the preview, what importing
 one row does to the database, and how far the preview predicts the confirmation.
 A product or SKU is identified by its position in its table.
 */
module Imports {
  import opened Common
  import opened Dates
  import Inventory
  import Performance
  import PerformanceRecords

  // ----- the database as far as imports touch it --------------------------------

  datatype StoreRow = StoreRow(active: bool, platform: string)

  datatype ProductStatus = Draft | Active | Inactive

  /** The other columns of a product; `urlLength` is the length of its normalized address. */
  datatype Details = Details(text: string, urlLength: nat)

  datatype Product = Product(storeId: int, name: string, platform: string, status: ProductStatus, details: Details)

  datatype Sku = Sku(productId: int, code: string, name: string, active: bool, details: string)

  datatype Db = Db(stores: map<int, StoreRow>, products: seq<Product>, skus: seq<Sku>, stock: map<int, Inventory.Item>,
                   records: Performance.Records, nextRecord: nat)

  /**
   `fold` is the program's lower case, `collate` what the database compares when it compares two names in
   lower case: its collation ignores accents too. For SKU codes, which are plain ASCII, the two agree, and
   `fold` stands for both. `linksOk` is the check of a record's optional links.
   */
  datatype Env = Env(fold: string -> string, collate: string -> string, linksOk: (int, Performance.Payload) -> bool)

  /** Auto-increment: record ids in use are below the next one. */
  predicate DbOk(db: Db) {
    forall id | id in db.records :: id < db.nextRecord
  }

  /** Every SKU has its inventory row. */
  predicate SkusInitialized(db: Db) {
    forall i | 0 <= i < |db.skus| :: i in db.stock
  }

  // ----- rows -------------------------------------------------------------------

  datatype ImportKind = Products | SkuInventory | PerformanceRecords

  datatype SkuData = SkuData(productId: int, code: string, name: string, active: bool, details: string,
                             stock: int, locked: int, warning: int, location: Option<string>)

  /** A row after parsing and schema validation. */
  datatype Row =
    | ProductRow(storeId: int, name: string, status: ProductStatus, details: Details)
    | SkuRow(data: SkuData)
    | PerformanceRow(productId: int, payload: Performance.Payload)

  function KindOf(row: Row): ImportKind {
    match row
    case ProductRow(_, _, _, _) => Products
    case SkuRow(_) => SkuInventory
    case PerformanceRow(_, _) => PerformanceRecords
  }

  /** A CSV row that no number or schema check rejected, or one that some did. */
  datatype RawRow = Unreadable | Readable(row: Row)

  /** `DatabaseError` is the database's refusal of a value; confirmation catches every error but that one. */
  datatype ImportError =
    | SchemaInvalid | StoreInvalid | ProductDuplicate
    | ProductInvalid | ProductInactive | InventoryInvalid | SkuInactive | InventoryNotInitialized
    | PeriodInvalid | LinksInvalid | PeriodTaken
    | DatabaseError

  const MAX_URL: int := 2048
  const JSON_INTEGERS: int := 0x1_0000_0000_0000_0000 // from here on a JSON column keeps a number as a double
  const MAX_LOCATION: int := 255

  // ----- lookups ----------------------------------------------------------------

  predicate ProductExists(db: Db, id: int) {
    0 <= id < |db.products|
  }

  predicate StoreActive(db: Db, id: int) {
    id in db.stores && db.stores[id].active
  }

  predicate NameTaken(env: Env, products: seq<Product>, storeId: int, name: string) {
    exists i | 0 <= i < |products| ::
      products[i].storeId == storeId && env.collate(products[i].name) == env.collate(name)
  }

  predicate IsSku(env: Env, sku: Sku, productId: int, code: string) {
    sku.productId == productId && env.fold(sku.code) == env.fold(code)
  }

  function FindSku(env: Env, skus: seq<Sku>, productId: int, code: string): (r: Option<nat>)
    ensures r.Some? ==> r.value < |skus| && IsSku(env, skus[r.value], productId, code)
  {
    if skus == [] then None
    else
      match FindSku(env, skus[..|skus| - 1], productId, code)
      case Some(i) => Some(i)
      case None => if IsSku(env, skus[|skus| - 1], productId, code) then Some(|skus| - 1) else None
  }

  // ----- preview of one row -----------------------------------------------------

  function ValidateSku(env: Env, db: Db, d: SkuData): Result<(), ImportError> {
    if !ProductExists(db, d.productId) then Err(ProductInvalid)
    else if db.products[d.productId].status == Inactive || !StoreActive(db, db.products[d.productId].storeId) then
      Err(ProductInactive)
    else if d.stock < 0 || d.locked < 0 || d.warning < 0 || d.locked > d.stock then Err(InventoryInvalid)
    else
      var found := FindSku(env, db.skus, d.productId, d.code);
      var before := if found.Some? && found.value in db.stock then db.stock[found.value] else Inventory.NewItem;
      if !d.active && (d.stock > before.stock || d.locked > before.locked) then Err(SkuInactive) else Ok(())
  }

  function Validate(env: Env, db: Db, row: Row): Result<(), ImportError> {
    match row
    case ProductRow(storeId, name, _, _) =>
      if !StoreActive(db, storeId) then Err(StoreInvalid)
      else if NameTaken(env, db.products, storeId, name) then Err(ProductDuplicate)
      else Ok(())
    case SkuRow(d) => ValidateSku(env, db, d)
    case PerformanceRow(productId, p) =>
      if !ProductExists(db, productId) then Err(ProductInvalid)
      else if !Performance.ValidPayload(p) then Err(PeriodInvalid)
      else if !env.linksOk(productId, p) then Err(LinksInvalid)
      else if !PerformanceRecords.PeriodAvailable(db.records, productId, p.start, p.end, None) then Err(PeriodTaken)
      else Ok(())
  }

  // ----- import of one row ------------------------------------------------------

  function SkuOf(d: SkuData): Sku {
    Sku(d.productId, d.code, d.name, d.active, d.details)
  }

  /** An existing SKU keeps its product and its code. */
  function Overwritten(sku: Sku, d: SkuData): Sku {
    sku.(name := d.name, active := d.active, details := d.details)
  }

  /** What stops a SKU row before its quantities are written. */
  function SkuRejection(env: Env, db: Db, d: SkuData): Option<ImportError> {
    if !ProductExists(db, d.productId) || db.products[d.productId].status == Inactive then Some(ProductInvalid)
    else
      var found := FindSku(env, db.skus, d.productId, d.code);
      if found.Some? && found.value !in db.stock then Some(InventoryNotInitialized)
      else
        var before := if found.Some? then db.stock[found.value] else Inventory.NewItem;
        if d.locked > d.stock then Some(InventoryInvalid)
        else if !d.active && (d.stock > before.stock || d.locked > before.locked) then Some(SkuInactive)
        else None
  }

  /**
   What a handler raises before it writes. It validates the normalized data once more: the schema bounded
   the address as it was typed during preview and bounds it as it was normalized now, and it refuses a
   count that has come back from the JSON column as a double.
   */
  function Rejection(env: Env, db: Db, row: Row): Option<ImportError> {
    match row
    case ProductRow(storeId, name, _, details) =>
      if details.urlLength > MAX_URL then Some(SchemaInvalid)
      else if !StoreActive(db, storeId) then Some(StoreInvalid)
      else if NameTaken(env, db.products, storeId, name) then Some(ProductDuplicate)
      else None
    case SkuRow(d) => SkuRejection(env, db, d)
    case PerformanceRow(productId, p) =>
      if !Performance.ValidPayload(p) then Some(PeriodInvalid)
      else if p.impressions >= JSON_INTEGERS then Some(SchemaInvalid)
      else if !ProductExists(db, productId) then Some(ProductInvalid)
      else if !env.linksOk(productId, p) then Some(LinksInvalid)
      else if !PerformanceRecords.PeriodAvailable(db.records, productId, p.start, p.end, None) then Some(PeriodTaken)
      else None
  }

  predicate Passes(env: Env, db: Db, row: Row) {
    Rejection(env, db, row).None?
  }

  predicate FitsQuantity(q: int) {
    0 <= q <= Inventory.MAX_QUANTITY
  }

  /** The columns hold the row: a check on its own numbers and texts that the preview does not make. */
  predicate Fits(row: Row) {
    match row
    case ProductRow(_, _, _, _) => true
    case SkuRow(d) =>
      && FitsQuantity(d.stock) && FitsQuantity(d.locked) && FitsQuantity(d.warning)
      && (d.location.Some? ==> |d.location.value| <= MAX_LOCATION)
    case PerformanceRow(_, p) => Performance.ValidPayload(p) && Performance.FitsColumns(p)
  }

  function WithSku(env: Env, db: Db, d: SkuData): Db
    requires SkuRejection(env, db, d).None?
  {
    var found := FindSku(env, db.skus, d.productId, d.code);
    var id := if found.Some? then found.value else |db.skus|;
    var before := if found.Some? then db.stock[found.value] else Inventory.NewItem;
    db.(skus := if found.Some? then db.skus[id := Overwritten(db.skus[id], d)] else db.skus + [SkuOf(d)],
    stock := db.stock[id := Inventory.Imported(before, d.stock, d.locked, d.warning, d.location)])
  }

  function Import(env: Env, db: Db, row: Row): Result<Db, ImportError> {
    match Rejection(env, db, row)
    case Some(e) => Err(e)
    case None =>
      if !Fits(row) then Err(DatabaseError)
      else
        match row
        case ProductRow(storeId, name, status, details) =>
          Ok(db.(products := db.products + [Product(storeId, name, db.stores[storeId].platform, status, details)]))
        case SkuRow(d) => Ok(WithSku(env, db, d))
        case PerformanceRow(productId, p) =>
          Ok(db.(records := db.records[db.nextRecord := PerformanceRecords.NewRecord(productId, p)],
             nextRecord := db.nextRecord + 1))
  }

  predicate Importable(env: Env, db: Db, row: Row) {
    Import(env, db, row).Ok?
  }

  // ----- rows of one file -------------------------------------------------------

  /** The duplicate and overlap rules inside one file; periods are compared as ISO text. */
  predicate Clash(env: Env, a: Row, b: Row) {
    match (a, b)
    case (ProductRow(s, n, _, _), ProductRow(s', n', _, _)) => s == s' && env.fold(n) == env.fold(n')
    case (SkuRow(d), SkuRow(d')) => d.productId == d'.productId && env.fold(d.code) == env.fold(d'.code)
    case (PerformanceRow(p, x), PerformanceRow(p', y)) =>
      p == p' && TextLe(Iso(x.start), Iso(y.end)) && TextLe(Iso(y.start), Iso(x.end))
    case _ => false
  }

  /** A SKU that exists already has its inventory row. */
  predicate Initialized(env: Env, db: Db, row: Row) {
    row.SkuRow? ==>
      var found := FindSku(env, db.skus, row.data.productId, row.data.code);
      found.Some? ==> found.value in db.stock
  }

  /** Row `i` is valid when it passes on its own and clashes with no earlier valid row. */
  predicate PreviewRow(env: Env, db: Db, raws: seq<RawRow>, valid: seq<bool>, i: int)
    requires 0 <= i < |raws| == |valid|
  {
    && raws[i].Readable?
    && Validate(env, db, raws[i].row).Ok?
    && forall j | 0 <= j < i :: valid[j] && raws[j].Readable? ==> !Clash(env, raws[j].row, raws[i].row)
  }

  ghost predicate IsPreview(env: Env, db: Db, raws: seq<RawRow>, valid: seq<bool>) {
    |valid| == |raws| && forall i | 0 <= i < |raws| :: valid[i] <==> PreviewRow(env, db, raws, valid, i)
  }

  predicate OneKind(kind: ImportKind, raws: seq<RawRow>) {
    forall i | 0 <= i < |raws| :: raws[i].Readable? ==> KindOf(raws[i].row) == kind
  }

  /** Two products of one store with the same name, as the database sees it. */
  predicate SameName(env: Env, a: Row, b: Row) {
    a.ProductRow? && b.ProductRow? && a.storeId == b.storeId && env.collate(a.name) == env.collate(b.name)
  }

  /** The normalized data passes the schema again. */
  predicate Revalidates(row: Row) {
    && (row.ProductRow? ==> row.details.urlLength <= MAX_URL)
    && (row.PerformanceRow? ==> row.payload.impressions < JSON_INTEGERS)
  }

  /** A valid row whose data passes the schema again. */
  predicate ValidAgain(raws: seq<RawRow>, valid: seq<bool>, k: int)
    requires 0 <= k < |raws| == |valid|
  {
    valid[k] && raws[k].Readable? && Revalidates(raws[k].row)
  }

  /** And one whose name no earlier such row has taken. */
  predicate Due(env: Env, raws: seq<RawRow>, valid: seq<bool>, k: int)
    requires 0 <= k < |raws| == |valid|
    decreases k
  {
    && ValidAgain(raws, valid, k)
    && forall i | 0 <= i < k && Due(env, raws, valid, i) :: !SameName(env, raws[i].row, raws[k].row)
  }

  /** And one that the handler will not reject. */
  predicate Expected(env: Env, db: Db, raws: seq<RawRow>, valid: seq<bool>, k: int)
    requires 0 <= k < |raws| == |valid|
  {
    Due(env, raws, valid, k) && Initialized(env, db, raws[k].row)
  }

  // ----- confirming a batch as a fold -------------------------------------------

  /** One row of the batch; None when an error leaves the loop. */
  function ConfirmOne(env: Env, db: Db, raw: RawRow, valid: bool): Option<Db> {
    if !valid || raw.Unreadable? then Some(db)
    else
      match Import(env, db, raw.row)
      case Ok(db') => Some(db')
      case Err(e) => if e == DatabaseError then None else Some(db)
  }

  /** The database after the first `k` rows of the batch, unless one of them aborts the confirmation. */
  function ConfirmUpto(env: Env, db: Db, raws: seq<RawRow>, valid: seq<bool>, k: nat): Option<Db>
    requires k <= |raws| == |valid|
  {
    if k == 0 then Some(db)
    else
      match ConfirmUpto(env, db, raws, valid, k - 1)
      case None => None
      case Some(before) => ConfirmOne(env, before, raws[k - 1], valid[k - 1])
  }

  /** Row `k` is imported when it is valid, its turn comes and its turn succeeds. */
  predicate ImportsRow(env: Env, db: Db, raws: seq<RawRow>, valid: seq<bool>, k: nat)
    requires k < |raws| == |valid|
  {
    var before := ConfirmUpto(env, db, raws, valid, k);
    valid[k] && raws[k].Readable? && before.Some? && Importable(env, before.value, raws[k].row)
  }

  lemma {:induction false} AbortIsFinal(env: Env, db: Db, raws: seq<RawRow>, valid: seq<bool>, k: nat, n: nat)
    requires k <= n <= |raws| == |valid| && ConfirmUpto(env, db, raws, valid, k).None?
    ensures ConfirmUpto(env, db, raws, valid, n).None?
    decreases n
  {
    if k < n {
      AbortIsFinal(env, db, raws, valid, k, n - 1);
    }
  }

  // ----- lemmas: one row --------------------------------------------------------

  /** A row that passes the preview passes the handler's checks, on two conditions the preview does not check. */
  lemma ValidPasses(env: Env, db: Db, row: Row)
    requires Validate(env, db, row).Ok?
    ensures Passes(env, db, row) <==> Initialized(env, db, row) && Revalidates(row)
  {
  }

  lemma NameTakenAppend(env: Env, products: seq<Product>, p: Product, storeId: int, name: string)
    ensures NameTaken(env, products + [p], storeId, name) <==>
            NameTaken(env, products, storeId, name) ||
            (p.storeId == storeId && env.collate(p.name) == env.collate(name))
  {
    var all := products + [p];
    if NameTaken(env, products, storeId, name) {
      var i :| 0 <= i < |products| && products[i].storeId == storeId &&
               env.collate(products[i].name) == env.collate(name);
      assert all[i] == products[i];
    }
    if p.storeId == storeId && env.collate(p.name) == env.collate(name) {
      assert all[|products|] == p;
    }
    if NameTaken(env, all, storeId, name) {
      var i :| 0 <= i < |all| && all[i].storeId == storeId && env.collate(all[i].name) == env.collate(name);
      assert i < |products| ==> products[i] == all[i];
    }
  }

  lemma {:induction false} FindSkuSame(env: Env, a: seq<Sku>, b: seq<Sku>, productId: int, code: string)
    requires |a| <= |b|
    requires forall i | 0 <= i < |a| :: IsSku(env, a[i], productId, code) <==> IsSku(env, b[i], productId, code)
    requires forall i | |a| <= i < |b| :: !IsSku(env, b[i], productId, code)
    ensures FindSku(env, a, productId, code) == FindSku(env, b, productId, code)
    decreases |b|
  {
    if |a| < |b| {
      FindSkuSame(env, a, b[..|b| - 1], productId, code);
    } else if a != [] {
      FindSkuSame(env, a[..|a| - 1], b[..|b| - 1], productId, code);
    }
  }

  lemma SkuIndependent(env: Env, db: Db, a: SkuData, b: SkuData)
    requires Importable(env, db, SkuRow(a)) && !Clash(env, SkuRow(a), SkuRow(b))
    ensures Passes(env, Import(env, db, SkuRow(a)).value, SkuRow(b)) <==> Passes(env, db, SkuRow(b))
  {
    var after := Import(env, db, SkuRow(a)).value;
    FindSkuSame(env, db.skus, after.skus, b.productId, b.code);
    var found := FindSku(env, db.skus, b.productId, b.code);
    var own := FindSku(env, db.skus, a.productId, a.code);
    if found.Some? && own.Some? {
      assert found != own;
    }
  }

  lemma PeriodIndependent(env: Env, db: Db, a: Row, b: Row)
    requires a.PerformanceRow? && b.PerformanceRow? && DbOk(db)
    requires Importable(env, db, a) && !Clash(env, a, b)
    ensures Passes(env, Import(env, db, a).value, b) <==> Passes(env, db, b)
  {
    IsoOrder(a.payload.start, b.payload.end);
    IsoOrder(b.payload.start, a.payload.end);
    RecordLeavesRest(env, db, a);
    RecordPasses(env, db, b.productId, b.payload);
    RecordPasses(env, Import(env, db, a).value, b.productId, b.payload);
    if b.productId >= 0 {
      PeriodStays(db.records, db.nextRecord, a.productId, a.payload, b.productId, b.payload.start, b.payload.end);
    }
  }

  /** What a performance row needs of the database: its product and its period. */
  lemma RecordPasses(env: Env, db: Db, productId: int, x: Performance.Payload)
    ensures Passes(env, db, PerformanceRow(productId, x)) <==>
            && Performance.ValidPayload(x) && x.impressions < JSON_INTEGERS && ProductExists(db, productId)
            && env.linksOk(productId, x)
            && PerformanceRecords.PeriodAvailable(db.records, productId, x.start, x.end, None)
  {
  }

  lemma RecordLeavesRest(env: Env, db: Db, a: Row)
    requires a.PerformanceRow? && Importable(env, db, a)
    ensures Performance.ValidPayload(a.payload) && a.productId >= 0
    ensures var after := Import(env, db, a).value;
            && after.records == db.records[db.nextRecord := PerformanceRecords.NewRecord(a.productId, a.payload)]
            && after.products == db.products
  {
  }

  /** A new record takes a period only if it is of the same product and shares a day with it. */
  lemma PeriodStays(book: Performance.Records, id: nat, p: nat, x: Performance.Payload, q: nat, start: Date, end: Date)
    requires id !in book && Performance.ValidPayload(x)
    requires !(p == q && Le(x.start, end) && Le(start, x.end))
    ensures PerformanceRecords.PeriodAvailable(book[id := PerformanceRecords.NewRecord(p, x)], q, start, end, None)
       <==> PerformanceRecords.PeriodAvailable(book, q, start, end, None)
  {
    var after := book[id := PerformanceRecords.NewRecord(p, x)];
    assert forall i | i in book :: i in after && after[i] == book[i];
  }

  /**
   Importing one row neither blocks nor enables another row of the file it does not clash with, but for
   two product names that only the database finds equal.
   */
  lemma Independent(env: Env, db: Db, a: Row, b: Row)
    requires DbOk(db) && KindOf(a) == KindOf(b) && Importable(env, db, a) && !Clash(env, a, b)
    ensures Passes(env, Import(env, db, a).value, b) <==> Passes(env, db, b) && !SameName(env, a, b)
  {
    match a
    case ProductRow(storeId, name, status, details) =>
      var product := Product(storeId, name, db.stores[storeId].platform, status, details);
      NameTakenAppend(env, db.products, product, b.storeId, b.name);
    case SkuRow(d) => SkuIndependent(env, db, d, b.data);
    case PerformanceRow(_, _) => PeriodIndependent(env, db, a, b);
  }

  /** What an import keeps: fresh record ids, and an inventory row for every SKU. */
  lemma ImportKeeps(env: Env, db: Db, row: Row)
    requires Importable(env, db, row)
    ensures DbOk(db) ==> DbOk(Import(env, db, row).value)
    ensures SkusInitialized(db) ==> SkusInitialized(Import(env, db, row).value)
  {
  }

  // ----- lemmas: the whole batch ------------------------------------------------

  /** A row that clashes with no valid row before it is decided, at its turn, as in the previewed database. */
  lemma {:induction false} DecidedAsPreviewed(env: Env, db: Db, kind: ImportKind, raws: seq<RawRow>, valid: seq<bool>,
                                              k: nat, row: Row)
    requires DbOk(db) && OneKind(kind, raws) && k <= |raws| == |valid| && KindOf(row) == kind
    requires forall j | 0 <= j < k :: valid[j] && raws[j].Readable? ==> !Clash(env, raws[j].row, row)
    ensures var r := ConfirmUpto(env, db, raws, valid, k);
            r.Some? ==>
              && DbOk(r.value)
              && (Passes(env, r.value, row) <==>
                  && Passes(env, db, row)
                  && forall j | 0 <= j < k && ImportsRow(env, db, raws, valid, j) :: !SameName(env, raws[j].row, row))
  {
    if k > 0 {
      DecidedAsPreviewed(env, db, kind, raws, valid, k - 1, row);
      var before := ConfirmUpto(env, db, raws, valid, k - 1);
      if ImportsRow(env, db, raws, valid, k - 1) {
        ImportKeeps(env, before.value, raws[k - 1].row);
        Independent(env, before.value, raws[k - 1].row, row);
      }
    }
  }

  /** Each valid row, at its turn. */
  lemma AtItsTurn(env: Env, db: Db, kind: ImportKind, raws: seq<RawRow>, valid: seq<bool>, k: nat)
    requires DbOk(db) && OneKind(kind, raws) && IsPreview(env, db, raws, valid) && k < |raws|
    requires ConfirmUpto(env, db, raws, valid, k).Some?
    requires forall i | 0 <= i < k :: ImportsRow(env, db, raws, valid, i) <==> Expected(env, db, raws, valid, i)
    ensures var before := ConfirmUpto(env, db, raws, valid, k).value;
            valid[k] ==> (Passes(env, before, raws[k].row) <==> Expected(env, db, raws, valid, k))
  {
    if valid[k] {
      var row := raws[k].row;
      assert PreviewRow(env, db, raws, valid, k);
      DecidedAsPreviewed(env, db, kind, raws, valid, k, row);
      ValidPasses(env, db, row);
      forall i | 0 <= i < k && Due(env, raws, valid, i) && SameName(env, raws[i].row, row)
        ensures ImportsRow(env, db, raws, valid, i)
      {
        assert Expected(env, db, raws, valid, i);
      }
      assert forall i | 0 <= i < k && ImportsRow(env, db, raws, valid, i) :: Due(env, raws, valid, i);
    }
  }

  /** So its turn goes as expected. */
  lemma TurnGoes(env: Env, db: Db, kind: ImportKind, raws: seq<RawRow>, valid: seq<bool>, k: nat)
    requires DbOk(db) && OneKind(kind, raws) && IsPreview(env, db, raws, valid) && k < |raws|
    requires ConfirmUpto(env, db, raws, valid, k).Some?
    requires forall i | 0 <= i < k :: ImportsRow(env, db, raws, valid, i) <==> Expected(env, db, raws, valid, i)
    ensures ImportsRow(env, db, raws, valid, k) <==> Expected(env, db, raws, valid, k) && Fits(raws[k].row)
    ensures ConfirmUpto(env, db, raws, valid, k + 1).Some? <==>
            (Expected(env, db, raws, valid, k) ==> Fits(raws[k].row))
  {
    AtItsTurn(env, db, kind, raws, valid, k);
    assert valid[k] ==> PreviewRow(env, db, raws, valid, k);
    TurnDecides(env, db, raws, valid, k);
  }

  /**
   The preview against the confirmation, with nothing written in between, for every file. The first `k`
   rows go through if and only if every expected row among them fits its columns, and then exactly the
   expected rows are imported. A row that does not fit aborts the confirmation of the whole file.
   */
  lemma {:induction false} PreviewPredictsConfirm(env: Env, db: Db, kind: ImportKind, raws: seq<RawRow>,
                                                  valid: seq<bool>, k: nat)
    requires DbOk(db) && OneKind(kind, raws) && IsPreview(env, db, raws, valid) && k <= |raws|
    ensures ConfirmUpto(env, db, raws, valid, k).Some? <==>
            forall i | 0 <= i < k :: Expected(env, db, raws, valid, i) ==> Fits(raws[i].row)
    ensures ConfirmUpto(env, db, raws, valid, k).Some? ==>
              forall i | 0 <= i < k :: ImportsRow(env, db, raws, valid, i) <==> Expected(env, db, raws, valid, i)
  {
    if k > 0 {
      PreviewPredictsConfirm(env, db, kind, raws, valid, k - 1);
      if ConfirmUpto(env, db, raws, valid, k - 1).Some? {
        TurnGoes(env, db, kind, raws, valid, k - 1);
      } else {
        AbortIsFinal(env, db, raws, valid, k - 1, k);
      }
    }
  }

  /** What a row's turn comes to, once it is known whether its checks pass. */
  lemma TurnDecides(env: Env, db: Db, raws: seq<RawRow>, valid: seq<bool>, k: nat)
    requires k < |raws| == |valid| && ConfirmUpto(env, db, raws, valid, k).Some?
    requires valid[k] ==>
               && raws[k].Readable?
               && (Passes(env, ConfirmUpto(env, db, raws, valid, k).value, raws[k].row) <==>
                   Expected(env, db, raws, valid, k))
    ensures ImportsRow(env, db, raws, valid, k) <==> Expected(env, db, raws, valid, k) && Fits(raws[k].row)
    ensures ConfirmUpto(env, db, raws, valid, k + 1).Some? <==>
            (Expected(env, db, raws, valid, k) ==> Fits(raws[k].row))
  {
    if valid[k] {
      ImportOutcome(env, ConfirmUpto(env, db, raws, valid, k).value, raws[k].row);
    }
  }

  lemma ImportOutcome(env: Env, db: Db, row: Row)
    ensures Importable(env, db, row) <==> Passes(env, db, row) && Fits(row)
    ensures Import(env, db, row) == Err(DatabaseError) <==> Passes(env, db, row) && !Fits(row)
  {
  }

  /** With an inventory row for every SKU, only what is written in the file itself is left to go wrong. */
  lemma InitializedPreview(env: Env, db: Db, kind: ImportKind, raws: seq<RawRow>, valid: seq<bool>)
    requires DbOk(db) && SkusInitialized(db) && OneKind(kind, raws) && IsPreview(env, db, raws, valid)
    ensures ConfirmUpto(env, db, raws, valid, |raws|).Some? <==>
            forall i | 0 <= i < |raws| :: Due(env, raws, valid, i) ==> Fits(raws[i].row)
    ensures ConfirmUpto(env, db, raws, valid, |raws|).Some? ==>
              forall i | 0 <= i < |raws| :: ImportsRow(env, db, raws, valid, i) <==> Due(env, raws, valid, i)
  {
    PreviewPredictsConfirm(env, db, kind, raws, valid, |raws|);
    assert forall i | 0 <= i < |raws| :: Expected(env, db, raws, valid, i) <==> Due(env, raws, valid, i);
  }

  /** Nothing in the file tells the preview and the handlers apart. */
  predicate Plain(env: Env, raws: seq<RawRow>) {
    && (forall i | 0 <= i < |raws| && raws[i].Readable? :: Revalidates(raws[i].row))
    && forall i, j | 0 <= i < j < |raws| && raws[i].Readable? && raws[j].Readable? ::
         SameName(env, raws[i].row, raws[j].row) ==> Clash(env, raws[i].row, raws[j].row)
  }

  /** Then every valid row is due. */
  lemma PlainIsDue(env: Env, db: Db, raws: seq<RawRow>, valid: seq<bool>)
    requires IsPreview(env, db, raws, valid) && Plain(env, raws)
    ensures forall k | 0 <= k < |raws| :: Due(env, raws, valid, k) <==> valid[k]
  {
    forall k | 0 <= k < |raws| && valid[k] ensures Due(env, raws, valid, k) {
      assert PreviewRow(env, db, raws, valid, k);
    }
  }

  /** Two names that differ by an accent: both valid, and the second is rejected without harm to other rows. */
  lemma SecondNameIsRejected(env: Env, db: Db, a: Row, b: Row)
    requires DbOk(db) && Validate(env, db, a).Ok? && Validate(env, db, b).Ok?
    requires SameName(env, a, b) && !Clash(env, a, b) && Revalidates(a) && Revalidates(b)
    ensures var file := [Readable(a), Readable(b)];
            && IsPreview(env, db, file, [true, true])
            && ImportsRow(env, db, file, [true, true], 0) && !ImportsRow(env, db, file, [true, true], 1)
            && ConfirmUpto(env, db, file, [true, true], 2) == ConfirmUpto(env, db, file, [true, true], 1)
  {
    var file, valid := [Readable(a), Readable(b)], [true, true];
    assert PreviewRow(env, db, file, valid, 0) && PreviewRow(env, db, file, valid, 1);
    PreviewPredictsConfirm(env, db, Products, file, valid, 2);
    assert Due(env, file, valid, 0) && !Due(env, file, valid, 1);
    assert ConfirmUpto(env, db, file, valid, 0) == Some(db);
  }

  /** An existing SKU without inventory row would pass the preview and fail; no service leaves such a SKU behind. */
  lemma MissingInventoryIsRejected(env: Env, db: Db, d: SkuData)
    requires Validate(env, db, SkuRow(d)).Ok? && !Initialized(env, db, SkuRow(d))
    ensures !SkusInitialized(db)
    ensures Import(env, db, SkuRow(d)) == Err(InventoryNotInitialized)
    ensures ConfirmOne(env, db, Readable(SkuRow(d)), true) == Some(db)
  {
  }

  /** One cent spent and ten thousand earned: previewed valid, and its return does not fit the column. */
  lemma HighReturnAborts(env: Env, db: Db, productId: int, p: Performance.Payload)
    requires Validate(env, db, PerformanceRow(productId, p)).Ok? && Revalidates(PerformanceRow(productId, p))
    requires p.spend == 1 && p.revenue == 1_000_000
    ensures Import(env, db, PerformanceRow(productId, p)) == Err(DatabaseError)
  {
    assert Performance.MetricsOf(p).roi == Some(1_000_000_000_000);
  }

  /** A quantity beyond 32 bits, for a SKU with its inventory row. */
  lemma LargeQuantityAborts(env: Env, db: Db, d: SkuData)
    requires Validate(env, db, SkuRow(d)).Ok? && Initialized(env, db, SkuRow(d)) && d.stock > Inventory.MAX_QUANTITY
    ensures Import(env, db, SkuRow(d)) == Err(DatabaseError)
  {
  }

  /** A count of 2^64 or more: previewed valid, then rejected on its own. Half of that aborts the confirmation. */
  lemma HugeCounts(env: Env, db: Db, row: Row)
    requires row.PerformanceRow? && Validate(env, db, row).Ok?
    ensures row.payload.impressions >= JSON_INTEGERS ==>
              Import(env, db, row) == Err(SchemaInvalid) && ConfirmOne(env, db, Readable(row), true) == Some(db)
    ensures Performance.MAX_COUNT < row.payload.impressions < JSON_INTEGERS ==>
              Import(env, db, row) == Err(DatabaseError) && ConfirmOne(env, db, Readable(row), true) == None
  {
  }

  /** An address that outgrows its column when it is normalized: previewed valid, then rejected on its own. */
  lemma LongAddressIsRejected(env: Env, db: Db, row: Row)
    requires row.ProductRow? && Validate(env, db, row).Ok? && row.details.urlLength > MAX_URL
    ensures Import(env, db, row) == Err(SchemaInvalid) && ConfirmOne(env, db, Readable(row), true) == Some(db)
  {
  }

  // ----- what imports keep ------------------------------------------------------

  /** Ids, inventory rows, periods and ledgers are in order. */
  ghost predicate DbInv(db: Db) {
    && DbOk(db) && SkusInitialized(db)
    && PerformanceRecords.Disjoint(db.records) && PerformanceRecords.MetricsCurrent(db.records)
    && forall i | i in db.stock :: Inventory.ItemInv(db.stock[i])
  }

  /** The import keeps active periods disjoint and ledgers replayable. */
  lemma ImportKeepsStores(env: Env, db: Db, row: Row)
    requires Importable(env, db, row) && DbOk(db)
    requires PerformanceRecords.Disjoint(db.records)
    requires forall i | i in db.stock :: Inventory.ItemInv(db.stock[i])
    ensures var after := Import(env, db, row).value;
            && PerformanceRecords.Disjoint(after.records)
            && forall i | i in after.stock :: Inventory.ItemInv(after.stock[i])
  {
    if row.SkuRow? {
      var d := row.data;
      var found := FindSku(env, db.skus, d.productId, d.code);
      Inventory.NewItemInv();
      var before := if found.Some? then db.stock[found.value] else Inventory.NewItem;
      Inventory.ImportedInv(before, d.stock, d.locked, d.warning, d.location);
    }
  }

  lemma ImportKeepsDb(env: Env, db: Db, row: Row)
    requires DbInv(db) && Importable(env, db, row)
    ensures DbInv(Import(env, db, row).value)
  {
    ImportKeeps(env, db, row);
    ImportKeepsStores(env, db, row);
  }

  /** A whole confirmation keeps them too, whatever the file and whatever was marked valid. */
  lemma {:induction false} ConfirmKeepsDb(env: Env, db: Db, raws: seq<RawRow>, valid: seq<bool>, k: nat)
    requires k <= |raws| == |valid|
    ensures var r := ConfirmUpto(env, db, raws, valid, k); DbInv(db) && r.Some? ==> DbInv(r.value)
  {
    if k > 0 {
      ConfirmKeepsDb(env, db, raws, valid, k - 1);
      var before := ConfirmUpto(env, db, raws, valid, k - 1);
      if DbInv(db) && before.Some? && raws[k - 1].Readable? && Importable(env, before.value, raws[k - 1].row) {
        ImportKeepsDb(env, before.value, raws[k - 1].row);
      }
    }
  }
}
