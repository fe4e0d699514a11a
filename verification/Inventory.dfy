/**
 One inventory item and its movement ledger, under direct adjustments, configuration updates and
 imports (services/inventory.py and the inventory half of services/imports.py).
 */
module Inventory {
  import opened Common

  datatype MovementKind = Inbound | Outbound | Adjustment | Lock | Unlock

  predicate AffectsLocked(k: MovementKind) {
    k == Lock || k == Unlock
  }

  datatype Movement = Movement(kind: MovementKind, change: int, before: int, after: int)

  /** The row with its ledger; `configs` counts configuration updates and is read by nothing. */
  datatype Item = Item(stock: int, locked: int, warning: int, location: Option<string>, version: int,
                       ledger: seq<Movement>, configs: nat)

  const NewItem := Item(0, 0, 0, None, 1, [], 0)

  /** `OutOfRange` is the database's error for a quantity that does not fit its column. */
  datatype InventoryError =
    | InventoryVersionConflict(current: int) | TargetInactive | StoreInactive | NegativeInventory | LockedExceedsStock
    | OutOfRange

  const MAX_QUANTITY: int := 0x7FFF_FFFF

  // ----- operations on values ---------------------------------------------------

  /** The schema of an adjustment request: the sign goes with the movement type. */
  predicate ValidAdjustment(kind: MovementKind, change: int) {
    && change != 0
    && (kind in {Inbound, Lock} ==> change > 0)
    && (kind in {Outbound, Unlock} ==> change < 0)
  }

  /** One ledger entry and the quantity it changes. */
  function Moved(item: Item, kind: MovementKind, change: int): Item {
    var before := if AffectsLocked(kind) then item.locked else item.stock;
    item.(stock := if AffectsLocked(kind) then item.stock else before + change,
    locked := if AffectsLocked(kind) then before + change else item.locked,
    version := item.version + 1,
    ledger := item.ledger + [Movement(kind, change, before, before + change)])
  }

  function Adjusted(item: Item, kind: MovementKind, change: int, expected: int, targetActive: bool, storeActive: bool)
    : Result<Item, InventoryError>
  {
    if item.version != expected then Err(InventoryVersionConflict(item.version))
    else if change > 0 && !targetActive then Err(TargetInactive)
    else if change > 0 && !storeActive then Err(StoreInactive)
    else
      var next := Moved(item, kind, change);
      if (if AffectsLocked(kind) then next.locked else next.stock) < 0 then Err(NegativeInventory)
      else if next.locked > next.stock then Err(LockedExceedsStock)
      else if next.stock > MAX_QUANTITY then Err(OutOfRange)
      else Ok(next)
  }

  /** Only the fields present in the request are assigned. */
  function Configured(item: Item, warning: Option<int>, location: Option<Option<string>>, expected: int)
    : Result<Item, InventoryError>
  {
    if item.version != expected then Err(InventoryVersionConflict(item.version))
    else Ok(item.(warning := if warning.Some? then warning.value else item.warning,
            location := if location.Some? then location.value else item.location,
            version := item.version + 1,
            configs := item.configs + 1))
  }

  /** `_movement`: bring one quantity to its target, recording nothing when it is there already. */
  function ToTarget(item: Item, onLocked: bool, target: int): Item {
    var before := if onLocked then item.locked else item.stock;
    if target == before then item
    else Moved(item, if !onLocked then Adjustment else if target > before then Lock else Unlock, target - before)
  }

  /** The import's order: unlock first when the locked quantity would exceed the new stock. */
  function Imported(item: Item, stock: int, locked: int, warning: int, location: Option<string>): Item {
    var first := if item.locked > stock then ToTarget(item, true, locked) else item;
    ToTarget(ToTarget(first, false, stock), true, locked).(warning := warning, location := location)
  }

  // ----- replaying the ledger ---------------------------------------------------

  function StockAfter(ledger: seq<Movement>): int {
    if ledger == [] then 0
    else
      var m := ledger[|ledger| - 1];
      StockAfter(ledger[..|ledger| - 1]) + (if AffectsLocked(m.kind) then 0 else m.change)
  }

  function LockedAfter(ledger: seq<Movement>): int {
    if ledger == [] then 0
    else
      var m := ledger[|ledger| - 1];
      LockedAfter(ledger[..|ledger| - 1]) + (if AffectsLocked(m.kind) then m.change else 0)
  }

  /** Entry `k` has the sign of its kind, continues the previous entry of its class, and adds up. */
  predicate EntryOk(ledger: seq<Movement>, k: nat)
    requires k < |ledger|
  {
    var m := ledger[k];
    && ValidAdjustment(m.kind, m.change)
    && m.before == (if AffectsLocked(m.kind) then LockedAfter(ledger[..k]) else StockAfter(ledger[..k]))
    && m.after == m.before + m.change
  }

  /** After every prefix of the ledger: nothing negative, nothing locked that is not there. */
  predicate PrefixOk(ledger: seq<Movement>, k: nat)
    requires k <= |ledger|
  {
    0 <= LockedAfter(ledger[..k]) <= StockAfter(ledger[..k])
  }

  ghost predicate LedgerOk(ledger: seq<Movement>) {
    && (forall k | 0 <= k < |ledger| :: EntryOk(ledger, k))
    && (forall k | 0 <= k <= |ledger| :: PrefixOk(ledger, k))
  }

  ghost predicate ItemInv(item: Item) {
    && item.stock == StockAfter(item.ledger)
    && item.locked == LockedAfter(item.ledger)
    && LedgerOk(item.ledger)
    && item.version == 1 + |item.ledger| + item.configs
  }

  lemma NewItemInv()
    ensures ItemInv(NewItem)
  {
  }

  lemma LedgerAppend(ledger: seq<Movement>, m: Movement)
    requires LedgerOk(ledger) && ValidAdjustment(m.kind, m.change) && m.after == m.before + m.change
    requires m.before == if AffectsLocked(m.kind) then LockedAfter(ledger) else StockAfter(ledger)
    requires if AffectsLocked(m.kind) then 0 <= m.after <= StockAfter(ledger) else LockedAfter(ledger) <= m.after
    ensures LedgerOk(ledger + [m])
    ensures StockAfter(ledger + [m]) == StockAfter(ledger) + (if AffectsLocked(m.kind) then 0 else m.change)
    ensures LockedAfter(ledger + [m]) == LockedAfter(ledger) + (if AffectsLocked(m.kind) then m.change else 0)
  {
    var l := ledger + [m];
    AppendedLast(ledger, m);
    assert l[..|l|] == l;
    assert ledger[..|ledger|] == ledger;
    assert PrefixOk(ledger, |ledger|);
    forall k | 0 <= k <= |ledger| ensures l[..k] == ledger[..k] {
    }
    forall k | 0 <= k < |l| ensures EntryOk(l, k) {
      if k < |ledger| {
        assert EntryOk(ledger, k);
      }
    }
    forall k | 0 <= k <= |l| ensures PrefixOk(l, k) {
      if k <= |ledger| {
        assert PrefixOk(ledger, k);
      }
    }
  }

  lemma MovedInv(item: Item, kind: MovementKind, change: int)
    requires ItemInv(item) && ValidAdjustment(kind, change)
    requires var next := Moved(item, kind, change); 0 <= next.locked <= next.stock
    ensures ItemInv(Moved(item, kind, change))
  {
    var before := if AffectsLocked(kind) then item.locked else item.stock;
    LedgerAppend(item.ledger, Movement(kind, change, before, before + change));
  }

  /** The entries that are new have these kinds. */
  predicate AddedBy(before: Item, after: Item, kinds: set<MovementKind>) {
    forall k | |before.ledger| <= k < |after.ledger| :: after.ledger[k].kind in kinds
  }

  lemma ToTargetInv(item: Item, onLocked: bool, target: int)
    requires ItemInv(item)
    requires if onLocked then 0 <= target <= item.stock else item.locked <= target && 0 <= item.locked
    ensures var r := ToTarget(item, onLocked, target);
            && ItemInv(r) && item.ledger <= r.ledger
            && r.locked == (if onLocked then target else item.locked)
            && r.stock == (if onLocked then item.stock else target)
            && |r.ledger| == |item.ledger| + (if target == (if onLocked then item.locked else item.stock) then 0 else 1)
            && AddedBy(item, r, if onLocked then {Lock, Unlock} else {Adjustment})
  {
    var before := if onLocked then item.locked else item.stock;
    if target != before {
      MovedInv(item, if !onLocked then Adjustment else if target > before then Lock else Unlock, target - before);
    }
  }

  lemma WithinBounds(item: Item)
    requires ItemInv(item)
    ensures 0 <= item.locked <= item.stock
  {
    assert item.ledger[..|item.ledger|] == item.ledger;
    assert PrefixOk(item.ledger, |item.ledger|);
  }

  /**
   An adjustment is accepted exactly when it names the current version, does not increase anything of an
   inactive SKU or store, and leaves quantities that are possible and fit. It moves one quantity by what was
   asked, and records that.
   */
  lemma AdjustmentDecides(item: Item, kind: MovementKind, change: int, expected: int, targetActive: bool,
                          storeActive: bool)
    requires ItemInv(item) && ValidAdjustment(kind, change)
    ensures var r := Adjusted(item, kind, change, expected, targetActive, storeActive);
            var onLocked := kind == Lock || kind == Unlock;
            var before := if onLocked then item.locked else item.stock;
            var stock := if onLocked then item.stock else item.stock + change;
            var locked := if onLocked then item.locked + change else item.locked;
            && (r.Ok? <==>
                && item.version == expected
                && (change > 0 ==> targetActive && storeActive)
                && 0 <= locked <= stock < 0x8000_0000)
            && (r.Ok? ==>
                  r.value == item.(stock := stock, locked := locked, version := expected + 1,
                             ledger := item.ledger + [Movement(kind, change, before, before + change)]))
            && (r.Err? ==>
                  r.error == if item.version != expected then InventoryVersionConflict(item.version)
                             else if change > 0 && !targetActive then TargetInactive
                             else if change > 0 && !storeActive then StoreInactive
                             else if stock < 0 || locked < 0 then NegativeInventory
                             else if locked > stock then LockedExceedsStock
                             else OutOfRange)
  {
    WithinBounds(item);
  }

  /** An update of the configuration changes what was sent, and neither quantity. */
  lemma ConfigurationDecides(item: Item, warning: Option<int>, location: Option<Option<string>>, expected: int)
    ensures var r := Configured(item, warning, location, expected);
            && (r.Ok? <==> item.version == expected)
            && (r.Err? ==> r.error == InventoryVersionConflict(item.version))
            && (r.Ok? ==>
                  var i := r.value;
                  && i.stock == item.stock && i.locked == item.locked && i.ledger == item.ledger
                  && i.version == expected + 1
                  && (warning == Some(i.warning) || (warning == None && i.warning == item.warning))
                  && (location == Some(i.location) || (location == None && i.location == item.location)))
  {
  }

  /** An accepted adjustment keeps the ledger replaying to the row. */
  lemma AdjustedInv(item: Item, kind: MovementKind, change: int, expected: int, targetActive: bool, storeActive: bool)
    requires ItemInv(item) && ValidAdjustment(kind, change)
    ensures var r := Adjusted(item, kind, change, expected, targetActive, storeActive);
            r.Ok? ==> ItemInv(r.value) && |r.value.ledger| == |item.ledger| + 1
  {
    WithinBounds(item);
    if Adjusted(item, kind, change, expected, targetActive, storeActive).Ok? {
      MovedInv(item, kind, change);
    }
  }

  /**
   An import reaches its targets in at most two movements, and no prefix of the ledger ever shows
   more locked than there is in stock.
   */
  lemma ImportedInv(item: Item, stock: int, locked: int, warning: int, location: Option<string>)
    requires ItemInv(item) && 0 <= locked <= stock
    ensures var r := Imported(item, stock, locked, warning, location);
            && ItemInv(r)
            && r.stock == stock && r.locked == locked && r.warning == warning && r.location == location
            && item.ledger <= r.ledger && |r.ledger| <= |item.ledger| + 2
            && AddedBy(item, r, {Adjustment, Lock, Unlock})
  {
    WithinBounds(item);
    if item.locked > stock {
      ToTargetInv(item, true, locked);
      StockThenLock(ToTarget(item, true, locked), stock, locked);
    } else {
      StockThenLock(item, stock, locked);
    }
  }

  lemma StockThenLock(item: Item, stock: int, locked: int)
    requires ItemInv(item) && 0 <= item.locked <= stock && 0 <= locked <= stock
    ensures var r := ToTarget(ToTarget(item, false, stock), true, locked);
            && ItemInv(r) && r.stock == stock && r.locked == locked && item.ledger <= r.ledger
            && |r.ledger|
            == |item.ledger| + (if stock == item.stock then 0 else 1) + (if locked == item.locked then 0 else 1)
            && AddedBy(item, r, {Adjustment, Lock, Unlock})
  {
    ToTargetInv(item, false, stock);
    ToTargetInv(ToTarget(item, false, stock), true, locked);
  }

  // ----- runs -------------------------------------------------------------------

  datatype Operation =
    | Adjust(kind: MovementKind, change: int, expected: int, targetActive: bool, storeActive: bool)
    | Configure(newWarning: Option<int>, newLocation: Option<Option<string>>, expected: int)
    | Import(stock: int, locked: int, warning: int, location: Option<string>)

  /** A request the schema or the service rejects changes nothing. */
  function Operate(item: Item, op: Operation): Item {
    match op
    case Adjust(kind, change, expected, targetActive, storeActive) =>
      if !ValidAdjustment(kind, change) then item
      else (match Adjusted(item, kind, change, expected, targetActive, storeActive) case Ok(i) => i case Err(_) => item)
    case Configure(warning, location, expected) =>
      (match Configured(item, warning, location, expected) case Ok(i) => i case Err(_) => item)
    case Import(stock, locked, warning, location) =>
      if 0 <= locked <= stock then Imported(item, stock, locked, warning, location) else item
  }

  function OperateAll(item: Item, ops: seq<Operation>): Item
    decreases |ops|
  {
    if ops == [] then item else OperateAll(Operate(item, ops[0]), ops[1..])
  }

  lemma OperateKeepsInv(item: Item, op: Operation)
    requires ItemInv(item)
    ensures ItemInv(Operate(item, op)) && item.ledger <= Operate(item, op).ledger
  {
    match op
    case Adjust(kind, change, expected, targetActive, storeActive) =>
      if ValidAdjustment(kind, change) {
        AdjustedInv(item, kind, change, expected, targetActive, storeActive);
      }
    case Configure(_, _, _) =>
    case Import(stock, locked, warning, location) =>
      if 0 <= locked <= stock {
        ImportedInv(item, stock, locked, warning, location);
      }
  }

  /** Over any sequence of requests the ledger replays to the row, and its past is never rewritten. */
  lemma {:induction false} LedgerReplays(item: Item, ops: seq<Operation>)
    requires ItemInv(item)
    ensures var r := OperateAll(item, ops);
            && item.ledger <= r.ledger
            && r.stock == StockAfter(r.ledger) && r.locked == LockedAfter(r.ledger) && LedgerOk(r.ledger)
            && 0 <= r.locked <= r.stock
            && r.version == 1 + |r.ledger| + r.configs
    decreases |ops|
  {
    if ops == [] {
      WithinBounds(item);
    } else {
      OperateKeepsInv(item, ops[0]);
      LedgerReplays(Operate(item, ops[0]), ops[1..]);
    }
  }

  // ----- what an inactive SKU or store stops ----------------------------------------

  /** Requests of users while the SKU or its store is inactive; imports are not stopped by the store. */
  predicate WhileInactive(op: Operation) {
    match op
    case Adjust(_, _, _, targetActive, storeActive) => !(targetActive && storeActive)
    case Configure(_, _, _) => true
    case Import(_, _, _, _) => false
  }

  /** Nothing grows, whatever is requested. */
  lemma {:induction false} InactiveNeverGrows(item: Item, ops: seq<Operation>)
    requires ItemInv(item) && forall i | 0 <= i < |ops| :: WhileInactive(ops[i])
    ensures var r := OperateAll(item, ops); r.stock <= item.stock && r.locked <= item.locked
    decreases |ops|
  {
    if ops != [] {
      var op := ops[0];
      if op.Adjust? && ValidAdjustment(op.kind, op.change) {
        AdjustmentDecides(item, op.kind, op.change, op.expected, op.targetActive, op.storeActive);
      }
      OperateKeepsInv(item, op);
      InactiveNeverGrows(Operate(item, op), ops[1..]);
    }
  }

  /** And everything can be taken out: what is locked is released first. */
  lemma InactiveCanBeEmptied(item: Item, targetActive: bool, storeActive: bool) returns (ops: seq<Operation>)
    requires ItemInv(item) && item.stock <= MAX_QUANTITY
    ensures var r := OperateAll(item, ops); r.stock == 0 && r.locked == 0
    ensures forall i | 0 <= i < |ops| ::
              ops[i].Adjust? && ops[i].targetActive == targetActive && ops[i].storeActive == storeActive
  {
    WithinBounds(item);
    var unlocked := item;
    ops := [];
    if item.locked > 0 {
      AdjustmentDecides(item, Unlock, -item.locked, item.version, targetActive, storeActive);
      ops := [Adjust(Unlock, -item.locked, item.version, targetActive, storeActive)];
      unlocked := Operate(item, ops[0]);
      OperateKeepsInv(item, ops[0]);
      assert ops[1..] == [] && OperateAll(unlocked, []) == unlocked;
    }
    if item.stock > 0 {
      var last := Adjust(Outbound, -item.stock, unlocked.version, targetActive, storeActive);
      AdjustmentDecides(unlocked, Outbound, -item.stock, unlocked.version, targetActive, storeActive);
      assert [last][1..] == [] && OperateAll(unlocked, [last]) == Operate(unlocked, last);
      assert ops != [] ==> (ops + [last])[0] == ops[0] && (ops + [last])[1..] == [last];
      ops := ops + [last];
    }
  }

  // ----- what the version protects ------------------------------------------------

  lemma {:induction false} ConfigsGrow(item: Item, ops: seq<Operation>)
    ensures item.configs <= OperateAll(item, ops).configs
    decreases |ops|
  {
    if ops != [] {
      ConfigsGrow(Operate(item, ops[0]), ops[1..]);
    }
  }

  /**
   The version check: an adjustment accepted with the version a user read, whatever was requested in
   between, moves exactly the quantities the user read, and its entry continues the ledger the user read.
   */
  lemma AdjustsWhatWasRead(item: Item, ops: seq<Operation>, kind: MovementKind, change: int, targetActive: bool,
                           storeActive: bool)
    requires ItemInv(item)
    requires Adjusted(OperateAll(item, ops), kind, change, item.version, targetActive, storeActive).Ok?
    ensures var r := Adjusted(OperateAll(item, ops), kind, change, item.version, targetActive, storeActive).value;
            var moved := Moved(item, kind, change);
            r.stock == moved.stock && r.locked == moved.locked && r.ledger == moved.ledger && r.version == moved.version
  {
    LedgerReplays(item, ops);
    ConfigsGrow(item, ops);
    assert OperateAll(item, ops).ledger == item.ledger;
  }

  // ----- what the version does not protect --------------------------------------

  /**
   Equal versions do not mean equal rows: an import assigns threshold and location without raising the
   version. It keeps the version exactly when both quantities are already at their targets.
   */
  lemma ImportVersion(item: Item, stock: int, locked: int, warning: int, location: Option<string>)
    requires ItemInv(item) && 0 <= locked <= stock
    ensures var r := Imported(item, stock, locked, warning, location);
            && r.version >= item.version
            && (r.version == item.version <==> item.stock == stock && item.locked == locked)
            && (r.version == item.version && r != item <==>
                item.stock == stock && item.locked == locked && (item.warning != warning || item.location != location))
  {
    ImportedInv(item, stock, locked, warning, location);
    WithinBounds(item);
  }

  /** A request that is rejected, or an import whose quantities are there already. */
  predicate Quiet(item: Item, op: Operation) {
    Operate(item, op) == item || (op.Import? && item.stock == op.stock && item.locked == op.locked)
  }

  predicate AllQuiet(item: Item, ops: seq<Operation>)
    decreases |ops|
  {
    ops == [] || (Quiet(item, ops[0]) && AllQuiet(Operate(item, ops[0]), ops[1..]))
  }

  lemma QuietKeepsVersion(item: Item, op: Operation)
    requires ItemInv(item)
    ensures var r := Operate(item, op);
            && r.version >= item.version
            && (r.version == item.version <==> Quiet(item, op))
            && (r.version == item.version ==> r == item.(warning := r.warning, location := r.location))
  {
    if op.Import? && 0 <= op.locked <= op.stock {
      ImportVersion(item, op.stock, op.locked, op.warning, op.location);
    }
  }

  /**
   Over any run: the version stays exactly when every request was rejected or imported the quantities that
   were there, and then the row and its ledger are the same, up to threshold and location.
   */
  lemma {:induction false} RunVersion(item: Item, ops: seq<Operation>)
    requires ItemInv(item)
    ensures var r := OperateAll(item, ops);
            && r.version >= item.version
            && (r.version == item.version <==> AllQuiet(item, ops))
            && (r.version == item.version ==> r == item.(warning := r.warning, location := r.location))
    decreases |ops|
  {
    if ops != [] {
      QuietKeepsVersion(item, ops[0]);
      OperateKeepsInv(item, ops[0]);
      RunVersion(Operate(item, ops[0]), ops[1..]);
    }
  }

  /** So a configuration update based on a stale read can pass the version check and undo an import's threshold. */
  lemma StaleConfigurationPasses(item: Item, seen: int)
    requires ItemInv(item) && seen != item.warning
    ensures var imported := Imported(item, item.stock, item.locked, seen, item.location);
            var r := Configured(imported, Some(item.warning), None, item.version);
            imported.warning == seen && r.Ok? && r.value.warning == item.warning
  {
    WithinBounds(item);
    ImportVersion(item, item.stock, item.locked, seen, item.location);
  }

  // ----- the services as they run -----------------------------------------------

  class InventoryItem {
    var stockQty: int
    var lockedQty: int
    var warningThreshold: int
    var locationText: Option<string>
    var versionNo: int
    var movements: seq<Movement>
    ghost var configUpdates: nat

    ghost function View(): Item
      reads this
    {
      Item(stockQty, lockedQty, warningThreshold, locationText, versionNo, movements, configUpdates)
    }

    constructor ()
      ensures View() == NewItem && ItemInv(View())
    {
      stockQty, lockedQty, warningThreshold, locationText := 0, 0, 0, None;
      versionNo, movements, configUpdates := 1, [], 0;
    }

    method CheckVersion(expected: int) returns (error: Option<InventoryError>)
      ensures error == if versionNo == expected then None else Some(InventoryVersionConflict(versionNo))
    {
      error := if versionNo != expected then Some(InventoryVersionConflict(versionNo)) else None;
    }

    method AdjustInventory(kind: MovementKind, change: int, expected: int, targetActive: bool, storeActive: bool)
      returns (error: Option<InventoryError>)
      requires ItemInv(View()) && ValidAdjustment(kind, change)
      modifies this
      ensures ItemInv(View())
      ensures var r := Adjusted(old(View()), kind, change, expected, targetActive, storeActive);
              (error.None? && r == Ok(View())) || (error.Some? && r == Err(error.value) && View() == old(View()))
    {
      AdjustedInv(View(), kind, change, expected, targetActive, storeActive);
      error := CheckVersion(expected);
      if error.Some? {
        return;
      }
      var increases := change > 0;
      if increases && !targetActive {
        return Some(TargetInactive);
      }
      if increases && !storeActive {
        return Some(StoreInactive);
      }
      var adjustsLocked := AffectsLocked(kind);
      var before := if adjustsLocked then lockedQty else stockQty;
      var after := before + change;
      if after < 0 {
        return Some(NegativeInventory);
      }
      var resultingStock := if adjustsLocked then stockQty else after;
      var resultingLocked := if adjustsLocked then after else lockedQty;
      if resultingLocked > resultingStock {
        return Some(LockedExceedsStock);
      }
      if resultingStock > MAX_QUANTITY {
        return Some(OutOfRange); // the update fails, and the transaction is rolled back
      }
      Record(kind, change, before, after);
    }

    /** Assigns the quantity and appends the movement. */
    method Record(kind: MovementKind, change: int, before: int, after: int)
      requires before == (if AffectsLocked(kind) then lockedQty else stockQty) && after == before + change
      modifies this
      ensures View() == Moved(old(View()), kind, change)
    {
      if AffectsLocked(kind) {
        lockedQty := after;
      } else {
        stockQty := after;
      }
      versionNo := versionNo + 1;
      movements := movements + [Movement(kind, change, before, after)];
    }

    method UpdateConfig(warning: Option<int>, location: Option<Option<string>>, expected: int)
      returns (error: Option<InventoryError>)
      requires ItemInv(View())
      modifies this
      ensures ItemInv(View())
      ensures var r := Configured(old(View()), warning, location, expected);
              (error.None? && r == Ok(View())) || (error.Some? && r == Err(error.value) && View() == old(View()))
    {
      error := CheckVersion(expected);
      if error.Some? {
        return;
      }
      if warning.Some? {
        warningThreshold := warning.value;
      }
      if location.Some? {
        locationText := location.value;
      }
      versionNo, configUpdates := versionNo + 1, configUpdates + 1;
    }

    method Move(onLocked: bool, target: int)
      modifies this
      ensures View() == ToTarget(old(View()), onLocked, target)
    {
      var before := if onLocked then lockedQty else stockQty;
      var delta := target - before;
      if delta == 0 {
        return;
      }
      var kind := Adjustment;
      if onLocked {
        lockedQty := target;
        kind := if delta > 0 then Lock else Unlock;
      } else {
        stockQty := target;
      }
      versionNo := versionNo + 1;
      movements := movements + [Movement(kind, delta, before, target)];
    }

    method ImportTargets(stock: int, locked: int, warning: int, location: Option<string>)
      requires ItemInv(View()) && 0 <= locked <= stock
      modifies this
      ensures ItemInv(View()) && View() == Imported(old(View()), stock, locked, warning, location)
    {
      ImportedInv(View(), stock, locked, warning, location);
      if lockedQty > stock {
        Move(true, locked);
      }
      Move(false, stock);
      Move(true, locked);
      warningThreshold, locationText := warning, location;
    }
  }
}
