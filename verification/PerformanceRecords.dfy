/**
 The table of performance records (services/performance.py), one transaction at a time: no two active
 records of one product cover a common day.
 */
module PerformanceRecords {
  import opened Common
  import opened Dates
  import opened Performance

  /** No active record of the product, other than `exclude`, shares a day with the period. */
  predicate PeriodAvailable(book: Records, productId: nat, start: Date, end: Date, exclude: Option<nat>) {
    forall id | id in book ::
      !(&& book[id].productId == productId && book[id].active
        && Overlap(book[id].payload.start, book[id].payload.end, start, end)
        && Some(id) != exclude)
  }

  ghost predicate Disjoint(book: Records) {
    forall i, j | i in book && j in book && i != j && book[i].active && book[j].active &&
                  book[i].productId == book[j].productId ::
      !Overlap(book[i].payload.start, book[i].payload.end, book[j].payload.start, book[j].payload.end)
  }

  function NewRecord(productId: nat, p: Payload): Record
    requires ValidPayload(p)
  {
    Record(productId, p, MetricsOf(p), true, 1)
  }

  /** The guarded UPDATE statements: they hit the row only if it is still active at that version. */
  predicate Matches(book: Records, id: nat, expected: int) {
    id in book && book[id].active && book[id].version == expected
  }

  function Rewritten(r: Record, p: Payload): Record
    requires ValidPayload(p)
  {
    r.(payload := p, metrics := MetricsOf(p), version := r.version + 1)
  }

  function Voided(r: Record): Record {
    r.(active := false, version := r.version + 1)
  }

  /** Every record carries the metrics of its own numbers, so the rows of a summary are valid rows. */
  ghost predicate MetricsCurrent(book: Records) {
    forall id | id in book :: ValidRecord(book[id])
  }

  /** A record whose period is free next to the others keeps the table disjoint, new or rewritten. */
  lemma PutKeepsDisjoint(book: Records, id: nat, r: Record)
    requires Disjoint(book) && PeriodAvailable(book, r.productId, r.payload.start, r.payload.end, Some(id))
    ensures Disjoint(book[id := r])
  {
  }

  // ----- the service as it runs, one transaction at a time ----------------------

  class RecordStore {
    var book: Records
    var nextId: nat

    ghost predicate Valid()
      reads this
    {
      Disjoint(book) && MetricsCurrent(book) && forall id | id in book :: id < nextId
    }

    constructor ()
      ensures Valid() && book == map[]
    {
      book, nextId := map[], 0;
    }

    method Create(productId: nat, productExists: bool, p: Payload, refsOk: bool)
      returns (r: Result<nat, PerformanceError>)
      requires Valid() && ValidPayload(p)
      modifies this
      ensures Valid()
      ensures r.Ok? <==>
                && productExists && refsOk && FitsColumns(p)
                && PeriodAvailable(old(book), productId, p.start, p.end, None)
      ensures r.Ok? ==> r.value !in old(book) && book == old(book)[r.value := NewRecord(productId, p)]
      ensures r.Ok? ==>
                var n := book[r.value]; n.productId == productId && n.payload == p && n.active && n.version == 1
      ensures r.Err? ==> book == old(book)
      ensures r.Err? ==>
                r.error == (if !productExists then ProductNotFound
                            else if !refsOk then ReferenceInvalid
                            else if PeriodAvailable(old(book), productId, p.start, p.end, None) then OutOfRange
                            else PeriodOverlap)
    {
      if !productExists {
        return Err(ProductNotFound);
      }
      if !refsOk {
        return Err(ReferenceInvalid);
      }
      if !PeriodAvailable(book, productId, p.start, p.end, None) {
        return Err(PeriodOverlap);
      }
      if !FitsColumns(p) {
        return Err(OutOfRange); // the insert fails, and the transaction is rolled back
      }
      book := book[nextId := NewRecord(productId, p)];
      r := Ok(nextId);
      nextId := nextId + 1;
    }

    method Update(productId: nat, id: nat, p: Payload, refsOk: bool, expected: int)
      returns (r: Result<(), PerformanceError>)
      requires Valid() && ValidPayload(p)
      modifies this
      ensures Valid()
      ensures r.Ok? <==>
                && Matches(old(book), id, expected) && old(book)[id].productId == productId && refsOk && FitsColumns(p)
                && PeriodAvailable(old(book), productId, p.start, p.end, Some(id))
      ensures r.Ok? ==> book == old(book)[id := Rewritten(old(book)[id], p)]
      ensures r.Ok? ==>
                var n := book[id]; n.productId == productId && n.payload == p && n.active && n.version == expected + 1
      ensures r.Err? ==> book == old(book)
      ensures r.Err? ==>
                r.error == (if id !in book || book[id].productId != productId then RecordNotFound
                            else if !book[id].active then RecordVoided
                            else if !refsOk then ReferenceInvalid
                            else if !PeriodAvailable(book, productId, p.start, p.end, Some(id)) then PeriodOverlap
                            else if book[id].version != expected then VersionConflict
                            else OutOfRange)
    {
      if id !in book || book[id].productId != productId {
        return Err(RecordNotFound);
      }
      if !book[id].active {
        return Err(RecordVoided);
      }
      if !refsOk {
        return Err(ReferenceInvalid);
      }
      if !PeriodAvailable(book, productId, p.start, p.end, Some(id)) {
        return Err(PeriodOverlap);
      }
      if !Matches(book, id, expected) {
        return Err(VersionConflict);
      }
      if !FitsColumns(p) {
        return Err(OutOfRange);
      }
      book := book[id := Rewritten(book[id], p)];
      r := Ok(());
    }

    method VoidRecord(productId: nat, id: nat, expected: int) returns (r: Result<(), PerformanceError>)
      requires Valid()
      modifies this
      ensures Valid()
      ensures r.Ok? <==> Matches(old(book), id, expected) && old(book)[id].productId == productId
      ensures r.Ok? ==> book == old(book)[id := Voided(old(book)[id])]
      ensures r.Ok? ==>
                && !book[id].active && book[id].version == expected + 1
                && book[id] == old(book)[id].(active := false, version := expected + 1)
      ensures r.Err? ==> book == old(book)
      ensures r.Err? ==>
                r.error == (if id !in book || book[id].productId != productId then RecordNotFound
                            else if !book[id].active then RecordVoided
                            else VersionConflict)
    {
      if id !in book || book[id].productId != productId {
        return Err(RecordNotFound);
      }
      if !book[id].active {
        return Err(RecordVoided);
      }
      if !Matches(book, id, expected) {
        return Err(VersionConflict);
      }
      book := book[id := Voided(book[id])];
      r := Ok(());
    }
  }
}
