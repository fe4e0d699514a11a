/**
 Concurrent writers of performance records (services/performance.py and the performance rows of
 services/imports.py) at the isolation the database gives them. A transaction's plain selects, the
 period check among them, read the snapshot of its first select plus its own writes; the lock on the
 product and the guarded updates work on the current rows.
 */
module PeriodRaces {
  import opened Common
  import opened Dates
  import opened Performance
  import opened PerformanceRecords

  type TxnId = nat

  /** `own` holds the rows written but not yet committed; they stay locked until the end, like `locks`. */
  datatype Txn = Txn(snapshot: Records, own: Records, locks: set<nat>)

  datatype World = World(book: Records, nextId: nat, txns: map<TxnId, Txn>)

  /**
   A request is Open, Lock, Create or Update, Commit; a batch confirmation is Open, then Lock and
   Create for each row with its product, then Commit. Void is a transaction of one guarded update.
   */
  datatype Step =
    | Open(t: TxnId)
    | Lock(t: TxnId, p: nat)
    | Create(t: TxnId, p: nat, payload: Payload)
    | Update(t: TxnId, p: nat, id: nat, payload: Payload, expected: int)
    | Void(p: nat, id: nat, expected: int)
    | Commit(t: TxnId)
    | Rollback(t: TxnId)

  const Empty := World(map[], 0, map[])

  function View(t: Txn): Records {
    t.snapshot + t.own
  }

  function Current(book: Records, t: Txn): Records {
    book + t.own
  }

  predicate Taken(w: World, p: nat) {
    exists t :: t in w.txns && p in w.txns[t].locks
  }

  predicate RowTaken(w: World, id: nat, writer: Option<TxnId>) {
    exists t :: t in w.txns && Some(t) != writer && id in w.txns[t].own
  }

  predicate MayLock(w: World, t: TxnId, p: nat) {
    t in w.txns && !Taken(w, p)
  }

  predicate MayCreate(w: World, t: TxnId, p: nat, x: Payload) {
    && t in w.txns && p in w.txns[t].locks && ValidPayload(x) && FitsColumns(x)
    && PeriodAvailable(View(w.txns[t]), p, x.start, x.end, None)
  }

  predicate MayUpdate(w: World, t: TxnId, p: nat, id: nat, x: Payload, expected: int) {
    && t in w.txns && p in w.txns[t].locks && ValidPayload(x) && FitsColumns(x)
    && var view := View(w.txns[t]);
       && id in view && view[id].productId == p && view[id].active
       && PeriodAvailable(view, p, x.start, x.end, Some(id))
       && !RowTaken(w, id, Some(t))
       && Matches(Current(w.book, w.txns[t]), id, expected)
  }

  predicate MayVoid(w: World, p: nat, id: nat, expected: int) {
    Matches(w.book, id, expected) && w.book[id].productId == p && !RowTaken(w, id, None)
  }

  function Put(w: World, t: TxnId, id: nat, r: Record): World
    requires t in w.txns
  {
    w.(txns := w.txns[t := w.txns[t].(own := w.txns[t].own[id := r])])
  }

  /** One step; a step that is blocked or rejected changes nothing. */
  function Next(w: World, s: Step): World {
    match s
    case Open(t) => if t in w.txns then w else w.(txns := w.txns[t := Txn(w.book, map[], {})])
    case Lock(t, p) =>
      if !MayLock(w, t, p) then w else w.(txns := w.txns[t := w.txns[t].(locks := w.txns[t].locks + {p})])
    case Create(t, p, x) =>
      if !MayCreate(w, t, p, x) then w else Put(w, t, w.nextId, NewRecord(p, x)).(nextId := w.nextId + 1)
    case Update(t, p, id, x, expected) =>
      if !MayUpdate(w, t, p, id, x, expected) then w
      else Put(w, t, id, Rewritten(Current(w.book, w.txns[t])[id], x))
    case Void(p, id, expected) =>
      if !MayVoid(w, p, id, expected) then w else w.(book := w.book[id := Voided(w.book[id])])
    case Commit(t) =>
      if t !in w.txns then w else w.(book := Current(w.book, w.txns[t]), txns := w.txns - {t})
    case Rollback(t) => w.(txns := w.txns - {t})
  }

  function RunSteps(w: World, steps: seq<Step>): World
    decreases |steps|
  {
    if steps == [] then w else RunSteps(Next(w, steps[0]), steps[1..])
  }

  // ----- what a snapshot has to know ----------------------------------------------

  predicate Live(book: Records, id: nat, p: nat) {
    id in book && book[id].active && book[id].productId == p
  }

  predicate Covers(book: Records, id: nat, p: nat, day: Date) {
    Live(book, id, p) && Le(book[id].payload.start, day) && Le(day, book[id].payload.end)
  }

  predicate Witness(view: Records, book: Records, p: nat, id: nat, day: Date, s: nat) {
    Covers(view, s, p, day) && (s == id || !Live(book, s, p))
  }

  /**
   Every day of an active record was, in the view, a day of the same record or of one that is not
   active any more. So it is when nothing was created or moved for the product since the view was taken.
   */
  ghost predicate Known(view: Records, book: Records, p: nat) {
    forall id, day: Date | Covers(book, id, p, day) :: exists s :: Witness(view, book, p, id, day, s)
  }

  /** A period that is free in such a view is free in the current table. */
  lemma CheckIsSound(view: Records, book: Records, p: nat, start: Date, end: Date, exclude: Option<nat>)
    requires Known(view, book, p) && MetricsCurrent(book) && Le(start, end)
    requires PeriodAvailable(view, p, start, end, exclude)
    requires exclude.Some? ==> Live(book, exclude.value, p)
    ensures PeriodAvailable(book, p, start, end, exclude)
  {
    forall id | Live(book, id, p) && Overlap(book[id].payload.start, book[id].payload.end, start, end)
      ensures Some(id) == exclude
    {
      var from := book[id].payload.start;
      var day := if Le(from, start) then start else from;
      assert ValidRecord(book[id]);
      assert Covers(book, id, p, day);
      var s :| Witness(view, book, p, id, day, s);
      assert Overlap(view[s].payload.start, view[s].payload.end, start, end);
    }
  }

  /** What the check asks: no day of the period belongs to another active record of the product. */
  lemma FreeMeansNoDay(book: Records, p: nat, start: Date, end: Date, exclude: Option<nat>)
    requires MetricsCurrent(book) && Le(start, end)
    ensures PeriodAvailable(book, p, start, end, exclude) <==>
            forall id: nat, day: Date | Covers(book, id, p, day) && Le(start, day) && Le(day, end) ::
              Some(id) == exclude
  {
    if forall id: nat, day: Date | Covers(book, id, p, day) && Le(start, day) && Le(day, end) :: Some(id) == exclude {
      forall id | Live(book, id, p) && Overlap(book[id].payload.start, book[id].payload.end, start, end)
        ensures Some(id) == exclude
      {
        assert ValidRecord(book[id]);
        var from := book[id].payload.start;
        var day := if Le(from, start) then start else from;
        assert Covers(book, id, p, day);
      }
    }
  }

  // ----- the invariant ------------------------------------------------------------

  /** The snapshot's rows still exist, for the same products: no row is ever removed. */
  ghost predicate Rooted(book: Records, t: Txn) {
    forall id | id in t.snapshot :: id in book && book[id].productId == t.snapshot[id].productId
  }

  /** A transaction writes only under the lock of the product. */
  ghost predicate OwnOk(book: Records, nextId: nat, t: Txn) {
    && MetricsCurrent(t.own)
    && forall id | id in t.own ::
         && id < nextId && t.own[id].productId in t.locks
         && (id in book ==> book[id].productId == t.own[id].productId)
  }

  ghost predicate KnowsLocked(view: Records, book: Records, locks: set<nat>) {
    forall p | p in locks :: Known(view, book, p)
  }

  ghost predicate TxnOk(book: Records, nextId: nat, t: Txn) {
    && Rooted(book, t) && OwnOk(book, nextId, t)
    && Disjoint(View(t)) && Disjoint(Current(book, t))
    && KnowsLocked(View(t), Current(book, t), t.locks)
  }

  ghost predicate Apart(t: Txn, u: Txn) {
    t.locks !! u.locks && t.own.Keys !! u.own.Keys
  }

  ghost predicate BookOk(book: Records, nextId: nat) {
    Disjoint(book) && MetricsCurrent(book) && forall id | id in book :: id < nextId
  }

  ghost predicate WorldInv(w: World) {
    && BookOk(w.book, w.nextId)
    && (forall t | t in w.txns :: TxnOk(w.book, w.nextId, w.txns[t]))
    && (forall t, u | t in w.txns && u in w.txns && t != u :: Apart(w.txns[t], w.txns[u]))
  }

  /** Two tables have the same records of one product. */
  ghost predicate SameFor(a: Records, b: Records, p: nat) {
    && (forall id | id in a && a[id].productId == p :: id in b && b[id] == a[id])
    && (forall id | id in b && b[id].productId == p :: id in a && a[id] == b[id])
  }

  lemma KnownSame(view: Records, book: Records, view': Records, book': Records, p: nat)
    requires Known(view, book, p) && SameFor(view, view', p) && SameFor(book, book', p)
    ensures Known(view', book', p)
  {
    forall id, day: Date | Covers(book', id, p, day) ensures exists s :: Witness(view', book', p, id, day, s) {
      assert Covers(book, id, p, day);
      var s :| Witness(view, book, p, id, day, s);
      assert Witness(view', book', p, id, day, s);
    }
  }

  /** The writer's own record, in its view and in the current table alike. */
  lemma KnownPut(view: Records, book: Records, id: nat, r: Record, p: nat)
    requires Known(view, book, p)
    requires if r.productId == p then Live(book, id, p) || (id !in view && id !in book)
             else (id in view ==> view[id].productId != p) && (id in book ==> book[id].productId != p)
    requires r.active
    ensures Known(view[id := r], book[id := r], p)
  {
    var view', book' := view[id := r], book[id := r];
    forall i, day: Date | Covers(book', i, p, day) ensures exists s :: Witness(view', book', p, i, day, s) {
      if i == id {
        assert Witness(view', book', p, i, day, id);
      } else {
        assert Covers(book, i, p, day);
        var s :| Witness(view, book, p, i, day, s);
        assert Witness(view', book', p, i, day, s);
      }
    }
  }

  /** A void takes days away and makes no record active. */
  lemma KnownVoid(view: Records, book: Records, id: nat, p: nat)
    requires Known(view, book, p) && id in book
    ensures Known(view, book[id := Voided(book[id])], p)
  {
    var book' := book[id := Voided(book[id])];
    forall i, day: Date | Covers(book', i, p, day) ensures exists s :: Witness(view, book', p, i, day, s) {
      assert Covers(book, i, p, day);
      var s :| Witness(view, book, p, i, day, s);
      assert Witness(view, book', p, i, day, s);
    }
  }

  // ----- steps --------------------------------------------------------------------

  /** A checked write on the two tables its transaction sees. */
  lemma PutViews(view: Records, book: Records, locks: set<nat>, id: nat, r: Record)
    requires Disjoint(view) && Disjoint(book) && MetricsCurrent(book) && KnowsLocked(view, book, locks)
    requires r.active && ValidRecord(r) && r.productId in locks
    requires Live(book, id, r.productId) || (id !in view && id !in book)
    requires id in view ==> view[id].productId == r.productId
    requires PeriodAvailable(view, r.productId, r.payload.start, r.payload.end, if id in book then Some(id) else None)
    ensures Disjoint(view[id := r]) && Disjoint(book[id := r])
    ensures KnowsLocked(view[id := r], book[id := r], locks)
  {
    assert Known(view, book, r.productId);
    CheckIsSound(view, book, r.productId, r.payload.start, r.payload.end, if id in book then Some(id) else None);
    PutKeepsDisjoint(view, id, r);
    PutKeepsDisjoint(book, id, r);
    forall p | p in locks ensures Known(view[id := r], book[id := r], p) {
      KnownPut(view, book, id, r, p);
    }
  }

  lemma PutOwnOk(book: Records, nextId: nat, t: Txn, id: nat, r: Record, nextId': nat)
    requires OwnOk(book, nextId, t) && nextId <= nextId' && id < nextId'
    requires ValidRecord(r) && r.productId in t.locks && (id in book ==> book[id].productId == r.productId)
    ensures OwnOk(book, nextId', t.(own := t.own[id := r]))
  {
  }

  lemma PutSeen(book: Records, t: Txn, id: nat, r: Record)
    ensures View(t.(own := t.own[id := r])) == View(t)[id := r]
    ensures Current(book, t.(own := t.own[id := r])) == Current(book, t)[id := r]
  {
  }

  lemma PutTxnOk(book: Records, nextId: nat, t: Txn, id: nat, r: Record, nextId': nat)
    requires BookOk(book, nextId) && TxnOk(book, nextId, t) && nextId <= nextId' && id < nextId'
    requires r.active && ValidRecord(r) && r.productId in t.locks && (id in book ==> book[id].productId == r.productId)
    requires Live(Current(book, t), id, r.productId) || (id !in View(t) && id !in Current(book, t))
    requires id in View(t) ==> View(t)[id].productId == r.productId
    requires PeriodAvailable(View(t), r.productId, r.payload.start, r.payload.end,
                             if id in Current(book, t) then Some(id) else None)
    ensures TxnOk(book, nextId', t.(own := t.own[id := r]))
  {
    PutSeen(book, t, id, r);
    PutOwnOk(book, nextId, t, id, r, nextId');
    CurrentMetrics(book, nextId, t);
    PutViews(View(t), Current(book, t), t.locks, id, r);
    var t' := t.(own := t.own[id := r]);
    assert View(t') == View(t)[id := r] && Current(book, t') == Current(book, t)[id := r] && t'.locks == t.locks;
    assert Rooted(book, t');
  }

  lemma CurrentMetrics(book: Records, nextId: nat, t: Txn)
    requires MetricsCurrent(book) && OwnOk(book, nextId, t)
    ensures MetricsCurrent(Current(book, t))
  {
  }

  lemma MoreIds(book: Records, nextId: nat, t: Txn, nextId': nat)
    requires TxnOk(book, nextId, t) && nextId <= nextId'
    ensures TxnOk(book, nextId', t)
  {
  }

  lemma PutApart(w: World, t: TxnId, id: nat, r: Record, u: TxnId)
    requires t in w.txns && u in w.txns && u != t && !RowTaken(w, id, Some(t)) && Apart(w.txns[t], w.txns[u])
    ensures Apart(w.txns[t].(own := w.txns[t].own[id := r]), w.txns[u])
    ensures Apart(w.txns[u], w.txns[t].(own := w.txns[t].own[id := r]))
  {
  }

  /** A write leaves the other transactions as they were. */
  lemma PutKeepsInv(w: World, t: TxnId, id: nat, r: Record, nextId: nat)
    requires WorldInv(w) && t in w.txns && w.nextId <= nextId
    requires TxnOk(w.book, nextId, w.txns[t].(own := w.txns[t].own[id := r]))
    requires !RowTaken(w, id, Some(t))
    ensures WorldInv(Put(w, t, id, r).(nextId := nextId))
  {
    var w' := Put(w, t, id, r).(nextId := nextId);
    forall u | u in w'.txns ensures TxnOk(w'.book, w'.nextId, w'.txns[u]) {
      if u != t {
        MoreIds(w.book, w.nextId, w.txns[u], nextId);
      }
    }
    forall u, v | u in w'.txns && v in w'.txns && u != v ensures Apart(w'.txns[u], w'.txns[v]) {
      assert Apart(w.txns[u], w.txns[v]);
      if u == t || v == t {
        PutApart(w, t, id, r, if u == t then v else u);
      }
    }
  }

  /** Ids not yet given out occur nowhere. */
  lemma NextIdIsNew(w: World, t: TxnId)
    requires WorldInv(w) && t in w.txns
    ensures w.nextId !in View(w.txns[t]) && w.nextId !in Current(w.book, w.txns[t])
    ensures !RowTaken(w, w.nextId, Some(t))
  {
    assert TxnOk(w.book, w.nextId, w.txns[t]);
    forall u | u in w.txns ensures w.nextId !in w.txns[u].own {
      assert OwnOk(w.book, w.nextId, w.txns[u]);
    }
  }

  lemma CreateKeepsInv(w: World, t: TxnId, p: nat, x: Payload)
    requires WorldInv(w)
    ensures WorldInv(Next(w, Create(t, p, x)))
  {
    if MayCreate(w, t, p, x) {
      NextIdIsNew(w, t);
      PutTxnOk(w.book, w.nextId, w.txns[t], w.nextId, NewRecord(p, x), w.nextId + 1);
      PutKeepsInv(w, t, w.nextId, NewRecord(p, x), w.nextId + 1);
    }
  }

  /** A row has the same product in every table a transaction sees. */
  lemma SameProduct(book: Records, nextId: nat, t: Txn, id: nat)
    requires Rooted(book, t) && OwnOk(book, nextId, t) && id in View(t)
    ensures id in Current(book, t) && Current(book, t)[id].productId == View(t)[id].productId
  {
  }

  lemma UpdateKeepsInv(w: World, t: TxnId, p: nat, id: nat, x: Payload, expected: int)
    requires WorldInv(w)
    ensures WorldInv(Next(w, Update(t, p, id, x, expected)))
  {
    if MayUpdate(w, t, p, id, x, expected) {
      var txn := w.txns[t];
      assert TxnOk(w.book, w.nextId, txn);
      SameProduct(w.book, w.nextId, txn, id);
      assert id < w.nextId by {
        assert id in w.book || id in txn.own;
      }
      var r := Rewritten(Current(w.book, txn)[id], x);
      PutTxnOk(w.book, w.nextId, txn, id, r, w.nextId);
      PutKeepsInv(w, t, id, r, w.nextId);
    }
  }

  lemma VoidRooted(book: Records, nextId: nat, id: nat, t: Txn)
    requires Rooted(book, t) && OwnOk(book, nextId, t) && id in book && id !in t.own
    ensures var book' := book[id := Voided(book[id])];
            && Rooted(book', t) && OwnOk(book', nextId, t)
            && Current(book', t) == Current(book, t)[id := Voided(Current(book, t)[id])]
  {
  }

  lemma VoidTxnOk(book: Records, nextId: nat, id: nat, t: Txn)
    requires TxnOk(book, nextId, t) && id in book && id !in t.own
    ensures TxnOk(book[id := Voided(book[id])], nextId, t)
  {
    var book' := book[id := Voided(book[id])];
    var current := Current(book, t);
    VoidRooted(book, nextId, id, t);
    VoidKeepsDisjoint(current, id);
    forall p | p in t.locks ensures Known(View(t), Current(book', t), p) {
      KnownVoid(View(t), current, id, p);
    }
  }

  lemma VoidKeepsDisjoint(book: Records, id: nat)
    requires Disjoint(book) && id in book
    ensures Disjoint(book[id := Voided(book[id])])
  {
  }

  lemma VoidKeepsInv(w: World, p: nat, id: nat, expected: int)
    requires WorldInv(w)
    ensures WorldInv(Next(w, Void(p, id, expected)))
  {
    if MayVoid(w, p, id, expected) {
      var w' := Next(w, Void(p, id, expected));
      VoidKeepsDisjoint(w.book, id);
      assert BookOk(w'.book, w'.nextId);
      forall t | t in w'.txns ensures TxnOk(w'.book, w'.nextId, w'.txns[t]) {
        VoidTxnOk(w.book, w.nextId, id, w.txns[t]);
      }
    }
  }

  /** Writing under other locks leaves the records of a locked product alone, and only those it locks. */
  lemma CommitSameFor(book: Records, nextId: nat, t: Txn, u: Txn, p: nat)
    requires OwnOk(book, nextId, t) && OwnOk(book, nextId, u) && Apart(t, u)
    ensures p in u.locks ==> SameFor(Current(book, u), Current(Current(book, t), u), p)
    ensures p !in u.locks ==> SameFor(Current(book, t), Current(Current(book, t), u), p)
  {
  }

  lemma CommitTxnOk(book: Records, nextId: nat, t: Txn, u: Txn)
    requires TxnOk(book, nextId, t) && TxnOk(book, nextId, u) && Apart(t, u)
    ensures TxnOk(Current(book, t), nextId, u)
  {
    var book' := Current(book, t);
    CommitRooted(book, nextId, t, u);
    forall p ensures SameFor(if p in u.locks then Current(book, u) else book', Current(book', u), p) {
      CommitSameFor(book, nextId, t, u, p);
    }
    DisjointByProduct(Current(book, u), book', Current(book', u), u.locks);
    forall p | p in u.locks ensures Known(View(u), Current(book', u), p) {
      CommitSameFor(book, nextId, t, u, p);
      KnownSame(View(u), Current(book, u), View(u), Current(book', u), p);
    }
  }

  lemma CommitRooted(book: Records, nextId: nat, t: Txn, u: Txn)
    requires Rooted(book, u) && OwnOk(book, nextId, t) && OwnOk(book, nextId, u) && Apart(t, u)
    ensures Rooted(Current(book, t), u) && OwnOk(Current(book, t), nextId, u)
  {
  }

  lemma DisjointByProduct(a: Records, b: Records, c: Records, ps: set<nat>)
    requires Disjoint(a) && Disjoint(b)
    requires forall p :: SameFor(if p in ps then a else b, c, p)
    ensures Disjoint(c)
  {
    forall i, j | i in c && j in c && i != j && c[i].active && c[j].active && c[i].productId == c[j].productId
      ensures !Overlap(c[i].payload.start, c[i].payload.end, c[j].payload.start, c[j].payload.end)
    {
      var p := c[i].productId;
      assert SameFor(if p in ps then a else b, c, p);
    }
  }

  lemma CommitBookOk(book: Records, nextId: nat, t: Txn)
    requires BookOk(book, nextId) && TxnOk(book, nextId, t)
    ensures BookOk(Current(book, t), nextId)
  {
  }

  lemma CommitKeepsInv(w: World, t: TxnId)
    requires WorldInv(w)
    ensures WorldInv(Next(w, Commit(t)))
  {
    if t in w.txns {
      var w' := Next(w, Commit(t));
      CommitBookOk(w.book, w.nextId, w.txns[t]);
      forall u | u in w'.txns ensures TxnOk(w'.book, w'.nextId, w'.txns[u]) {
        assert Apart(w.txns[t], w.txns[u]);
        CommitTxnOk(w.book, w.nextId, w.txns[t], w.txns[u]);
      }
    }
  }

  lemma OpenKeepsInv(w: World, t: TxnId)
    requires WorldInv(w)
    ensures WorldInv(Next(w, Open(t)))
  {
    if t !in w.txns {
      var txn := Txn(w.book, map[], {});
      NewTxnOk(w.book, w.nextId);
      var w' := Next(w, Open(t));
      forall u | u in w'.txns ensures TxnOk(w'.book, w'.nextId, w'.txns[u]) {
        assert u == t || u in w.txns;
      }
      forall u, v | u in w'.txns && v in w'.txns && u != v ensures Apart(w'.txns[u], w'.txns[v]) {
        assert u != t && v != t ==> Apart(w.txns[u], w.txns[v]);
      }
    }
  }

  lemma NewTxnOk(book: Records, nextId: nat)
    requires BookOk(book, nextId)
    ensures TxnOk(book, nextId, Txn(book, map[], {}))
  {
    var t := Txn(book, map[], {});
    assert View(t) == book && Current(book, t) == book;
  }

  /** Before its lock, a transaction has written nothing for the product. */
  lemma NothingWrittenYet(book: Records, nextId: nat, t: Txn, p: nat)
    requires Rooted(book, t) && OwnOk(book, nextId, t) && p !in t.locks
    ensures SameFor(t.snapshot, View(t), p) && SameFor(book, Current(book, t), p)
  {
  }

  lemma LockTxnOk(book: Records, nextId: nat, t: Txn, p: nat)
    requires TxnOk(book, nextId, t) && p !in t.locks && Known(t.snapshot, book, p)
    ensures TxnOk(book, nextId, t.(locks := t.locks + {p}))
  {
    NothingWrittenYet(book, nextId, t, p);
    KnownSame(t.snapshot, book, View(t), Current(book, t), p);
    var t' := t.(locks := t.locks + {p});
    assert View(t') == View(t) && Current(book, t') == Current(book, t);
  }

  /** Locking a product whose active days the snapshot knows. */
  lemma LockKeepsInv(w: World, t: TxnId, p: nat)
    requires WorldInv(w)
    requires MayLock(w, t, p) ==> Known(w.txns[t].snapshot, w.book, p)
    ensures WorldInv(Next(w, Lock(t, p)))
  {
    if MayLock(w, t, p) {
      var w' := Next(w, Lock(t, p));
      LockTxnOk(w.book, w.nextId, w.txns[t], p);
      forall u, v | u in w'.txns && v in w'.txns && u != v ensures Apart(w'.txns[u], w'.txns[v]) {
        assert Apart(w.txns[u], w.txns[v]);
      }
    }
  }

  /** Each lock that is taken is taken on a product whose active days the snapshot knows. */
  ghost predicate Fresh(w: World, s: Step) {
    s.Lock? && MayLock(w, s.t, s.p) ==> Known(w.txns[s.t].snapshot, w.book, s.p)
  }

  ghost predicate AllFresh(w: World, steps: seq<Step>)
    decreases |steps|
  {
    steps == [] || (Fresh(w, steps[0]) && AllFresh(Next(w, steps[0]), steps[1..]))
  }

  lemma StepKeepsInv(w: World, s: Step)
    requires WorldInv(w) && Fresh(w, s)
    ensures WorldInv(Next(w, s))
  {
    match s
    case Open(t) => OpenKeepsInv(w, t);
    case Lock(t, p) => LockKeepsInv(w, t, p);
    case Create(t, p, x) => CreateKeepsInv(w, t, p, x);
    case Update(t, p, id, x, expected) => UpdateKeepsInv(w, t, p, id, x, expected);
    case Void(p, id, expected) => VoidKeepsInv(w, p, id, expected);
    case Commit(t) => CommitKeepsInv(w, t);
    case Rollback(t) =>
  }

  /**
   In every interleaving of creations, updates, voids and batch imports whose locks are taken with a
   snapshot that knows the product's active days, no two active records of a product share a day.
   */
  lemma {:induction false} PeriodsStayDisjoint(w: World, steps: seq<Step>)
    requires WorldInv(w) && AllFresh(w, steps)
    ensures WorldInv(RunSteps(w, steps)) && Disjoint(RunSteps(w, steps).book)
    decreases |steps|
  {
    if steps != [] {
      StepKeepsInv(w, steps[0]);
      PeriodsStayDisjoint(Next(w, steps[0]), steps[1..]);
    }
  }

  // ----- and nothing less will do -------------------------------------------------

  predicate IsWriteOf(s: Step, t: TxnId, p: nat) {
    (s.Create? || s.Update?) && s.t == t && s.p == p
  }

  function OneDay(day: Date): Payload {
    Payload(day, day, 0, 0, 0, 0, 0, [])
  }

  /** A lock on a product with a day the snapshot does not know: some checked write on that day overlaps. */
  lemma UnknownDayBreaks(w: World, t: TxnId, p: nat) returns (s: Step)
    requires WorldInv(w) && MayLock(w, t, p) && !Known(w.txns[t].snapshot, w.book, p)
    ensures IsWriteOf(s, t, p) && !Disjoint(RunSteps(Next(w, Lock(t, p)), [s, Commit(t)]).book)
  {
    var snapshot := w.txns[t].snapshot;
    var id, day: Date :| Covers(w.book, id, p, day) && !exists s :: Witness(snapshot, w.book, p, id, day, s);
    if moved :| Covers(snapshot, moved, p, day) {
      assert !Witness(snapshot, w.book, p, id, day, moved);
      s := Update(t, p, moved, OneDay(day), w.book[moved].version);
      MovedOnto(w, t, p, id, moved, day);
    } else {
      s := Create(t, p, OneDay(day));
      CreatedOnto(w, t, p, id, day);
    }
  }

  lemma CreatedOnto(w: World, t: TxnId, p: nat, id: nat, day: Date)
    requires WorldInv(w) && MayLock(w, t, p) && Covers(w.book, id, p, day)
    requires forall s: nat :: !Covers(w.txns[t].snapshot, s, p, day)
    ensures !Disjoint(RunSteps(Next(w, Lock(t, p)), [Create(t, p, OneDay(day)), Commit(t)]).book)
  {
    LockShows(w, t, p);
    NextIdIsNew(w, t);
    CoversSame(w.txns[t].snapshot, View(w.txns[t]), p, day);
    CoversSame(w.book, Current(w.book, w.txns[t]), p, day);
    CreateOnto(Next(w, Lock(t, p)), t, p, id, day);
  }

  lemma CoversSame(a: Records, b: Records, p: nat, day: Date)
    requires SameFor(a, b, p)
    ensures forall s: nat :: Covers(a, s, p, day) <==> Covers(b, s, p, day)
  {
  }

  lemma CreateOnto(w: World, t: TxnId, p: nat, id: nat, day: Date)
    requires t in w.txns && p in w.txns[t].locks && w.nextId !in Current(w.book, w.txns[t])
    requires forall s: nat :: !Covers(View(w.txns[t]), s, p, day)
    requires Covers(Current(w.book, w.txns[t]), id, p, day)
    ensures !Disjoint(RunSteps(w, [Create(t, p, OneDay(day)), Commit(t)]).book)
  {
    FreeDay(View(w.txns[t]), p, day, None);
    CreateThenCommit(w, t, p, OneDay(day));
    OverlapOnDay(Current(w.book, w.txns[t])[w.nextId := NewRecord(p, OneDay(day))], id, w.nextId, p, day);
  }

  lemma MovedOnto(w: World, t: TxnId, p: nat, id: nat, moved: nat, day: Date)
    requires WorldInv(w) && MayLock(w, t, p) && Covers(w.book, id, p, day)
    requires Covers(w.txns[t].snapshot, moved, p, day) && moved != id && Live(w.book, moved, p)
    ensures !Disjoint(RunSteps(Next(w, Lock(t, p)),
                               [Update(t, p, moved, OneDay(day), w.book[moved].version), Commit(t)]).book)
  {
    LockShows(w, t, p);
    NotTakenBefore(w, t, p, moved);
    MoveOnto(Next(w, Lock(t, p)), t, p, id, moved, day, w.book[moved].version);
  }

  lemma MoveOnto(w: World, t: TxnId, p: nat, id: nat, moved: nat, day: Date, expected: int)
    requires t in w.txns && p in w.txns[t].locks && Disjoint(View(w.txns[t])) && !RowTaken(w, moved, Some(t))
    requires Covers(View(w.txns[t]), moved, p, day) && moved != id
    requires Covers(Current(w.book, w.txns[t]), id, p, day) && Live(Current(w.book, w.txns[t]), moved, p)
    requires Current(w.book, w.txns[t])[moved].version == expected
    ensures !Disjoint(RunSteps(w, [Update(t, p, moved, OneDay(day), expected), Commit(t)]).book)
  {
    OneCovers(View(w.txns[t]), moved, p, day);
    FreeDay(View(w.txns[t]), p, day, Some(moved));
    UpdateThenCommit(w, t, p, moved, OneDay(day), expected);
    var current := Current(w.book, w.txns[t]);
    OverlapOnDay(current[moved := Rewritten(current[moved], OneDay(day))], id, moved, p, day);
  }

  /** Right after its lock, a transaction's tables are the snapshot and the book, for that product. */
  lemma LockShows(w: World, t: TxnId, p: nat)
    requires WorldInv(w) && MayLock(w, t, p)
    ensures var w1 := Next(w, Lock(t, p));
            && t in w1.txns && p in w1.txns[t].locks && w1.book == w.book && w1.nextId == w.nextId
            && View(w1.txns[t]) == View(w.txns[t]) && Disjoint(View(w1.txns[t]))
            && Current(w1.book, w1.txns[t]) == Current(w.book, w.txns[t])
            && SameFor(w.txns[t].snapshot, View(w1.txns[t]), p)
            && SameFor(w.book, Current(w1.book, w1.txns[t]), p)
            && (forall u | u in w.txns :: u in w1.txns && w1.txns[u].own == w.txns[u].own)
            && w1.txns.Keys == w.txns.Keys
  {
    assert TxnOk(w.book, w.nextId, w.txns[t]);
    NothingWrittenYet(w.book, w.nextId, w.txns[t], p);
  }

  /** Nobody holds a row of a product that nobody has locked. */
  lemma NotTakenBefore(w: World, t: TxnId, p: nat, id: nat)
    requires WorldInv(w) && MayLock(w, t, p) && id in w.book && w.book[id].productId == p
    ensures !RowTaken(w, id, Some(t)) && !RowTaken(Next(w, Lock(t, p)), id, Some(t))
  {
    forall u | u in w.txns ensures id !in w.txns[u].own {
      assert OwnOk(w.book, w.nextId, w.txns[u]);
    }
  }

  lemma FreeDay(view: Records, p: nat, day: Date, exclude: Option<nat>)
    requires forall s: nat | Covers(view, s, p, day) :: Some(s) == exclude
    ensures PeriodAvailable(view, p, day, day, exclude)
  {
    forall s: nat | Live(view, s, p) && Overlap(view[s].payload.start, view[s].payload.end, day, day)
      ensures Some(s) == exclude
    {
      assert Covers(view, s, p, day);
    }
  }

  lemma OneCovers(view: Records, id: nat, p: nat, day: Date)
    requires Disjoint(view) && Covers(view, id, p, day)
    ensures forall s | Covers(view, s, p, day) :: s == id
  {
  }

  lemma OverlapOnDay(book: Records, i: nat, j: nat, p: nat, day: Date)
    requires i != j && Covers(book, i, p, day) && Covers(book, j, p, day)
    ensures !Disjoint(book)
  {
  }

  lemma CreateThenCommit(w: World, t: TxnId, p: nat, x: Payload)
    requires MayCreate(w, t, p, x)
    ensures RunSteps(w, [Create(t, p, x), Commit(t)]).book
         == Current(w.book, w.txns[t])[w.nextId := NewRecord(p, x)]
  {
    TwoSteps(w, Create(t, p, x), Commit(t));
    PutSeen(w.book, w.txns[t], w.nextId, NewRecord(p, x));
  }

  lemma UpdateThenCommit(w: World, t: TxnId, p: nat, id: nat, x: Payload, expected: int)
    requires MayUpdate(w, t, p, id, x, expected)
    ensures var current := Current(w.book, w.txns[t]);
            RunSteps(w, [Update(t, p, id, x, expected), Commit(t)]).book == current[id := Rewritten(current[id], x)]
  {
    TwoSteps(w, Update(t, p, id, x, expected), Commit(t));
    PutSeen(w.book, w.txns[t], id, Rewritten(Current(w.book, w.txns[t])[id], x));
  }

  lemma TwoSteps(w: World, a: Step, b: Step)
    ensures RunSteps(w, [a, b]) == Next(Next(w, a), b)
  {
    assert [a, b][1..] == [b] && [b][1..] == [];
    assert RunSteps(Next(w, a), [b]) == RunSteps(Next(Next(w, a), b), []);
  }

  /**
   The exact condition, at the moment of the lock: whatever the holder then writes under its period check
   leaves periods disjoint if and only if its snapshot knows every day an active record covers now.
   */
  lemma LockIsSafeExactlyWhen(w: World, t: TxnId, p: nat)
    requires WorldInv(w) && MayLock(w, t, p)
    ensures Known(w.txns[t].snapshot, w.book, p) <==>
            forall s | IsWriteOf(s, t, p) :: Disjoint(RunSteps(Next(w, Lock(t, p)), [s, Commit(t)]).book)
  {
    if Known(w.txns[t].snapshot, w.book, p) {
      StepKeepsInv(w, Lock(t, p));
      forall s | IsWriteOf(s, t, p) ensures Disjoint(RunSteps(Next(w, Lock(t, p)), [s, Commit(t)]).book) {
        var w1 := Next(w, Lock(t, p));
        StepKeepsInv(w1, s);
        StepKeepsInv(Next(w1, s), Commit(t));
        TwoSteps(w1, s, Commit(t));
      }
    } else {
      var s := UnknownDayBreaks(w, t, p);
    }
  }

  /** Nothing committed for the product between snapshot and lock, or only voids: the snapshot knows every day. */
  lemma UntouchedIsKnown(snapshot: Records, book: Records, p: nat)
    requires Untouched(snapshot, book, p)
    ensures Known(snapshot, book, p)
  {
    forall id, day: Date | Covers(book, id, p, day) ensures exists s :: Witness(snapshot, book, p, id, day, s) {
      assert Witness(snapshot, book, p, id, day, id);
    }
  }

  // ----- runs in which nobody comes between ---------------------------------------

  /** The products for which somebody committed a creation or an update since each transaction was opened. */
  ghost function DisturbedAfter(w: World, disturbed: map<TxnId, set<nat>>, s: Step): map<TxnId, set<nat>> {
    if s.Open? && s.t !in w.txns then disturbed[s.t := {}]
    else if s.Commit? && s.t in w.txns then
      map t | t in disturbed :: disturbed[t] + Products(w.txns[s.t].own)
    else disturbed
  }

  ghost function Products(own: Records): set<nat> {
    set id | id in own :: own[id].productId
  }

  /** No lock is taken on a product that was disturbed since its transaction was opened. */
  ghost predicate Undisturbed(w: World, disturbed: map<TxnId, set<nat>>, steps: seq<Step>)
    decreases |steps|
  {
    steps == [] ||
    (&& (steps[0].Lock? && MayLock(w, steps[0].t, steps[0].p) ==>
           steps[0].t in disturbed && steps[0].p !in disturbed[steps[0].t])
     && Undisturbed(Next(w, steps[0]), DisturbedAfter(w, disturbed, steps[0]), steps[1..]))
  }

  /** What an open transaction's snapshot says about a product that nobody disturbed. */
  ghost predicate Untouched(snapshot: Records, book: Records, p: nat) {
    forall id | Live(book, id, p) :: Live(snapshot, id, p) && snapshot[id].payload == book[id].payload
  }

  ghost predicate Recorded(w: World, disturbed: map<TxnId, set<nat>>) {
    forall t | t in w.txns ::
      t in disturbed && forall p | p !in disturbed[t] :: Untouched(w.txns[t].snapshot, w.book, p)
  }

  lemma CommitLeavesUntouched(w: World, t: TxnId, u: TxnId, p: nat)
    requires t in w.txns && u in w.txns && OwnOk(w.book, w.nextId, w.txns[t])
    requires Untouched(w.txns[u].snapshot, w.book, p) && p !in Products(w.txns[t].own)
    ensures Untouched(w.txns[u].snapshot, Current(w.book, w.txns[t]), p)
  {
    var own := w.txns[t].own;
    assert forall id | id in own :: own[id].productId in Products(own);
    forall id | Live(Current(w.book, w.txns[t]), id, p)
      ensures Live(w.txns[u].snapshot, id, p)
      ensures w.txns[u].snapshot[id].payload == Current(w.book, w.txns[t])[id].payload
    {
      assert Live(w.book, id, p);
    }
  }

  lemma CommitKeepsRecorded(w: World, disturbed: map<TxnId, set<nat>>, t: TxnId)
    requires WorldInv(w) && Recorded(w, disturbed) && t in w.txns
    ensures Recorded(Next(w, Commit(t)), DisturbedAfter(w, disturbed, Commit(t)))
  {
    var w' := Next(w, Commit(t));
    var disturbed' := DisturbedAfter(w, disturbed, Commit(t));
    assert OwnOk(w.book, w.nextId, w.txns[t]);
    forall u, p | u in w'.txns && p !in disturbed'[u] ensures Untouched(w'.txns[u].snapshot, w'.book, p) {
      assert p !in disturbed[u];
      CommitLeavesUntouched(w, t, u, p);
    }
  }

  lemma VoidKeepsRecorded(w: World, disturbed: map<TxnId, set<nat>>, p: nat, id: nat, expected: int)
    requires Recorded(w, disturbed)
    ensures Recorded(Next(w, Void(p, id, expected)), disturbed)
  {
    var w' := Next(w, Void(p, id, expected));
    forall t, q | t in w'.txns && q !in disturbed[t] ensures Untouched(w'.txns[t].snapshot, w'.book, q) {
      assert Untouched(w.txns[t].snapshot, w.book, q);
      forall i | Live(w'.book, i, q)
        ensures Live(w'.txns[t].snapshot, i, q) && w'.txns[t].snapshot[i].payload == w'.book[i].payload
      {
        assert Live(w.book, i, q);
      }
    }
  }

  lemma StepKeepsRecorded(w: World, disturbed: map<TxnId, set<nat>>, s: Step)
    requires WorldInv(w) && Recorded(w, disturbed)
    ensures Recorded(Next(w, s), DisturbedAfter(w, disturbed, s))
  {
    if s.Commit? && s.t in w.txns {
      CommitKeepsRecorded(w, disturbed, s.t);
    } else if s.Void? {
      VoidKeepsRecorded(w, disturbed, s.p, s.id, s.expected);
    } else if s.Open? {
      OpenKeepsRecorded(w, disturbed, s.t);
    } else {
      SameBook(w, s);
    }
  }

  lemma OpenKeepsRecorded(w: World, disturbed: map<TxnId, set<nat>>, t: TxnId)
    requires Recorded(w, disturbed)
    ensures Recorded(Next(w, Open(t)), DisturbedAfter(w, disturbed, Open(t)))
  {
  }

  /** Writes and locks touch neither the committed table nor a snapshot. */
  lemma SameBook(w: World, s: Step)
    requires s.Lock? || s.Create? || s.Update? || s.Rollback? || (s.Commit? && s.t !in w.txns)
    ensures Next(w, s).book == w.book
    ensures forall t | t in Next(w, s).txns :: t in w.txns && Next(w, s).txns[t].snapshot == w.txns[t].snapshot
  {
  }

  lemma {:induction false} UndisturbedIsFresh(w: World, disturbed: map<TxnId, set<nat>>, steps: seq<Step>)
    requires WorldInv(w) && Recorded(w, disturbed) && Undisturbed(w, disturbed, steps)
    ensures AllFresh(w, steps)
    decreases |steps|
  {
    if steps != [] {
      var s := steps[0];
      if s.Lock? && MayLock(w, s.t, s.p) {
        assert Untouched(w.txns[s.t].snapshot, w.book, s.p);
        UntouchedIsKnown(w.txns[s.t].snapshot, w.book, s.p);
      }
      StepKeepsInv(w, s);
      StepKeepsRecorded(w, disturbed, s);
      UndisturbedIsFresh(Next(w, s), DisturbedAfter(w, disturbed, s), steps[1..]);
    }
  }

  /**
   The everyday form, from the empty table: if nobody commits a creation or an update for a product
   between the opening of a transaction and its lock on the product, every lock is safe and active periods
   stay disjoint.
   */
  lemma UndisturbedRunsStayDisjoint(steps: seq<Step>)
    requires Undisturbed(Empty, map[], steps)
    ensures AllFresh(Empty, steps) && Disjoint(RunSteps(Empty, steps).book)
  {
    EmptyOk();
    UndisturbedIsFresh(Empty, map[], steps);
    PeriodsStayDisjoint(Empty, steps);
  }

  // ----- the race -----------------------------------------------------------------

  lemma EmptyOk()
    ensures WorldInv(Empty)
  {
  }

  /** Two requests that both authenticated before the first of them took the product lock. */
  function Race(p: nat, x: Payload): seq<Step> {
    [Open(1), Open(2), Lock(1, p), Create(1, p, x), Commit(1), Lock(2, p), Create(2, p, x), Commit(2)]
  }

  /** After the first has committed: the second still reads the empty table. */
  lemma FirstCommits(p: nat, x: Payload)
    requires ValidPayload(x) && FitsColumns(x)
    ensures RunSteps(Empty, Race(p, x)[..5])
         == World(map[0 := NewRecord(p, x)], 1, map[2 := Txn(map[], map[], {})])
  {
    var begun := World(map[], 0, map[1 := Txn(map[], map[], {}), 2 := Txn(map[], map[], {})]);
    assert Next(Next(Empty, Open(1)), Open(2)) == begun;
    var locked := begun.(txns := begun.txns[1 := Txn(map[], map[], {p})]);
    assert begun.txns[1].locks + {p} == {p};
    assert Next(begun, Lock(1, p)) == locked;
    var created := Next(locked, Create(1, p, x));
    assert created.txns[1].own == map[0 := NewRecord(p, x)];
    assert Next(created, Commit(1)).txns == map[2 := Txn(map[], map[], {})];
    assert Next(created, Commit(1)).book == map[0 := NewRecord(p, x)];
    FiveSteps(Empty, Race(p, x)[..5]);
  }

  lemma FiveSteps(w: World, s: seq<Step>)
    requires |s| == 5
    ensures RunSteps(w, s) == Next(Next(Next(Next(Next(w, s[0]), s[1]), s[2]), s[3]), s[4])
  {
    assert s[1..][1..] == s[2..] && s[2..][1..] == s[3..];
    assert RunSteps(w, s) == RunSteps(Next(Next(w, s[0]), s[1]), s[2..]);
    assert RunSteps(Next(Next(Next(w, s[0]), s[1]), s[2]), s[3..])
        == RunSteps(Next(Next(Next(Next(w, s[0]), s[1]), s[2]), s[3]), s[3..][1..]);
    TwoSteps(Next(Next(Next(w, s[0]), s[1]), s[2]), s[3], s[4]);
    assert s[3..] == [s[3], s[4]];
  }

  lemma {:induction false} RunAppend(w: World, a: seq<Step>, b: seq<Step>)
    ensures RunSteps(w, a + b) == RunSteps(RunSteps(w, a), b)
    decreases |a|
  {
    if a == [] {
      assert a + b == b;
    } else {
      assert (a + b)[1..] == a[1..] + b;
      RunAppend(Next(w, a[0]), a[1..], b);
    }
  }

  /** The same period twice, for any product and any period: the check of the second reads its old snapshot. */
  lemma StaleSnapshotOverlaps(p: nat, x: Payload)
    requires ValidPayload(x) && FitsColumns(x)
    ensures !Disjoint(RunSteps(Empty, Race(p, x)).book)
  {
    FirstCommits(p, x);
    assert Race(p, x) == Race(p, x)[..5] + [Lock(2, p)] + [Create(2, p, x), Commit(2)];
    RunAppend(Empty, Race(p, x)[..5] + [Lock(2, p)], [Create(2, p, x), Commit(2)]);
    RunAppend(Empty, Race(p, x)[..5], [Lock(2, p)]);
    var w := RunSteps(Empty, Race(p, x)[..5]);
    var w1 := Next(w, Lock(2, p));
    assert RunSteps(w, [Lock(2, p)]) == RunSteps(w1, [Lock(2, p)][1..]);
    assert w.txns[2].locks + {p} == {p};
    assert w1 == World(map[0 := NewRecord(p, x)], 1, map[2 := Txn(map[], map[], {p})]);
    assert View(w1.txns[2]) == map[];
    CreateThenCommit(w1, 2, p, x);
    var book := Current(w1.book, w1.txns[2])[1 := NewRecord(p, x)];
    OverlapOnDay(book, 0, 1, p, x.start);
  }

  // ----- metrics ------------------------------------------------------------------

  /** Every record carries the metrics of its own numbers, whatever the snapshots. */
  ghost predicate MetricsOk(w: World) {
    MetricsCurrent(w.book) && forall t | t in w.txns :: MetricsCurrent(w.txns[t].own)
  }

  lemma MetricsAfterStep(w: World, s: Step)
    requires MetricsOk(w)
    ensures MetricsOk(Next(w, s))
  {
    match s
    case Create(t, p, x) =>
      if MayCreate(w, t, p, x) {
        PutKeepsMetrics(w, t, w.nextId, NewRecord(p, x));
      }
    case Update(t, p, id, x, expected) =>
      if MayUpdate(w, t, p, id, x, expected) {
        PutKeepsMetrics(w, t, id, Rewritten(Current(w.book, w.txns[t])[id], x));
      }
    case _ =>
  }

  lemma PutKeepsMetrics(w: World, t: TxnId, id: nat, r: Record)
    requires MetricsOk(w) && t in w.txns && ValidRecord(r)
    ensures MetricsOk(Put(w, t, id, r))
  {
  }

  lemma {:induction false} MetricsStayCurrent(w: World, steps: seq<Step>)
    requires MetricsOk(w)
    ensures MetricsOk(RunSteps(w, steps))
    decreases |steps|
  {
    if steps != [] {
      MetricsAfterStep(w, steps[0]);
      MetricsStayCurrent(Next(w, steps[0]), steps[1..]);
    }
  }

  /** So in every interleaving each record has its rates: the nearest millionths, or none where nothing was counted. */
  lemma StoredRates(steps: seq<Step>, id: nat)
    requires id in RunSteps(Empty, steps).book
    ensures var r := RunSteps(Empty, steps).book[id];
            var x, m := r.payload, r.metrics;
            && (m.roi.None? <==> x.spend == 0) && (m.ctr.None? <==> x.impressions == 0)
            && (m.conversionRate.None? <==> x.clicks == 0)
            && (m.roi.Some? ==> NearestMillionth(m.roi.value, x.revenue, x.spend))
            && (m.ctr.Some? ==> NearestMillionth(m.ctr.value, x.clicks, x.impressions))
            && (m.conversionRate.Some? ==> NearestMillionth(m.conversionRate.value, x.conversions, x.clicks))
  {
    MetricsStayCurrent(Empty, steps);
    StoredMetrics(RunSteps(Empty, steps).book[id]);
  }

  // ----- versions -----------------------------------------------------------------

  /** What one more commit may do to a record: nothing, or a new version of an active one. */
  predicate MovesOn(a: Record, b: Record) {
    b == a || (a.active && b.version > a.version && b.productId == a.productId)
  }

  /** Rows written and not yet committed are ahead of the committed ones. */
  ghost predicate OwnAhead(book: Records, nextId: nat, own: Records) {
    forall id | id in own :: id < nextId && (id in book ==> own[id] != book[id] && MovesOn(book[id], own[id]))
  }

  /** And each belongs to one transaction. */
  ghost predicate Ahead(w: World) {
    && (forall id | id in w.book :: id < w.nextId)
    && (forall t | t in w.txns :: OwnAhead(w.book, w.nextId, w.txns[t].own))
    && (forall t, u | t in w.txns && u in w.txns && t != u :: w.txns[t].own.Keys !! w.txns[u].own.Keys)
  }

  ghost predicate BookMovesOn(a: Records, b: Records) {
    forall id | id in a :: id in b && MovesOn(a[id], b[id])
  }

  lemma PutAhead(w: World, t: TxnId, id: nat, r: Record, nextId: nat)
    requires Ahead(w) && t in w.txns && id < nextId && w.nextId <= nextId
    requires id in w.book ==> r != w.book[id] && MovesOn(w.book[id], r)
    requires forall u | u in w.txns && u != t :: id !in w.txns[u].own
    ensures Ahead(Put(w, t, id, r).(nextId := nextId))
  {
  }

  lemma UpdateAhead(w: World, t: TxnId, p: nat, id: nat, x: Payload, expected: int)
    requires Ahead(w)
    ensures Ahead(Next(w, Update(t, p, id, x, expected)))
  {
    if MayUpdate(w, t, p, id, x, expected) {
      PutAhead(w, t, id, Rewritten(Current(w.book, w.txns[t])[id], x), w.nextId);
    }
  }

  lemma CommitAhead(w: World, t: TxnId)
    requires Ahead(w) && t in w.txns
    ensures Ahead(Next(w, Commit(t))) && BookMovesOn(w.book, Next(w, Commit(t)).book)
  {
  }

  /** A row that a transaction has not written does not matter to it. */
  lemma AheadBesides(book: Records, nextId: nat, own: Records, id: nat, r: Record)
    requires OwnAhead(book, nextId, own) && id !in own
    ensures OwnAhead(book[id := r], nextId, own)
  {
  }

  lemma VoidAhead(w: World, p: nat, id: nat, expected: int)
    requires Ahead(w) && MayVoid(w, p, id, expected)
    ensures Ahead(Next(w, Void(p, id, expected))) && BookMovesOn(w.book, Next(w, Void(p, id, expected)).book)
  {
    var v := Next(w, Void(p, id, expected));
    forall t | t in v.txns ensures OwnAhead(v.book, v.nextId, v.txns[t].own) {
      assert id in w.txns[t].own ==> RowTaken(w, id, None);
      AheadBesides(w.book, w.nextId, w.txns[t].own, id, Voided(w.book[id]));
    }
  }

  lemma StepMovesOn(w: World, s: Step)
    requires Ahead(w)
    ensures Ahead(Next(w, s)) && BookMovesOn(w.book, Next(w, s).book)
  {
    match s
    case Create(t, p, x) =>
      if MayCreate(w, t, p, x) {
        PutAhead(w, t, w.nextId, NewRecord(p, x), w.nextId + 1);
      }
    case Update(t, p, id, x, expected) => UpdateAhead(w, t, p, id, x, expected);
    case Void(p, id, expected) =>
      if MayVoid(w, p, id, expected) {
        VoidAhead(w, p, id, expected);
      }
    case Commit(t) =>
      if t in w.txns {
        CommitAhead(w, t);
      }
    case _ => OthersMoveOn(w, s);
  }

  lemma OthersMoveOn(w: World, s: Step)
    requires Ahead(w) && (s.Open? || s.Lock? || s.Rollback?)
    ensures Ahead(Next(w, s)) && Next(w, s).book == w.book
  {
  }

  /**
   Whatever runs side by side: no record disappears or changes its product, a voided record never changes,
   and a record at the version a user read is the record the user read.
   */
  lemma {:induction false} RecordsMoveOn(w: World, steps: seq<Step>)
    requires Ahead(w)
    ensures BookMovesOn(w.book, RunSteps(w, steps).book)
    decreases |steps|
  {
    if steps != [] {
      StepMovesOn(w, steps[0]);
      RecordsMoveOn(Next(w, steps[0]), steps[1..]);
    }
  }
}
