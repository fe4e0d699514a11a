/**
 The table of generated assets and the routine that writes prepared files into it
 (services/assets.py). A row's id is its position in the table.
 */
module Assets {
  import opened Common
  import opened JobRows

  /** A downloaded and stored file, waiting to get its asset row. */
  datatype PreparedAsset = PreparedAsset(index: nat, checksum: string)

  datatype Asset = Asset(jobId: JobId, index: nat, planId: nat, kind: JobKind, version: int,
                         checksum: Option<string>, available: bool, syncedAt: Time)

  datatype AssetError = PlanInvalid | SyncConflict | JobNotFound | NotSyncable

  predicate InGroup(a: Asset, planId: nat, kind: JobKind) {
    a.planId == planId && a.kind == kind
  }

  function GroupCount(table: seq<Asset>, planId: nat, kind: JobKind): nat {
    if table == [] then 0
    else GroupCount(table[..|table| - 1], planId, kind) + (if InGroup(table[|table| - 1], planId, kind) then 1 else 0)
  }

  /** `SELECT max(version_no)`, with 0 for no row. */
  function MaxVersion(table: seq<Asset>, planId: nat, kind: JobKind): int {
    if table == [] then 0
    else
      var m := MaxVersion(table[..|table| - 1], planId, kind);
      var a := table[|table| - 1];
      if InGroup(a, planId, kind) then Max(m, a.version) else m
  }

  /** The result indices that have an asset row of job `j`, oldest row first. */
  function Indices(table: seq<Asset>, j: JobId): seq<nat> {
    if table == [] then []
    else Indices(table[..|table| - 1], j) +
         (if table[|table| - 1].jobId == j then [table[|table| - 1].index] else [])
  }

  /** The row of job `j` for one result index. */
  function Find(table: seq<Asset>, j: JobId, index: nat): (p: Option<nat>)
    ensures p.Some? ==> p.value < |table| && table[p.value].jobId == j && table[p.value].index == index
    ensures p.Some? <==> index in Indices(table, j)
  {
    if table == [] then None
    else
      var last := |table| - 1;
      if table[last].jobId == j && table[last].index == index then Some(last)
      else Find(table[..last], j, index)
  }

  predicate Conflicts(table: seq<Asset>, j: JobId, item: PreparedAsset) {
    var p := Find(table, j, item.index);
    p.Some? && table[p.value].checksum.Some? && table[p.value].checksum.value != item.checksum
  }

  function NewAsset(j: JobId, order: Order, item: PreparedAsset, version: int, now: Time): Asset {
    Asset(j, item.index, order.planId, order.kind, version, Some(item.checksum), true, now)
  }

  /** The body of the persist loop; `base` is what the query before the loop returned. */
  function PersistFrom(base: seq<Asset>, table: seq<Asset>, j: JobId, order: Order, items: seq<PreparedAsset>,
                       next: int, now: Time): Result<seq<Asset>, AssetError>
    requires |base| <= |table|
    decreases |items|
  {
    if items == [] then Ok(table)
    else
      match Find(base, j, items[0].index)
      case None =>
        PersistFrom(base, table + [NewAsset(j, order, items[0], next, now)], j, order, items[1..], next + 1, now)
      case Some(p) =>
        if Conflicts(base, j, items[0]) then Err(SyncConflict)
        else
          var refreshed := table[p].(available := true, syncedAt := now);
          PersistFrom(base, table[p := refreshed], j, order, items[1..], next, now)
  }

  /** `planOk`: the plan row exists and belongs to the job's product. */
  function Persist(table: seq<Asset>, j: JobId, order: Order, items: seq<PreparedAsset>, planOk: bool, now: Time)
    : Result<seq<Asset>, AssetError>
  {
    if !planOk then Err(PlanInvalid)
    else PersistFrom(table, table, j, order, items, MaxVersion(table, order.planId, order.kind) + 1, now)
  }

  /** The items for which the loop creates a row. */
  function Missing(base: seq<Asset>, j: JobId, items: seq<PreparedAsset>): seq<nat> {
    if items == [] then []
    else (if Find(base, j, items[0].index).None? then [items[0].index] else []) + Missing(base, j, items[1..])
  }

  // ----- what stays fixed about a row ------------------------------------------

  predicate SameRow(a: Asset, b: Asset) {
    && a.jobId == b.jobId && a.index == b.index && a.planId == b.planId && a.kind == b.kind
    && a.version == b.version && a.checksum == b.checksum
  }

  /** A later table keeps every row, at its place, up to file status and sync time. */
  predicate Keeps(before: seq<Asset>, after: seq<Asset>) {
    && |before| <= |after|
    && forall p | 0 <= p < |before| :: SameRow(before[p], after[p])
  }

  /** Within each (plan, type), a row's version is its rank. */
  predicate Contiguous(table: seq<Asset>) {
    forall p | 0 <= p < |table| ::
      table[p].version == GroupCount(table[..p], table[p].planId, table[p].kind) + 1
  }

  function Upto(n: nat): (s: seq<nat>)
    ensures |s| == n && forall i | 0 <= i < n :: s[i] == i
  {
    seq(n, i => i)
  }

  /** What preparation returns for `n` result entries: one file for each index, in order. */
  predicate Numbered(items: seq<PreparedAsset>, n: nat) {
    |items| == n && forall i | 0 <= i < n :: items[i].index == i
  }

  // ----- lemmas ----------------------------------------------------------------

  lemma {:induction false} KeepsCounts(a: seq<Asset>, b: seq<Asset>, planId: nat, kind: JobKind, j: JobId)
    requires Keeps(a, b) && |a| == |b|
    ensures GroupCount(a, planId, kind) == GroupCount(b, planId, kind)
    ensures Indices(a, j) == Indices(b, j)
  {
    if a != [] {
      KeepsCounts(a[..|a| - 1], b[..|b| - 1], planId, kind, j);
    }
  }

  lemma AppendCounts(table: seq<Asset>, a: Asset, planId: nat, kind: JobKind, j: JobId)
    ensures GroupCount(table + [a], planId, kind)
         == GroupCount(table, planId, kind) + (if InGroup(a, planId, kind) then 1 else 0)
    ensures Indices(table + [a], j) == Indices(table, j) + (if a.jobId == j then [a.index] else [])
  {
    AppendedLast(table, a);
  }

  lemma AppendContiguous(table: seq<Asset>, a: Asset)
    requires Contiguous(table) && a.version == GroupCount(table, a.planId, a.kind) + 1
    ensures Contiguous(table + [a])
  {
    var t := table + [a];
    forall p | 0 <= p < |t| ensures t[p].version == GroupCount(t[..p], t[p].planId, t[p].kind) + 1 {
      assert t[..p] == table[..p];
      assert table[..|table|] == table;
    }
  }

  lemma RefreshContiguous(table: seq<Asset>, t: seq<Asset>)
    requires Contiguous(table) && Keeps(table, t) && |t| == |table|
    ensures Contiguous(t)
  {
    forall p | 0 <= p < |t| ensures t[p].version == GroupCount(t[..p], t[p].planId, t[p].kind) + 1 {
      KeepsCounts(table[..p], t[..p], t[p].planId, t[p].kind, 0);
    }
  }

  lemma {:induction false} MaxIsCount(table: seq<Asset>, planId: nat, kind: JobKind)
    requires Contiguous(table)
    ensures MaxVersion(table, planId, kind) == GroupCount(table, planId, kind)
  {
    if table != [] {
      var init := table[..|table| - 1];
      assert forall p | 0 <= p < |init| :: init[..p] == table[..p];
      MaxIsCount(init, planId, kind);
      assert table[|init|].version == GroupCount(table[..|init|], table[|init|].planId, table[|init|].kind) + 1;
    }
  }

  /** The loop rejects its input exactly when some item conflicts with a row of the first query. */
  lemma {:induction false} PersistFromRejects(base: seq<Asset>, table: seq<Asset>, j: JobId, order: Order,
                                              items: seq<PreparedAsset>, next: int, now: Time)
    requires |base| <= |table|
    ensures PersistFrom(base, table, j, order, items, next, now).Err? <==>
            exists k | 0 <= k < |items| :: Conflicts(base, j, items[k])
    decreases |items|
  {
    if items != [] {
      var rest := items[1..];
      assert items == [items[0]] + rest;
      match Find(base, j, items[0].index)
      case None =>
        PersistFromRejects(base, table + [NewAsset(j, order, items[0], next, now)], j, order, rest, next + 1, now);
      case Some(p) =>
        if !Conflicts(base, j, items[0]) {
          var refreshed := table[p].(available := true, syncedAt := now);
          PersistFromRejects(base, table[p := refreshed], j, order, rest, next, now);
        }
    }
  }

  /** What a run of the loop did to the table. */
  predicate Grew(before: seq<Asset>, after: seq<Asset>, j: JobId, missing: seq<nat>, other: JobId) {
    && Keeps(before, after)
    && |after| == |before| + |missing|
    && Indices(after, j) == Indices(before, j) + missing
    && (other != j ==> Indices(after, other) == Indices(before, other))
    && forall p | |before| <= p < |after| :: after[p].jobId == j
  }

  lemma GrewOne(table: seq<Asset>, a: Asset, other: JobId)
    requires Contiguous(table) && a.version == GroupCount(table, a.planId, a.kind) + 1
    ensures Contiguous(table + [a]) && Grew(table, table + [a], a.jobId, [a.index], other)
    ensures GroupCount(table + [a], a.planId, a.kind) == GroupCount(table, a.planId, a.kind) + 1
  {
    AppendCounts(table, a, a.planId, a.kind, a.jobId);
    AppendCounts(table, a, a.planId, a.kind, other);
    AppendContiguous(table, a);
  }

  lemma GrewNone(table: seq<Asset>, t: seq<Asset>, j: JobId, other: JobId, planId: nat, kind: JobKind)
    requires Contiguous(table) && Keeps(table, t) && |t| == |table|
    ensures Contiguous(t) && Grew(table, t, j, [], other)
    ensures GroupCount(t, planId, kind) == GroupCount(table, planId, kind)
  {
    KeepsCounts(table, t, planId, kind, j);
    KeepsCounts(table, t, planId, kind, other);
    RefreshContiguous(table, t);
  }

  lemma GrewTrans(a: seq<Asset>, b: seq<Asset>, c: seq<Asset>, j: JobId, m1: seq<nat>, m2: seq<nat>, other: JobId)
    requires Grew(a, b, j, m1, other) && Grew(b, c, j, m2, other)
    ensures Grew(a, c, j, m1 + m2, other)
  {
    forall p | 0 <= p < |b| ensures SameRow(b[p], c[p]) && (|a| <= p ==> c[p].jobId == j) {
    }
  }

  /** The loop, seen from outside: which rows it adds, and that it keeps the rest and the ranks. */
  lemma {:induction false} PersistFromEffect(base: seq<Asset>, table: seq<Asset>, j: JobId, order: Order,
                                             items: seq<PreparedAsset>, next: int, now: Time, other: JobId)
    requires |base| <= |table| && Contiguous(table)
    requires next == GroupCount(table, order.planId, order.kind) + 1
    ensures var r := PersistFrom(base, table, j, order, items, next, now);
            r.Ok? ==> Contiguous(r.value) && Grew(table, r.value, j, Missing(base, j, items), other)
    decreases |items|
  {
    var r := PersistFrom(base, table, j, order, items, next, now);
    if items == [] {
      GrewNone(table, table, j, other, order.planId, order.kind);
    } else if r.Ok? {
      match Find(base, j, items[0].index)
      case None =>
        var a := NewAsset(j, order, items[0], next, now);
        GrewOne(table, a, other);
        PersistFromEffect(base, table + [a], j, order, items[1..], next + 1, now, other);
        GrewTrans(table, table + [a], r.value, j, [a.index], Missing(base, j, items[1..]), other);
      case Some(p) =>
        var t := table[p := table[p].(available := true, syncedAt := now)];
        GrewNone(table, t, j, other, order.planId, order.kind);
        PersistFromEffect(base, t, j, order, items[1..], next, now, other);
        GrewTrans(table, t, r.value, j, [], Missing(base, j, items[1..]), other);
        assert [] + Missing(base, j, items[1..]) == Missing(base, j, items);
    }
  }

  /** The whole routine, for any table with ranked versions. */
  lemma PersistEffect(table: seq<Asset>, j: JobId, order: Order, items: seq<PreparedAsset>, planOk: bool, now: Time,
                      other: JobId)
    requires Contiguous(table)
    ensures var r := Persist(table, j, order, items, planOk, now);
            && (r.Err? <==> !planOk || exists k | 0 <= k < |items| :: Conflicts(table, j, items[k]))
            && (r.Ok? ==> Contiguous(r.value) && Grew(table, r.value, j, Missing(table, j, items), other))
  {
    MaxIsCount(table, order.planId, order.kind);
    if planOk {
      var next := MaxVersion(table, order.planId, order.kind) + 1;
      PersistFromRejects(table, table, j, order, items, next, now);
      PersistFromEffect(table, table, j, order, items, next, now, other);
    }
  }

  /** A new row of the job: this file, for the plan and type of the order, available and just synced. */
  predicate Describes(a: Asset, j: JobId, order: Order, item: PreparedAsset, now: Time) {
    && a.jobId == j && a.index == item.index && a.checksum == Some(item.checksum)
    && a.planId == order.planId && a.kind == order.kind && a.available && a.syncedAt == now
  }

  predicate FoundFor(base: seq<Asset>, j: JobId, items: seq<PreparedAsset>, p: int) {
    p >= 0 && exists k :: 0 <= k < |items| && Find(base, j, items[k].index) == Some(p)
  }

  lemma FoundForNext(base: seq<Asset>, j: JobId, items: seq<PreparedAsset>, p: int)
    requires items != []
    ensures FoundFor(base, j, items, p) <==>
            (p >= 0 && Find(base, j, items[0].index) == Some(p)) || FoundFor(base, j, items[1..], p)
  {
    if k :| p >= 0 && 0 <= k < |items| && Find(base, j, items[k].index) == Some(p) {
      assert k == 0 || items[k] == items[1..][k - 1];
    }
    if k :| p >= 0 && 0 <= k < |items[1..]| && Find(base, j, items[1..][k].index) == Some(p) {
      assert items[1..][k] == items[k + 1];
    }
  }

  /** A row that a file was found for is refreshed, any other stays. */
  lemma {:induction false} PersistFromAt(base: seq<Asset>, table: seq<Asset>, j: JobId, order: Order,
                                         items: seq<PreparedAsset>, next: int, now: Time, p: int)
    requires |base| <= |table| && PersistFrom(base, table, j, order, items, next, now).Ok? && 0 <= p < |table|
    ensures var r := PersistFrom(base, table, j, order, items, next, now).value;
            && |table| <= |r|
            && r[p] == if FoundFor(base, j, items, p) then table[p].(available := true, syncedAt := now) else table[p]
    decreases |items|
  {
    if items != [] {
      FoundForNext(base, j, items, p);
      match Find(base, j, items[0].index)
      case None =>
        var t := table + [NewAsset(j, order, items[0], next, now)];
        PersistFromAt(base, t, j, order, items[1..], next + 1, now, p);
      case Some(q) =>
        var t := table[q := table[q].(available := true, syncedAt := now)];
        PersistFromAt(base, t, j, order, items[1..], next, now, p);
    }
  }

  /** A new row describes a file that had none. */
  lemma {:induction false} PersistFromAdds(base: seq<Asset>, table: seq<Asset>, j: JobId, order: Order,
                                           items: seq<PreparedAsset>, next: int, now: Time, p: int) returns (k: nat)
    requires |base| <= |table| && PersistFrom(base, table, j, order, items, next, now).Ok?
    requires |table| <= p < |PersistFrom(base, table, j, order, items, next, now).value|
    ensures k < |items| && Find(base, j, items[k].index).None?
    ensures Describes(PersistFrom(base, table, j, order, items, next, now).value[p], j, order, items[k], now)
    decreases |items|
  {
    match Find(base, j, items[0].index)
    case None =>
      var t := table + [NewAsset(j, order, items[0], next, now)];
      if p == |table| {
        k := 0;
        PersistFromAt(base, t, j, order, items[1..], next + 1, now, p);
        assert !FoundFor(base, j, items[1..], p);
      } else {
        k := PersistFromAdds(base, t, j, order, items[1..], next + 1, now, p);
        k := k + 1;
      }
    case Some(q) =>
      var t := table[q := table[q].(available := true, syncedAt := now)];
      k := PersistFromAdds(base, t, j, order, items[1..], next, now, p);
      k := k + 1;
  }

  /**
   Each row of the table afterwards: a row whose index is among the files is refreshed and nothing else of
   it changes, any other old row stays, and a new one describes a file that had no row.
   */
  lemma PersistWrites(table: seq<Asset>, j: JobId, order: Order, items: seq<PreparedAsset>, now: Time, p: nat)
    returns (k: nat)
    requires var r := Persist(table, j, order, items, true, now); r.Ok? && p < |r.value|
    ensures var r := Persist(table, j, order, items, true, now).value;
            && (p < |table| && FoundFor(table, j, items, p) ==> r[p] == table[p].(available := true, syncedAt := now))
            && (p < |table| && !FoundFor(table, j, items, p) ==> r[p] == table[p])
            && (p >= |table| ==>
                  k < |items| && Find(table, j, items[k].index).None? && Describes(r[p], j, order, items[k], now))
  {
    var next := MaxVersion(table, order.planId, order.kind) + 1;
    k := 0;
    if p < |table| {
      PersistFromAt(table, table, j, order, items, next, now, p);
    } else {
      k := PersistFromAdds(table, table, j, order, items, next, now, p);
    }
  }

  lemma {:induction false} MissingAll(base: seq<Asset>, j: JobId, items: seq<PreparedAsset>)
    requires Indices(base, j) == []
    ensures |Missing(base, j, items)| == |items|
    ensures forall k | 0 <= k < |items| :: Missing(base, j, items)[k] == items[k].index
  {
    if items != [] {
      MissingAll(base, j, items[1..]);
    }
  }

  lemma {:induction false} MissingNone(base: seq<Asset>, j: JobId, items: seq<PreparedAsset>)
    requires forall k | 0 <= k < |items| :: items[k].index in Indices(base, j)
    ensures Missing(base, j, items) == []
  {
    if items != [] {
      assert items[0].index in Indices(base, j);
      assert forall k | 0 <= k < |items[1..]| :: items[1..][k] == items[k + 1];
      MissingNone(base, j, items[1..]);
    }
  }

  /** First success of a job: exactly the indices 0..n-1 appear, in order. */
  lemma PersistFresh(table: seq<Asset>, j: JobId, order: Order, items: seq<PreparedAsset>, now: Time)
    requires Contiguous(table) && Indices(table, j) == [] && Numbered(items, |items|)
    ensures var r := Persist(table, j, order, items, true, now);
            r.Ok? && Indices(r.value, j) == Upto(|items|) && |r.value| == |table| + |items|
  {
    PersistEffect(table, j, order, items, true, now, j);
    MissingAll(table, j, items);
    assert forall k | 0 <= k < |items| :: Find(table, j, items[k].index).None?;
  }

  /**
   Syncing a job again: nothing is created, no row moves and no version changes; when the content
   at some index differs from the recorded checksum the whole call is rejected, and only then.
   */
  lemma ResyncIsIdempotent(table: seq<Asset>, j: JobId, order: Order, items: seq<PreparedAsset>, now: Time)
    requires Contiguous(table) && Numbered(items, |items|) && Indices(table, j) == Upto(|items|)
    ensures var r := Persist(table, j, order, items, true, now);
            && (r.Err? <==> exists k | 0 <= k < |items| :: Conflicts(table, j, items[k]))
            && (r.Ok? ==> |r.value| == |table| && Keeps(table, r.value) && Indices(r.value, j) == Upto(|items|))
  {
    PersistEffect(table, j, order, items, true, now, j);
    assert forall k | 0 <= k < |items| :: items[k].index == Upto(|items|)[k];
    MissingNone(table, j, items);
  }

  /** The rows a first success writes: one for each file, with the next versions of its group. */
  function NewRows(j: JobId, order: Order, items: seq<PreparedAsset>, next: int, now: Time): seq<Asset> {
    seq(|items|, k requires 0 <= k < |items| => NewAsset(j, order, items[k], next + k, now))
  }

  lemma {:induction false} PersistFromFresh(base: seq<Asset>, table: seq<Asset>, j: JobId, order: Order,
                                            items: seq<PreparedAsset>, next: int, now: Time)
    requires |base| <= |table| && Indices(base, j) == []
    ensures PersistFrom(base, table, j, order, items, next, now) == Ok(table + NewRows(j, order, items, next, now))
    decreases |items|
  {
    if items == [] {
      assert table + NewRows(j, order, items, next, now) == table;
    } else {
      var a := NewAsset(j, order, items[0], next, now);
      PersistFromFresh(base, table + [a], j, order, items[1..], next + 1, now);
      assert table + [a] + NewRows(j, order, items[1..], next + 1, now) == table + NewRows(j, order, items, next, now);
    }
  }

  /** A table that kept its rows and has no more indices of `j` has no new row of `j`. */
  lemma {:induction false} NoNewRows(before: seq<Asset>, after: seq<Asset>, j: JobId)
    requires Keeps(before, after)
    ensures |Indices(before, j)| <= |Indices(after, j)|
    ensures |Indices(before, j)| == |Indices(after, j)| ==>
            forall p | |before| <= p < |after| :: after[p].jobId != j
    decreases |after|
  {
    if |after| == |before| {
      KeepsCounts(before, after, 0, Image, j);
    } else {
      NoNewRows(before, after[..|after| - 1], j);
    }
  }

  /**
   Once a first success has recorded its files, a later sync of the job is accepted exactly when every
   file has the checksum recorded then, however the table has grown in between.
   */
  lemma SyncAcceptsRecordedContent(table: seq<Asset>, j: JobId, order: Order, items: seq<PreparedAsset>, now: Time,
                                   later: seq<Asset>, files: seq<PreparedAsset>, again: Time)
    requires Indices(table, j) == [] && Numbered(items, |items|) && Numbered(files, |items|)
    requires var r := Persist(table, j, order, items, true, now); r.Ok? && Keeps(r.value, later)
    requires Contiguous(later) && Indices(later, j) == Upto(|items|)
    ensures Persist(later, j, order, files, true, again).Ok? <==>
            forall k | 0 <= k < |items| :: files[k].checksum == items[k].checksum
  {
    ResyncIsIdempotent(later, j, order, files, again);
    var next := MaxVersion(table, order.planId, order.kind) + 1;
    PersistFromFresh(table, table, j, order, items, next, now);
    forall k | 0 <= k < |items| ensures Conflicts(later, j, files[k]) <==> files[k].checksum != items[k].checksum {
      assert Upto(|items|)[k] == k;
      RecordedChecksum(table, j, order, items, next, now, later, k);
    }
  }

  lemma RecordedChecksum(table: seq<Asset>, j: JobId, order: Order, items: seq<PreparedAsset>, next: int, now: Time,
                         later: seq<Asset>, k: nat)
    requires Indices(table, j) == [] && Numbered(items, |items|) && k < |items|
    requires Keeps(table + NewRows(j, order, items, next, now), later)
    requires |Indices(later, j)| == |items| && k in Indices(later, j)
    ensures var p := Find(later, j, k); p.Some? && later[p.value].checksum == Some(items[k].checksum)
  {
    var p := Find(later, j, k).value;
    NewRowsHoldTheJob(table, j, order, items, next, now, later, p);
    NewRowIs(table, j, order, items, next, now, p);
    assert SameRow((table + NewRows(j, order, items, next, now))[p], later[p]);
  }

  lemma NewRowIs(table: seq<Asset>, j: JobId, order: Order, items: seq<PreparedAsset>, next: int, now: Time, p: int)
    requires |table| <= p < |table| + |items|
    ensures (table + NewRows(j, order, items, next, now))[p]
         == NewAsset(j, order, items[p - |table|], next + (p - |table|), now)
  {
  }

  lemma NewRowsHoldTheJob(table: seq<Asset>, j: JobId, order: Order, items: seq<PreparedAsset>, next: int, now: Time,
                          later: seq<Asset>, p: int)
    requires Indices(table, j) == [] && Keeps(table + NewRows(j, order, items, next, now), later)
    requires |Indices(later, j)| == |items| && 0 <= p < |later| && later[p].jobId == j
    ensures |table| <= p < |table| + |items|
  {
    var t := table + NewRows(j, order, items, next, now);
    assert forall q | 0 <= q < |table| :: SameRow(t[q], later[q]) && t[q] == table[q];
    IndicesOfNewRows(table, j, order, items, next, now);
    NoNewRows(t, later, j);
    NoNewRows([], table, j);
  }

  lemma {:induction false} IndicesOfNewRows(table: seq<Asset>, j: JobId, order: Order, items: seq<PreparedAsset>,
                                            next: int, now: Time)
    ensures |Indices(table + NewRows(j, order, items, next, now), j)| == |Indices(table, j)| + |items|
    decreases |items|
  {
    var news := NewRows(j, order, items, next, now);
    if items == [] {
      assert table + news == table;
    } else {
      var init := items[..|items| - 1];
      IndicesOfNewRows(table, j, order, init, next, now);
      var last := news[|items| - 1];
      assert table + news == table + NewRows(j, order, init, next, now) + [last];
      AppendCounts(table + NewRows(j, order, init, next, now), last, 0, Image, j);
    }
  }

  predicate VersionAt(table: seq<Asset>, p: int, planId: nat, kind: JobKind, version: int) {
    0 <= p < |table| && InGroup(table[p], planId, kind) && table[p].version == version
  }

  /** Ranked versions grow with the row, so no version of a (plan, type) occurs twice. */
  lemma {:induction false} VersionsIncrease(table: seq<Asset>, p: int, q: int, planId: nat, kind: JobKind)
    requires Contiguous(table) && 0 <= p < q < |table|
    requires InGroup(table[p], planId, kind) && InGroup(table[q], planId, kind)
    ensures table[p].version < table[q].version
  {
    GroupCountGrows(table, p, q, planId, kind);
  }

  lemma {:induction false} GroupCountGrows(table: seq<Asset>, p: int, q: int, planId: nat, kind: JobKind)
    requires 0 <= p < q <= |table| && InGroup(table[p], planId, kind)
    ensures GroupCount(table[..p], planId, kind) < GroupCount(table[..q], planId, kind)
    decreases q
  {
    assert table[..q][..q - 1] == table[..q - 1];
    if p < q - 1 {
      GroupCountGrows(table, p, q - 1, planId, kind);
    }
  }

  lemma {:induction false} VersionOccurs(table: seq<Asset>, n: nat, planId: nat, kind: JobKind, v: int) returns (p: int)
    requires Contiguous(table) && n <= |table| && 1 <= v <= GroupCount(table[..n], planId, kind)
    ensures VersionAt(table, p, planId, kind, v)
  {
    assert table[..n][..n - 1] == table[..n - 1];
    p := n - 1;
    if !InGroup(table[p], planId, kind) || v < GroupCount(table[..n], planId, kind) {
      p := VersionOccurs(table, n - 1, planId, kind, v);
    }
  }

  /** In every (plan, type) the versions that occur are exactly 1..n for its n rows. */
  lemma VersionsAreOneToN(table: seq<Asset>, planId: nat, kind: JobKind, v: int)
    requires Contiguous(table)
    ensures 1 <= v <= GroupCount(table, planId, kind) <==> exists p :: VersionAt(table, p, planId, kind, v)
  {
    assert table[..|table|] == table;
    if 1 <= v <= GroupCount(table, planId, kind) {
      var p := VersionOccurs(table, |table|, planId, kind, v);
    }
    if p :| VersionAt(table, p, planId, kind, v) {
      GroupCountGrows(table, p, |table|, planId, kind);
    }
  }
}
