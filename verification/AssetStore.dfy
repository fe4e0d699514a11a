/** The persist routine as the loop it is, and the manual re-sync around it (services/assets.py). */
module AssetStore {
  import opened Common
  import opened JobRows
  import opened Assets

  class Store {
    var table: seq<Asset>

    constructor ()
      ensures table == []
    {
      table := [];
    }

    /**
     Writes the prepared files of one job. An error leaves whatever was written so far: the caller's
     transaction rolls it back.
     */
    method PersistPreparedAssets(j: JobId, order: Order, prepared: seq<PreparedAsset>, planOk: bool, now: Time)
      returns (r: Result<nat, AssetError>)
      modifies this
      ensures var spec := Persist(old(table), j, order, prepared, planOk, now);
              && (r.Err? <==> spec.Err?)
              && (r.Err? ==> r.error == spec.error)
              && (r.Ok? ==> table == spec.value && |table| == |old(table)| + r.value)
    {
      if !planOk {
        return Err(PlanInvalid);
      }
      var existing := table;
      var nextVersion := MaxVersion(table, order.planId, order.kind) + 1;
      var createdCount := 0;
      var k := 0;
      while k < |prepared|
        invariant 0 <= k <= |prepared|
        invariant |table| == |existing| + createdCount
        invariant PersistFrom(existing, table, j, order, prepared[k..], nextVersion, now)
               == Persist(existing, j, order, prepared, planOk, now)
      {
        var item := prepared[k];
        assert prepared[k..][0] == item && prepared[k..][1..] == prepared[k + 1..];
        match Find(existing, j, item.index) {
          case None =>
            table := table + [NewAsset(j, order, item, nextVersion, now)];
            nextVersion := nextVersion + 1;
            createdCount := createdCount + 1;
          case Some(p) =>
            if existing[p].checksum.Some? && existing[p].checksum.value != item.checksum {
              return Err(SyncConflict);
            }
            table := table[p := table[p].(available := true, syncedAt := now)];
        }
        k := k + 1;
      }
      assert prepared[k..] == [];
      r := Ok(createdCount);
    }

    /** The re-sync endpoint: any error leaves the table as it was. */
    method SyncSucceededJob(j: JobId, job: Option<Job>, prepared: seq<PreparedAsset>, planOk: bool, now: Time)
      returns (r: Result<nat, AssetError>)
      modifies this
      ensures job.None? ==> r == Err(JobNotFound)
      ensures job.Some? && (job.value.row.status != Succeeded || job.value.row.result.None?) ==> r == Err(NotSyncable)
      ensures r.Err? ==> table == old(table)
      ensures r.Ok? ==> Persist(old(table), j, job.value.row.order, prepared, planOk, now) == Ok(table)
                        && |table| == |old(table)| + r.value
    {
      if job.None? {
        return Err(JobNotFound);
      }
      if job.value.row.status != Succeeded || job.value.row.result.None? {
        return Err(NotSyncable);
      }
      var savepoint := table;
      r := PersistPreparedAssets(j, job.value.row.order, prepared, planOk, now);
      if r.Err? {
        table := savepoint;
      }
    }
  }
}
