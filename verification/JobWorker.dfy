/**
 The worker and the job service as the imperative code they are: objects whose columns are assigned
 one by one. Every method is proved to end exactly as the corresponding transaction of JobRows.
 */
module JobWorker {
  import opened Common
  import opened JobRows
  import opened JobInvariants
  import opened Assets
  import AssetStore

  /** The mapped object: its columns as one record, and its event relation. */
  class GenerationJob {
    var row: Row
    var log: seq<Event>

    function View(): Job
      reads this
    {
      Job(row, log)
    }

    constructor (order: Order, now: Time)
      ensures View() == NewJob(order, now)
    {
      row := NewJob(order, now).row;
      log := [Event(JobCreated, Stay)];
    }

    method AddEvent(kind: EventKind, move: Move)
      modifies this`log
      ensures log == old(log) + [Event(kind, move)]
    {
      log := log + [Event(kind, move)];
    }

    method TransitionTo(to: Status, kind: EventKind, now: Time) returns (raised: Option<JobError>)
      modifies this
      ensures Ended(Transition(old(View()), to, kind, now), View(), raised)
      ensures raised.Some? ==> View() == old(View())
    {
      var previous := row.status;
      if !ValidTransition(previous, to) {
        return Some(InvalidTransition(previous, to));
      }
      row := row.(status := to);
      row := row.(version := row.version + 1);
      if to == Running && row.startedAt.None? {
        row := row.(startedAt := Some(now));
      }
      if Terminal(to) {
        row := row.(finishedAt := Some(now));
      }
      if to == Succeeded {
        row := row.(progress := 100);
      }
      AddEvent(kind, Move(previous, to));
      raised := None;
    }

    method Unlock(now: Time)
      modifies this`row
      ensures row == Unlocked(old(row), now)
    {
      row := row.(lockedAt := None);
      row := row.(lockedBy := None);
      row := row.(heartbeatAt := Some(now));
    }

    method Cancel(expected: int, user: UserId, now: Time) returns (raised: Option<JobError>)
      modifies this
      ensures Ended(CancelJob(old(View()), expected, user, now), View(), raised)
      ensures raised.Some? ==> View() == old(View())
      ensures raised == if old(row).version != expected then Some(VersionConflict(old(row).version))
                        else if old(row).status != Pending && old(row).status != Running then Some(NotCancellable)
                        else None
    {
      if row.version != expected {
        return Some(VersionConflict(row.version));
      }
      if row.status !in {Pending, Running} {
        return Some(NotCancellable);
      }
      raised := TransitionTo(Cancelled, CancelledByUser(user), now);
      row := row.(cancelledAt := Some(now));
      row := row.(cancelledBy := Some(user));
      row := row.(nextRunAt := None);
      Unlock(now);
      row := row.(errorCode := None);
    }

    method Retry(expected: int, user: UserId, now: Time) returns (raised: Option<JobError>)
      modifies this
      ensures Ended(RetryJob(old(View()), expected, user, now), View(), raised)
      ensures raised.Some? ==> View() == old(View())
      ensures raised == if old(row).version != expected then Some(VersionConflict(old(row).version))
                        else if old(row).status != Failed && old(row).status != TimedOut then Some(NotRetryable)
                        else if old(row).attempts >= old(row).order.maxAttempts then Some(RetryLimitReached)
                        else None
    {
      if row.version != expected {
        return Some(VersionConflict(row.version));
      }
      if row.status !in {Failed, TimedOut} {
        return Some(NotRetryable);
      }
      if row.attempts >= row.order.maxAttempts {
        return Some(RetryLimitReached);
      }
      var resume := row.status == TimedOut && row.external.Some?;
      raised := TransitionTo(Pending, ManualRetry(user, resume), now);
      row := row.(progress := if resume then 15 else 0);
      row := row.(nextRunAt := Some(now));
      Unlock(now);
      row := row.(result := None, errorCode := None);
      row := row.(startedAt := None, finishedAt := None);
      row := row.(cancelledAt := None, cancelledBy := None);
      if !resume {
        row := row.(external := None, provider := None);
      }
    }
  }

  /** The object ended as the outcome says; an exception is reported with its error. */
  predicate Ended(o: Outcome, after: Job, raised: Option<JobError>) {
    match o
    case Commit(job) => raised.None? && after == job
    case Raise(e) => raised == Some(e)
    case Skip => false
  }

  /** What the first block of processing decided. */
  datatype Next = Leave | Submit | Poll(externalId: string)

  predicate Distinct(table: seq<GenerationJob>) {
    forall i, j | 0 <= i < j < |table| :: table[i] != table[j]
  }

  /** `ORDER BY next_run_at ASC, id ASC`, with NULL first; the id is the position in the table. */
  predicate NotAfter(a: Row, i: int, b: Row, j: int) {
    match (a.nextRunAt, b.nextRunAt)
    case (None, None) => i <= j
    case (None, Some(_)) => true
    case (Some(_), None) => false
    case (Some(x), Some(y)) => x < y || (x == y && i <= j)
  }

  function TimedOutBy(job: Job, now: Time, cfg: Settings, skipped: bool): Job {
    if !skipped && PastTimeout(job.row, now, cfg) then
      (match TimeOut(job, now) case Commit(j) => j case _ => job)
    else job
  }

  predicate SelectedOverdue(job: Job, now: Time, cfg: Settings, skipped: bool) {
    !skipped && PastTimeout(job.row, now, cfg)
  }

  predicate SelectedStale(job: Job, now: Time, cfg: Settings, skipped: bool) {
    !skipped && StaleLock(job.row, now, cfg)
  }

  /** The rows among the first `n` that the select of the first loop returns. */
  ghost function Overdue(stored: seq<Job>, now: Time, cfg: Settings, skipped: set<int>, n: int): set<int> {
    set k | 0 <= k < n <= |stored| && SelectedOverdue(stored[k], now, cfg, k in skipped)
  }

  /** The rows among the first `n` that the select of the second loop returns. */
  ghost function Stale(stored: seq<Job>, now: Time, cfg: Settings, skipped: set<int>, n: int): set<int> {
    set k | 0 <= k < n <= |stored| && SelectedStale(stored[k], now, cfg, k in skipped)
  }

  lemma OverdueNext(stored: seq<Job>, now: Time, cfg: Settings, skipped: set<int>, n: int)
    requires 0 <= n < |stored|
    ensures |Overdue(stored, now, cfg, skipped, n + 1)|
          == |Overdue(stored, now, cfg, skipped, n)|
           + (if SelectedOverdue(stored[n], now, cfg, n in skipped) then 1 else 0)
  {
    var before := Overdue(stored, now, cfg, skipped, n);
    assert Overdue(stored, now, cfg, skipped, n + 1)
        == if SelectedOverdue(stored[n], now, cfg, n in skipped) then before + {n} else before;
  }

  lemma StaleNext(stored: seq<Job>, now: Time, cfg: Settings, skipped: set<int>, n: int)
    requires 0 <= n < |stored|
    ensures |Stale(stored, now, cfg, skipped, n + 1)|
         == |Stale(stored, now, cfg, skipped, n)| + (if SelectedStale(stored[n], now, cfg, n in skipped) then 1 else 0)
  {
    var before := Stale(stored, now, cfg, skipped, n);
    assert Stale(stored, now, cfg, skipped, n + 1)
        == if SelectedStale(stored[n], now, cfg, n in skipped) then before + {n} else before;
  }

  /** The first `n` rows after the first loop. */
  ghost function TimedOutAll(stored: seq<Job>, now: Time, cfg: Settings, skipped: set<int>, n: nat): (r: seq<Job>)
    requires n <= |stored|
    ensures |r| == n
  {
    if n == 0 then []
    else TimedOutAll(stored, now, cfg, skipped, n - 1) + [TimedOutBy(stored[n - 1], now, cfg, n - 1 in skipped)]
  }

  lemma {:induction false} TimedOutAllAt(stored: seq<Job>, now: Time, cfg: Settings, skipped: set<int>, n: nat, i: nat)
    requires i < n <= |stored|
    ensures TimedOutAll(stored, now, cfg, skipped, n)[i] == TimedOutBy(stored[i], now, cfg, i in skipped)
  {
    if i < n - 1 {
      TimedOutAllAt(stored, now, cfg, skipped, n - 1, i);
    }
  }

  /** What one scan makes of one stored job. */
  function ScannedTo(stored: Job, now: Time, cfg: Settings, skipped1: bool, skipped2: bool): Job {
    match ScanJob(stored, now, cfg, skipped1, skipped2)
    case Commit(job) => job
    case _ => stored
  }

  /** The first `n` rows after the whole scan. */
  ghost function ScannedAll(stored: seq<Job>, now: Time, cfg: Settings, locked1: set<int>, locked2: set<int>, n: nat)
    : (r: seq<Job>)
    requires n <= |stored|
    ensures |r| == n
  {
    if n == 0 then []
    else ScannedAll(stored, now, cfg, locked1, locked2, n - 1) +
         [ScannedTo(stored[n - 1], now, cfg, n - 1 in locked1, n - 1 in locked2)]
  }

  lemma {:induction false} ScannedAllAt(stored: seq<Job>, now: Time, cfg: Settings, locked1: set<int>,
                                        locked2: set<int>, n: nat, i: nat)
    requires i < n <= |stored|
    ensures ScannedAll(stored, now, cfg, locked1, locked2, n)[i]
         == ScannedTo(stored[i], now, cfg, i in locked1, i in locked2)
  {
    if i < n - 1 {
      ScannedAllAt(stored, now, cfg, locked1, locked2, n - 1, i);
    }
  }

  /** The selects return running rows only, so no transition of a scan is refused. */
  lemma ScannedLeft(stored: Job, now: Time, cfg: Settings, skipped1: bool, skipped2: bool)
    ensures Left(stored, ScanJob(stored, now, cfg, skipped1, skipped2),
                 ScannedTo(stored, now, cfg, skipped1, skipped2))
  {
  }

  class GenerationWorker {
    const id: WorkerId
    const cfg: Settings

    constructor (id: WorkerId, cfg: Settings)
      ensures this.id == id && this.cfg == cfg
    {
      this.id := id;
      this.cfg := cfg;
    }

    // ----- helpers shared by the blocks ------------------------------------------

    method SubmissionError(job: GenerationJob, code: string, retryable: bool, now: Time)
      requires job.row.status == Running
      modifies job
      ensures HandleSubmissionError(old(job.View()), code, retryable, now) == Commit(job.View())
    {
      job.row := job.row.(errorCode := Some(code));
      job.Unlock(now);
      var raised;
      if retryable && job.row.attempts < job.row.order.maxAttempts {
        raised := job.TransitionTo(Pending, RetryScheduled(code, job.row.attempts), now);
        job.row := job.row.(external := None);
        job.row := job.row.(nextRunAt := Some(now + Backoff(job.row.attempts)));
      } else {
        raised := job.TransitionTo(Failed, DeadLettered(code), now);
        job.row := job.row.(nextRunAt := None);
      }
    }

    method PollError(job: GenerationJob, code: string, retryable: bool, now: Time)
      requires job.row.status == Running
      modifies job
      ensures HandlePollError(old(job.View()), code, retryable, now, cfg) == Commit(job.View())
    {
      job.row := job.row.(errorCode := Some(code));
      job.Unlock(now);
      if retryable {
        job.row := job.row.(nextRunAt := Some(now + cfg.pollInterval));
        job.row := job.row.(version := job.row.version + 1);
        job.AddEvent(PollErrored(code), Stay);
      } else {
        var raised := job.TransitionTo(Failed, DeadLettered(code), now);
        job.row := job.row.(nextRunAt := None);
      }
    }

    method Release(job: GenerationJob, progress: int, now: Time)
      modifies job
      ensures job.View() == ReleaseForPoll(old(job.View()), progress, now, cfg)
    {
      job.row := job.row.(progress := Max(job.row.progress, Min(progress, 99)));
      job.row := job.row.(nextRunAt := Some(now + cfg.pollInterval));
      job.Unlock(now);
      job.row := job.row.(version := job.row.version + 1);
      job.AddEvent(StillPolling(job.row.progress), Stay);
    }

    // ----- the scan --------------------------------------------------------------

    /** One overdue row of the first loop. */
    method TimeOutOne(job: GenerationJob, now: Time)
      requires job.row.status == Running
      modifies job
      ensures TimeOut(old(job.View()), now) == Commit(job.View())
    {
      var raised := job.TransitionTo(TimedOut, TimeoutReached, now);
      job.row := job.row.(errorCode := Some("GENERATION_JOB_TIMEOUT"));
      job.Unlock(now);
      job.row := job.row.(nextRunAt := None);
    }

    /** One row of the second loop. */
    method RecoverOne(job: GenerationJob, now: Time)
      requires job.row.status == Running
      modifies job
      ensures RecoverLock(old(job.View()), now) == Commit(job.View())
    {
      if job.row.external.None? {
        var raised := job.TransitionTo(Pending, LockRecovered(None), now);
        job.row := job.row.(nextRunAt := Some(now));
      } else {
        job.row := job.row.(version := job.row.version + 1);
        job.AddEvent(LockRecovered(job.row.external), Stay);
        job.row := job.row.(nextRunAt := Some(now));
      }
      job.Unlock(now);
    }

    method TimeOutRow(job: GenerationJob, now: Time, skipped: bool) returns (hit: bool)
      modifies job
      ensures job.View() == TimedOutBy(old(job.View()), now, cfg, skipped)
      ensures hit == SelectedOverdue(old(job.View()), now, cfg, skipped)
    {
      hit := !skipped && PastTimeout(job.row, now, cfg);
      if hit {
        TimeOutOne(job, now);
      }
    }

    /** The same for row `i` of a table, whose other rows stay. */
    method TimeOutAt(table: seq<GenerationJob>, i: nat, now: Time, skipped: bool) returns (hit: bool)
      requires Distinct(table) && i < |table|
      modifies table
      ensures forall k | 0 <= k < |table| && k != i :: table[k].View() == old(table[k].View())
      ensures table[i].View() == TimedOutBy(old(table[i].View()), now, cfg, skipped)
      ensures hit == SelectedOverdue(old(table[i].View()), now, cfg, skipped)
    {
      hit := TimeOutRow(table[i], now, skipped);
    }

    /** First loop of the scan: every running row past the job timeout. */
    method TimeOutOverdue(table: seq<GenerationJob>, stored: seq<Job>, now: Time, locked1: set<int>)
      returns (timedOut: nat)
      requires Distinct(table) && |stored| == |table|
      requires forall i | 0 <= i < |table| :: table[i].View() == stored[i]
      modifies table
      ensures forall i | 0 <= i < |table| ::
                table[i].View() == TimedOutAll(stored, now, cfg, locked1, |stored|)[i]
      ensures timedOut == |Overdue(stored, now, cfg, locked1, |stored|)|
    {
      timedOut := 0;
      ghost var after := TimedOutAll(stored, now, cfg, locked1, |stored|);
      for i := 0 to |table|
        invariant forall k | 0 <= k < i :: table[k].View() == after[k]
        invariant forall k | i <= k < |table| :: table[k].View() == stored[k]
        invariant timedOut == |Overdue(stored, now, cfg, locked1, i)|
      {
        TimedOutAllAt(stored, now, cfg, locked1, |stored|, i);
        OverdueNext(stored, now, cfg, locked1, i);
        var hit := TimeOutAt(table, i, now, i in locked1);
        if hit {
          timedOut := timedOut + 1;
        }
      }
    }

    /** The select of the second loop looks at the stored row, not at what the first loop made of it. */
    method RecoverRow(job: GenerationJob, stored: Job, now: Time, skipped1: bool, skipped2: bool) returns (hit: bool)
      requires job.View() == TimedOutBy(stored, now, cfg, skipped1)
      modifies job
      ensures Left(stored, ScanJob(stored, now, cfg, skipped1, skipped2), job.View())
      ensures hit == SelectedStale(stored, now, cfg, skipped2)
    {
      hit := !skipped2 && StaleLock(stored.row, now, cfg);
      ScanSelectsAreDisjoint(stored.row, now, cfg);
      if hit {
        assert job.View() == stored;
        RecoverOne(job, now);
      }
    }

    /** The same for row `i` of a table, whose other rows stay. */
    method RecoverAt(table: seq<GenerationJob>, i: nat, stored: Job, now: Time, skipped1: bool, skipped2: bool)
      returns (hit: bool)
      requires Distinct(table) && i < |table| && table[i].View() == TimedOutBy(stored, now, cfg, skipped1)
      modifies table
      ensures forall k | 0 <= k < |table| && k != i :: table[k].View() == old(table[k].View())
      ensures table[i].View() == ScannedTo(stored, now, cfg, skipped1, skipped2)
      ensures hit == SelectedStale(stored, now, cfg, skipped2)
    {
      hit := RecoverRow(table[i], stored, now, skipped1, skipped2);
    }

    /** Second loop of the scan: every stored row with an expired lock. */
    method RecoverStale(table: seq<GenerationJob>, stored: seq<Job>, now: Time, locked1: set<int>, locked2: set<int>)
      returns (recovered: nat)
      requires Distinct(table) && |stored| == |table|
      requires forall i | 0 <= i < |table| ::
                 table[i].View() == TimedOutAll(stored, now, cfg, locked1, |stored|)[i]
      modifies table
      ensures forall i | 0 <= i < |table| ::
                table[i].View() == ScannedAll(stored, now, cfg, locked1, locked2, |stored|)[i]
      ensures recovered == |Stale(stored, now, cfg, locked2, |stored|)|
    {
      recovered := 0;
      ghost var before := TimedOutAll(stored, now, cfg, locked1, |stored|);
      ghost var after := ScannedAll(stored, now, cfg, locked1, locked2, |stored|);
      for i := 0 to |table|
        invariant forall k | 0 <= k < i :: table[k].View() == after[k]
        invariant forall k | i <= k < |table| :: table[k].View() == before[k]
        invariant recovered == |Stale(stored, now, cfg, locked2, i)|
      {
        TimedOutAllAt(stored, now, cfg, locked1, |stored|, i);
        ScannedAllAt(stored, now, cfg, locked1, locked2, |stored|, i);
        StaleNext(stored, now, cfg, locked2, i);
        var hit := RecoverAt(table, i, stored[i], now, i in locked1, i in locked2);
        if hit {
          recovered := recovered + 1;
        }
      }
    }

    /**
     The whole scan; `stored` is the content of the database, which the session does not flush to
     before the second select. Every row ends as one scan of it alone says.
     */
    method ScanTimeoutsAndRecoverLocks(table: seq<GenerationJob>, stored: seq<Job>, now: Time,
                                       locked1: set<int>, locked2: set<int>)
      returns (timedOut: nat, recovered: nat)
      requires Distinct(table) && |stored| == |table|
      requires forall i | 0 <= i < |table| :: table[i].View() == stored[i]
      modifies table
      ensures forall i | 0 <= i < |table| ::
                Left(stored[i], ScanJob(stored[i], now, cfg, i in locked1, i in locked2), table[i].View())
      ensures timedOut == |Overdue(stored, now, cfg, locked1, |stored|)|
      ensures recovered == |Stale(stored, now, cfg, locked2, |stored|)|
    {
      timedOut := TimeOutOverdue(table, stored, now, locked1);
      recovered := RecoverStale(table, stored, now, locked1, locked2);
      forall i | 0 <= i < |table|
        ensures Left(stored[i], ScanJob(stored[i], now, cfg, i in locked1, i in locked2), table[i].View())
      {
        ScannedAllAt(stored, now, cfg, locked1, locked2, |stored|, i);
        ScannedLeft(stored[i], now, cfg, i in locked1, i in locked2);
      }
    }

    // ----- claiming --------------------------------------------------------------

    /** Takes the first due row in `ORDER BY` order that no other transaction holds. */
    method ClaimNextJob(table: seq<GenerationJob>, now: Time, locked: set<int>) returns (r: Option<nat>)
      requires Distinct(table)
      modifies table
      ensures r.None? ==> forall i | 0 <= i < |table| ::
                table[i].View() == old(table[i].View()) && (i in locked || !Claimable(table[i].row, now, cfg))
      ensures r.Some? ==>
                r.value < |table| &&
                forall i | 0 <= i < |table| && i !in locked && Claimable(old(table[i].row), now, cfg) ::
                  var mine, other := old(table[r.value].row).nextRunAt, old(table[i].row).nextRunAt;
                  && (mine.Some? && other.Some? ==> mine.value <= other.value)
                  && (other.None? ==> mine.None?) && (mine == other ==> r.value <= i)
      ensures r.Some? ==>
                && r.value < |table| && r.value !in locked
                && Claimable(old(table[r.value].row), now, cfg)
                && (forall i | 0 <= i < |table| && i !in locked && Claimable(old(table[i].row), now, cfg) ::
                      NotAfter(old(table[r.value].row), r.value, old(table[i].row), i))
                && ClaimJob(old(table[r.value].View()), id, now) == Commit(table[r.value].View())
                && forall i | 0 <= i < |table| && i != r.value :: table[i].View() == old(table[i].View())
    {
      r := None;
      for i := 0 to |table|
        invariant r.None? ==> forall k | 0 <= k < i :: k in locked || !Claimable(table[k].row, now, cfg)
        invariant r.Some? ==>
                    && r.value < i && r.value !in locked && Claimable(table[r.value].row, now, cfg)
                    && forall k | 0 <= k < i && k !in locked && Claimable(table[k].row, now, cfg) ::
                         NotAfter(table[r.value].row, r.value, table[k].row, k)
        invariant forall k | 0 <= k < |table| :: table[k].View() == old(table[k].View())
      {
        if i !in locked && Claimable(table[i].row, now, cfg) {
          if r.None? || !NotAfter(table[r.value].row, r.value, table[i].row, i) {
            r := Some(i);
          }
        }
      }
      if r.Some? {
        ClaimOne(table[r.value], now);
      }
    }

    method ClaimOne(job: GenerationJob, now: Time)
      requires job.row.status == Pending || job.row.status == Running
      modifies job
      ensures ClaimJob(old(job.View()), id, now) == Commit(job.View())
    {
      job.row := job.row.(lockedBy := Some(id));
      job.row := job.row.(lockedAt := Some(now));
      job.row := job.row.(heartbeatAt := Some(now));
      if job.row.status == Pending {
        var raised := job.TransitionTo(Running, JobClaimed(id), now);
        job.row := job.row.(progress := Max(job.row.progress, 5));
      } else {
        job.row := job.row.(version := job.row.version + 1);
        job.AddEvent(PollClaimed(id), Stay);
      }
    }

    // ----- the blocks of process_claimed_job -------------------------------------

    method BeginBlock(job: GenerationJob, now: Time) returns (next: Next)
      modifies job
      ensures next.Leave? <==> !HeldBy(old(job.row), id)
      ensures next.Submit? <==> BeginProcessing(old(job.View()), id, now).Commit?
      ensures next.Submit? ==> BeginProcessing(old(job.View()), id, now) == Commit(job.View())
      ensures !next.Submit? ==> job.View() == old(job.View())
      ensures next.Poll? ==> job.row.external == Some(next.externalId)
    {
      if job.row.status != Running || job.row.lockedBy != Some(id) {
        return Leave;
      }
      if job.row.external.Some? {
        return Poll(job.row.external.value);
      }
      job.row := job.row.(attempts := job.row.attempts + 1);
      job.row := job.row.(heartbeatAt := Some(now));
      job.row := job.row.(version := job.row.version + 1);
      job.AddEvent(Submitting(job.row.attempts), Stay);
      next := Submit;
    }

    method SubmitFailedBlock(job: GenerationJob, code: string, retryable: bool, now: Time)
      modifies job
      ensures Left(old(job.View()), SubmissionFailed(old(job.View()), code, retryable, now), job.View())
    {
      if job.row.status == Running {
        SubmissionError(job, code, retryable, now);
      }
    }

    method SubmittedBlock(job: GenerationJob, externalId: string, provider: string, now: Time)
      modifies job
      ensures Left(old(job.View()), SubmissionAccepted(old(job.View()), externalId, provider, now, cfg), job.View())
    {
      if job.row.status != Running {
        return;
      }
      job.row := job.row.(external := Some(externalId));
      job.row := job.row.(provider := Some(provider));
      job.row := job.row.(progress := Max(job.row.progress, 15));
      job.row := job.row.(nextRunAt := Some(if provider == "mock" then now else now + cfg.pollInterval));
      job.Unlock(now);
      job.row := job.row.(errorCode := None);
      job.row := job.row.(version := job.row.version + 1);
      job.AddEvent(Submitted(provider, externalId), Stay);
    }

    method PollFailedBlock(job: GenerationJob, code: string, retryable: bool, now: Time)
      modifies job
      ensures Left(old(job.View()), PollFailed(old(job.View()), code, retryable, now, cfg), job.View())
    {
      if job.row.status == Running {
        PollError(job, code, retryable, now);
      }
    }

    method StorageFailedBlock(job: GenerationJob, code: string, retryable: bool, now: Time)
      modifies job
      ensures Left(old(job.View()), StorageFailed(old(job.View()), id, code, retryable, now, cfg), job.View())
    {
      if job.row.status == Running && job.row.lockedBy == Some(id) {
        PollError(job, code, retryable, now);
      }
    }

    method UnexpectedBlock(job: GenerationJob, now: Time)
      modifies job
      ensures Left(old(job.View()), Unexpected(old(job.View()), now, cfg), job.View())
    {
      if job.row.status == Running {
        if job.row.external.None? {
          SubmissionError(job, "WORKER_UNEXPECTED_ERROR", true, now);
        } else {
          PollError(job, "WORKER_UNEXPECTED_ERROR", true, now);
        }
      }
    }

    method SucceedOne(job: GenerationJob, doc: ResultDoc, count: nat, created: nat, now: Time)
      requires job.row.status == Running && UsableResult(doc)
      modifies job
      ensures Succeed(old(job.View()), doc, count, created, now) == Commit(job.View())
    {
      job.AddEvent(AssetsSynced(count, created), Stay);
      var raised := job.TransitionTo(Succeeded, JobSucceeded(|doc.assets.value|), now);
      job.row := job.row.(result := Some(doc));
      job.row := job.row.(errorCode := None);
      job.row := job.row.(nextRunAt := None);
      job.Unlock(now);
    }

    /** The last block. When the asset rows cannot be written, the exception rolls everything back. */
    method FinishBlock(j: JobId, job: GenerationJob, poll: PollResult, prepared: seq<PreparedAsset>,
                       assets: AssetStore.Store, planOk: bool, now: Time)
      returns (raised: Option<AssetError>)
      requires poll.Done? && poll.result.Some? ==> UsableResult(poll.result.value)
      modifies job, assets
      ensures raised.Some? ==> job.View() == old(job.View()) && assets.table == old(assets.table)
      ensures raised.Some? <==>
                HeldBy(old(job.row), id) && poll.Done? && poll.result.Some? &&
                Persist(old(assets.table), j, job.row.order, prepared, planOk, now).Err?
      ensures raised.None? && HeldBy(old(job.row), id) && poll.Done? && poll.result.Some? ==>
                Persist(old(assets.table), j, job.row.order, prepared, planOk, now) == Ok(assets.table)
                && |assets.table| >= |old(assets.table)|
                && FinishPoll(old(job.View()), id, poll, |prepared|, |assets.table| - |old(assets.table)|, now, cfg)
                == Commit(job.View())
      ensures raised.None? && !(poll.Done? && poll.result.Some?) ==>
                assets.table == old(assets.table)
                && Left(old(job.View()), FinishPoll(old(job.View()), id, poll, 0, 0, now, cfg), job.View())
      ensures !HeldBy(old(job.row), id) ==> job.View() == old(job.View()) && assets.table == old(assets.table)
    {
      raised := None;
      if job.row.status != Running || job.row.lockedBy != Some(id) {
        return;
      }
      match poll
      case InProgress(progress) =>
        Release(job, progress, now);
      case Done(None) =>
        PollError(job, "MEDIA_RESULT_INVALID", false, now);
      case Done(Some(doc)) =>
        var savepoint := assets.table;
        var r := assets.PersistPreparedAssets(j, job.row.order, prepared, planOk, now);
        if r.Err? {
          assets.table := savepoint;
          return Some(r.error);
        }
        SucceedOne(job, doc, |prepared|, r.value, now);
      case ProviderFailed(code, retryable) =>
        SubmissionError(job, code, retryable, now);
    }
  }

  /** The row a block leaves: the committed one, or the old one. */
  predicate Left(before: Job, o: Outcome, after: Job) {
    match o
    case Commit(job) => after == job
    case Skip => after == before
    case Raise(_) => false
  }
}
