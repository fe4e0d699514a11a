/**
 The invariant of one job and its log, and the proof that every transaction of JobRows
 keeps it, bumps the version by exactly one and never reaches the 409 branch of a transition.
 */
module JobInvariants {
  import opened Common
  import opened JobRows

  /** The column-level invariant of a job row. */
  predicate RowInv(r: Row) {
    // lock columns
    && (r.lockedAt.Some? <==> r.lockedBy.Some?)
    && (r.lockedBy.Some? ==> r.status == Running)
    // time columns
    && (r.status == Running ==> r.startedAt.Some?)
    && (Terminal(r.status) <==> r.finishedAt.Some?)
    && (Terminal(r.status) ==> r.nextRunAt.None?)
    && (!Terminal(r.status) ==> r.nextRunAt.Some?)
    && (r.status == Cancelled <==> r.cancelledAt.Some?)
    && (r.status == Cancelled <==> r.cancelledBy.Some?)
    // result and progress
    && (r.status == Succeeded <==> r.result.Some?)
    && (r.result.Some? ==> UsableResult(r.result.value))
    && 0 <= r.progress <= 100
    && (r.progress == 100 <==> r.status == Succeeded)
  }

  /** The row is what its log says. */
  predicate LogInv(job: Job) {
    && job.row.version == |job.log| - Count(job.log, IsSync)
    && job.row.attempts == Count(job.log, IsSubmitting)
    && job.row.attempts <= Budget(job)
    && (job.row.status == Pending ==> job.row.attempts < Budget(job))
    && (job.row.attempts > job.row.order.maxAttempts ==> PastLimit(job.log, job.row.order.maxAttempts))
    && Replay(job.log) == job.row.status
    && LegalPath(job.log)
  }

  /** Configured attempts plus one for every lock recovery that requeued the job with none left. */
  function Budget(job: Job): int {
    job.row.order.maxAttempts + RequeuesAtLimit(job.log, job.row.order.maxAttempts)
  }

  predicate JobInv(job: Job) {
    RowInv(job.row) && LogInv(job) && job.row.version >= 1
  }

  /** What every committed transaction does to the row it writes; `owner` is the committing worker. */
  predicate Advances(a: Job, b: Job, owner: Option<WorkerId>) {
    && a.row.status !in {Succeeded, Cancelled}
    && b.row.version == a.row.version + 1
    && b.row.order == a.row.order
    && a.log <= b.log
    && (b.row.lockedBy.Some? ==> b.row.lockedBy == owner)
    && (b.row.progress >= a.row.progress ||
        (a.row.status in {Failed, TimedOut} && Count(b.log, IsManualRetry) == Count(a.log, IsManualRetry) + 1))
  }

  predicate Sound(job: Job, o: Outcome, owner: Option<WorkerId>) {
    && (o.Commit? ==> JobInv(o.job) && Advances(job, o.job, owner))
    && (o.Raise? ==> !o.error.InvalidTransition?)
  }

  lemma NewJobInv(order: Order, now: Time)
    requires order.maxAttempts >= 1
    ensures JobInv(NewJob(order, now))
  {
    LogAppend([], Event(JobCreated, Stay));
    assert [] + [Event(JobCreated, Stay)] == NewJob(order, now).log;
  }

  lemma TimeOutSound(job: Job, now: Time)
    requires JobInv(job) && job.row.status == Running
    ensures Sound(job, TimeOut(job, now), None)
  {
    LogAppend(job.log, Event(TimeoutReached, Move(job.row.status, TimedOut)));
  }

  lemma RecoverSound(job: Job, now: Time)
    requires JobInv(job) && job.row.status == Running
    ensures Sound(job, RecoverLock(job, now), None)
  {
    if job.row.external.None? {
      LogAppend(job.log, Event(LockRecovered(None), Move(job.row.status, Pending)));
    } else {
      LogAppend(job.log, Event(LockRecovered(job.row.external), Stay));
    }
  }

  lemma ScanSound(job: Job, now: Time, cfg: Settings, locked1: bool, locked2: bool)
    requires JobInv(job)
    ensures Sound(job, ScanJob(job, now, cfg, locked1, locked2), None)
  {
    if job.row.status == Running {
      TimeOutSound(job, now);
      RecoverSound(job, now);
    }
  }

  lemma ClaimSound(job: Job, w: WorkerId, now: Time, cfg: Settings)
    requires JobInv(job) && Claimable(job.row, now, cfg)
    ensures Sound(job, ClaimJob(job, w, now), Some(w))
  {
    LogAppend(job.log, Event(JobClaimed(w), Move(job.row.status, Running)));
    LogAppend(job.log, Event(PollClaimed(w), Stay));
  }

  lemma BeginSound(job: Job, w: WorkerId, now: Time)
    requires JobInv(job)
    requires HeldBy(job.row, w) && job.row.external.None? ==> job.row.attempts < Budget(job)
    ensures Sound(job, BeginProcessing(job, w, now), Some(w))
  {
    LogAppend(job.log, Event(Submitting(job.row.attempts + 1), Stay));
  }

  lemma SubmissionErrorSound(job: Job, code: string, retryable: bool, now: Time)
    requires JobInv(job) && job.row.status == Running
    ensures Sound(job, HandleSubmissionError(job, code, retryable, now), None)
  {
    LogAppend(job.log, Event(RetryScheduled(code, job.row.attempts), Move(job.row.status, Pending)));
    LogAppend(job.log, Event(DeadLettered(code), Move(job.row.status, Failed)));
  }

  lemma PollErrorSound(job: Job, code: string, retryable: bool, now: Time, cfg: Settings)
    requires JobInv(job) && job.row.status == Running
    ensures Sound(job, HandlePollError(job, code, retryable, now, cfg), None)
  {
    LogAppend(job.log, Event(PollErrored(code), Stay));
    LogAppend(job.log, Event(DeadLettered(code), Move(job.row.status, Failed)));
  }

  lemma AcceptedSound(job: Job, externalId: string, provider: string, now: Time, cfg: Settings)
    requires JobInv(job)
    ensures Sound(job, SubmissionAccepted(job, externalId, provider, now, cfg), None)
  {
    LogAppend(job.log, Event(Submitted(provider, externalId), Stay));
  }

  lemma ReleaseSound(job: Job, progress: int, now: Time, cfg: Settings)
    requires JobInv(job) && job.row.status == Running
    ensures Sound(job, Commit(ReleaseForPoll(job, progress, now, cfg)), None)
  {
    LogAppend(job.log, Event(StillPolling(Max(job.row.progress, Min(progress, 99))), Stay));
  }

  lemma SucceedSound(job: Job, doc: ResultDoc, count: nat, created: nat, now: Time)
    requires JobInv(job) && job.row.status == Running && UsableResult(doc)
    ensures Sound(job, Succeed(job, doc, count, created, now), None)
  {
    var e := Event(AssetsSynced(count, created), Stay);
    LogAppend(job.log, e);
    LogAppend(job.log + [e], Event(JobSucceeded(|doc.assets.value|), Move(Running, Succeeded)));
  }

  lemma FinishSound(job: Job, w: WorkerId, poll: PollResult, count: nat, created: nat, now: Time, cfg: Settings)
    requires JobInv(job)
    requires poll.Done? && poll.result.Some? ==> UsableResult(poll.result.value)
    ensures Sound(job, FinishPoll(job, w, poll, count, created, now, cfg), None)
  {
    if HeldBy(job.row, w) {
      match poll
      case InProgress(p) => ReleaseSound(job, p, now, cfg);
      case Done(None) => PollErrorSound(job, "MEDIA_RESULT_INVALID", false, now, cfg);
      case Done(Some(doc)) => SucceedSound(job, doc, count, created, now);
      case ProviderFailed(code, retryable) => SubmissionErrorSound(job, code, retryable, now);
    }
  }

  lemma UnexpectedSound(job: Job, now: Time, cfg: Settings)
    requires JobInv(job)
    ensures Sound(job, Unexpected(job, now, cfg), None)
  {
    if job.row.status == Running {
      SubmissionErrorSound(job, "WORKER_UNEXPECTED_ERROR", true, now);
      PollErrorSound(job, "WORKER_UNEXPECTED_ERROR", true, now, cfg);
    }
  }

  lemma CancelSound(job: Job, expected: int, user: UserId, now: Time)
    requires JobInv(job)
    ensures Sound(job, CancelJob(job, expected, user, now), None)
  {
    LogAppend(job.log, Event(CancelledByUser(user), Move(job.row.status, Cancelled)));
  }

  lemma RetrySound(job: Job, expected: int, user: UserId, now: Time)
    requires JobInv(job)
    ensures Sound(job, RetryJob(job, expected, user, now), None)
  {
    var resume := job.row.status == TimedOut && job.row.external.Some?;
    LogAppend(job.log, Event(ManualRetry(user, resume), Move(job.row.status, Pending)));
  }

  lemma SyncEventInv(job: Job, created: nat)
    requires JobInv(job)
    ensures JobInv(SyncEvent(job, created)) && SyncEvent(job, created).row == job.row
  {
    LogAppend(job.log, Event(AssetsSynced(created, created), Stay));
  }

  /**
   A scan writes no job twice and leaves none overdue: after it, a row neither select had to
   skip is past no cutoff, and an external task id that was recorded is still there.
   */
  lemma ScanClearsOverdue(job: Job, now: Time, cfg: Settings)
    requires JobInv(job)
    ensures var o := ScanJob(job, now, cfg, false, false);
            var r := if o.Commit? then o.job.row else job.row;
            && !o.Raise?
            && !PastTimeout(r, now, cfg)
            && !(r.status == Running && r.lockedAt.Some? && r.lockedAt.value <= now - cfg.lockTimeout)
            && r.external == job.row.external
            && r.version <= job.row.version + 1
  {
    ScanSound(job, now, cfg, false, false);
  }

  /** The two selects of a scan never return the same row, although neither sees the other's writes. */
  lemma ScanSelectsAreDisjoint(r: Row, now: Time, cfg: Settings)
    ensures !(PastTimeout(r, now, cfg) && StaleLock(r, now, cfg))
  {
  }

  /** Waiting times before automatic attempts grow until they reach one minute, from the sixth attempt on. */
  lemma {:induction false} BackoffGrows(a: nat, b: nat)
    requires a <= b
    ensures 1 <= Backoff(a) <= Backoff(b) <= 60
    ensures Backoff(b) == 60 <==> b >= 6
    decreases b
  {
    Powers();
    if b >= 7 {
      BackoffGrows(if a < b then a else b - 1, b - 1);
    }
  }

  lemma Powers()
    ensures Pow2(0) == 1 && Pow2(1) == 2 && Pow2(2) == 4 && Pow2(3) == 8
    ensures Pow2(4) == 16 && Pow2(5) == 32 && Pow2(6) == 64
  {
    assert Pow2(3) == 2 * Pow2(2);
    assert Pow2(6) == 2 * Pow2(5) && Pow2(5) == 2 * Pow2(4);
  }

  // ----- a row nobody owns -----------------------------------------------------

  /** Running, unlocked, and without an external task to poll. */
  predicate Stranded(r: Row) {
    r.status == Running && r.lockedBy.None? && r.external.None?
  }

  /** No worker can claim a stranded row, and a scan writes it only past the job timeout: no recovery sees it. */
  lemma StrandedWaitsForTimeout(job: Job, now: Time, cfg: Settings, locked1: bool, locked2: bool)
    requires JobInv(job) && Stranded(job.row)
    ensures !Claimable(job.row, now, cfg)
    ensures ScanJob(job, now, cfg, locked1, locked2).Commit? <==> !locked1 && PastTimeout(job.row, now, cfg)
  {
  }

  /** What a scan makes of one row; `locked1` and `locked2` say which select skipped it. */
  function Scanned(job: Job, now: Time, cfg: Settings, locked1: bool, locked2: bool): Row {
    match ScanJob(job, now, cfg, locked1, locked2)
    case Commit(j) => j.row
    case _ => job.row
  }

  /** Unlocked, or locked for at least the lock timeout. */
  predicate LeaseOver(r: Row, now: Time, cfg: Settings) {
    r.lockedAt.None? || now - r.lockedAt.value >= cfg.lockTimeout
  }

  /**
   No lease is broken, and an unfinished job that is not stranded stays within reach. Unless the scan
   timed it out, it can be claimed if and only if its lease is over and either the scan recovered its
   lock or it is due and has something to claim. Where neither select skipped the row, that leaves out
   only stranded rows, live leases and unlocked rows not yet due.
   */
  lemma ClaimableAfterScan(job: Job, now: Time, cfg: Settings, locked1: bool, locked2: bool)
    requires JobInv(job) && !Terminal(job.row.status)
    ensures var r := Scanned(job, now, cfg, locked1, locked2);
            r.status == TimedOut ||
            (Claimable(r, now, cfg) <==>
             && LeaseOver(job.row, now, cfg)
             && ((!locked2 && StaleLock(job.row, now, cfg)) ||
                 (job.row.nextRunAt.value <= now && (job.row.status == Pending || job.row.external.Some?))))
    ensures var r := Scanned(job, now, cfg, locked1, locked2);
            !locked1 && !locked2 ==>
            r.status == TimedOut ||
            (Claimable(r, now, cfg) <==>
             && !Stranded(r)
             && LeaseOver(job.row, now, cfg)
             && (job.row.lockedAt.None? ==> job.row.nextRunAt.value <= now))
  {
  }
}
