/**
 What the queue guarantees when clock readings never go back: a job's start time and lock time, the
 recoveries that exceed its limit, and a bound on its attempts in the settings alone.
 */
module JobClock {
  import opened Common
  import opened JobRows
  import opened JobInvariants
  import opened Assets
  import opened JobProtocol
  import opened JobTheorems

  // ----- what a step other than a lock recovery does to the times ------------------

  /** No recovery at the limit, and times that stay, start or end with `now`. */
  predicate Clocked(a: Job, b: Job, now: Time) {
    && b.row.order == a.row.order
    && RequeuesAtLimit(b.log, a.row.order.maxAttempts) == RequeuesAtLimit(a.log, a.row.order.maxAttempts)
    && (b.row.lockedAt.None? || b.row.lockedAt == a.row.lockedAt || b.row.lockedAt == Some(now))
    && (|| b.row.startedAt == a.row.startedAt
        || (a.row.startedAt.None? && b.row.startedAt == Some(now))
        || (b.row.startedAt.None? && b.row.lockedAt.None? && a.row.attempts < a.row.order.maxAttempts))
  }

  /** Events other than a requeueing recovery do not touch the limit. */
  lemma QuietEvent(log: seq<Event>, e: Event, limit: int)
    requires !IsRequeue(e.kind)
    ensures RequeuesAtLimit(log + [e], limit) == RequeuesAtLimit(log, limit)
  {
    AppendedLast(log, e);
  }

  lemma TouchClocked(job: Job, row: Row, kind: EventKind, now: Time)
    requires !IsRequeue(kind) && row.order == job.row.order && row.startedAt == job.row.startedAt
    requires row.lockedAt.None? || row.lockedAt == Some(now) || row.lockedAt == job.row.lockedAt
    ensures Clocked(job, Touch(job, row, kind), now)
  {
    QuietEvent(job.log, Event(kind, Stay), job.row.order.maxAttempts);
  }

  lemma SubmissionErrorClocked(job: Job, code: string, retryable: bool, now: Time)
    ensures Clocked(job, After(job, HandleSubmissionError(job, code, retryable, now)), now)
  {
    QuietEvent(job.log, Event(RetryScheduled(code, job.row.attempts), Move(job.row.status, Pending)),
               job.row.order.maxAttempts);
    QuietEvent(job.log, Event(DeadLettered(code), Move(job.row.status, Failed)), job.row.order.maxAttempts);
  }

  lemma PollErrorClocked(job: Job, code: string, retryable: bool, now: Time, cfg: Settings)
    ensures Clocked(job, After(job, HandlePollError(job, code, retryable, now, cfg)), now)
  {
    QuietEvent(job.log, Event(PollErrored(code), Stay), job.row.order.maxAttempts);
    QuietEvent(job.log, Event(DeadLettered(code), Move(job.row.status, Failed)), job.row.order.maxAttempts);
  }

  lemma AnswerClocked(cfg: Settings, job: Job, a: Action)
    requires IsAnswer(a)
    ensures Clocked(job, After(job, Answer(cfg, job, a)), a.now)
  {
    match a
    case SubmitFails(w, code, retryable, now) => SubmissionErrorClocked(job, code, retryable, now);
    case SubmitReturns(w, externalId, provider, now) =>
      QuietEvent(job.log, Event(Submitted(provider, externalId), Stay), job.row.order.maxAttempts);
    case PollFails(w, code, retryable, now) => PollErrorClocked(job, code, retryable, now, cfg);
    case StorageFails(w, code, retryable, now) => PollErrorClocked(job, code, retryable, now, cfg);
    case HandleUnexpected(w, now) =>
      SubmissionErrorClocked(job, "WORKER_UNEXPECTED_ERROR", true, now);
      PollErrorClocked(job, "WORKER_UNEXPECTED_ERROR", true, now, cfg);
  }

  lemma SucceedClocked(job: Job, doc: ResultDoc, count: nat, created: nat, now: Time)
    requires UsableResult(doc)
    ensures Clocked(job, After(job, Succeed(job, doc, count, created, now)), now)
  {
    var synced := Event(AssetsSynced(count, created), Stay);
    QuietEvent(job.log, synced, job.row.order.maxAttempts);
    QuietEvent(job.log + [synced], Event(JobSucceeded(|doc.assets.value|), Move(job.row.status, Succeeded)),
               job.row.order.maxAttempts);
  }

  lemma FinishPollClocked(cfg: Settings, job: Job, w: WorkerId, poll: PollResult, count: nat, created: nat, now: Time)
    requires poll.Done? && poll.result.Some? ==> UsableResult(poll.result.value)
    ensures Clocked(job, After(job, FinishPoll(job, w, poll, count, created, now, cfg)), now)
  {
    match poll
    case InProgress(p) =>
      QuietEvent(job.log, Event(StillPolling(Max(job.row.progress, Min(p, 99))), Stay), job.row.order.maxAttempts);
    case Done(None) => PollErrorClocked(job, "MEDIA_RESULT_INVALID", false, now, cfg);
    case Done(Some(doc)) => SucceedClocked(job, doc, count, created, now);
    case ProviderFailed(code, retryable) => SubmissionErrorClocked(job, code, retryable, now);
  }

  lemma ClaimClocked(job: Job, w: WorkerId, now: Time)
    ensures Clocked(job, After(job, ClaimJob(job, w, now)), now)
  {
    QuietEvent(job.log, Event(JobClaimed(w), Move(Pending, Running)), job.row.order.maxAttempts);
    QuietEvent(job.log, Event(PollClaimed(w), Stay), job.row.order.maxAttempts);
  }

  lemma BeginClocked(job: Job, w: WorkerId, now: Time)
    ensures Clocked(job, After(job, BeginProcessing(job, w, now)), now)
  {
    QuietEvent(job.log, Event(EventKind.Submitting(job.row.attempts + 1), Stay), job.row.order.maxAttempts);
  }

  lemma CancelClocked(job: Job, expected: int, user: UserId, now: Time)
    ensures Clocked(job, After(job, CancelJob(job, expected, user, now)), now)
  {
    QuietEvent(job.log, Event(CancelledByUser(user), Move(job.row.status, Cancelled)), job.row.order.maxAttempts);
  }

  /** A manual retry forgets the start time, and is refused once the limit is reached. */
  lemma RetryClocked(job: Job, expected: int, user: UserId, now: Time)
    ensures Clocked(job, After(job, RetryJob(job, expected, user, now)), now)
  {
    var resume := job.row.status == TimedOut && job.row.external.Some?;
    QuietEvent(job.log, Event(ManualRetry(user, resume), Move(job.row.status, Pending)), job.row.order.maxAttempts);
  }

  lemma SyncClocked(job: Job, created: nat, now: Time)
    ensures Clocked(job, SyncEvent(job, created), now)
  {
    QuietEvent(job.log, Event(AssetsSynced(created, created), Stay), job.row.order.maxAttempts);
  }

  // ----- one step of the system, seen from one job ---------------------------------

  /** The clock reading of an action; answers that only move a worker read no clock. */
  function NowOf(a: Action): Option<Time> {
    if a.PollReturns? || a.Crash? then None else Some(a.now)
  }

  /** The latest reading after an action. */
  function Later(a: Action, clock: Time): Time {
    match NowOf(a) case None => clock case Some(now) => now
  }

  lemma StoreClocked(s: System, i: JobId, o: Outcome, j: JobId, now: Time)
    requires i in s.jobs && j in s.jobs && Clocked(s.jobs[i], After(s.jobs[i], o), now)
    ensures j in Store(s, i, o).jobs && Clocked(s.jobs[j], Store(s, i, o).jobs[j], now)
  {
  }

  lemma FinishClocked(cfg: Settings, s: System, w: WorkerId, planOk: bool, now: Time, j: JobId)
    requires j in s.jobs
    ensures var t := ApplyFinish(cfg, s, w, planOk, now); j in t.jobs && Clocked(s.jobs[j], t.jobs[j], now)
  {
    var pc := PcOf(s, w);
    if pc.Prepared? && pc.job == j && Prepares(pc.poll, pc.files) {
      FinishPollClocked(cfg, s.jobs[j], w, pc.poll, 0, 0, now);
      if pc.poll.Done? && pc.poll.result.Some? {
        var r := Persist(s.assets, j, s.jobs[j].row.order, pc.files, planOk, now);
        if r.Ok? {
          FinishPollClocked(cfg, s.jobs[j], w, pc.poll, |pc.files|, Created(s.assets, r.value), now);
        }
      }
    }
  }

  lemma ApplyClaimClocked(cfg: Settings, s: System, w: WorkerId, i: JobId, now: Time, j: JobId)
    requires j in s.jobs
    ensures var t := ApplyClaim(cfg, s, w, i, now); j in t.jobs && Clocked(s.jobs[j], t.jobs[j], now)
  {
    ClaimClocked(s.jobs[j], w, now);
  }

  lemma ApplyBeginClocked(s: System, w: WorkerId, now: Time, j: JobId)
    requires j in s.jobs
    ensures var t := ApplyBegin(s, w, now); j in t.jobs && Clocked(s.jobs[j], t.jobs[j], now)
  {
    BeginClocked(s.jobs[j], w, now);
  }

  lemma WorkerClocked(cfg: Settings, s: System, a: Action, j: JobId)
    requires j in s.jobs && (a.Claim? || a.Begin? || a.Finish?)
    ensures var t := Apply(cfg, s, a); j in t.jobs && Clocked(s.jobs[j], t.jobs[j], a.now)
  {
    WorkerIsApplied(cfg, s, a);
    if a.Claim? {
      ApplyClaimClocked(cfg, s, a.w, a.j, a.now, j);
    } else if a.Begin? {
      ApplyBeginClocked(s, a.w, a.now, j);
    } else {
      FinishClocked(cfg, s, a.w, a.planOk, a.now, j);
    }
  }

  lemma ApplySyncClocked(s: System, i: JobId, files: seq<PreparedAsset>, planOk: bool, now: Time, j: JobId)
    requires j in s.jobs
    ensures var t := ApplySync(s, i, files, planOk, now); j in t.jobs && Clocked(s.jobs[j], t.jobs[j], now)
  {
    forall created: nat ensures Clocked(s.jobs[j], SyncEvent(s.jobs[j], created), now) {
      SyncClocked(s.jobs[j], created, now);
    }
  }

  lemma OperatorClocked(cfg: Settings, s: System, a: Action, j: JobId)
    requires j in s.jobs && (a.Cancel? || a.Retry? || a.Sync?)
    ensures var t := Apply(cfg, s, a); j in t.jobs && Clocked(s.jobs[j], t.jobs[j], a.now)
  {
    OperatorIsApplied(cfg, s, a);
    if a.Sync? {
      ApplySyncClocked(s, a.j, a.files, a.planOk, a.now, j);
    } else if a.j in s.jobs {
      if a.Cancel? {
        CancelClocked(s.jobs[a.j], a.expected, a.user, a.now);
        StoreClocked(s, a.j, CancelJob(s.jobs[a.j], a.expected, a.user, a.now), j, a.now);
      } else {
        RetryClocked(s.jobs[a.j], a.expected, a.user, a.now);
        StoreClocked(s, a.j, RetryJob(s.jobs[a.j], a.expected, a.user, a.now), j, a.now);
      }
    }
  }

  lemma AnyAnswerClocked(cfg: Settings, s: System, a: Action, j: JobId)
    requires j in s.jobs && IsAnswer(a)
    ensures var t := ApplyAnswer(cfg, s, a); j in t.jobs && Clocked(s.jobs[j], t.jobs[j], a.now)
  {
    var pc := PcOf(s, a.w);
    if Awaits(pc, a) && pc.job in s.jobs {
      AnswerClocked(cfg, s.jobs[pc.job], a);
      StoreClocked(s, pc.job, Answer(cfg, s.jobs[pc.job], a), j, a.now);
    }
  }

  /** Every action but a scan. */
  lemma OthersClocked(cfg: Settings, s: System, a: Action, j: JobId, clock: Time)
    requires j in s.jobs && !a.Scan?
    ensures var t := Apply(cfg, s, a); j in t.jobs && Clocked(s.jobs[j], t.jobs[j], Later(a, clock))
  {
    if IsAnswer(a) {
      AnswerIsApplied(cfg, s, a);
      AnyAnswerClocked(cfg, s, a, j);
    } else if a.Claim? || a.Begin? || a.Finish? {
      WorkerClocked(cfg, s, a, j);
    } else if a.Cancel? || a.Retry? || a.Sync? {
      OperatorClocked(cfg, s, a, j);
    } else {
      QuietStep(cfg, s, a, j);
    }
  }

  // ----- when a job is requeued at its limit ---------------------------------------

  /** The scan takes the recovery branch for a row with no external id and no attempts left. */
  predicate RecoversAtLimit(cfg: Settings, r: Row, now: Time, skipped: bool) {
    !skipped && StaleLock(r, now, cfg) && r.external.None? && r.attempts >= r.order.maxAttempts
  }

  lemma ScanAtLimit(cfg: Settings, job: Job, now: Time, locked1: bool, locked2: bool)
    requires JobInv(job)
    ensures var b := After(job, ScanJob(job, now, cfg, locked1, locked2));
            var limit := job.row.order.maxAttempts;
            if RecoversAtLimit(cfg, job.row, now, locked2)
            then b.row.order == job.row.order && b.row.startedAt == job.row.startedAt && b.row.lockedAt.None?
                 && RequeuesAtLimit(b.log, limit) == RequeuesAtLimit(job.log, limit) + 1
            else Clocked(job, b, now)
  {
    ScanSelectsAreDisjoint(job.row, now, cfg);
    QuietEvent(job.log, Event(TimeoutReached, Move(job.row.status, TimedOut)), job.row.order.maxAttempts);
    if job.row.external.None? {
      LogAppend(job.log, Event(LockRecovered(None), Move(job.row.status, Pending)));
    } else {
      QuietEvent(job.log, Event(LockRecovered(job.row.external), Stay), job.row.order.maxAttempts);
    }
  }

  /** A step adds a recovery at the limit to a job's log exactly when it is a scan that makes one. */
  lemma RequeuesAtLimitExactlyWhen(cfg: Settings, s: System, a: Action, j: JobId)
    requires JobsOk(s) && j in s.jobs
    ensures var limit := s.jobs[j].row.order.maxAttempts;
            && j in Apply(cfg, s, a).jobs
            && RequeuesAtLimit(Apply(cfg, s, a).jobs[j].log, limit)
            == RequeuesAtLimit(s.jobs[j].log, limit) +
               (if a.Scan? && RecoversAtLimit(cfg, s.jobs[j].row, a.now, j in a.locked2) then 1 else 0)
  {
    if a.Scan? {
      OperatorIsApplied(cfg, s, a);
      ScanAtLimit(cfg, s.jobs[j], a.now, j in a.locked1, j in a.locked2);
    } else {
      OthersClocked(cfg, s, a, j, 0);
    }
  }

  // ----- times along a run ---------------------------------------------------------

  /**
   With `q` recoveries at the limit behind it, a job started at least `q` lock timeouts ago, a lock it
   holds was taken that long after the start, and `q` lock timeouts fit into the job timeout.
   */
  predicate TimeInv(cfg: Settings, job: Job, clock: Time) {
    var q := RequeuesAtLimit(job.log, job.row.order.maxAttempts);
    var r := job.row;
    && (r.startedAt.Some? ==> r.startedAt.value + q * cfg.lockTimeout <= clock)
    && (r.lockedAt.Some? ==>
          r.startedAt.Some? && r.startedAt.value + q * cfg.lockTimeout <= r.lockedAt.value <= clock)
    && (q > 0 ==> r.startedAt.Some? && q * cfg.lockTimeout < cfg.jobTimeout)
  }

  ghost predicate TimesOk(cfg: Settings, s: System, clock: Time) {
    forall j | j in s.jobs :: TimeInv(cfg, s.jobs[j], clock)
  }

  /** Once at its limit, a job cannot be retried by hand, so its start time stays. */
  lemma ClockedKeepsTime(cfg: Settings, a: Job, b: Job, clock: Time, now: Time)
    requires JobInv(a) && RowInv(b.row) && TimeInv(cfg, a, clock) && clock <= now && Clocked(a, b, now)
    ensures TimeInv(cfg, b, now)
  {
    PastLimitCounts(a.log, a.row.order.maxAttempts);
  }

  lemma RecoveryKeepsTime(cfg: Settings, job: Job, clock: Time, now: Time, locked1: bool, locked2: bool)
    requires JobInv(job) && TimeInv(cfg, job, clock) && clock <= now
    requires RecoversAtLimit(cfg, job.row, now, locked2)
    ensures TimeInv(cfg, After(job, ScanJob(job, now, cfg, locked1, locked2)), now)
  {
    var q := RequeuesAtLimit(job.log, job.row.order.maxAttempts);
    ScanAtLimit(cfg, job, now, locked1, locked2);
    assert (q + 1) * cfg.lockTimeout == q * cfg.lockTimeout + cfg.lockTimeout;
  }

  lemma ScanKeepsTime(cfg: Settings, job: Job, clock: Time, now: Time, locked1: bool, locked2: bool)
    requires JobInv(job) && TimeInv(cfg, job, clock) && clock <= now
    ensures TimeInv(cfg, After(job, ScanJob(job, now, cfg, locked1, locked2)), now)
  {
    if RecoversAtLimit(cfg, job.row, now, locked2) {
      RecoveryKeepsTime(cfg, job, clock, now, locked1, locked2);
    } else {
      ScanAtLimit(cfg, job, now, locked1, locked2);
      ScanSound(job, now, cfg, locked1, locked2);
      ClockedKeepsTime(cfg, job, After(job, ScanJob(job, now, cfg, locked1, locked2)), clock, now);
    }
  }

  lemma NewJobTime(cfg: Settings, order: Order, now: Time)
    ensures TimeInv(cfg, NewJob(order, now), now)
  {
    QuietEvent([], Event(JobCreated, Stay), order.maxAttempts);
    assert [] + [Event(JobCreated, Stay)] == NewJob(order, now).log;
  }

  lemma StepKeepsTimes(cfg: Settings, s: System, a: Action, clock: Time)
    requires Inv(s) && TimesOk(cfg, s, clock) && clock <= Later(a, clock)
    ensures TimesOk(cfg, Apply(cfg, s, a), Later(a, clock))
  {
    var t := Apply(cfg, s, a);
    StepKeepsInv(cfg, s, a);
    forall j | j in t.jobs ensures TimeInv(cfg, t.jobs[j], Later(a, clock)) {
      if j !in s.jobs {
        OnlyCreateAdds(cfg, s, a, j);
        NewJobTime(cfg, a.order, a.now);
      } else {
        JobKeepsTime(cfg, s, a, j, clock);
      }
    }
  }

  lemma JobKeepsTime(cfg: Settings, s: System, a: Action, j: JobId, clock: Time)
    requires j in s.jobs && JobInv(s.jobs[j]) && TimeInv(cfg, s.jobs[j], clock) && clock <= Later(a, clock)
    requires j in Apply(cfg, s, a).jobs ==> RowInv(Apply(cfg, s, a).jobs[j].row)
    ensures j in Apply(cfg, s, a).jobs && TimeInv(cfg, Apply(cfg, s, a).jobs[j], Later(a, clock))
  {
    if a.Scan? {
      OperatorIsApplied(cfg, s, a);
      ScanKeepsTime(cfg, s.jobs[j], clock, a.now, j in a.locked1, j in a.locked2);
    } else {
      OthersClocked(cfg, s, a, j, clock);
      ClockedKeepsTime(cfg, s.jobs[j], Apply(cfg, s, a).jobs[j], clock, Later(a, clock));
    }
  }

  lemma OnlyCreateAdds(cfg: Settings, s: System, a: Action, j: JobId)
    requires j !in s.jobs && j in Apply(cfg, s, a).jobs
    ensures a.Create? && Apply(cfg, s, a).jobs[j] == NewJob(a.order, a.now)
  {
  }

  /** Clock readings never go back along the run. */
  predicate Ordered(run: seq<Action>, clock: Time)
    decreases |run|
  {
    run == [] || (clock <= Later(run[0], clock) && Ordered(run[1..], Later(run[0], clock)))
  }

  function EndOf(run: seq<Action>, clock: Time): Time
    decreases |run|
  {
    if run == [] then clock else EndOf(run[1..], Later(run[0], clock))
  }

  lemma {:induction false} RunKeepsTimes(cfg: Settings, s: System, run: seq<Action>, clock: Time)
    requires Inv(s) && TimesOk(cfg, s, clock) && Ordered(run, clock)
    ensures TimesOk(cfg, Run(cfg, s, run), EndOf(run, clock))
    decreases |run|
  {
    if run != [] {
      StepKeepsTimes(cfg, s, run[0], clock);
      StepKeepsInv(cfg, s, run[0]);
      RunKeepsTimes(cfg, Apply(cfg, s, run[0]), run[1..], Later(run[0], clock));
    }
  }

  /** The times of every reachable state. */
  lemma ReachableTimes(cfg: Settings, run: seq<Action>, clock: Time)
    requires Ordered(run, clock)
    ensures TimesOk(cfg, Run(cfg, Initial, run), EndOf(run, clock))
  {
    ReachableInv(cfg, []);
    assert Run(cfg, Initial, []) == Initial;
    RunKeepsTimes(cfg, Initial, run, clock);
  }

  lemma ExtraFits(cfg: Settings, job: Job, clock: Time)
    requires cfg.lockTimeout >= 0 && job.row.attempts <= Budget(job) && TimeInv(cfg, job, clock)
    ensures var extra := job.row.attempts - job.row.order.maxAttempts;
            extra > 0 ==> extra * cfg.lockTimeout < cfg.jobTimeout
  {
    var extra := job.row.attempts - job.row.order.maxAttempts;
    var q := RequeuesAtLimit(job.log, job.row.order.maxAttempts);
    if extra > 0 {
      Times(extra, q, cfg.lockTimeout);
    }
  }

  lemma Times(a: int, b: int, l: int)
    requires a <= b && l >= 0
    ensures a * l <= b * l
  {
  }

  /**
   The bound in the settings alone. When clock readings never go back, the attempts beyond the limit, each
   taken for one lock timeout, fit into the job timeout: with 900 and 120 seconds, at most seven more.
   */
  lemma AttemptsWithinTimeouts(cfg: Settings, run: seq<Action>, clock: Time, j: JobId)
    requires cfg.lockTimeout >= 0 && Ordered(run, clock) && j in Run(cfg, Initial, run).jobs
    ensures var r := Run(cfg, Initial, run).jobs[j].row;
            var extra := r.attempts - r.order.maxAttempts;
            extra > 0 ==> extra * cfg.lockTimeout < cfg.jobTimeout
  {
    ReachableInv(cfg, run);
    ReachableTimes(cfg, run, clock);
    ExtraFits(cfg, Run(cfg, Initial, run).jobs[j], EndOf(run, clock));
  }
}
