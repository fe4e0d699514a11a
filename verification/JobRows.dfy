/**
 One generation job: its row, its event log, and every database transaction that
 touches them (services/generation_jobs.py and the session blocks of
 workers/generation.py), each as one atomic function from a job to an outcome.
 */
module JobRows {
  import opened Common

  type JobId = nat
  type WorkerId = nat
  type UserId = nat
  type Time = int

  // ----- the row ---------------------------------------------------------------

  datatype JobKind = Image | Video

  datatype Status = Pending | Running | Succeeded | Failed | Cancelled | TimedOut

  predicate Terminal(s: Status) {
    s in {Succeeded, Failed, Cancelled, TimedOut}
  }

  /** The table of permitted status changes. */
  predicate ValidTransition(from: Status, to: Status) {
    match from
    case Pending => to in {Running, Cancelled}
    case Running => to in {Pending, Succeeded, Failed, Cancelled, TimedOut}
    case Failed => to == Pending
    case TimedOut => to == Pending
    case Succeeded => false
    case Cancelled => false
  }

  /** The `content_json` of a creative plan; `body` stands for every other key. */
  datatype Content = Content(title: string, rationale: string, body: string)

  /** What creation fixes once and for all: the pinned plan revision and the input snapshot. */
  datatype Order = Order(productId: nat, planId: nat, planVersion: int, kind: JobKind,
                         title: string, content: Content, maxAttempts: int)

  /** A provider's result; `assets` is None when the entry is missing or no list. */
  datatype ResultDoc = ResultDoc(assets: Option<seq<string>>)

  predicate UsableResult(doc: ResultDoc) {
    doc.assets.Some? && 1 <= |doc.assets.value| <= 10
  }

  /** What `adapter.poll` can return; an empty or missing result is `Done(None)`. */
  datatype PollResult =
    | InProgress(progress: int)
    | Done(result: Option<ResultDoc>)
    | ProviderFailed(code: string, retryable: bool)

  datatype Row = Row(
    order: Order,
    status: Status,
    provider: Option<string>,
    external: Option<string>,
    attempts: int,
    progress: int,
    lockedAt: Option<Time>,
    lockedBy: Option<WorkerId>,
    heartbeatAt: Option<Time>,
    nextRunAt: Option<Time>,
    result: Option<ResultDoc>,
    errorCode: Option<string>,
    startedAt: Option<Time>,
    finishedAt: Option<Time>,
    cancelledAt: Option<Time>,
    cancelledBy: Option<UserId>,
    version: int)

  // ----- the event log ---------------------------------------------------------

  datatype EventKind =
    | JobCreated
    | JobClaimed(worker: WorkerId)
    | PollClaimed(worker: WorkerId)
    | Submitting(attempt: int)
    | Submitted(provider: string, externalId: string)
    | StillPolling(progress: int)
    | PollErrored(code: string)
    | RetryScheduled(code: string, attempts: int)
    | DeadLettered(code: string)
    | LockRecovered(kept: Option<string>)
    | TimeoutReached
    | CancelledByUser(user: UserId)
    | ManualRetry(user: UserId, resumed: bool)
    | AssetsSynced(count: nat, created: nat)
    | JobSucceeded(count: nat)

  /** The `from_status` and `to_status` a transition event carries. */
  datatype Move = Stay | Move(from: Status, to: Status)

  datatype Event = Event(kind: EventKind, move: Move)

  datatype Job = Job(row: Row, log: seq<Event>)

  function Count(log: seq<Event>, p: EventKind -> bool): (n: nat)
    ensures n <= |log|
  {
    if log == [] then 0
    else Count(log[..|log| - 1], p) + (if p(log[|log| - 1].kind) then 1 else 0)
  }

  predicate IsSubmitting(k: EventKind) { k.Submitting? }

  /** A lock recovery that put the job back in the queue: no external task was known. */
  predicate IsRequeue(k: EventKind) { k.LockRecovered? && k.kept.None? }

  predicate IsSync(k: EventKind) { k.AssetsSynced? }

  predicate IsManualRetry(k: EventKind) { k.ManualRetry? }

  predicate IsClaimBy(e: Event, w: WorkerId) {
    e.kind == JobClaimed(w) || e.kind == PollClaimed(w)
  }

  /** The status the log says the job has. */
  function Replay(log: seq<Event>): Status {
    if log == [] then Pending
    else match log[|log| - 1].move
         case Move(_, to) => to
         case Stay => Replay(log[..|log| - 1])
  }

  /** Every status change in the log leaves the status reached so far, along a permitted edge. */
  predicate LegalPath(log: seq<Event>) {
    log == [] ||
    (LegalPath(log[..|log| - 1]) &&
     match log[|log| - 1].move
     case Move(from, to) => from == Replay(log[..|log| - 1]) && ValidTransition(from, to)
     case Stay => true)
  }

  /** Lock recoveries that requeued the job when it had made `limit` attempts already. */
  function RequeuesAtLimit(log: seq<Event>, limit: int): nat {
    if log == [] then 0
    else
      var init := log[..|log| - 1];
      RequeuesAtLimit(init, limit) +
      (if IsRequeue(log[|log| - 1].kind) && Count(init, IsSubmitting) >= limit then 1 else 0)
  }

  predicate AtLimit(log: seq<Event>, limit: int) {
    RequeuesAtLimit(log, limit) > 0
  }

  /** And the job was submitted after that. */
  predicate PastLimit(log: seq<Event>, limit: int) {
    log != [] &&
    (PastLimit(log[..|log| - 1], limit) || (IsSubmitting(log[|log| - 1].kind) && AtLimit(log[..|log| - 1], limit)))
  }

  /** Event `k` is a recovery that requeued the job at the limit. */
  predicate RequeuedAtLimit(log: seq<Event>, limit: int, k: int) {
    0 <= k < |log| && IsRequeue(log[k].kind) && Count(log[..k], IsSubmitting) >= limit
  }

  /** And event `m` is a later submission. */
  predicate SubmittedPastLimit(log: seq<Event>, limit: int, k: int, m: int) {
    RequeuedAtLimit(log, limit, k) && k < m < |log| && IsSubmitting(log[m].kind)
  }

  /** Recoveries at the limit are the same in a log and in its longer versions. */
  lemma RequeuedInPrefix(log: seq<Event>, n: nat, limit: int)
    requires n <= |log|
    ensures forall k | k < n :: RequeuedAtLimit(log[..n], limit, k) <==> RequeuedAtLimit(log, limit, k)
  {
    forall k | 0 <= k < n ensures RequeuedAtLimit(log[..n], limit, k) <==> RequeuedAtLimit(log, limit, k) {
      assert log[..n][..k] == log[..k];
    }
  }

  lemma {:induction false} AtLimitMeans(log: seq<Event>, limit: int)
    ensures AtLimit(log, limit) <==> exists k :: RequeuedAtLimit(log, limit, k)
  {
    if log != [] {
      var n := |log| - 1;
      AtLimitMeans(log[..n], limit);
      RequeuedInPrefix(log, n, limit);
      if k :| RequeuedAtLimit(log[..n], limit, k) {
        assert RequeuedAtLimit(log, limit, k);
      }
      assert RequeuedAtLimit(log, limit, n) <==> IsRequeue(log[n].kind) && Count(log[..n], IsSubmitting) >= limit;
    }
  }

  lemma SubmittedInPrefix(log: seq<Event>, n: nat, limit: int)
    requires n <= |log|
    ensures forall k, m | m < n :: SubmittedPastLimit(log[..n], limit, k, m) <==> SubmittedPastLimit(log, limit, k, m)
  {
    RequeuedInPrefix(log, n, limit);
  }

  lemma {:induction false} PastLimitMeans(log: seq<Event>, limit: int)
    ensures PastLimit(log, limit) <==> exists k, m :: SubmittedPastLimit(log, limit, k, m)
  {
    if log != [] {
      var n := |log| - 1;
      PastLimitMeans(log[..n], limit);
      AtLimitMeans(log[..n], limit);
      RequeuedInPrefix(log, n, limit);
      SubmittedInPrefix(log, n, limit);
      if k, m :| SubmittedPastLimit(log[..n], limit, k, m) {
        assert SubmittedPastLimit(log, limit, k, m);
      }
      if k :| RequeuedAtLimit(log[..n], limit, k) {
        assert IsSubmitting(log[n].kind) ==> SubmittedPastLimit(log, limit, k, n);
      }
      if k, m :| SubmittedPastLimit(log, limit, k, m) {
        assert m == n ==> RequeuedAtLimit(log[..n], limit, k);
      }
    }
  }

  /** A submission past the limit makes more submissions than the limit. */
  lemma {:induction false} PastLimitCounts(log: seq<Event>, limit: int)
    ensures AtLimit(log, limit) ==> Count(log, IsSubmitting) >= limit
    ensures PastLimit(log, limit) ==> Count(log, IsSubmitting) > limit
  {
    if log != [] {
      PastLimitCounts(log[..|log| - 1], limit);
    }
  }

  /** They are among all lock recoveries that requeued the job. */
  lemma {:induction false} AtLimitIsRequeue(log: seq<Event>, limit: int)
    ensures RequeuesAtLimit(log, limit) <= Count(log, IsRequeue)
  {
    if log != [] {
      AtLimitIsRequeue(log[..|log| - 1], limit);
    }
  }

  lemma CountAppend(log: seq<Event>, e: Event, p: EventKind -> bool)
    ensures Count(log + [e], p) == Count(log, p) + (if p(e.kind) then 1 else 0)
  {
    AppendedLast(log, e);
  }

  /** Everything the invariants read off a log, after one more event. */
  lemma LogAppend(log: seq<Event>, e: Event)
    ensures Count(log + [e], IsSubmitting) == Count(log, IsSubmitting) + (if e.kind.Submitting? then 1 else 0)
    ensures Count(log + [e], IsRequeue) == Count(log, IsRequeue) + (if IsRequeue(e.kind) then 1 else 0)
    ensures Count(log + [e], IsSync) == Count(log, IsSync) + (if e.kind.AssetsSynced? then 1 else 0)
    ensures Count(log + [e], IsManualRetry) == Count(log, IsManualRetry) + (if e.kind.ManualRetry? then 1 else 0)
    ensures forall n :: RequeuesAtLimit(log + [e], n)
                     == RequeuesAtLimit(log, n) + (if IsRequeue(e.kind) && Count(log, IsSubmitting) >= n then 1 else 0)
    ensures forall n :: PastLimit(log + [e], n) <==> PastLimit(log, n) || (e.kind.Submitting? && AtLimit(log, n))
    ensures Replay(log + [e]) == (if e.move.Move? then e.move.to else Replay(log))
    ensures LegalPath(log + [e]) <==>
            LegalPath(log) && (e.move.Move? ==> e.move.from == Replay(log) && ValidTransition(e.move.from, e.move.to))
  {
    AppendedLast(log, e);
    CountAppend(log, e, IsSubmitting);
    CountAppend(log, e, IsRequeue);
    CountAppend(log, e, IsSync);
    CountAppend(log, e, IsManualRetry);
  }

  // ----- errors and outcomes ---------------------------------------------------

  datatype JobError =
    | InvalidTransition(from: Status, to: Status)
    | VersionConflict(current: int)
    | NotCancellable
    | NotRetryable
    | RetryLimitReached

  /** How one transaction ends: committed, left without writing, or rolled back by an exception. */
  datatype Outcome = Commit(job: Job) | Skip | Raise(error: JobError)

  datatype Settings = Settings(jobTimeout: int, lockTimeout: int, pollInterval: int)

  // ----- shared steps ----------------------------------------------------------

  /** A change that is no status change: one version, one event. */
  function Touch(job: Job, row: Row, kind: EventKind): Job {
    Job(row.(version := row.version + 1), job.log + [Event(kind, Stay)])
  }

  function Transition(job: Job, to: Status, kind: EventKind, now: Time): Outcome {
    var r := job.row;
    if !ValidTransition(r.status, to) then Raise(InvalidTransition(r.status, to))
    else Commit(Job(
                  r.(status := to,
                  version := r.version + 1,
                  startedAt := if to == Running && r.startedAt.None? then Some(now) else r.startedAt,
                  finishedAt := if Terminal(to) then Some(now) else r.finishedAt,
                  progress := if to == Succeeded then 100 else r.progress),
                  job.log + [Event(kind, Move(r.status, to))]))
  }

  function Unlocked(r: Row, now: Time): Row {
    r.(lockedAt := None, lockedBy := None, heartbeatAt := Some(now))
  }

  function Pow2(n: nat): nat {
    if n == 0 then 1 else 2 * Pow2(n - 1)
  }

  /** Seconds before the next automatic attempt: 2^attempts, at most one minute. */
  function Backoff(attempts: int): int {
    if attempts < 0 then 1 else Min(Pow2(attempts), 60)
  }

  // ----- transactions ----------------------------------------------------------

  function NewJob(order: Order, now: Time): Job {
    Job(Row(order, Pending, None, None, 0, 0, None, None, None, Some(now), None, None, None, None, None, None, 1),
        [Event(JobCreated, Stay)])
  }

  /** First half of the scan: a running job that started at or before the cutoff times out. */
  predicate PastTimeout(r: Row, now: Time, cfg: Settings) {
    r.status == Running && r.startedAt.Some? && r.startedAt.value <= now - cfg.jobTimeout
  }

  /** Second half of the scan: the WHERE clause of the stale-lock query. */
  predicate StaleLock(r: Row, now: Time, cfg: Settings) {
    && r.status == Running
    && r.lockedAt.Some? && r.lockedAt.value <= now - cfg.lockTimeout
    && (r.startedAt.None? || r.startedAt.value > now - cfg.jobTimeout)
  }

  function TimeOut(job: Job, now: Time): Outcome {
    match Transition(job, TimedOut, TimeoutReached, now)
    case Commit(j) =>
      Commit(j.(row := Unlocked(j.row, now).(errorCode := Some("GENERATION_JOB_TIMEOUT"), nextRunAt := None)))
    case o => o
  }

  function RecoverLock(job: Job, now: Time): Outcome {
    if job.row.external.None? then
      match Transition(job, Pending, LockRecovered(None), now)
      case Commit(j) => Commit(j.(row := Unlocked(j.row, now).(nextRunAt := Some(now))))
      case o => o
    else
      Commit(Touch(job, Unlocked(job.row, now).(nextRunAt := Some(now)), LockRecovered(job.row.external)))
  }

  /** What one scan does to one job; `locked1` and `locked2` say which select skipped the row. */
  function ScanJob(job: Job, now: Time, cfg: Settings, locked1: bool, locked2: bool): Outcome {
    if !locked1 && PastTimeout(job.row, now, cfg) then TimeOut(job, now)
    else if !locked2 && StaleLock(job.row, now, cfg) then RecoverLock(job, now)
    else Skip
  }

  predicate Claimable(r: Row, now: Time, cfg: Settings) {
    && (r.status == Pending || (r.status == Running && r.external.Some?))
    && (r.nextRunAt.None? || r.nextRunAt.value <= now)
    && (r.lockedAt.None? || r.lockedAt.value <= now - cfg.lockTimeout)
  }

  function ClaimJob(job: Job, w: WorkerId, now: Time): Outcome {
    var r := job.row.(lockedBy := Some(w), lockedAt := Some(now), heartbeatAt := Some(now));
    if r.status == Pending then
      match Transition(job.(row := r), Running, JobClaimed(w), now)
      case Commit(j) => Commit(j.(row := j.row.(progress := Max(j.row.progress, 5))))
      case o => o
    else
      Commit(Touch(job, r, PollClaimed(w)))
  }

  predicate HeldBy(r: Row, w: WorkerId) {
    r.status == Running && r.lockedBy == Some(w)
  }

  /** First block of processing: counts the attempt when no external task is known. */
  function BeginProcessing(job: Job, w: WorkerId, now: Time): Outcome {
    if !HeldBy(job.row, w) || job.row.external.Some? then Skip
    else
      var r := job.row.(attempts := job.row.attempts + 1, heartbeatAt := Some(now));
      Commit(Touch(job, r, Submitting(r.attempts)))
  }

  function HandleSubmissionError(job: Job, code: string, retryable: bool, now: Time): Outcome {
    var dirty := job.(row := Unlocked(job.row, now).(errorCode := Some(code)));
    if retryable && job.row.attempts < job.row.order.maxAttempts then
      match Transition(dirty, Pending, RetryScheduled(code, job.row.attempts), now)
      case Commit(j) =>
        Commit(j.(row := j.row.(external := None, nextRunAt := Some(now + Backoff(job.row.attempts)))))
      case o => o
    else
      match Transition(dirty, Failed, DeadLettered(code), now)
      case Commit(j) => Commit(j.(row := j.row.(nextRunAt := None)))
      case o => o
  }

  function HandlePollError(job: Job, code: string, retryable: bool, now: Time, cfg: Settings): Outcome {
    var r := Unlocked(job.row, now).(errorCode := Some(code));
    if retryable then
      Commit(Touch(job, r.(nextRunAt := Some(now + cfg.pollInterval)), PollErrored(code)))
    else
      match Transition(job.(row := r), Failed, DeadLettered(code), now)
      case Commit(j) => Commit(j.(row := j.row.(nextRunAt := None)))
      case o => o
  }

  /** `adapter.submit` raised: only the status is checked, not the lock. */
  function SubmissionFailed(job: Job, code: string, retryable: bool, now: Time): Outcome {
    if job.row.status == Running then HandleSubmissionError(job, code, retryable, now) else Skip
  }

  /** `adapter.submit` returned: again only the status is checked. */
  function SubmissionAccepted(job: Job, externalId: string, provider: string, now: Time, cfg: Settings): Outcome {
    if job.row.status != Running then Skip
    else
      Commit(Touch(job,
                   Unlocked(job.row, now).(
                   external := Some(externalId),
                   provider := Some(provider),
                   progress := Max(job.row.progress, 15),
                   nextRunAt := Some(if provider == "mock" then now else now + cfg.pollInterval),
                   errorCode := None),
                   Submitted(provider, externalId)))
  }

  /** `adapter.poll` raised: only the status is checked. */
  function PollFailed(job: Job, code: string, retryable: bool, now: Time, cfg: Settings): Outcome {
    if job.row.status == Running then HandlePollError(job, code, retryable, now, cfg) else Skip
  }

  /** Downloading the result failed: status and lock are checked. */
  function StorageFailed(job: Job, w: WorkerId, code: string, retryable: bool, now: Time, cfg: Settings): Outcome {
    if HeldBy(job.row, w) then HandlePollError(job, code, retryable, now, cfg) else Skip
  }

  function ReleaseForPoll(job: Job, progress: int, now: Time, cfg: Settings): Job {
    var p := Max(job.row.progress, Min(progress, 99));
    Touch(job, Unlocked(job.row, now).(progress := p, nextRunAt := Some(now + cfg.pollInterval)), StillPolling(p))
  }

  function Succeed(job: Job, doc: ResultDoc, count: nat, created: nat, now: Time): Outcome
    requires UsableResult(doc)
  {
    var synced := job.(log := job.log + [Event(AssetsSynced(count, created), Stay)]);
    match Transition(synced, Succeeded, JobSucceeded(|doc.assets.value|), now)
    case Commit(j) =>
      Commit(j.(row := Unlocked(j.row, now).(result := Some(doc), errorCode := None, nextRunAt := None)))
    case o => o
  }

  /** Last block of processing; `count` and `created` describe the asset rows written beside it. */
  function FinishPoll(job: Job, w: WorkerId, poll: PollResult, count: nat, created: nat, now: Time, cfg: Settings)
    : Outcome
    requires poll.Done? && poll.result.Some? ==> UsableResult(poll.result.value)
  {
    if !HeldBy(job.row, w) then Skip
    else match poll
         case InProgress(p) => Commit(ReleaseForPoll(job, p, now, cfg))
         case Done(None) => HandlePollError(job, "MEDIA_RESULT_INVALID", false, now, cfg)
         case Done(Some(doc)) => Succeed(job, doc, count, created, now)
         case ProviderFailed(code, retryable) => HandleSubmissionError(job, code, retryable, now)
  }

  /** The exception handler of `run_once`: only the status is checked. */
  function Unexpected(job: Job, now: Time, cfg: Settings): Outcome {
    if job.row.status != Running then Skip
    else if job.row.external.None? then HandleSubmissionError(job, "WORKER_UNEXPECTED_ERROR", true, now)
    else HandlePollError(job, "WORKER_UNEXPECTED_ERROR", true, now, cfg)
  }

  function CancelJob(job: Job, expected: int, user: UserId, now: Time): Outcome {
    if job.row.version != expected then Raise(VersionConflict(job.row.version))
    else if job.row.status !in {Pending, Running} then Raise(NotCancellable)
    else match Transition(job, Cancelled, CancelledByUser(user), now)
         case Commit(j) =>
           Commit(j.(row := Unlocked(j.row, now).(cancelledAt := Some(now), cancelledBy := Some(user),
           nextRunAt := None, errorCode := None)))
         case o => o
  }

  function RetryJob(job: Job, expected: int, user: UserId, now: Time): Outcome {
    if job.row.version != expected then Raise(VersionConflict(job.row.version))
    else if job.row.status !in {Failed, TimedOut} then Raise(NotRetryable)
    else if job.row.attempts >= job.row.order.maxAttempts then Raise(RetryLimitReached)
    else
      var resume := job.row.status == TimedOut && job.row.external.Some?;
      match Transition(job, Pending, ManualRetry(user, resume), now)
      case Commit(j) =>
        Commit(j.(row := Unlocked(j.row, now).(
        progress := if resume then 15 else 0,
        nextRunAt := Some(now),
        result := None, errorCode := None,
        startedAt := None, finishedAt := None, cancelledAt := None, cancelledBy := None,
        external := if resume then j.row.external else None,
        provider := if resume then j.row.provider else None)))
      case o => o
  }

  /** A manual re-sync that created asset rows records an event and leaves the row alone. */
  function SyncEvent(job: Job, created: nat): Job {
    if created == 0 then job
    else job.(log := job.log + [Event(AssetsSynced(created, created), Stay)])
  }
}
