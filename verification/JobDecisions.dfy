/**
 What each transaction of the queue decides, told by what can happen to the job next: who may claim it and
 from when on, and what the next worker that takes it does with the provider.
 */
module JobDecisions {
  import opened Common
  import opened JobRows
  import opened JobInvariants
  import opened Assets
  import opened JobProtocol
  import opened JobTheorems
  import opened JobClock

  /** Any worker may claim the row from `t` on, and not before. */
  ghost predicate DueFrom(r: Row, cfg: Settings, t: Time) {
    forall now: Time :: Claimable(r, now, cfg) <==> t <= now
  }

  ghost predicate NeverDue(r: Row, cfg: Settings) {
    forall now: Time :: !Claimable(r, now, cfg)
  }

  // ----- the next worker ------------------------------------------------------------

  /** A worker that claims the job and is left alone with it until it begins. */
  predicate Undisturbed(s: System, s': System, w: WorkerId, j: JobId) {
    j in s.jobs && j in s'.jobs && s'.jobs[j].row == s.jobs[j].row && PcOf(s', w) == PcOf(s, w)
  }

  /** It polls the task that is recorded, or else submits the job and counts an attempt. */
  ghost predicate Takes(cfg: Settings, r: Row, s: System, w: WorkerId, j: JobId) {
    && !PcOf(s, w).Idle? && PcOf(s, w).job == j && j in s.jobs
    && (forall e: string :: PcOf(s, w).Polling? && PcOf(s, w).externalId == e <==> r.external == Some(e))
    && (PcOf(s, w).Submitting? <==> r.external.None?)
    && s.jobs[j].row.attempts == r.attempts + (if r.external.None? then 1 else 0)
    && s.jobs[j].row.external == r.external
  }

  lemma NextWorker(cfg: Settings, s: System, w: WorkerId, j: JobId, now: Time, s': System, later: Time)
    requires PcOf(s, w).Idle? && j in s.jobs && Claimable(s.jobs[j].row, now, cfg)
    requires Undisturbed(Apply(cfg, s, Claim(w, j, now)), s', w, j)
    ensures Takes(cfg, s.jobs[j].row, Apply(cfg, s', Begin(w, later)), w, j)
  {
    WorkerIsApplied(cfg, s, Claim(w, j, now));
    WorkerIsApplied(cfg, s', Begin(w, later));
    BeginAt(s', w, later, j);
    ClaimedIs(cfg, s, w, j, now);
    BegunIs(s', w, later);
  }

  lemma ClaimedIs(cfg: Settings, s: System, w: WorkerId, j: JobId, now: Time)
    requires PcOf(s, w).Idle? && j in s.jobs && Claimable(s.jobs[j].row, now, cfg)
    ensures var t := ApplyClaim(cfg, s, w, j, now);
            && PcOf(t, w).Claimed? && PcOf(t, w).job == j && j in t.jobs
            && HeldBy(t.jobs[j].row, w) && t.jobs[j].row.external == s.jobs[j].row.external
            && t.jobs[j].row.attempts == s.jobs[j].row.attempts
  {
  }

  lemma BegunIs(s: System, w: WorkerId, now: Time)
    requires PcOf(s, w).Claimed? && PcOf(s, w).job in s.jobs && HeldBy(s.jobs[PcOf(s, w).job].row, w)
    ensures var j := PcOf(s, w).job;
            var r := s.jobs[j].row;
            var t := ApplyBegin(s, w, now);
            && PcOf(t, w).job == j && j in t.jobs
            && (r.external.Some? ==> PcOf(t, w).Polling? && PcOf(t, w).externalId == r.external.value)
            && (r.external.None? ==> PcOf(t, w).Submitting?)
            && t.jobs[j].row.attempts == r.attempts + (if r.external.None? then 1 else 0)
            && t.jobs[j].row.external == r.external
  {
  }

  // ----- manual retry ---------------------------------------------------------------

  predicate MayRetry(r: Row, expected: int) {
    r.version == expected && r.status in {Failed, TimedOut} && r.attempts < r.order.maxAttempts
  }

  /** Accepted exactly for a failed or timed-out job with attempts left; then it is due at once, and clean. */
  lemma RetryDecides(cfg: Settings, s: System, j: JobId, expected: int, user: UserId, now: Time)
    requires JobsOk(s) && j in s.jobs
    ensures var a := s.jobs[j].row;
            var t := Apply(cfg, s, Retry(j, expected, user, now));
            && (!MayRetry(a, expected) ==> t == s)
            && (MayRetry(a, expected) ==>
                 && j in t.jobs && t == s.(jobs := s.jobs[j := t.jobs[j]])
                 && var b := t.jobs[j].row;
                 && b.version == a.version + 1 && b.status == Pending && DueFrom(b, cfg, now)
                 && b.attempts == a.attempts && b.order == a.order
                 && b.external == (if a.status == TimedOut then a.external else None)
                 && b.provider == (if a.status == TimedOut && a.external.Some? then a.provider else None)
                 && b.errorCode == None && b.result == None && b.startedAt == None && b.finishedAt == None
                 && b.lockedBy == None)
  {
    OperatorIsApplied(cfg, s, Retry(j, expected, user, now));
    if MayRetry(s.jobs[j].row, expected) {
      RetriedIs(cfg, s.jobs[j], user, now);
    }
  }

  lemma RetriedIs(cfg: Settings, job: Job, user: UserId, now: Time)
    requires JobInv(job) && MayRetry(job.row, job.row.version)
    ensures var o := RetryJob(job, job.row.version, user, now);
            o.Commit? && DueFrom(o.job.row, cfg, now)
  {
  }

  /**
   Whatever happens elsewhere, the worker that takes the job next, if nobody writes it before, polls the old
   task exactly when the job had timed out while its task was known. After a failure it submits anew.
   */
  lemma RetryResumes(cfg: Settings, run: seq<Action>, j: JobId, user: UserId, now: Time, between: seq<Action>,
                     w: WorkerId, claim: Time, meanwhile: seq<Action>, begin: Time)
    requires var s := Run(cfg, Initial, run); j in s.jobs && MayRetry(s.jobs[j].row, s.jobs[j].row.version)
    requires var s := Run(cfg, Initial, run);
             var t := Apply(cfg, s, Retry(j, s.jobs[j].row.version, user, now));
             var u := Run(cfg, t, between);
             && j in u.jobs && u.jobs[j].row.version == s.jobs[j].row.version + 1
             && PcOf(u, w).Idle? && now <= claim
             && var v := Apply(cfg, u, Claim(w, j, claim));
                var x := Run(cfg, v, meanwhile);
                && j in x.jobs && x.jobs[j].row.version == u.jobs[j].row.version + 1
                && PcOf(x, w) == PcOf(v, w)
    ensures var s := Run(cfg, Initial, run);
            var u := Run(cfg, Apply(cfg, s, Retry(j, s.jobs[j].row.version, user, now)), between);
            var x := Run(cfg, Apply(cfg, u, Claim(w, j, claim)), meanwhile);
            var y := Apply(cfg, x, Begin(w, begin));
            var r := s.jobs[j].row;
            var pc := PcOf(y, w);
            && !pc.Idle? && pc.job == j && j in y.jobs
            && (forall e: string :: pc.Polling? && pc.externalId == e <==>
                  r.status == TimedOut && r.external == Some(e))
            && (pc.Submitting? <==> r.status == Failed || r.external.None?)
            && (pc.Submitting? ==> y.jobs[j].row.attempts == r.attempts + 1 && y.jobs[j].row.external == None)
            && (pc.Polling? ==> y.jobs[j].row.attempts == r.attempts)
  {
    var s := Run(cfg, Initial, run);
    var retry := Retry(j, s.jobs[j].row.version, user, now);
    ReachableInv(cfg, run);
    RetryDecides(cfg, s, j, s.jobs[j].row.version, user, now);
    StepKeepsInv(cfg, s, retry);
    var t := Apply(cfg, s, retry);
    VersionsIdentifyRows(cfg, t, between, j);
    RunKeepsInv(cfg, t, between);
    var u := Run(cfg, t, between);
    TakenNext(cfg, u, w, j, claim, meanwhile, begin);
  }

  /** The same over a run: nothing else has written the job if its version has not moved. */
  lemma TakenNext(cfg: Settings, u: System, w: WorkerId, j: JobId, claim: Time, meanwhile: seq<Action>, begin: Time)
    requires Inv(u) && j in u.jobs && PcOf(u, w).Idle? && Claimable(u.jobs[j].row, claim, cfg)
    requires var v := Apply(cfg, u, Claim(w, j, claim));
             var x := Run(cfg, v, meanwhile);
             j in x.jobs && x.jobs[j].row.version == u.jobs[j].row.version + 1 && PcOf(x, w) == PcOf(v, w)
    ensures var x := Run(cfg, Apply(cfg, u, Claim(w, j, claim)), meanwhile);
            Takes(cfg, u.jobs[j].row, Apply(cfg, x, Begin(w, begin)), w, j)
  {
    var v := Apply(cfg, u, Claim(w, j, claim));
    WorkerIsApplied(cfg, u, Claim(w, j, claim));
    StepKeepsInv(cfg, u, Claim(w, j, claim));
    ClaimAdvances(cfg, u, w, j, claim);
    VersionsIdentifyRows(cfg, v, meanwhile, j);
    NextWorker(cfg, u, w, j, claim, Run(cfg, v, meanwhile), begin);
  }

  lemma ClaimAdvances(cfg: Settings, s: System, w: WorkerId, j: JobId, now: Time)
    requires PcOf(s, w).Idle? && j in s.jobs && Claimable(s.jobs[j].row, now, cfg)
    ensures var t := ApplyClaim(cfg, s, w, j, now);
            j in t.jobs && t.jobs[j].row.version == s.jobs[j].row.version + 1
  {
  }

  // ----- what comes back from the provider --------------------------------------------

  /**
   A submission error: another attempt, after a minute at most and twice as long each time, or the end.
   The task, if there was one, is forgotten only in the first case.
   */
  ghost predicate AfterSubmissionError(cfg: Settings, a: Row, b: Row, code: string, retryable: bool, now: Time) {
    && b.errorCode == Some(code) && b.attempts == a.attempts >= 0
    && (if retryable && a.attempts < a.order.maxAttempts then
          b.status == Pending && b.external == None && DueFrom(b, cfg, now + Min(60, Pow2(a.attempts)))
        else
          b.status == Failed && b.external == a.external && NeverDue(b, cfg))
  }

  /** A polling error: the same task is polled again after the interval, or the job ends. */
  ghost predicate AfterPollError(cfg: Settings, a: Row, b: Row, code: string, retryable: bool, now: Time) {
    && b.errorCode == Some(code) && b.attempts == a.attempts && b.external == a.external && b.lockedBy == None
    && (if !retryable then b.status == Failed && NeverDue(b, cfg)
        else if a.external.None? then b.status == Running && NeverDue(b, cfg)
        else b.status == Running && DueFrom(b, cfg, now + cfg.pollInterval))
  }

  lemma SubmissionErrorDecides(cfg: Settings, job: Job, code: string, retryable: bool, now: Time)
    requires JobInv(job) && job.row.status == Running
    ensures var o := HandleSubmissionError(job, code, retryable, now);
            o.Commit? && AfterSubmissionError(cfg, job.row, o.job.row, code, retryable, now)
  {
  }

  lemma PollErrorDecides(cfg: Settings, job: Job, code: string, retryable: bool, now: Time)
    requires JobInv(job) && job.row.status == Running
    ensures var o := HandlePollError(job, code, retryable, now, cfg);
            o.Commit? && AfterPollError(cfg, job.row, o.job.row, code, retryable, now)
  {
  }

  /** The task the provider returned is polled, by whoever takes the job next, and the error is forgotten. */
  ghost predicate AfterSubmission(cfg: Settings, a: Row, b: Row, id: string, provider: string, now: Time) {
    && b.status == Running && b.external == Some(id) && b.provider == Some(provider) && b.errorCode == None
    && b.attempts == a.attempts && b.lockedBy == None
    && DueFrom(b, cfg, if provider == "mock" then now else now + cfg.pollInterval)
  }

  /** What each answer makes of a running row; most of them do not look at the lock. */
  ghost predicate Decided(cfg: Settings, a: Row, b: Row, answer: Action)
    requires IsAnswer(answer)
  {
    match answer
    case SubmitFails(w, code, retryable, now) => AfterSubmissionError(cfg, a, b, code, retryable, now)
    case SubmitReturns(w, id, provider, now) => AfterSubmission(cfg, a, b, id, provider, now)
    case PollFails(w, code, retryable, now) => AfterPollError(cfg, a, b, code, retryable, now)
    case StorageFails(w, code, retryable, now) =>
      if HeldBy(a, w) then AfterPollError(cfg, a, b, code, retryable, now) else b == a
    case HandleUnexpected(w, now) =>
      if a.external.None? then AfterSubmissionError(cfg, a, b, "WORKER_UNEXPECTED_ERROR", true, now)
      else AfterPollError(cfg, a, b, "WORKER_UNEXPECTED_ERROR", true, now)
  }

  lemma AnswerDecides(cfg: Settings, s: System, a: Action)
    requires Inv(s) && IsAnswer(a) && Awaits(PcOf(s, a.w), a)
    ensures var t := Apply(cfg, s, a);
            var j := PcOf(s, a.w).job;
            && PcOf(t, a.w).Idle? && j in s.jobs && j in t.jobs
            && t.jobs == s.jobs[j := t.jobs[j]] && t.assets == s.assets
            && (if s.jobs[j].row.status == Running then Decided(cfg, s.jobs[j].row, t.jobs[j].row, a)
                else t.jobs[j] == s.jobs[j])
  {
    var j := PcOf(s, a.w).job;
    AnswerIsApplied(cfg, s, a);
    assert WorkerOk(s.jobs, a.w, PcOf(s, a.w));
    AnswerAt(cfg, s, a, j);
    OneAnswerDecides(cfg, s.jobs[j], a);
  }

  lemma OneAnswerDecides(cfg: Settings, job: Job, a: Action)
    requires JobInv(job) && IsAnswer(a)
    ensures var b := After(job, Answer(cfg, job, a));
            if job.row.status == Running then Decided(cfg, job.row, b.row, a) else b == job
  {
    if job.row.status == Running {
      match a
      case SubmitFails(w, code, retryable, now) => SubmissionErrorDecides(cfg, job, code, retryable, now);
      case SubmitReturns(w, id, provider, now) =>
      case PollFails(w, code, retryable, now) => PollErrorDecides(cfg, job, code, retryable, now);
      case StorageFails(w, code, retryable, now) => PollErrorDecides(cfg, job, code, retryable, now);
      case HandleUnexpected(w, now) =>
        SubmissionErrorDecides(cfg, job, "WORKER_UNEXPECTED_ERROR", true, now);
        PollErrorDecides(cfg, job, "WORKER_UNEXPECTED_ERROR", true, now);
    }
  }

  // ----- the last block ---------------------------------------------------------------

  /** The provider is still at it: poll again after the interval; progress stops short of 100. */
  ghost predicate AfterProgress(cfg: Settings, a: Row, b: Row, progress: int, now: Time) {
    && b.status == Running && b.external == a.external && b.attempts == a.attempts && b.errorCode == a.errorCode
    && b.lockedBy == None && b.progress >= a.progress && (progress >= a.progress ==> b.progress == Min(progress, 99))
    && (progress < a.progress ==> b.progress == a.progress)
    && DueFrom(b, cfg, now + cfg.pollInterval)
  }

  /** What the answer to a poll makes of the row its worker still holds. */
  ghost predicate Polled(cfg: Settings, a: Row, b: Row, poll: PollResult, now: Time) {
    match poll
    case InProgress(p) => AfterProgress(cfg, a, b, p, now)
    case Done(None) => AfterPollError(cfg, a, b, "MEDIA_RESULT_INVALID", false, now)
    case Done(Some(doc)) => b.status == Succeeded && b.result == Some(doc) && b.errorCode == None && NeverDue(b, cfg)
    case ProviderFailed(code, retryable) => AfterSubmissionError(cfg, a, b, code, retryable, now)
  }

  /** The block leaves a row alone that it does not hold, and everything when the assets are refused. */
  lemma FinishDecides(cfg: Settings, s: System, w: WorkerId, planOk: bool, now: Time)
    requires Inv(s) && PcOf(s, w).Prepared?
    ensures var t := Apply(cfg, s, Finish(w, planOk, now));
            var pc := PcOf(s, w);
            && pc.job in s.jobs && pc.job in t.jobs && t.jobs == s.jobs[pc.job := t.jobs[pc.job]]
            && var a, b := s.jobs[pc.job].row, t.jobs[pc.job].row;
            var refused := pc.poll.Done? && pc.poll.result.Some? &&
                           Persist(s.assets, pc.job, a.order, pc.files, planOk, now).Err?;
            if !HeldBy(a, w) then t == Goto(s, w, Idle)
            else if refused then t == s
            else PcOf(t, w).Idle? && Polled(cfg, a, b, pc.poll, now)
  {
    var pc := PcOf(s, w);
    WorkerIsApplied(cfg, s, Finish(w, planOk, now));
    assert WorkerOk(s.jobs, w, pc);
    if HeldBy(s.jobs[pc.job].row, w) {
      FinishPollDecides(cfg, s.jobs[pc.job], w, pc.poll, 0, 0, now);
      if pc.poll.Done? && pc.poll.result.Some? {
        var r := Persist(s.assets, pc.job, s.jobs[pc.job].row.order, pc.files, planOk, now);
        if r.Ok? {
          FinishPollDecides(cfg, s.jobs[pc.job], w, pc.poll, |pc.files|, Created(s.assets, r.value), now);
        }
      }
    }
  }

  lemma FinishPollDecides(cfg: Settings, job: Job, w: WorkerId, poll: PollResult, count: nat, created: nat, now: Time)
    requires JobInv(job) && HeldBy(job.row, w) && job.row.external.Some?
    requires poll.Done? && poll.result.Some? ==> UsableResult(poll.result.value)
    ensures var o := FinishPoll(job, w, poll, count, created, now, cfg);
            o.Commit? && Polled(cfg, job.row, o.job.row, poll, now)
  {
    match poll
    case InProgress(p) =>
    case Done(None) => PollErrorDecides(cfg, job, "MEDIA_RESULT_INVALID", false, now);
    case Done(Some(doc)) =>
    case ProviderFailed(code, retryable) => SubmissionErrorDecides(cfg, job, code, retryable, now);
  }

  /** A poll's answer reaches the row, if nobody writes it before the worker finishes. */
  lemma PollReachesTheRow(cfg: Settings, s: System, w: WorkerId, poll: PollResult, files: seq<PreparedAsset>,
                          s': System, planOk: bool, now: Time)
    requires PcOf(s, w).Polling? && Prepares(poll, files) && PcOf(s, w).job in s.jobs
    requires HeldBy(s.jobs[PcOf(s, w).job].row, w)
    requires Inv(s') && Undisturbed(Apply(cfg, s, PollReturns(w, poll, files)), s', w, PcOf(s, w).job)
    ensures var j := PcOf(s, w).job;
            var t := Apply(cfg, s', Finish(w, planOk, now));
            var refused := poll.Done? && poll.result.Some? &&
                           Persist(s'.assets, j, s.jobs[j].row.order, files, planOk, now).Err?;
            && j in t.jobs
            && (if refused then t == s' else PcOf(t, w).Idle? && Polled(cfg, s.jobs[j].row, t.jobs[j].row, poll, now))
  {
    FinishDecides(cfg, s', w, planOk, now);
  }

  // ----- scans, claims, cancels, creations ----------------------------------------------

  predicate Overdue(r: Row, cfg: Settings, now: Time) {
    r.status == Running && r.startedAt.Some? && now - r.startedAt.value >= cfg.jobTimeout
  }

  /**
   A scan ends what has run for the job timeout. It hands back, due at once, what was locked for the lock
   timeout: to be polled when its task is known, to be submitted otherwise.
   */
  lemma ScanDecides(cfg: Settings, s: System, now: Time, locked1: set<JobId>, locked2: set<JobId>, j: JobId)
    requires JobsOk(s) && j in s.jobs
    ensures var t := Apply(cfg, s, Scan(now, locked1, locked2));
            && j in t.jobs && t.workers == s.workers && t.assets == s.assets
            && var a, b := s.jobs[j].row, t.jobs[j].row;
            if Overdue(a, cfg, now) then
              if j in locked1 then b == a
              else
                && b.status == TimedOut && NeverDue(b, cfg)
                && b.errorCode == Some("GENERATION_JOB_TIMEOUT") && b.external == a.external && b.attempts == a.attempts
            else if a.lockedAt.Some? && now - a.lockedAt.value >= cfg.lockTimeout && j !in locked2 then
              && b.status == (if a.external.Some? then Running else Pending) && DueFrom(b, cfg, now)
              && b.lockedBy == None && b.external == a.external && b.attempts == a.attempts
              && b.errorCode == a.errorCode
            else b == a
  {
    OperatorIsApplied(cfg, s, Scan(now, locked1, locked2));
    ScannedIs(cfg, s.jobs[j], now, j in locked1, j in locked2);
  }

  lemma ScannedIs(cfg: Settings, job: Job, now: Time, locked1: bool, locked2: bool)
    requires JobInv(job)
    ensures var a, b := job.row, After(job, ScanJob(job, now, cfg, locked1, locked2)).row;
            if Overdue(a, cfg, now) then
              if locked1 then b == a
              else
                && b.status == TimedOut && NeverDue(b, cfg)
                && b.errorCode == Some("GENERATION_JOB_TIMEOUT") && b.external == a.external && b.attempts == a.attempts
            else if a.lockedAt.Some? && now - a.lockedAt.value >= cfg.lockTimeout && !locked2 then
              && b.status == (if a.external.Some? then Running else Pending) && DueFrom(b, cfg, now)
              && b.lockedBy == None && b.external == a.external && b.attempts == a.attempts
              && b.errorCode == a.errorCode
            else b == a
  {
  }

  /** Waiting, due, and not under a lease that still runs. */
  predicate Open(r: Row, cfg: Settings, now: Time) {
    && (r.status == Pending || (r.status == Running && r.external.Some?))
    && (r.nextRunAt.Some? ==> r.nextRunAt.value <= now)
    && (r.lockedAt.Some? ==> now - r.lockedAt.value >= cfg.lockTimeout)
  }

  /** A claim takes an open job, and nobody else can claim it before the lease is over. */
  lemma ClaimDecides(cfg: Settings, s: System, w: WorkerId, j: JobId, now: Time)
    requires JobsOk(s) && cfg.lockTimeout >= 0
    ensures var t := Apply(cfg, s, Claim(w, j, now));
            if !PcOf(s, w).Idle? || j !in s.jobs || !Open(s.jobs[j].row, cfg, now) then t == s
            else
              && j in t.jobs && t.jobs == s.jobs[j := t.jobs[j]] && PcOf(t, w) == Claimed(j, t.jobs[j].row.version)
              && var a, b := s.jobs[j].row, t.jobs[j].row;
              && b.status == Running && b.lockedBy == Some(w) && b.external == a.external && b.attempts == a.attempts
              && b.startedAt == Some(if a.startedAt.Some? then a.startedAt.value else now)
              && (if a.external.Some? then DueFrom(b, cfg, now + cfg.lockTimeout) else a.status == Pending)
              && (a.external.None? ==> NeverDue(b, cfg))
  {
    WorkerIsApplied(cfg, s, Claim(w, j, now));
    if PcOf(s, w).Idle? && j in s.jobs && Open(s.jobs[j].row, cfg, now) {
      LeaseIs(cfg, s.jobs[j], w, now);
    }
  }

  lemma LeaseIs(cfg: Settings, job: Job, w: WorkerId, now: Time)
    requires JobInv(job) && cfg.lockTimeout >= 0 && Open(job.row, cfg, now)
    ensures var o := ClaimJob(job, w, now);
            && o.Commit?
            && (job.row.external.Some? ==> DueFrom(o.job.row, cfg, now + cfg.lockTimeout))
            && (job.row.external.None? ==> NeverDue(o.job.row, cfg))
            && o.job.row.startedAt == Some(if job.row.startedAt.Some? then job.row.startedAt.value else now)
  {
  }

  /** Accepted exactly for an unfinished job at the version the operator names; nobody can claim it again. */
  lemma CancelDecides(cfg: Settings, s: System, j: JobId, expected: int, user: UserId, now: Time)
    requires JobsOk(s) && j in s.jobs
    ensures var a := s.jobs[j].row;
            var t := Apply(cfg, s, Cancel(j, expected, user, now));
            if a.version != expected || Terminal(a.status) then t == s
            else
              && j in t.jobs && t == s.(jobs := s.jobs[j := t.jobs[j]])
              && var b := t.jobs[j].row;
              && b.status == Cancelled && b.cancelledBy == Some(user) && b.cancelledAt == Some(now)
              && b.version == a.version + 1 && b.lockedBy == None && b.errorCode == None && b.external == a.external
              && NeverDue(b, cfg)
  {
    OperatorIsApplied(cfg, s, Cancel(j, expected, user, now));
    CancelledIs(cfg, s.jobs[j], expected, user, now);
  }

  lemma CancelledIs(cfg: Settings, job: Job, expected: int, user: UserId, now: Time)
    requires JobInv(job)
    ensures var o := CancelJob(job, expected, user, now);
            if job.row.version != expected || Terminal(job.row.status) then o.Raise?
            else o.Commit? && NeverDue(o.job.row, cfg)
  {
  }

  /** A created job waits for its first attempt, due at once. */
  lemma CreateDecides(cfg: Settings, s: System, j: JobId, order: Order, now: Time)
    requires j !in s.jobs && order.maxAttempts >= 1
    ensures var t := Apply(cfg, s, Create(j, order, now));
            && j in t.jobs && t == s.(jobs := s.jobs[j := t.jobs[j]])
            && var b := t.jobs[j].row;
            b.order == order && b.status == Pending && b.attempts == 0 && b.external == None && b.version == 1 &&
            DueFrom(b, cfg, now)
  {
    CreatedIs(cfg, order, now);
  }

  lemma CreatedIs(cfg: Settings, order: Order, now: Time)
    ensures DueFrom(NewJob(order, now).row, cfg, now)
  {
  }
}
