/** Two properties one might expect of the queue, the runs that break them, and how far they fail. */
module JobWitnesses {
  import opened Common
  import opened JobRows
  import opened JobInvariants
  import opened Assets
  import opened JobProtocol
  import opened JobTheorems
  import opened JobClock

  /** By a run whose clock readings never go back, from time 0 to `clock` at most. */
  ghost predicate Reachable(cfg: Settings, s: System, clock: Time) {
    exists run: seq<Action> :: Run(cfg, Initial, run) == s && Ordered(run, 0) && EndOf(run, 0) <= clock
  }

  lemma Start(cfg: Settings)
    ensures Reachable(cfg, Initial, 0)
  {
    assert Run(cfg, Initial, []) == Initial && Ordered([], 0) && EndOf([], 0) == 0;
  }

  lemma {:induction false} OrderedAppend(run: seq<Action>, clock: Time, a: Action)
    requires Ordered(run, clock) && EndOf(run, clock) <= Later(a, EndOf(run, clock))
    ensures Ordered(run + [a], clock) && EndOf(run + [a], clock) == Later(a, EndOf(run, clock))
    decreases |run|
  {
    if run == [] {
      assert run + [a] == [a] && [a][1..] == [];
    } else {
      assert (run + [a])[0] == run[0] && (run + [a])[1..] == run[1..] + [a];
      OrderedAppend(run[1..], Later(run[0], clock), a);
    }
  }

  /** One more action, read no earlier than `clock`. */
  lemma Then(cfg: Settings, s: System, clock: Time, a: Action)
    requires Reachable(cfg, s, clock) && clock <= Later(a, clock)
    ensures Reachable(cfg, Apply(cfg, s, a), Later(a, clock))
  {
    var run :| Run(cfg, Initial, run) == s && Ordered(run, 0) && EndOf(run, 0) <= clock;
    OrderedAppend(run, 0, a);
    RunAppend(cfg, Initial, run, [a]);
    assert Run(cfg, s, [a]) == Run(cfg, Apply(cfg, s, a), []);
  }

  // ----- single moves --------------------------------------------------------------

  /** An idle worker takes job 0 out of the queue and starts to submit it. */
  lemma Submits(cfg: Settings, s: System, w: WorkerId, clock: Time, now: Time) returns (s': System)
    requires Reachable(cfg, s, clock) && clock <= now && PcOf(s, w).Idle? && 0 in s.jobs
    requires var r := s.jobs[0].row; r.status == Pending && r.external.None? && Claimable(r, now, cfg)
    ensures Reachable(cfg, s', now) && 0 in s'.jobs
    ensures s'.jobs[0] == After(Claimed0(s.jobs[0], w, now), BeginProcessing(Claimed0(s.jobs[0], w, now), w, now))
    ensures s'.workers == s.workers[w := Pc.Submitting(0, s'.jobs[0].row.version)]
  {
    Takes(cfg, s, w, clock, now);
    var s1 := Goto(s.(jobs := s.jobs[0 := Claimed0(s.jobs[0], w, now)]), w, Claimed(0, s.jobs[0].row.version + 1));
    Then(cfg, s1, now, Begin(w, now));
    WorkerIsApplied(cfg, s1, Begin(w, now));
    s' := ApplyBegin(s1, w, now);
    assert s'.workers == s.workers[w := Pc.Submitting(0, s'.jobs[0].row.version)];
  }

  /** Job 0 after a claim. */
  function Claimed0(job: Job, w: WorkerId, now: Time): Job {
    After(job, ClaimJob(job, w, now))
  }

  lemma Takes(cfg: Settings, s: System, w: WorkerId, clock: Time, now: Time)
    requires Reachable(cfg, s, clock) && clock <= now && PcOf(s, w).Idle? && 0 in s.jobs
    requires Claimable(s.jobs[0].row, now, cfg)
    ensures var job := Claimed0(s.jobs[0], w, now);
            && HeldBy(job.row, w) && job.row.version == s.jobs[0].row.version + 1
            && job.row.external == s.jobs[0].row.external
            && Reachable(cfg, Goto(s.(jobs := s.jobs[0 := job]), w, Claimed(0, job.row.version)), now)
  {
    Then(cfg, s, clock, Claim(w, 0, now));
  }

  /** An idle worker claims job 0 to poll its external id. */
  lemma Polls(cfg: Settings, s: System, w: WorkerId, clock: Time, now: Time) returns (s': System)
    requires Reachable(cfg, s, clock) && clock <= now && PcOf(s, w).Idle? && 0 in s.jobs
    requires s.jobs[0].row.external.Some? && Claimable(s.jobs[0].row, now, cfg)
    ensures Reachable(cfg, s', now) && 0 in s'.jobs && s'.jobs[0] == Claimed0(s.jobs[0], w, now)
    ensures HeldBy(s'.jobs[0].row, w) && s'.jobs[0].row.external == s.jobs[0].row.external
    ensures s'.workers.Keys == s.workers.Keys + {w} && s'.workers[w].Polling? && s'.workers[w].job == 0
    ensures forall v | v in s.workers && v != w :: s'.workers[v] == s.workers[v]
  {
    Takes(cfg, s, w, clock, now);
    var job := Claimed0(s.jobs[0], w, now);
    var s1 := Goto(s.(jobs := s.jobs[0 := job]), w, Claimed(0, job.row.version));
    Then(cfg, s1, now, Begin(w, now));
    WorkerIsApplied(cfg, s1, Begin(w, now));
    s' := ApplyBegin(s1, w, now);
  }

  /** A job whose first attempt has been handed to worker 1. */
  lemma FirstAttempt(cfg: Settings, order: Order) returns (s: System)
    requires order.maxAttempts >= 1
    ensures Reachable(cfg, s, 0)
    ensures 0 in s.jobs && s.jobs[0].row.order == order
    ensures s.workers.Keys == {1} && s.workers[1].Submitting? && s.workers[1].job == 0
    ensures var r := s.jobs[0].row;
            && r.status == Running && r.attempts == 1 && r.external == None && r.nextRunAt == Some(0)
            && r.lockedAt == Some(0) && r.lockedBy == Some(1) && r.startedAt == Some(0)
  {
    Start(cfg);
    Then(cfg, Initial, 0, Create(0, order, 0));
    s := Apply(cfg, Initial, Create(0, order, 0));
    s := Submits(cfg, s, 1, 0, 0);
  }

  // ----- the bound on attempts is met -------------------------------------------

  /** In the queue after `a` attempts and `k` lock recoveries, due at `t`. */
  predicate Waiting(job: Job, order: Order, a: int, k: int, t: Time) {
    var r := job.row;
    && Count(job.log, IsRequeue) == k
    && r.order == order && r.status == Pending && r.attempts == a && r.external == None
    && r.lockedAt == None && r.nextRunAt == Some(t)
    && (r.startedAt == Some(0) || (r.startedAt == None && t == 0))
  }

  /** Claimed at `t` and being submitted. */
  predicate BeingSubmitted(job: Job, order: Order, a: int, k: int, t: Time) {
    var r := job.row;
    && Count(job.log, IsRequeue) == k
    && r.order == order && r.status == Running && r.attempts == a && r.external == None
    && r.lockedAt == Some(t) && r.startedAt == Some(0)
  }

  /** Job 0 is in the queue; nobody is working. */
  ghost predicate Queued(cfg: Settings, s: System, order: Order, a: int, k: int, t: Time) {
    && Reachable(cfg, s, t) && (forall w | w in s.workers :: s.workers[w].Idle?)
    && 0 in s.jobs && Waiting(s.jobs[0], order, a, k, t)
  }

  /** Job 0 is being submitted by worker 1. */
  ghost predicate InSubmission(cfg: Settings, s: System, order: Order, a: int, k: int, t: Time) {
    && Reachable(cfg, s, t) && (forall w | w in s.workers && w != 1 :: s.workers[w].Idle?)
    && 1 in s.workers && s.workers[1].Submitting? && s.workers[1].job == 0
    && 0 in s.jobs && BeingSubmitted(s.jobs[0], order, a, k, t)
  }

  lemma Enqueue(cfg: Settings, order: Order) returns (s: System)
    requires order.maxAttempts >= 1
    ensures Queued(cfg, s, order, 0, 0, 0)
  {
    Start(cfg);
    s := Apply(cfg, Initial, Create(0, order, 0));
    Then(cfg, Initial, 0, Create(0, order, 0));
    LogAppend([], Event(JobCreated, Stay));
  }

  lemma Submit(cfg: Settings, s: System, order: Order, a: int, k: int, t: Time) returns (s': System)
    requires Queued(cfg, s, order, a, k, t)
    ensures InSubmission(cfg, s', order, a + 1, k, t)
  {
    s' := Submits(cfg, s, 1, t, t);
    SubmittedJob(s.jobs[0], order, a, k, t);
  }

  lemma SubmittedJob(job: Job, order: Order, a: int, k: int, t: Time)
    requires Waiting(job, order, a, k, t)
    ensures var claimed := Claimed0(job, 1, t);
            BeingSubmitted(After(claimed, BeginProcessing(claimed, 1, t)), order, a + 1, k, t)
  {
    var claim := Event(JobClaimed(1), Move(Pending, Running));
    CountAppend(job.log, claim, IsRequeue);
    CountAppend(job.log + [claim], Event(EventKind.Submitting(job.row.attempts + 1), Stay), IsRequeue);
  }

  /** A final error and a manual retry at once: the next submission need not wait, and the start is forgotten. */
  lemma FailAndRetry(cfg: Settings, s: System, order: Order, a: int) returns (s': System)
    requires InSubmission(cfg, s, order, a, 0, 0) && 0 <= a < order.maxAttempts
    ensures Queued(cfg, s', order, a, 0, 0)
  {
    var failed := FailFirst(cfg, s, order, a);
    s' := RetryFirst(cfg, failed, order, a);
  }

  predicate GivenUp(job: Job, order: Order, a: int) {
    var r := job.row;
    Count(job.log, IsRequeue) == 0 && r.order == order && r.status == Failed && r.attempts == a && r.external == None
  }

  lemma FailFirst(cfg: Settings, s: System, order: Order, a: int) returns (s': System)
    requires InSubmission(cfg, s, order, a, 0, 0)
    ensures Reachable(cfg, s', 0) && (forall w | w in s'.workers :: s'.workers[w].Idle?)
    ensures 0 in s'.jobs && GivenUp(s'.jobs[0], order, a)
  {
    var fails := SubmitFails(1, "failed", false, 0);
    Then(cfg, s, 0, fails);
    AnswerIsApplied(cfg, s, fails);
    s' := ApplyAnswer(cfg, s, fails);
    AnswerAt(cfg, s, fails, 0);
    FailedJob(s.jobs[0], order, a);
  }

  lemma FailedJob(job: Job, order: Order, a: int)
    requires BeingSubmitted(job, order, a, 0, 0)
    ensures GivenUp(After(job, SubmissionFailed(job, "failed", false, 0)), order, a)
  {
    CountAppend(job.log, Event(DeadLettered("failed"), Move(Running, Failed)), IsRequeue);
  }

  lemma RetryFirst(cfg: Settings, s: System, order: Order, a: int) returns (s': System)
    requires Reachable(cfg, s, 0) && 0 in s.jobs && GivenUp(s.jobs[0], order, a) && a < order.maxAttempts
    ensures Reachable(cfg, s', 0) && s'.workers == s.workers && 0 in s'.jobs && Waiting(s'.jobs[0], order, a, 0, 0)
  {
    var retry := Retry(0, s.jobs[0].row.version, 0, 0);
    Then(cfg, s, 0, retry);
    OperatorIsApplied(cfg, s, retry);
    s' := Apply(cfg, s, retry);
    RetriedJob(s.jobs[0], order, a);
  }

  lemma RetriedJob(job: Job, order: Order, a: int)
    requires GivenUp(job, order, a) && a < order.maxAttempts
    ensures Waiting(After(job, RetryJob(job, job.row.version, 0, 0)), order, a, 0, 0)
  {
    CountAppend(job.log, Event(ManualRetry(0, false), Move(Failed, Pending)), IsRequeue);
  }

  lemma RequeueOnce(cfg: Settings, s: System, order: Order, a: int, k: int, t: Time) returns (s': System)
    requires InSubmission(cfg, s, order, a, k, t) && 0 <= cfg.lockTimeout && t + cfg.lockTimeout < cfg.jobTimeout
    ensures Queued(cfg, s', order, a, k + 1, t + cfg.lockTimeout)
  {
    var idle := CrashFirst(cfg, s, order, a, k, t);
    s' := ScanRequeues(cfg, idle, order, a, k, t);
  }

  lemma ScanRequeues(cfg: Settings, s: System, order: Order, a: int, k: int, t: Time) returns (s': System)
    requires Reachable(cfg, s, t) && 0 in s.jobs && BeingSubmitted(s.jobs[0], order, a, k, t)
    requires 0 <= cfg.lockTimeout && t + cfg.lockTimeout < cfg.jobTimeout
    ensures Reachable(cfg, s', t + cfg.lockTimeout) && s'.workers == s.workers
    ensures 0 in s'.jobs && Waiting(s'.jobs[0], order, a, k + 1, t + cfg.lockTimeout)
  {
    s' := Scans(cfg, s, t, t + cfg.lockTimeout);
    RequeuedIs(cfg, s.jobs[0], s'.jobs[0], order, a, k, t);
  }

  lemma RequeuedIs(cfg: Settings, job: Job, b: Job, order: Order, a: int, k: int, t: Time)
    requires BeingSubmitted(job, order, a, k, t) && t + cfg.lockTimeout < cfg.jobTimeout
    requires b == After(job, ScanJob(job, t + cfg.lockTimeout, cfg, false, false))
    ensures Waiting(b, order, a, k + 1, t + cfg.lockTimeout)
  {
    RequeuedJob(cfg, job, order, a, k, t);
  }

  lemma Scans(cfg: Settings, s: System, clock: Time, now: Time) returns (s': System)
    requires Reachable(cfg, s, clock) && clock <= now && 0 in s.jobs
    ensures Reachable(cfg, s', now) && s'.workers == s.workers && 0 in s'.jobs
    ensures s'.jobs[0] == After(s.jobs[0], ScanJob(s.jobs[0], now, cfg, false, false))
  {
    var scan := Scan(now, {}, {});
    Then(cfg, s, clock, scan);
    OperatorIsApplied(cfg, s, scan);
    s' := Apply(cfg, s, scan);
  }

  lemma RequeuedJob(cfg: Settings, job: Job, order: Order, a: int, k: int, t: Time)
    requires BeingSubmitted(job, order, a, k, t) && t + cfg.lockTimeout < cfg.jobTimeout
    ensures var now := t + cfg.lockTimeout;
            Waiting(After(job, ScanJob(job, now, cfg, false, false)), order, a, k + 1, now)
  {
    CountAppend(job.log, Event(LockRecovered(None), Move(Running, Pending)), IsRequeue);
  }

  lemma CrashFirst(cfg: Settings, s: System, order: Order, a: int, k: int, t: Time) returns (s': System)
    requires InSubmission(cfg, s, order, a, k, t)
    ensures Reachable(cfg, s', t) && s'.jobs == s.jobs && forall w | w in s'.workers :: s'.workers[w].Idle?
  {
    Then(cfg, s, t, Crash(1));
    s' := Apply(cfg, s, Crash(1));
  }

  lemma {:induction false} FailOften(cfg: Settings, order: Order, a: nat) returns (s: System)
    requires a < order.maxAttempts
    ensures Queued(cfg, s, order, a, 0, 0)
  {
    if a == 0 {
      s := Enqueue(cfg, order);
    } else {
      s := FailOften(cfg, order, a - 1);
      s := Submit(cfg, s, order, a - 1, 0, 0);
      s := FailAndRetry(cfg, s, order, a);
    }
  }

  lemma {:induction false} RequeueOften(cfg: Settings, order: Order, k: nat) returns (s: System)
    requires order.maxAttempts >= 1 && cfg.lockTimeout >= 0 && (k > 0 ==> k * cfg.lockTimeout < cfg.jobTimeout)
    ensures Queued(cfg, s, order, order.maxAttempts - 1 + k, k, k * cfg.lockTimeout)
  {
    var a := order.maxAttempts - 1 + k;
    if k == 0 {
      s := FailOften(cfg, order, a);
    } else {
      var t := (k - 1) * cfg.lockTimeout;
      assert k * cfg.lockTimeout == t + cfg.lockTimeout;
      s := RequeueOften(cfg, order, k - 1);
      s := Submit(cfg, s, order, a - 1, k - 1, t);
      s := RequeueOnce(cfg, s, order, a, k - 1, t);
    }
  }

  /**
   `attempts <= max_attempts` fails: for every limit and every number of lock recoveries that fit into the
   job timeout, a run whose clock readings never go back submits once more for each recovery.
   */
  lemma AttemptsCanExceedLimit(cfg: Settings, order: Order, k: nat) returns (s: System)
    requires order.maxAttempts >= 1 && cfg.lockTimeout >= 0 && (k > 0 ==> k * cfg.lockTimeout < cfg.jobTimeout)
    ensures Reachable(cfg, s, k * cfg.lockTimeout)
    ensures 0 in s.jobs && s.jobs[0].row.order == order && Count(s.jobs[0].log, IsRequeue) == k
    ensures s.jobs[0].row.attempts == order.maxAttempts + k
  {
    s := RequeueOften(cfg, order, k);
    s := Submit(cfg, s, order, order.maxAttempts - 1 + k, k, k * cfg.lockTimeout);
  }

  /** Some run whose clock readings never go back brings a job for this order to `n` attempts. */
  ghost predicate CanMake(cfg: Settings, order: Order, n: int) {
    exists s: System, clock: Time, j: JobId :: Reachable(cfg, s, clock) && Made(s, j, order, n)
  }

  predicate Made(s: System, j: JobId, order: Order, n: int) {
    j in s.jobs && s.jobs[j].row.order == order && s.jobs[j].row.attempts == n
  }

  /** So many attempts can be made, and no more: those beyond the limit take one lock timeout each. */
  lemma AttemptsExactly(cfg: Settings, order: Order, n: nat)
    requires order.maxAttempts >= 1 && cfg.lockTimeout >= 0
    ensures CanMake(cfg, order, n) <==>
            n <= order.maxAttempts || (n - order.maxAttempts) * cfg.lockTimeout < cfg.jobTimeout
  {
    if CanMake(cfg, order, n) {
      var s, clock, j :| Reachable(cfg, s, clock) && Made(s, j, order, n);
      var run :| Run(cfg, Initial, run) == s && Ordered(run, 0) && EndOf(run, 0) <= clock;
      AttemptsWithinTimeouts(cfg, run, 0, j);
    }
    if n <= order.maxAttempts {
      CanMakeWithin(cfg, order, n);
    } else if (n - order.maxAttempts) * cfg.lockTimeout < cfg.jobTimeout {
      var s := AttemptsCanExceedLimit(cfg, order, n - order.maxAttempts);
      assert Made(s, 0, order, n);
    }
  }

  lemma CanMakeWithin(cfg: Settings, order: Order, n: nat)
    requires 1 <= order.maxAttempts && n <= order.maxAttempts
    ensures CanMake(cfg, order, n)
  {
    if n == 0 {
      var s := Enqueue(cfg, order);
      assert Made(s, 0, order, n);
    } else {
      var s := FailOften(cfg, order, n - 1);
      s := Submit(cfg, s, order, n - 1, 0, 0);
      assert Made(s, 0, order, n);
    }
  }

  // ----- a row nobody works on ----------------------------------------------------

  /** The first attempt was accepted, and the external id may be polled at once. */
  lemma Accepted(cfg: Settings, order: Order) returns (s: System)
    requires order.maxAttempts >= 2
    ensures Reachable(cfg, s, 0)
    ensures 0 in s.jobs && s.jobs[0].row.order == order && s.workers.Keys == {1} && s.workers[1].Idle?
    ensures var r := s.jobs[0].row;
            && r.status == Running && r.attempts == 1 && r.external == Some("task") && r.lockedAt == None
            && r.nextRunAt == Some(0)
  {
    s := FirstAttempt(cfg, order);
    var returns1 := SubmitReturns(1, "task", "mock", 0);
    Then(cfg, s, 0, returns1);
    AnswerIsApplied(cfg, s, returns1);
    s := ApplyAnswer(cfg, s, returns1);
  }

  /** Worker 2 polls it, and worker 3 has taken over the expired lock. */
  lemma TwoPollers(cfg: Settings, order: Order) returns (s: System)
    requires cfg.lockTimeout >= 0 && order.maxAttempts >= 2
    ensures Reachable(cfg, s, cfg.lockTimeout)
    ensures 0 in s.jobs && s.jobs[0].row.order == order && s.workers.Keys == {1, 2, 3}
    ensures s.workers[1].Idle? && s.workers[2].Polling? && s.workers[3].Polling?
    ensures s.workers[2].job == 0 && s.workers[3].job == 0
    ensures HeldBy(s.jobs[0].row, 3) && s.jobs[0].row.attempts == 1
  {
    s := Accepted(cfg, order);
    s := Polls(cfg, s, 2, 0, 0);
    s := Polls(cfg, s, 3, 0, cfg.lockTimeout);
  }

  /** Worker 3 learned of a provider failure. */
  lemma Learned(cfg: Settings, order: Order) returns (s: System)
    requires cfg.lockTimeout >= 0 && order.maxAttempts >= 2
    ensures Reachable(cfg, s, cfg.lockTimeout)
    ensures 0 in s.jobs && s.jobs[0].row.order == order && s.workers.Keys == {1, 2, 3}
    ensures s.workers[1].Idle? && s.workers[2].Polling? && s.workers[2].job == 0
    ensures s.workers[3].Prepared? && s.workers[3].job == 0
    ensures s.workers[3].poll == ProviderFailed("failed", true) && s.workers[3].files == []
    ensures HeldBy(s.jobs[0].row, 3) && s.jobs[0].row.attempts == 1
  {
    s := TwoPollers(cfg, order);
    Then(cfg, s, cfg.lockTimeout, PollReturns(3, ProviderFailed("failed", true), []));
    s := Apply(cfg, s, PollReturns(3, ProviderFailed("failed", true), []));
  }

  /** And requeued the job; worker 2 is still polling the old external id. */
  lemma OldPollerLeft(cfg: Settings, order: Order) returns (s: System)
    requires cfg.lockTimeout >= 0 && order.maxAttempts >= 2
    ensures Reachable(cfg, s, cfg.lockTimeout)
    ensures 0 in s.jobs && s.jobs[0].row.order == order && s.workers.Keys == {1, 2, 3}
    ensures s.workers[1].Idle? && s.workers[2].Polling? && s.workers[2].job == 0 && s.workers[3].Idle?
    ensures var r := s.jobs[0].row;
            r.status == Pending && r.external == None && r.nextRunAt == Some(cfg.lockTimeout + 2) && r.lockedAt == None
  {
    s := Learned(cfg, order);
    var finish := Finish(3, true, cfg.lockTimeout);
    Then(cfg, s, cfg.lockTimeout, finish);
    WorkerIsApplied(cfg, s, finish);
    s := ApplyFinish(cfg, s, 3, true, cfg.lockTimeout);
    assert Pow2(1) == 2 * Pow2(0);
  }

  /**
   "A running job is locked or has an external id to poll" fails: the poll error of a worker that lost
   its lock long ago clears the lock of the worker that has just claimed the job, because that block
   checks the status only. The claimer then finds a row that is not its own and leaves; nobody works on
   the row any more, and no worker has died.
   */
  lemma StrandedIsReachable(cfg: Settings, order: Order) returns (s: System)
    requires cfg.lockTimeout >= 0 && order.maxAttempts >= 2
    ensures Reachable(cfg, s, cfg.lockTimeout + 2)
    ensures 0 in s.jobs && Stranded(s.jobs[0].row)
    ensures forall w | w in s.workers :: s.workers[w].Idle?
  {
    var now := cfg.lockTimeout + 2;
    s := OldPollerLeft(cfg, order);
    Takes(cfg, s, 4, cfg.lockTimeout, now);
    var job := Claimed0(s.jobs[0], 4, now);
    s := Goto(s.(jobs := s.jobs[0 := job]), 4, Claimed(0, job.row.version));
    var fails := PollFails(2, "late", true, now);
    Then(cfg, s, now, fails);
    AnswerIsApplied(cfg, s, fails);
    s := ApplyAnswer(cfg, s, fails);
    assert Stranded(s.jobs[0].row);
    Then(cfg, s, now, Begin(4, now));
    WorkerIsApplied(cfg, s, Begin(4, now));
    s := ApplyBegin(s, 4, now);
  }

  // ----- when a row becomes stranded ---------------------------------------------

  /** The only step that strands a row: a retryable poll error reported on a running row without a task. */
  predicate Strands(s: System, a: Action, j: JobId)
    requires j in s.jobs
  {
    && a.PollFails? && a.retryable
    && PcOf(s, a.w).Polling? && PcOf(s, a.w).job == j
    && s.jobs[j].row.status == Running && s.jobs[j].row.external.None?
  }

  lemma AnswerStrands(cfg: Settings, s: System, a: Action, j: JobId)
    requires JobsOk(s) && WorkersOk(s) && j in s.jobs && !Stranded(s.jobs[j].row) && IsAnswer(a)
    ensures j in ApplyAnswer(cfg, s, a).jobs && (Stranded(ApplyAnswer(cfg, s, a).jobs[j].row) <==> Strands(s, a, j))
  {
    var pc := PcOf(s, a.w);
    AnswerAt(cfg, s, a, j);
    if Awaits(pc, a) && pc.job == j {
      assert WorkerOk(s.jobs, a.w, pc);
      OneAnswerStrands(cfg, s.jobs[j], a, pc);
    }
  }

  lemma OneAnswerStrands(cfg: Settings, job: Job, a: Action, pc: Pc)
    requires JobInv(job) && !Stranded(job.row) && IsAnswer(a) && Awaits(pc, a) && Tied(job, a.w, pc)
    ensures Stranded(After(job, Answer(cfg, job, a)).row) <==>
            a.PollFails? && a.retryable && job.row.status == Running && job.row.external.None?
  {
  }

  lemma FinishStrands(cfg: Settings, s: System, w: WorkerId, planOk: bool, now: Time, j: JobId)
    requires WorkersOk(s) && j in s.jobs && !Stranded(s.jobs[j].row)
    ensures var t := ApplyFinish(cfg, s, w, planOk, now); j in t.jobs && !Stranded(t.jobs[j].row)
  {
  }

  lemma ScanStrands(job: Job, now: Time, cfg: Settings, locked1: bool, locked2: bool)
    requires !Stranded(job.row)
    ensures !Stranded(After(job, ScanJob(job, now, cfg, locked1, locked2)).row)
  {
  }

  lemma StoreStrands(s: System, i: JobId, o: Outcome, j: JobId)
    requires i in s.jobs && j in s.jobs && !Stranded(s.jobs[j].row) && (o.Commit? ==> o.job.row.status != Running)
    ensures j in Store(s, i, o).jobs && !Stranded(Store(s, i, o).jobs[j].row)
  {
  }

  lemma OperatorStrands(cfg: Settings, s: System, a: Action, j: JobId)
    requires j in s.jobs && !Stranded(s.jobs[j].row) && (a.Cancel? || a.Retry? || a.Scan? || a.Sync?)
    ensures j in Apply(cfg, s, a).jobs && !Stranded(Apply(cfg, s, a).jobs[j].row)
  {
    OperatorIsApplied(cfg, s, a);
    if a.Scan? {
      ScanStrands(s.jobs[j], a.now, cfg, j in a.locked1, j in a.locked2);
    } else if !a.Sync? && a.j in s.jobs {
      var o := if a.Cancel? then CancelJob(s.jobs[a.j], a.expected, a.user, a.now)
               else RetryJob(s.jobs[a.j], a.expected, a.user, a.now);
      StoreStrands(s, a.j, o, j);
    }
  }

  lemma ClaimStrands(cfg: Settings, s: System, w: WorkerId, i: JobId, now: Time, j: JobId)
    requires j in s.jobs && !Stranded(s.jobs[j].row)
    ensures var t := ApplyClaim(cfg, s, w, i, now); j in t.jobs && !Stranded(t.jobs[j].row)
  {
  }

  lemma BeginStrands(s: System, w: WorkerId, now: Time, j: JobId)
    requires j in s.jobs && !Stranded(s.jobs[j].row)
    ensures var t := ApplyBegin(s, w, now); j in t.jobs && !Stranded(t.jobs[j].row)
  {
  }

  lemma WorkerStrands(cfg: Settings, s: System, a: Action, j: JobId)
    requires WorkersOk(s) && j in s.jobs && !Stranded(s.jobs[j].row) && (a.Claim? || a.Begin? || a.Finish?)
    ensures j in Apply(cfg, s, a).jobs && !Stranded(Apply(cfg, s, a).jobs[j].row)
  {
    WorkerIsApplied(cfg, s, a);
    if a.Claim? {
      ClaimStrands(cfg, s, a.w, a.j, a.now, j);
    } else if a.Begin? {
      BeginStrands(s, a.w, a.now, j);
    } else {
      FinishStrands(cfg, s, a.w, a.planOk, a.now, j);
    }
  }

  /** A row that is not stranded becomes stranded by a step exactly in that case. */
  lemma StrandsExactlyWhen(cfg: Settings, s: System, a: Action, j: JobId)
    requires JobsOk(s) && WorkersOk(s) && j in s.jobs && !Stranded(s.jobs[j].row)
    ensures j in Apply(cfg, s, a).jobs && (Stranded(Apply(cfg, s, a).jobs[j].row) <==> Strands(s, a, j))
  {
    if IsAnswer(a) {
      AnswerIsApplied(cfg, s, a);
      AnswerStrands(cfg, s, a, j);
    } else if a.Cancel? || a.Retry? || a.Scan? || a.Sync? {
      OperatorStrands(cfg, s, a, j);
    } else if a.Finish? || a.Claim? || a.Begin? {
      WorkerStrands(cfg, s, a, j);
    } else {
      QuietStep(cfg, s, a, j);
    }
  }

  // ----- and when it stops being stranded -----------------------------------------

  /** The answers that take a stranded row out of that state, from a worker still on the job. */
  predicate Frees(pc: Pc, a: Action)
    requires IsAnswer(a)
  {
    || (pc.Submitting? && (a.SubmitFails? || a.SubmitReturns?))
    || (pc.Polling? && a.PollFails? && !a.retryable)
    || (!pc.Idle? && a.HandleUnexpected?)
  }

  /**
   A scan past the job timeout, a cancel that passes the version check, an answer of a worker that is
   still submitting the job, a final poll error or an unexpected exception of a worker still on it.
   */
  predicate Unstrands(cfg: Settings, s: System, a: Action, j: JobId)
    requires j in s.jobs
  {
    var r := s.jobs[j].row;
    || (a.Scan? && j !in a.locked1 && PastTimeout(r, a.now, cfg))
    || (a.Cancel? && a.j == j && a.expected == r.version)
    || (IsAnswer(a) && Frees(PcOf(s, a.w), a) && PcOf(s, a.w).job == j)
  }

  lemma AnswerUnstrands(cfg: Settings, s: System, a: Action, j: JobId)
    requires j in s.jobs && Stranded(s.jobs[j].row) && IsAnswer(a)
    ensures var pc, t := PcOf(s, a.w), ApplyAnswer(cfg, s, a);
            j in t.jobs && (!Stranded(t.jobs[j].row) <==> Frees(pc, a) && pc.job == j)
  {
    var pc := PcOf(s, a.w);
    AnswerAt(cfg, s, a, j);
    if Awaits(pc, a) && pc.job == j {
      OneAnswerUnstrands(cfg, s.jobs[j], a, pc);
    }
  }

  lemma OneAnswerUnstrands(cfg: Settings, job: Job, a: Action, pc: Pc)
    requires Stranded(job.row) && IsAnswer(a) && Awaits(pc, a)
    ensures !Stranded(After(job, Answer(cfg, job, a)).row) <==> Frees(pc, a)
  {
  }

  lemma CancelUnstrands(job: Job, expected: int, user: UserId, now: Time)
    requires Stranded(job.row)
    ensures !Stranded(After(job, CancelJob(job, expected, user, now)).row) <==> expected == job.row.version
  {
  }

  lemma RetryLeavesStranded(job: Job, expected: int, user: UserId, now: Time)
    requires Stranded(job.row)
    ensures After(job, RetryJob(job, expected, user, now)) == job
  {
  }

  lemma OperatorUnstrands(cfg: Settings, s: System, a: Action, j: JobId)
    requires j in s.jobs && JobInv(s.jobs[j]) && Stranded(s.jobs[j].row)
    requires a.Scan? || a.Cancel? || a.Retry? || a.Sync?
    ensures j in Apply(cfg, s, a).jobs && (!Stranded(Apply(cfg, s, a).jobs[j].row) <==> Unstrands(cfg, s, a, j))
  {
    OperatorIsApplied(cfg, s, a);
    if a.Scan? {
      ScanUnstrands(cfg, s.jobs[j], a.now, j in a.locked1, j in a.locked2);
    } else if a.Cancel? && a.j == j {
      CancelUnstrands(s.jobs[j], a.expected, a.user, a.now);
    } else if a.Retry? && a.j == j {
      RetryLeavesStranded(s.jobs[j], a.expected, a.user, a.now);
    } else if a.Sync? {
      SyncLeavesRows(s, a.j, a.files, a.planOk, a.now, j);
    }
  }

  lemma SyncLeavesRows(s: System, i: JobId, files: seq<PreparedAsset>, planOk: bool, now: Time, j: JobId)
    requires j in s.jobs
    ensures var t := ApplySync(s, i, files, planOk, now); j in t.jobs && t.jobs[j].row == s.jobs[j].row
  {
  }

  lemma ScanUnstrands(cfg: Settings, job: Job, now: Time, locked1: bool, locked2: bool)
    requires JobInv(job) && Stranded(job.row)
    ensures !Stranded(After(job, ScanJob(job, now, cfg, locked1, locked2)).row) <==>
            !locked1 && PastTimeout(job.row, now, cfg)
  {
  }

  lemma WorkerLeavesStranded(cfg: Settings, s: System, a: Action, j: JobId)
    requires j in s.jobs && Stranded(s.jobs[j].row) && (a.Claim? || a.Begin? || a.Finish?)
    ensures j in Apply(cfg, s, a).jobs && Apply(cfg, s, a).jobs[j] == s.jobs[j]
  {
    WorkerIsApplied(cfg, s, a);
  }

  /** A stranded row stops being stranded by a step exactly in those cases. */
  lemma UnstrandsExactlyWhen(cfg: Settings, s: System, a: Action, j: JobId)
    requires JobsOk(s) && WorkersOk(s) && j in s.jobs && Stranded(s.jobs[j].row)
    ensures j in Apply(cfg, s, a).jobs && (!Stranded(Apply(cfg, s, a).jobs[j].row) <==> Unstrands(cfg, s, a, j))
  {
    if IsAnswer(a) {
      AnswerIsApplied(cfg, s, a);
      AnswerUnstrands(cfg, s, a, j);
    } else if a.Scan? || a.Cancel? || a.Retry? || a.Sync? {
      OperatorUnstrands(cfg, s, a, j);
    } else if a.Claim? || a.Begin? || a.Finish? {
      WorkerLeavesStranded(cfg, s, a, j);
    } else {
      QuietStep(cfg, s, a, j);
    }
  }
}
