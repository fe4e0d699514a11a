/**
 The event log read as an account of the row: what each event means for the columns, and the proof that
 in every reachable state the row is what its events add up to. The meaning is written down once for each
 event, while the columns are written by a dozen transactions.
 */
module JobReplay {
  import opened Common
  import opened JobRows
  import opened JobInvariants
  import opened Assets
  import opened JobProtocol
  import opened JobTheorems
  import opened JobClock

  /** The columns that the events determine; `results` is the number of entries of the result. */
  datatype Columns = Columns(status: Status, lockedBy: Option<WorkerId>, external: Option<string>,
                             provider: Option<string>, attempts: int, progress: int, error: Option<string>,
                             cancelledBy: Option<UserId>, results: Option<nat>, version: int)

  function ColumnsOf(r: Row): Columns {
    Columns(r.status, r.lockedBy, r.external, r.provider, r.attempts, r.progress, r.errorCode, r.cancelledBy,
            if r.result.Some? && r.result.value.assets.Some? then Some(|r.result.value.assets.value|) else None,
            r.version)
  }

  const Blank := Columns(Pending, None, None, None, 0, 0, None, None, None, 0)

  /** A worker is done with the row for now, with this error or without one. */
  function Freed(c: Columns, status: Status, error: Option<string>): Columns {
    c.(status := status, lockedBy := None, error := error)
  }

  /**
   A manual retry resumes what timed out while its task was known. Anything else starts from nothing: what
   the event says about resuming is not used.
   */
  function Retried(c: Columns): Columns {
    var anew := Blank.(attempts := c.attempts, version := c.version);
    if c.status == TimedOut && c.external.Some? then
      anew.(external := c.external, provider := c.provider, progress := 15)
    else anew
  }

  /** What one event means. */
  function Meaning(c: Columns, e: EventKind): Columns {
    match e
    case JobCreated => c
    case JobClaimed(w) => c.(status := Running, lockedBy := Some(w), progress := Max(c.progress, 5))
    case PollClaimed(w) => c.(lockedBy := Some(w))
    case Submitting(_) => c.(attempts := c.attempts + 1)
    case Submitted(provider, id) =>
      Freed(c, Running, None).(external := Some(id), provider := Some(provider), progress := Max(c.progress, 15))
    case StillPolling(p) => Freed(c, Running, c.error).(progress := p)
    case PollErrored(code) => Freed(c, Running, Some(code))
    case RetryScheduled(code, _) => Freed(c, Pending, Some(code)).(external := None)
    case DeadLettered(code) => Freed(c, Failed, Some(code))
    case LockRecovered(_) => Freed(c, if c.external.Some? then Running else Pending, c.error)
    case TimeoutReached => Freed(c, TimedOut, Some("GENERATION_JOB_TIMEOUT"))
    case CancelledByUser(user) => Freed(c, Cancelled, None).(cancelledBy := Some(user))
    case ManualRetry(_, _) => Retried(c)
    case AssetsSynced(_, _) => c
    case JobSucceeded(n) => Freed(c, Succeeded, None).(progress := 100, results := Some(n))
  }

  /** Every event but a sync is one version. */
  function AfterEvent(c: Columns, e: EventKind): Columns {
    Meaning(c, e).(version := c.version + (if IsSync(e) then 0 else 1))
  }

  function Account(log: seq<Event>): Columns {
    if log == [] then Blank else AfterEvent(Account(log[..|log| - 1]), log[|log| - 1].kind)
  }

  lemma AccountAppend(log: seq<Event>, e: Event)
    ensures Account(log + [e]) == AfterEvent(Account(log), e.kind)
  {
    AppendedLast(log, e);
  }

  /** The numbers that events carry for their reader. */
  predicate Tells(c: Columns, e: EventKind) {
    match e
    case Submitting(n) => n == c.attempts + 1
    case RetryScheduled(_, n) => n == c.attempts
    case LockRecovered(kept) => kept == c.external
    case ManualRetry(_, resumed) => resumed <==> c.status == TimedOut && c.external.Some?
    case StillPolling(p) => c.progress <= p <= 99
    case _ => true
  }

  predicate Told(log: seq<Event>, k: int)
    requires 0 <= k < |log|
  {
    Tells(Account(log[..k]), log[k].kind)
  }

  ghost predicate AllTold(log: seq<Event>) {
    forall k | 0 <= k < |log| :: Told(log, k)
  }

  lemma ToldAppend(log: seq<Event>, e: Event)
    requires AllTold(log)
    requires Told(log + [e], |log|)
    ensures AllTold(log + [e])
  {
    forall k | 0 <= k < |log| ensures Told(log + [e], k) {
      assert (log + [e])[..k] == log[..k];
      assert Told(log, k);
    }
  }

  /** The row is what its log says. */
  ghost predicate Accounted(job: Job) {
    ColumnsOf(job.row) == Account(job.log) && AllTold(job.log)
  }


  /** A row that is written shows when: it was alive, first ran, ended or was cancelled. */
  predicate Stamped(a: Row, b: Row, now: Time) {
    b != a ==>
      && b.heartbeatAt == Some(now)
      && (Terminal(b.status) ==> b.finishedAt == Some(now))
      && (b.status == Cancelled ==> b.cancelledAt == Some(now))
      && b.startedAt == (if Terminal(a.status) then None
                         else if b.status == Running && a.startedAt.None? then Some(now)
                         else a.startedAt)
  }

  ghost predicate Wrote(a: Job, b: Job, now: Time) {
    (Accounted(a) ==> Accounted(b)) && Stamped(a.row, b.row, now)
  }

  lemma WroteOne(job: Job, b: Job, e: Event, now: Time)
    requires b.log == job.log + [e] && Stamped(job.row, b.row, now)
    requires var c := ColumnsOf(job.row); ColumnsOf(b.row) == AfterEvent(c, e.kind) && Tells(c, e.kind)
    ensures Wrote(job, b, now)
  {
    if Accounted(job) {
      AccountAppend(job.log, e);
      AppendedLast(job.log, e);
      ToldAppend(job.log, e);
    }
  }

  // ----- one transaction ----------------------------------------------------------

  lemma TimeOutWrites(job: Job, now: Time)
    requires job.row.status == Running
    ensures Wrote(job, After(job, TimeOut(job, now)), now)
  {
    WroteOne(job, After(job, TimeOut(job, now)), Event(TimeoutReached, Move(job.row.status, TimedOut)), now);
  }

  lemma RecoverWrites(job: Job, now: Time)
    requires job.row.status == Running && job.row.startedAt.Some?
    ensures Wrote(job, After(job, RecoverLock(job, now)), now)
  {
    var move := if job.row.external.None? then Move(job.row.status, Pending) else Stay;
    WroteOne(job, After(job, RecoverLock(job, now)), Event(LockRecovered(job.row.external), move), now);
  }

  lemma ScanWrites(job: Job, now: Time, cfg: Settings, locked1: bool, locked2: bool)
    requires RowInv(job.row)
    ensures Wrote(job, After(job, ScanJob(job, now, cfg, locked1, locked2)), now)
  {
    if job.row.status == Running {
      TimeOutWrites(job, now);
      RecoverWrites(job, now);
    }
  }

  lemma ClaimWrites(job: Job, w: WorkerId, now: Time, cfg: Settings)
    requires RowInv(job.row) && Claimable(job.row, now, cfg)
    ensures Wrote(job, After(job, ClaimJob(job, w, now)), now)
  {
    var e := if job.row.status == Pending then Event(JobClaimed(w), Move(Pending, Running))
             else Event(PollClaimed(w), Stay);
    WroteOne(job, After(job, ClaimJob(job, w, now)), e, now);
  }

  lemma BeginWrites(job: Job, w: WorkerId, now: Time)
    requires RowInv(job.row)
    ensures Wrote(job, After(job, BeginProcessing(job, w, now)), now)
  {
    if HeldBy(job.row, w) && job.row.external.None? {
      WroteOne(job, After(job, BeginProcessing(job, w, now)),
               Event(EventKind.Submitting(job.row.attempts + 1), Stay), now);
    }
  }

  lemma SubmissionErrorWrites(job: Job, code: string, retryable: bool, now: Time)
    requires RowInv(job.row) && job.row.status == Running
    ensures Wrote(job, After(job, HandleSubmissionError(job, code, retryable, now)), now)
  {
    var e := if retryable && job.row.attempts < job.row.order.maxAttempts
             then Event(RetryScheduled(code, job.row.attempts), Move(job.row.status, Pending))
             else Event(DeadLettered(code), Move(job.row.status, Failed));
    WroteOne(job, After(job, HandleSubmissionError(job, code, retryable, now)), e, now);
  }

  lemma PollErrorWrites(job: Job, code: string, retryable: bool, now: Time, cfg: Settings)
    requires RowInv(job.row) && job.row.status == Running
    ensures Wrote(job, After(job, HandlePollError(job, code, retryable, now, cfg)), now)
  {
    var e := if retryable then Event(PollErrored(code), Stay)
             else Event(DeadLettered(code), Move(job.row.status, Failed));
    WroteOne(job, After(job, HandlePollError(job, code, retryable, now, cfg)), e, now);
  }

  lemma AcceptedWrites(job: Job, externalId: string, provider: string, now: Time, cfg: Settings)
    requires RowInv(job.row)
    ensures Wrote(job, After(job, SubmissionAccepted(job, externalId, provider, now, cfg)), now)
  {
    if job.row.status == Running {
      WroteOne(job, After(job, SubmissionAccepted(job, externalId, provider, now, cfg)),
               Event(Submitted(provider, externalId), Stay), now);
    }
  }

  lemma ReleaseWrites(job: Job, progress: int, now: Time, cfg: Settings)
    requires RowInv(job.row) && job.row.status == Running
    ensures Wrote(job, ReleaseForPoll(job, progress, now, cfg), now)
  {
    WroteOne(job, ReleaseForPoll(job, progress, now, cfg),
             Event(StillPolling(Max(job.row.progress, Min(progress, 99))), Stay), now);
  }

  lemma SyncWrites(job: Job, count: nat, created: nat, now: Time)
    ensures Wrote(job, job.(log := job.log + [Event(AssetsSynced(count, created), Stay)]), now)
  {
    WroteOne(job, job.(log := job.log + [Event(AssetsSynced(count, created), Stay)]),
             Event(AssetsSynced(count, created), Stay), now);
  }

  lemma SucceedWrites(job: Job, doc: ResultDoc, count: nat, created: nat, now: Time)
    requires RowInv(job.row) && job.row.status == Running && UsableResult(doc)
    ensures Wrote(job, After(job, Succeed(job, doc, count, created, now)), now)
  {
    var synced := job.(log := job.log + [Event(AssetsSynced(count, created), Stay)]);
    SyncWrites(job, count, created, now);
    WroteOne(synced, After(job, Succeed(job, doc, count, created, now)),
             Event(JobSucceeded(|doc.assets.value|), Move(Running, Succeeded)), now);
  }

  lemma FinishPollWrites(job: Job, w: WorkerId, poll: PollResult, count: nat, created: nat, now: Time, cfg: Settings)
    requires RowInv(job.row)
    requires poll.Done? && poll.result.Some? ==> UsableResult(poll.result.value)
    ensures Wrote(job, After(job, FinishPoll(job, w, poll, count, created, now, cfg)), now)
  {
    if HeldBy(job.row, w) {
      match poll
      case InProgress(p) => ReleaseWrites(job, p, now, cfg);
      case Done(None) => PollErrorWrites(job, "MEDIA_RESULT_INVALID", false, now, cfg);
      case Done(Some(doc)) => SucceedWrites(job, doc, count, created, now);
      case ProviderFailed(code, retryable) => SubmissionErrorWrites(job, code, retryable, now);
    }
  }

  lemma AnswerWrites(cfg: Settings, job: Job, a: Action)
    requires RowInv(job.row) && IsAnswer(a)
    ensures Wrote(job, After(job, Answer(cfg, job, a)), a.now)
  {
    if job.row.status == Running {
      match a
      case SubmitFails(w, code, retryable, now) => SubmissionErrorWrites(job, code, retryable, now);
      case SubmitReturns(w, externalId, provider, now) => AcceptedWrites(job, externalId, provider, now, cfg);
      case PollFails(w, code, retryable, now) => PollErrorWrites(job, code, retryable, now, cfg);
      case StorageFails(w, code, retryable, now) => PollErrorWrites(job, code, retryable, now, cfg);
      case HandleUnexpected(w, now) =>
        SubmissionErrorWrites(job, "WORKER_UNEXPECTED_ERROR", true, now);
        PollErrorWrites(job, "WORKER_UNEXPECTED_ERROR", true, now, cfg);
    }
  }

  lemma CancelWrites(job: Job, expected: int, user: UserId, now: Time)
    requires RowInv(job.row)
    ensures Wrote(job, After(job, CancelJob(job, expected, user, now)), now)
  {
    if CancelJob(job, expected, user, now).Commit? {
      WroteOne(job, After(job, CancelJob(job, expected, user, now)),
               Event(CancelledByUser(user), Move(job.row.status, Cancelled)), now);
    }
  }

  lemma RetryWrites(job: Job, expected: int, user: UserId, now: Time)
    requires RowInv(job.row)
    ensures Wrote(job, After(job, RetryJob(job, expected, user, now)), now)
  {
    if RetryJob(job, expected, user, now).Commit? {
      var resumed := job.row.status == TimedOut && job.row.external.Some?;
      WroteOne(job, After(job, RetryJob(job, expected, user, now)),
               Event(ManualRetry(user, resumed), Move(job.row.status, Pending)), now);
    }
  }

  // ----- one step of the system, seen from one job ---------------------------------

  lemma StoreWrites(s: System, i: JobId, o: Outcome, j: JobId, now: Time)
    requires i in s.jobs && j in s.jobs && Wrote(s.jobs[i], After(s.jobs[i], o), now)
    ensures j in Store(s, i, o).jobs && Wrote(s.jobs[j], Store(s, i, o).jobs[j], now)
  {
  }

  lemma FinishWritesIt(cfg: Settings, s: System, w: WorkerId, planOk: bool, now: Time, j: JobId)
    requires j in s.jobs && RowInv(s.jobs[j].row)
    ensures var t := ApplyFinish(cfg, s, w, planOk, now); j in t.jobs && Wrote(s.jobs[j], t.jobs[j], now)
  {
    var pc := PcOf(s, w);
    if pc.Prepared? && pc.job == j && Prepares(pc.poll, pc.files) {
      FinishPollWrites(s.jobs[j], w, pc.poll, 0, 0, now, cfg);
      if pc.poll.Done? && pc.poll.result.Some? {
        var r := Persist(s.assets, j, s.jobs[j].row.order, pc.files, planOk, now);
        if r.Ok? {
          FinishPollWrites(s.jobs[j], w, pc.poll, |pc.files|, Created(s.assets, r.value), now, cfg);
        }
      }
    }
  }

  lemma ApplyClaimWrites(cfg: Settings, s: System, w: WorkerId, i: JobId, now: Time, j: JobId)
    requires j in s.jobs && RowInv(s.jobs[j].row)
    ensures var t := ApplyClaim(cfg, s, w, i, now); j in t.jobs && Wrote(s.jobs[j], t.jobs[j], now)
  {
    if i == j && Claimable(s.jobs[j].row, now, cfg) {
      ClaimWrites(s.jobs[j], w, now, cfg);
    }
  }

  lemma WorkerWrites(cfg: Settings, s: System, a: Action, j: JobId)
    requires j in s.jobs && RowInv(s.jobs[j].row) && (a.Claim? || a.Begin? || a.Finish?)
    ensures var t := Apply(cfg, s, a); j in t.jobs && Wrote(s.jobs[j], t.jobs[j], a.now)
  {
    WorkerIsApplied(cfg, s, a);
    if a.Claim? {
      ApplyClaimWrites(cfg, s, a.w, a.j, a.now, j);
    } else if a.Begin? {
      BeginAt(s, a.w, a.now, j);
      BeginWrites(s.jobs[j], a.w, a.now);
    } else {
      FinishWritesIt(cfg, s, a.w, a.planOk, a.now, j);
    }
  }

  lemma ApplySyncWrites(s: System, i: JobId, files: seq<PreparedAsset>, planOk: bool, now: Time, j: JobId)
    requires j in s.jobs
    ensures var t := ApplySync(s, i, files, planOk, now); j in t.jobs && Wrote(s.jobs[j], t.jobs[j], now)
  {
    forall created: nat ensures Wrote(s.jobs[j], SyncEvent(s.jobs[j], created), now) {
      SyncWrites(s.jobs[j], created, created, now);
    }
  }

  lemma OperatorWrites(cfg: Settings, s: System, a: Action, j: JobId)
    requires JobsOk(s) && j in s.jobs && (a.Scan? || a.Cancel? || a.Retry? || a.Sync?)
    ensures var t := Apply(cfg, s, a); j in t.jobs && Wrote(s.jobs[j], t.jobs[j], a.now)
  {
    OperatorIsApplied(cfg, s, a);
    if a.Scan? {
      ScanWrites(s.jobs[j], a.now, cfg, j in a.locked1, j in a.locked2);
    } else if a.Sync? {
      ApplySyncWrites(s, a.j, a.files, a.planOk, a.now, j);
    } else if a.j in s.jobs {
      if a.Cancel? {
        CancelWrites(s.jobs[a.j], a.expected, a.user, a.now);
        StoreWrites(s, a.j, CancelJob(s.jobs[a.j], a.expected, a.user, a.now), j, a.now);
      } else {
        RetryWrites(s.jobs[a.j], a.expected, a.user, a.now);
        StoreWrites(s, a.j, RetryJob(s.jobs[a.j], a.expected, a.user, a.now), j, a.now);
      }
    }
  }

  lemma WroteNothing(job: Job, now: Time)
    ensures Wrote(job, job, now)
  {
  }

  lemma AnyAnswerWrites(cfg: Settings, s: System, a: Action, j: JobId)
    requires JobsOk(s) && j in s.jobs && IsAnswer(a)
    ensures var t := ApplyAnswer(cfg, s, a); j in t.jobs && Wrote(s.jobs[j], t.jobs[j], a.now)
  {
    AnswerAt(cfg, s, a, j);
    if Awaits(PcOf(s, a.w), a) && PcOf(s, a.w).job == j {
      AnswerWrites(cfg, s.jobs[j], a);
    } else {
      WroteNothing(s.jobs[j], a.now);
    }
  }

  lemma WorkersWrite(cfg: Settings, s: System, a: Action, j: JobId)
    requires JobsOk(s) && j in s.jobs && (IsAnswer(a) || a.Claim? || a.Begin? || a.Finish?)
    ensures var t := Apply(cfg, s, a); j in t.jobs && Wrote(s.jobs[j], t.jobs[j], a.now)
  {
    if IsAnswer(a) {
      AnswerIsApplied(cfg, s, a);
      AnyAnswerWrites(cfg, s, a, j);
    } else {
      WorkerWrites(cfg, s, a, j);
    }
  }

  lemma QuietWrites(cfg: Settings, s: System, a: Action, j: JobId, now: Time)
    requires j in s.jobs && (a.Create? || a.PollReturns? || a.Crash?)
    ensures var t := Apply(cfg, s, a); j in t.jobs && Wrote(s.jobs[j], t.jobs[j], now)
  {
    QuietStep(cfg, s, a, j);
  }

  /** Every step of the system writes rows and logs that agree, and stamps what it writes with its own time. */
  lemma StepWrites(cfg: Settings, s: System, a: Action, j: JobId, now: Time)
    requires JobsOk(s) && j in s.jobs && (a.PollReturns? || a.Crash? || a.now == now)
    ensures var t := Apply(cfg, s, a); j in t.jobs && Wrote(s.jobs[j], t.jobs[j], now)
  {
    if IsAnswer(a) || a.Claim? || a.Begin? || a.Finish? {
      WorkersWrite(cfg, s, a, j);
    } else if a.Scan? || a.Cancel? || a.Retry? || a.Sync? {
      OperatorWrites(cfg, s, a, j);
    } else {
      QuietWrites(cfg, s, a, j, now);
    }
  }

  // ----- whole runs -----------------------------------------------------------------

  ghost predicate AllAccounted(s: System) {
    forall j | j in s.jobs :: Accounted(s.jobs[j])
  }

  lemma NewJobAccounted(order: Order, now: Time)
    ensures Accounted(NewJob(order, now))
  {
    var e := Event(JobCreated, Stay);
    assert NewJob(order, now).log == [] + [e];
    AccountAppend([], e);
    AppendedLast([], e);
  }

  lemma StepKeepsAccount(cfg: Settings, s: System, a: Action)
    requires Inv(s) && AllAccounted(s)
    ensures AllAccounted(Apply(cfg, s, a))
  {
    var t := Apply(cfg, s, a);
    forall j | j in t.jobs ensures Accounted(t.jobs[j]) {
      if j in s.jobs {
        StepWrites(cfg, s, a, j, if a.PollReturns? || a.Crash? then 0 else a.now);
      } else {
        OnlyCreateAdds(cfg, s, a, j);
        NewJobAccounted(a.order, a.now);
      }
    }
  }

  lemma {:induction false} RunKeepsAccount(cfg: Settings, s: System, run: seq<Action>)
    requires Inv(s) && AllAccounted(s)
    ensures AllAccounted(Run(cfg, s, run))
    decreases |run|
  {
    if run != [] {
      StepKeepsInv(cfg, s, run[0]);
      StepKeepsAccount(cfg, s, run[0]);
      RunKeepsAccount(cfg, Apply(cfg, s, run[0]), run[1..]);
    }
  }

  /**
   In every reachable state a job's row is what its events add up to: status, lock, task, provider,
   attempts, progress, error, canceller, result and version.
   */
  lemma RowIsItsLog(cfg: Settings, run: seq<Action>, j: JobId)
    requires j in Run(cfg, Initial, run).jobs
    ensures var job := Run(cfg, Initial, run).jobs[j]; ColumnsOf(job.row) == Account(job.log) && AllTold(job.log)
  {
    RunKeepsInv(cfg, Initial, []);
    ReachableInv(cfg, []);
    RunKeepsAccount(cfg, Initial, run);
  }
}
