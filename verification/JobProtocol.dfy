/**
 The generation queue as a state machine: any number of jobs, workers that may stop at any
 point, scans and operators, interleaved freely. Every action is one database transaction or
 one answer from outside.
 */
module JobProtocol {
  import opened Common
  import opened JobRows
  import opened JobInvariants
  import opened Assets

  /**
   Where a worker is in `process_claimed_job`. `since` is the row version the worker last wrote;
   it is a history variable that no action reads.
   */
  datatype Pc =
    | Idle
    | Claimed(job: JobId, since: int)
    | Submitting(job: JobId, since: int)
    | Polling(job: JobId, since: int, externalId: string)
    | Prepared(job: JobId, since: int, externalId: string, poll: PollResult, files: seq<PreparedAsset>)

  datatype System = System(jobs: map<JobId, Job>, assets: seq<Asset>, workers: map<WorkerId, Pc>)

  datatype Action =
    | Create(j: JobId, order: Order, now: Time)
    | Scan(now: Time, locked1: set<JobId>, locked2: set<JobId>)
    | Claim(w: WorkerId, j: JobId, now: Time)
    | Begin(w: WorkerId, now: Time)
    | SubmitFails(w: WorkerId, code: string, retryable: bool, now: Time)
    | SubmitReturns(w: WorkerId, externalId: string, provider: string, now: Time)
    | PollFails(w: WorkerId, code: string, retryable: bool, now: Time)
    | PollReturns(w: WorkerId, poll: PollResult, files: seq<PreparedAsset>)
    | StorageFails(w: WorkerId, code: string, retryable: bool, now: Time)
    | Finish(w: WorkerId, planOk: bool, now: Time)
    | HandleUnexpected(w: WorkerId, now: Time)
    | Crash(w: WorkerId)
    | Cancel(j: JobId, expected: int, user: UserId, now: Time)
    | Retry(j: JobId, expected: int, user: UserId, now: Time)
    | Sync(j: JobId, files: seq<PreparedAsset>, planOk: bool, now: Time)

  const Initial := System(map[], [], map[])

  function PcOf(s: System, w: WorkerId): Pc {
    if w in s.workers then s.workers[w] else Idle
  }

  function Goto(s: System, w: WorkerId, pc: Pc): System {
    s.(workers := s.workers[w := pc])
  }

  /** The row a transaction leaves behind: an exception rolls it back. */
  function After(job: Job, o: Outcome): Job {
    if o.Commit? then o.job else job
  }

  function Store(s: System, j: JobId, o: Outcome): System
    requires j in s.jobs
  {
    s.(jobs := s.jobs[j := After(s.jobs[j], o)])
  }

  /** Preparation stored one file for each result entry, or there was nothing to prepare. */
  predicate Prepares(poll: PollResult, files: seq<PreparedAsset>) {
    if poll.Done? && poll.result.Some? then
      UsableResult(poll.result.value) && Numbered(files, |poll.result.value.assets.value|)
    else files == []
  }

  /** Rows the persist routine added. */
  function Created(before: seq<Asset>, after: seq<Asset>): nat {
    if |after| >= |before| then |after| - |before| else 0
  }

  function ApplyClaim(cfg: Settings, s: System, w: WorkerId, j: JobId, now: Time): System {
    if !PcOf(s, w).Idle? || j !in s.jobs || !Claimable(s.jobs[j].row, now, cfg) then s
    else match ClaimJob(s.jobs[j], w, now)
         case Commit(job) => Goto(s.(jobs := s.jobs[j := job]), w, Claimed(j, job.row.version))
         case _ => s
  }

  function ApplyBegin(s: System, w: WorkerId, now: Time): System {
    var pc := PcOf(s, w);
    if !pc.Claimed? || pc.job !in s.jobs then s
    else
      var job := s.jobs[pc.job];
      if !HeldBy(job.row, w) then Goto(s, w, Idle)
      else if job.row.external.Some? then Goto(s, w, Polling(pc.job, pc.since, job.row.external.value))
      else match BeginProcessing(job, w, now)
           case Commit(job') => Goto(s.(jobs := s.jobs[pc.job := job']), w, Pc.Submitting(pc.job, job'.row.version))
           case _ => s
  }

  function ApplyFinish(cfg: Settings, s: System, w: WorkerId, planOk: bool, now: Time): System {
    var pc := PcOf(s, w);
    if !pc.Prepared? || pc.job !in s.jobs || !Prepares(pc.poll, pc.files) then s
    else
      var job := s.jobs[pc.job];
      if !HeldBy(job.row, w) then Goto(s, w, Idle)
      else if pc.poll.Done? && pc.poll.result.Some? then
        match Persist(s.assets, pc.job, job.row.order, pc.files, planOk, now)
        case Err(_) => s // the exception reaches the handler of run_once: HandleUnexpected
        case Ok(table) =>
          var created := Created(s.assets, table);
          match FinishPoll(job, w, pc.poll, |pc.files|, created, now, cfg)
          case Commit(job') => Goto(s.(jobs := s.jobs[pc.job := job'], assets := table), w, Idle)
          case _ => s
      else
        Goto(Store(s, pc.job, FinishPoll(job, w, pc.poll, 0, 0, now, cfg)), w, Idle)
  }

  function ApplySync(s: System, j: JobId, files: seq<PreparedAsset>, planOk: bool, now: Time): System {
    if j !in s.jobs || s.jobs[j].row.status != Succeeded || s.jobs[j].row.result.None? ||
       !Prepares(Done(s.jobs[j].row.result), files) then s
    else match Persist(s.assets, j, s.jobs[j].row.order, files, planOk, now)
         case Err(_) => s
         case Ok(table) =>
           var created := Created(s.assets, table);
           s.(assets := table, jobs := s.jobs[j := SyncEvent(s.jobs[j], created)])
  }

  /** The answers and exceptions after which a worker writes its row once and goes idle. */
  predicate IsAnswer(a: Action) {
    a.SubmitFails? || a.SubmitReturns? || a.PollFails? || a.StorageFails? || a.HandleUnexpected?
  }

  predicate Awaits(pc: Pc, a: Action)
    requires IsAnswer(a)
  {
    match a
    case SubmitFails(_, _, _, _) => pc.Submitting?
    case SubmitReturns(_, _, _, _) => pc.Submitting?
    case PollFails(_, _, _, _) => pc.Polling?
    case StorageFails(_, _, _, _) => pc.Polling?
    case HandleUnexpected(_, _) => !pc.Idle?
  }

  function Answer(cfg: Settings, job: Job, a: Action): Outcome
    requires IsAnswer(a)
  {
    match a
    case SubmitFails(w, code, retryable, now) => SubmissionFailed(job, code, retryable, now)
    case SubmitReturns(w, externalId, provider, now) => SubmissionAccepted(job, externalId, provider, now, cfg)
    case PollFails(w, code, retryable, now) => PollFailed(job, code, retryable, now, cfg)
    case StorageFails(w, code, retryable, now) => StorageFailed(job, w, code, retryable, now, cfg)
    case HandleUnexpected(w, now) => Unexpected(job, now, cfg)
  }

  /** One worker transaction after an answer from outside: write the row, then go idle. */
  function Conclude(s: System, w: WorkerId, o: Outcome): System
    requires !PcOf(s, w).Idle? && PcOf(s, w).job in s.jobs
  {
    Goto(Store(s, PcOf(s, w).job, o), w, Idle)
  }

  function ApplyAnswer(cfg: Settings, s: System, a: Action): System
    requires IsAnswer(a)
  {
    var pc := PcOf(s, a.w);
    if !Awaits(pc, a) || pc.job !in s.jobs then s else Conclude(s, a.w, Answer(cfg, s.jobs[pc.job], a))
  }

  function ScanAll(cfg: Settings, jobs: map<JobId, Job>, now: Time, locked1: set<JobId>, locked2: set<JobId>)
    : map<JobId, Job>
  {
    map j | j in jobs :: After(jobs[j], ScanJob(jobs[j], now, cfg, j in locked1, j in locked2))
  }

  /** An action whose precondition does not hold changes nothing. */
  function Apply(cfg: Settings, s: System, a: Action): System {
    match a
    case Create(j, order, now) =>
      if j in s.jobs || order.maxAttempts < 1 then s else s.(jobs := s.jobs[j := NewJob(order, now)])
    case Scan(now, locked1, locked2) =>
      s.(jobs := ScanAll(cfg, s.jobs, now, locked1, locked2))
    case Claim(w, j, now) => ApplyClaim(cfg, s, w, j, now)
    case Begin(w, now) => ApplyBegin(s, w, now)
    case PollReturns(w, poll, files) =>
      var pc := PcOf(s, w);
      if !pc.Polling? || !Prepares(poll, files) then s
      else Goto(s, w, Prepared(pc.job, pc.since, pc.externalId, poll, files))
    case Finish(w, planOk, now) => ApplyFinish(cfg, s, w, planOk, now)
    case Crash(w) => Goto(s, w, Idle)
    case Cancel(j, expected, user, now) =>
      if j !in s.jobs then s else Store(s, j, CancelJob(s.jobs[j], expected, user, now))
    case Retry(j, expected, user, now) =>
      if j !in s.jobs then s else Store(s, j, RetryJob(s.jobs[j], expected, user, now))
    case Sync(j, files, planOk, now) => ApplySync(s, j, files, planOk, now)
    case _ => ApplyAnswer(cfg, s, a)
  }

  function Run(cfg: Settings, s: System, run: seq<Action>): System
    decreases |run|
  {
    if run == [] then s else Run(cfg, Apply(cfg, s, run[0]), run[1..])
  }

  // ----- the inductive invariant ------------------------------------------------

  /** What a worker that still owns its row knows about it. */
  predicate Knows(job: Job, w: WorkerId, pc: Pc)
    requires !pc.Idle?
  {
    match pc
    case Claimed(_, _) =>
      && job.log != [] && IsClaimBy(job.log[|job.log| - 1], w)
      && (job.row.external.None? ==> job.row.attempts < Budget(job))
    case Submitting(_, _) => job.row.external.None?
    case Polling(_, _, e) =>
      job.log != [] && IsClaimBy(job.log[|job.log| - 1], w) && job.row.external == Some(e)
    case Prepared(_, _, e, _, _) =>
      job.log != [] && IsClaimBy(job.log[|job.log| - 1], w) && job.row.external == Some(e)
  }

  /** The lock test and the version test agree, and owning the row means knowing it. */
  predicate Tied(job: Job, w: WorkerId, pc: Pc)
    requires !pc.Idle?
  {
    && pc.since <= job.row.version
    && (HeldBy(job.row, w) <==> pc.since == job.row.version)
    && (pc.since == job.row.version ==> Knows(job, w, pc))
    && (pc.Prepared? ==> Prepares(pc.poll, pc.files))
  }

  predicate WorkerOk(jobs: map<JobId, Job>, w: WorkerId, pc: Pc) {
    pc.Idle? || (pc.job in jobs && Tied(jobs[pc.job], w, pc))
  }

  /** The indices that must have an asset row: all entries of the result, once there is one. */
  function Expected(jobs: map<JobId, Job>, j: JobId): seq<nat> {
    if j in jobs && jobs[j].row.result.Some? && jobs[j].row.result.value.assets.Some?
    then Upto(|jobs[j].row.result.value.assets.value|) else []
  }

  ghost predicate JobsOk(s: System) {
    forall j | j in s.jobs :: JobInv(s.jobs[j])
  }

  ghost predicate WorkersOk(s: System) {
    forall w | w in s.workers :: WorkerOk(s.jobs, w, s.workers[w])
  }

  ghost predicate AssetsOk(s: System) {
    Contiguous(s.assets) && forall j: JobId :: Indices(s.assets, j) == Expected(s.jobs, j)
  }

  ghost predicate Inv(s: System) {
    JobsOk(s) && WorkersOk(s) && AssetsOk(s)
  }

  // ----- preservation -----------------------------------------------------------

  /** A commit that leaves no lock, or the committer's own, ends every other worker's ownership. */
  lemma OthersLoseTheRow(a: Job, b: Job, owner: Option<WorkerId>, w: WorkerId, pc: Pc)
    requires !pc.Idle? && Tied(a, w, pc) && Advances(a, b, owner) && owner != Some(w)
    ensures Tied(b, w, pc)
  {
  }

  /** The workers after one committed row; `owner` and whoever moved must be in order already. */
  lemma CommitKeepsWorkers(s: System, j: JobId, b: Job, owner: Option<WorkerId>, t: System)
    requires WorkersOk(s) && j in s.jobs && Advances(s.jobs[j], b, owner) && t.jobs == s.jobs[j := b]
    requires forall w | w in t.workers && (owner == Some(w) || w !in s.workers || t.workers[w] != s.workers[w]) ::
               WorkerOk(t.jobs, w, t.workers[w])
    ensures WorkersOk(t)
  {
    forall w | w in t.workers && owner != Some(w) && w in s.workers && t.workers[w] == s.workers[w]
      ensures WorkerOk(t.jobs, w, t.workers[w])
    {
      var pc := s.workers[w];
      assert WorkerOk(s.jobs, w, pc);
      if !pc.Idle? && pc.job == j {
        OthersLoseTheRow(s.jobs[j], b, owner, w, pc);
      }
    }
  }

  /** The asset rows fit the results as before when no result changes. */
  lemma SameExpected(s: System, t: System)
    requires AssetsOk(s) && t.assets == s.assets
    requires forall i: JobId :: Expected(t.jobs, i) == Expected(s.jobs, i)
    ensures AssetsOk(t)
  {
  }

  lemma CommitKeepsJobs(s: System, j: JobId, b: Job, t: System)
    requires JobsOk(s) && j in s.jobs && JobInv(b) && t.jobs == s.jobs[j := b]
    ensures JobsOk(t)
  {
  }

  lemma UnfinishedHasNoResult(a: Job, b: Job, owner: Option<WorkerId>)
    requires RowInv(a.row) && Advances(a, b, owner)
    ensures a.row.result.None?
  {
  }

  /** One committed row, and the committing worker's next place. */
  lemma CommitKeepsInv(s: System, j: JobId, b: Job, owner: Option<WorkerId>, t: System)
    requires Inv(s) && j in s.jobs && JobInv(b) && Advances(s.jobs[j], b, owner)
    requires b.row.result.None? && t.assets == s.assets
    requires t.jobs == s.jobs[j := b]
    requires forall w | w in t.workers && (owner == Some(w) || w !in s.workers || t.workers[w] != s.workers[w]) ::
               WorkerOk(t.jobs, w, t.workers[w])
    ensures Inv(t)
  {
    CommitKeepsWorkers(s, j, b, owner, t);
    CommitKeepsJobs(s, j, b, t);
    UnfinishedHasNoResult(s.jobs[j], b, owner);
    SameExpected(s, t);
  }

  lemma StoreKeepsInv(s: System, j: JobId, o: Outcome)
    requires Inv(s) && j in s.jobs && Sound(s.jobs[j], o, None)
    requires o.Commit? ==> o.job.row.status != Succeeded
    ensures Inv(Store(s, j, o))
  {
    if o.Commit? {
      CommitKeepsInv(s, j, o.job, None, Store(s, j, o));
    } else {
      assert Store(s, j, o).jobs == s.jobs;
    }
  }

  lemma GotoKeepsInv(s: System, w: WorkerId, pc: Pc)
    requires Inv(s) && WorkerOk(s.jobs, w, pc)
    ensures Inv(Goto(s, w, pc))
  {
  }

  lemma ConcludeKeepsInv(s: System, w: WorkerId, o: Outcome)
    requires Inv(s) && !PcOf(s, w).Idle? && PcOf(s, w).job in s.jobs
    requires Sound(s.jobs[PcOf(s, w).job], o, None)
    requires o.Commit? ==> o.job.row.status != Succeeded
    ensures Inv(Conclude(s, w, o))
  {
    StoreKeepsInv(s, PcOf(s, w).job, o);
    GotoKeepsInv(Store(s, PcOf(s, w).job, o), w, Idle);
  }

  lemma CreateKeepsInv(cfg: Settings, s: System, j: JobId, order: Order, now: Time)
    requires Inv(s)
    ensures Inv(Apply(cfg, s, Create(j, order, now)))
  {
    if j !in s.jobs && order.maxAttempts >= 1 {
      NewJobInv(order, now);
      var t := Apply(cfg, s, Create(j, order, now));
      assert forall i: JobId :: Expected(t.jobs, i) == Expected(s.jobs, i);
    }
  }

  /** One row of a scan: unchanged, or advanced without gaining a lock or a result. */
  lemma ScannedRow(job: Job, now: Time, cfg: Settings, locked1: bool, locked2: bool)
    requires JobInv(job)
    ensures var b := After(job, ScanJob(job, now, cfg, locked1, locked2));
            JobInv(b) && (b == job || Freed(job, b))
  {
    ScanSound(job, now, cfg, locked1, locked2);
  }

  /** What a scan does to a row that is not left alone. */
  predicate Freed(a: Job, b: Job) {
    Advances(a, b, None) && b.row.result.None? && a.row.result.None?
  }

  lemma ScanKeepsWorkers(s: System, jobs: map<JobId, Job>)
    requires WorkersOk(s) && jobs.Keys == s.jobs.Keys
    requires forall j | j in jobs :: jobs[j] == s.jobs[j] || Freed(s.jobs[j], jobs[j])
    ensures WorkersOk(s.(jobs := jobs))
  {
    forall w | w in s.workers ensures WorkerOk(jobs, w, s.workers[w]) {
      var pc := s.workers[w];
      assert WorkerOk(s.jobs, w, pc);
      if !pc.Idle? && jobs[pc.job] != s.jobs[pc.job] {
        OthersLoseTheRow(s.jobs[pc.job], jobs[pc.job], None, w, pc);
      }
    }
  }

  lemma ScanKeepsAssets(s: System, jobs: map<JobId, Job>)
    requires AssetsOk(s) && jobs.Keys == s.jobs.Keys
    requires forall j | j in jobs :: jobs[j] == s.jobs[j] || Freed(s.jobs[j], jobs[j])
    ensures AssetsOk(s.(jobs := jobs))
  {
    forall j: JobId ensures Expected(jobs, j) == Expected(s.jobs, j) {
    }
    SameExpected(s, s.(jobs := jobs));
  }

  lemma ScanRows(cfg: Settings, s: System, now: Time, locked1: set<JobId>, locked2: set<JobId>)
    requires JobsOk(s)
    ensures var jobs := ScanAll(cfg, s.jobs, now, locked1, locked2);
            && jobs.Keys == s.jobs.Keys
            && (forall j | j in jobs :: JobInv(jobs[j]))
            && (forall j | j in jobs :: jobs[j] == s.jobs[j] || Freed(s.jobs[j], jobs[j]))
  {
    var jobs := ScanAll(cfg, s.jobs, now, locked1, locked2);
    forall j | j in jobs ensures JobInv(jobs[j]) && (jobs[j] == s.jobs[j] || Freed(s.jobs[j], jobs[j])) {
      ScannedRow(s.jobs[j], now, cfg, j in locked1, j in locked2);
    }
  }

  lemma ScanKeepsInv(cfg: Settings, s: System, now: Time, locked1: set<JobId>, locked2: set<JobId>)
    requires Inv(s)
    ensures Inv(s.(jobs := ScanAll(cfg, s.jobs, now, locked1, locked2)))
  {
    var jobs := ScanAll(cfg, s.jobs, now, locked1, locked2);
    ScanRows(cfg, s, now, locked1, locked2);
    ScanKeepsWorkers(s, jobs);
    ScanKeepsAssets(s, jobs);
  }

  lemma ClaimedRow(job: Job, w: WorkerId, j: JobId, now: Time, cfg: Settings)
    requires JobInv(job) && Claimable(job.row, now, cfg)
    ensures var o := ClaimJob(job, w, now);
            && o.Commit? && JobInv(o.job) && Advances(job, o.job, Some(w)) && o.job.row.result.None?
            && Tied(o.job, w, Claimed(j, o.job.row.version))
  {
    ClaimSound(job, w, now, cfg);
    LogAppend(job.log, Event(JobClaimed(w), Move(job.row.status, Running)));
  }

  lemma ClaimKeepsInv(cfg: Settings, s: System, w: WorkerId, j: JobId, now: Time)
    requires Inv(s)
    ensures Inv(ApplyClaim(cfg, s, w, j, now))
  {
    if PcOf(s, w).Idle? && j in s.jobs && Claimable(s.jobs[j].row, now, cfg) {
      ClaimedRow(s.jobs[j], w, j, now, cfg);
      var b := ClaimJob(s.jobs[j], w, now).job;
      MovedKeepsInv(s, j, b, w, Claimed(j, b.row.version));
    }
  }

  /** A worker commits its row and moves to a place that fits it. */
  lemma MovedKeepsInv(s: System, j: JobId, b: Job, w: WorkerId, pc: Pc)
    requires Inv(s) && j in s.jobs && JobInv(b) && Advances(s.jobs[j], b, Some(w)) && b.row.result.None?
    requires !pc.Idle? && pc.job == j && Tied(b, w, pc)
    ensures Inv(Goto(s.(jobs := s.jobs[j := b]), w, pc))
  {
    var t := Goto(s.(jobs := s.jobs[j := b]), w, pc);
    assert WorkerOk(t.jobs, w, pc);
    CommitKeepsInv(s, j, b, Some(w), t);
  }

  lemma BegunRow(job: Job, w: WorkerId, pc: Pc, now: Time)
    requires JobInv(job) && pc.Claimed? && Tied(job, w, pc) && HeldBy(job.row, w) && job.row.external.None?
    ensures var o := BeginProcessing(job, w, now);
            && o.Commit? && JobInv(o.job) && Advances(job, o.job, Some(w)) && o.job.row.result.None?
            && Tied(o.job, w, Pc.Submitting(pc.job, o.job.row.version))
  {
    BeginSound(job, w, now);
  }

  lemma BeginKeepsInv(s: System, w: WorkerId, now: Time)
    requires Inv(s)
    ensures Inv(ApplyBegin(s, w, now))
  {
    var pc := PcOf(s, w);
    if pc.Claimed? {
      assert WorkerOk(s.jobs, w, pc);
      var job := s.jobs[pc.job];
      if !HeldBy(job.row, w) {
        GotoKeepsInv(s, w, Idle);
      } else if job.row.external.Some? {
        GotoKeepsInv(s, w, Polling(pc.job, pc.since, job.row.external.value));
      } else {
        BegunRow(job, w, pc, now);
        var b := BeginProcessing(job, w, now).job;
        MovedKeepsInv(s, pc.job, b, w, Pc.Submitting(pc.job, b.row.version));
      }
    }
  }

  /** The success block: asset rows and job row are written together. */
  lemma SuccessKeepsInv(s: System, w: WorkerId, now: Time, table: seq<Asset>, job': Job)
    requires Inv(s) && PcOf(s, w).Prepared? && PcOf(s, w).job in s.jobs
    requires var pc := PcOf(s, w);
             && pc.poll.Done? && pc.poll.result.Some? && Prepares(pc.poll, pc.files)
             && Persist(s.assets, pc.job, s.jobs[pc.job].row.order, pc.files, true, now) == Ok(table)
             && JobInv(job') && Advances(s.jobs[pc.job], job', None)
             && job'.row.result == pc.poll.result
    ensures Inv(Goto(s.(jobs := s.jobs[PcOf(s, w).job := job'], assets := table), w, Idle))
  {
    var pc := PcOf(s, w);
    var order := s.jobs[pc.job].row.order;
    var t := Goto(s.(jobs := s.jobs[pc.job := job'], assets := table), w, Idle);
    assert Indices(s.assets, pc.job) == [];
    PersistFresh(s.assets, pc.job, order, pc.files, now);
    forall i: JobId ensures Indices(t.assets, i) == Expected(t.jobs, i) {
      PersistEffect(s.assets, pc.job, order, pc.files, true, now, i);
    }
    PersistEffect(s.assets, pc.job, order, pc.files, true, now, pc.job);
    forall v | v in t.workers ensures WorkerOk(t.jobs, v, t.workers[v]) {
      if v != w && !s.workers[v].Idle? && s.workers[v].job == pc.job {
        OthersLoseTheRow(s.jobs[pc.job], job', None, v, s.workers[v]);
      }
    }
  }

  lemma FinishDoneKeepsInv(cfg: Settings, s: System, w: WorkerId, planOk: bool, now: Time)
    requires Inv(s) && PcOf(s, w).Prepared? && PcOf(s, w).job in s.jobs
    requires var pc := PcOf(s, w);
             HeldBy(s.jobs[pc.job].row, w) && pc.poll.Done? && pc.poll.result.Some? && Prepares(pc.poll, pc.files)
    ensures Inv(ApplyFinish(cfg, s, w, planOk, now))
  {
    var pc := PcOf(s, w);
    var job := s.jobs[pc.job];
    var r := Persist(s.assets, pc.job, job.row.order, pc.files, planOk, now);
    if r.Ok? {
      var created := Created(s.assets, r.value);
      DoneRow(cfg, job, w, pc.poll, |pc.files|, created, now);
      SuccessKeepsInv(s, w, now, r.value, FinishPoll(job, w, pc.poll, |pc.files|, created, now, cfg).job);
    }
    FinishDoneApplies(cfg, s, w, planOk, now);
  }

  lemma FinishDoneApplies(cfg: Settings, s: System, w: WorkerId, planOk: bool, now: Time)
    requires PcOf(s, w).Prepared? && PcOf(s, w).job in s.jobs
    requires var pc := PcOf(s, w);
             HeldBy(s.jobs[pc.job].row, w) && pc.poll.Done? && pc.poll.result.Some? && Prepares(pc.poll, pc.files)
    ensures var pc := PcOf(s, w);
            var job := s.jobs[pc.job];
            var r := Persist(s.assets, pc.job, job.row.order, pc.files, planOk, now);
            var t := ApplyFinish(cfg, s, w, planOk, now);
            if r.Err? then t == s
            else
              var created := Created(s.assets, r.value);
              var o := FinishPoll(job, w, pc.poll, |pc.files|, created, now, cfg);
              o.Commit? ==> t == Goto(s.(jobs := s.jobs[pc.job := o.job], assets := r.value), w, Idle)
  {
  }

  /** The job row a successful finishing block writes. */
  lemma DoneRow(cfg: Settings, job: Job, w: WorkerId, poll: PollResult, count: nat, created: nat, now: Time)
    requires JobInv(job) && HeldBy(job.row, w) && poll.Done? && poll.result.Some? && UsableResult(poll.result.value)
    ensures var o := FinishPoll(job, w, poll, count, created, now, cfg);
            o.Commit? && JobInv(o.job) && Advances(job, o.job, None) && o.job.row.result == poll.result
  {
    FinishSound(job, w, poll, count, created, now, cfg);
  }

  lemma FinishKeepsInv(cfg: Settings, s: System, w: WorkerId, planOk: bool, now: Time)
    requires Inv(s)
    ensures Inv(ApplyFinish(cfg, s, w, planOk, now))
  {
    var pc := PcOf(s, w);
    if pc.Prepared? {
      var job := s.jobs[pc.job];
      if HeldBy(job.row, w) {
        if pc.poll.Done? && pc.poll.result.Some? {
          FinishDoneKeepsInv(cfg, s, w, planOk, now);
        } else {
          UndoneRow(cfg, job, w, pc.poll, now);
          ConcludeKeepsInv(s, w, FinishPoll(job, w, pc.poll, 0, 0, now, cfg));
        }
      }
    }
  }

  /** The job row a finishing block writes when there is nothing to store. */
  lemma UndoneRow(cfg: Settings, job: Job, w: WorkerId, poll: PollResult, now: Time)
    requires JobInv(job) && !(poll.Done? && poll.result.Some?)
    ensures var o := FinishPoll(job, w, poll, 0, 0, now, cfg);
            Sound(job, o, None) && (o.Commit? ==> o.job.row.status != Succeeded)
  {
    FinishSound(job, w, poll, 0, 0, now, cfg);
  }

  /** The jobs stay sound even where a sync has rows to create, as it could in a table cut short. */
  lemma SyncKeepsJobs(s: System, j: JobId, files: seq<PreparedAsset>, planOk: bool, now: Time)
    requires JobsOk(s)
    ensures JobsOk(ApplySync(s, j, files, planOk, now))
  {
    if j in s.jobs {
      forall created: nat ensures JobInv(SyncEvent(s.jobs[j], created)) {
        SyncEventInv(s.jobs[j], created);
      }
    }
  }

  lemma SyncKeepsAssets(s: System, j: JobId, files: seq<PreparedAsset>, planOk: bool, now: Time)
    requires AssetsOk(s)
    ensures AssetsOk(ApplySync(s, j, files, planOk, now)) && ApplySync(s, j, files, planOk, now).jobs == s.jobs
  {
    var t := ApplySync(s, j, files, planOk, now);
    if t != s {
      var order := s.jobs[j].row.order;
      assert Indices(s.assets, j) == Expected(s.jobs, j);
      ResyncIsIdempotent(s.assets, j, order, files, now);
      assert |t.assets| == |s.assets|;
      assert t.jobs == s.jobs;
      forall i: JobId ensures Indices(t.assets, i) == Expected(t.jobs, i) {
        PersistEffect(s.assets, j, order, files, planOk, now, i);
      }
      PersistEffect(s.assets, j, order, files, planOk, now, j);
    }
  }

  lemma SyncKeepsInv(s: System, j: JobId, files: seq<PreparedAsset>, planOk: bool, now: Time)
    requires Inv(s)
    ensures Inv(ApplySync(s, j, files, planOk, now))
  {
    SyncKeepsJobs(s, j, files, planOk, now);
    SyncKeepsAssets(s, j, files, planOk, now);
    assert ApplySync(s, j, files, planOk, now).workers == s.workers;
  }

  /** What an answer does to its row is sound, and never a success. */
  lemma AnswerSound(cfg: Settings, job: Job, a: Action)
    requires JobInv(job) && IsAnswer(a)
    ensures var o := Answer(cfg, job, a);
            Sound(job, o, None) && (o.Commit? ==> o.job.row.status != Succeeded)
  {
    match a
    case SubmitFails(w, code, retryable, now) =>
      if job.row.status == Running { SubmissionErrorSound(job, code, retryable, now); }
    case SubmitReturns(w, externalId, provider, now) => AcceptedSound(job, externalId, provider, now, cfg);
    case PollFails(w, code, retryable, now) =>
      if job.row.status == Running { PollErrorSound(job, code, retryable, now, cfg); }
    case StorageFails(w, code, retryable, now) =>
      if job.row.status == Running { PollErrorSound(job, code, retryable, now, cfg); }
    case HandleUnexpected(w, now) => UnexpectedSound(job, now, cfg);
  }

  lemma AnswerKeepsInv(cfg: Settings, s: System, a: Action)
    requires Inv(s) && IsAnswer(a)
    ensures Inv(ApplyAnswer(cfg, s, a))
  {
    var pc := PcOf(s, a.w);
    if !pc.Idle? {
      AnswerSound(cfg, s.jobs[pc.job], a);
      if Awaits(pc, a) {
        ConcludeKeepsInv(s, a.w, Answer(cfg, s.jobs[pc.job], a));
      }
    }
  }

  lemma CancelKeepsInv(s: System, j: JobId, expected: int, user: UserId, now: Time)
    requires Inv(s) && j in s.jobs
    ensures Inv(Store(s, j, CancelJob(s.jobs[j], expected, user, now)))
  {
    CancelSound(s.jobs[j], expected, user, now);
    StoreKeepsInv(s, j, CancelJob(s.jobs[j], expected, user, now));
  }

  lemma RetryKeepsInv(s: System, j: JobId, expected: int, user: UserId, now: Time)
    requires Inv(s) && j in s.jobs
    ensures Inv(Store(s, j, RetryJob(s.jobs[j], expected, user, now)))
  {
    RetrySound(s.jobs[j], expected, user, now);
    StoreKeepsInv(s, j, RetryJob(s.jobs[j], expected, user, now));
  }

  lemma PollReturnsKeepsInv(cfg: Settings, s: System, w: WorkerId, poll: PollResult, files: seq<PreparedAsset>)
    requires Inv(s)
    ensures Inv(Apply(cfg, s, PollReturns(w, poll, files)))
  {
    var pc := PcOf(s, w);
    if pc.Polling? && Prepares(poll, files) {
      assert WorkerOk(s.jobs, w, pc);
      GotoKeepsInv(s, w, Prepared(pc.job, pc.since, pc.externalId, poll, files));
    }
  }

  /** What an answer leaves of one job. */
  lemma AnswerAt(cfg: Settings, s: System, a: Action, j: JobId)
    requires IsAnswer(a) && j in s.jobs
    ensures var pc, t := PcOf(s, a.w), ApplyAnswer(cfg, s, a);
            && j in t.jobs
            && t.jobs[j] == if Awaits(pc, a) && pc.job == j then After(s.jobs[j], Answer(cfg, s.jobs[j], a))
                            else s.jobs[j]
  {
  }

  // ----- one function for each action -------------------------------------------

  lemma AnswerIsApplied(cfg: Settings, s: System, a: Action)
    requires IsAnswer(a)
    ensures Apply(cfg, s, a) == ApplyAnswer(cfg, s, a)
  {
  }

  lemma WorkerIsApplied(cfg: Settings, s: System, a: Action)
    ensures a.Claim? ==> Apply(cfg, s, a) == ApplyClaim(cfg, s, a.w, a.j, a.now)
    ensures a.Begin? ==> Apply(cfg, s, a) == ApplyBegin(s, a.w, a.now)
    ensures a.Finish? ==> Apply(cfg, s, a) == ApplyFinish(cfg, s, a.w, a.planOk, a.now)
    ensures a.Crash? ==> Apply(cfg, s, a) == Goto(s, a.w, Idle)
  {
  }

  lemma OperatorIsApplied(cfg: Settings, s: System, a: Action)
    ensures a.Scan? ==> Apply(cfg, s, a) == s.(jobs := ScanAll(cfg, s.jobs, a.now, a.locked1, a.locked2))
    ensures a.Cancel? ==>
              Apply(cfg, s, a)
              == if a.j in s.jobs then Store(s, a.j, CancelJob(s.jobs[a.j], a.expected, a.user, a.now)) else s
    ensures a.Retry? ==>
              Apply(cfg, s, a)
              == if a.j in s.jobs then Store(s, a.j, RetryJob(s.jobs[a.j], a.expected, a.user, a.now)) else s
    ensures a.Sync? ==> Apply(cfg, s, a) == ApplySync(s, a.j, a.files, a.planOk, a.now)
  {
  }

  lemma WorkerKeepsInv(cfg: Settings, s: System, a: Action)
    requires Inv(s) && (a.Claim? || a.Begin? || a.Finish? || a.Crash?)
    ensures Inv(Apply(cfg, s, a))
  {
    WorkerIsApplied(cfg, s, a);
    if a.Claim? {
      ClaimKeepsInv(cfg, s, a.w, a.j, a.now);
    } else if a.Begin? {
      BeginKeepsInv(s, a.w, a.now);
    } else if a.Finish? {
      FinishKeepsInv(cfg, s, a.w, a.planOk, a.now);
    } else {
      GotoKeepsInv(s, a.w, Idle);
    }
  }

  lemma OperatorKeepsInv(cfg: Settings, s: System, a: Action)
    requires Inv(s) && (a.Scan? || a.Cancel? || a.Retry? || a.Sync?)
    ensures Inv(Apply(cfg, s, a))
  {
    OperatorIsApplied(cfg, s, a);
    if a.Scan? {
      ScanKeepsInv(cfg, s, a.now, a.locked1, a.locked2);
    } else if a.Sync? {
      SyncKeepsInv(s, a.j, a.files, a.planOk, a.now);
    } else if a.j in s.jobs {
      if a.Cancel? {
        CancelKeepsInv(s, a.j, a.expected, a.user, a.now);
      } else {
        RetryKeepsInv(s, a.j, a.expected, a.user, a.now);
      }
    }
  }

  /** Every action keeps the invariant, whatever its arguments and whenever it happens. */
  lemma StepKeepsInv(cfg: Settings, s: System, a: Action)
    requires Inv(s)
    ensures Inv(Apply(cfg, s, a))
  {
    if IsAnswer(a) {
      AnswerIsApplied(cfg, s, a);
      AnswerKeepsInv(cfg, s, a);
    } else if a.Scan? || a.Cancel? || a.Retry? || a.Sync? {
      OperatorKeepsInv(cfg, s, a);
    } else if a.Create? {
      CreateKeepsInv(cfg, s, a.j, a.order, a.now);
    } else if a.PollReturns? {
      PollReturnsKeepsInv(cfg, s, a.w, a.poll, a.files);
    } else {
      WorkerKeepsInv(cfg, s, a);
    }
  }

  lemma {:induction false} RunKeepsInv(cfg: Settings, s: System, run: seq<Action>)
    requires Inv(s)
    ensures Inv(Run(cfg, s, run))
    decreases |run|
  {
    if run != [] {
      StepKeepsInv(cfg, s, run[0]);
      RunKeepsInv(cfg, Apply(cfg, s, run[0]), run[1..]);
    }
  }

  /** Every reachable state satisfies the invariant. */
  lemma ReachableInv(cfg: Settings, run: seq<Action>)
    ensures Inv(Run(cfg, Initial, run))
  {
    RunKeepsInv(cfg, Initial, run);
  }
}
