/** What the generation queue guarantees over whole runs. */
module JobTheorems {
  import opened Common
  import opened JobRows
  import opened JobInvariants
  import opened Assets
  import opened JobProtocol

  // ----- one step, seen from one job --------------------------------------------

  /** A step leaves a row alone or commits it once; finished-for-good rows are never written. */
  predicate RowStep(a: Job, b: Job) {
    && a.log <= b.log
    && b.row.order == a.row.order
    && (b.row == a.row ||
        (&& a.row.status !in {Succeeded, Cancelled}
         && b.row.version == a.row.version + 1
         && (b.row.progress >= a.row.progress ||
             Count(b.log, IsManualRetry) == Count(a.log, IsManualRetry) + 1)))
  }

  lemma StoreStep(s: System, i: JobId, o: Outcome, j: JobId)
    requires i in s.jobs && j in s.jobs && Sound(s.jobs[i], o, None)
    ensures j in Store(s, i, o).jobs && RowStep(s.jobs[j], Store(s, i, o).jobs[j])
  {
  }

  lemma FinishStep(cfg: Settings, s: System, w: WorkerId, planOk: bool, now: Time, j: JobId)
    requires JobsOk(s) && j in s.jobs
    ensures var t := ApplyFinish(cfg, s, w, planOk, now); j in t.jobs && RowStep(s.jobs[j], t.jobs[j])
  {
    var pc := PcOf(s, w);
    if pc.Prepared? && pc.job == j && Prepares(pc.poll, pc.files) {
      FinishWrites(cfg, s, w, planOk, now);
    }
  }

  /** The finishing block commits to its own row, or not at all. */
  lemma FinishWrites(cfg: Settings, s: System, w: WorkerId, planOk: bool, now: Time)
    requires var pc := PcOf(s, w);
             pc.Prepared? && pc.job in s.jobs && JobInv(s.jobs[pc.job]) && Prepares(pc.poll, pc.files)
    ensures var pc := PcOf(s, w);
            var t := ApplyFinish(cfg, s, w, planOk, now);
            pc.job in t.jobs && (t.jobs[pc.job] == s.jobs[pc.job] || Advances(s.jobs[pc.job], t.jobs[pc.job], None))
  {
    var pc := PcOf(s, w);
    var job := s.jobs[pc.job];
    if pc.poll.Done? && pc.poll.result.Some? {
      var r := Persist(s.assets, pc.job, job.row.order, pc.files, planOk, now);
      if r.Ok? {
        var created := Created(s.assets, r.value);
        FinishSound(job, w, pc.poll, |pc.files|, created, now, cfg);
      }
    } else {
      FinishSound(job, w, pc.poll, 0, 0, now, cfg);
    }
  }

  lemma AnswerStep(cfg: Settings, s: System, a: Action, j: JobId)
    requires JobsOk(s) && j in s.jobs && IsAnswer(a)
    ensures var t := ApplyAnswer(cfg, s, a); j in t.jobs && RowStep(s.jobs[j], t.jobs[j])
  {
    var pc := PcOf(s, a.w);
    if Awaits(pc, a) && pc.job in s.jobs {
      AnswerSound(cfg, s.jobs[pc.job], a);
      StoreStep(s, pc.job, Answer(cfg, s.jobs[pc.job], a), j);
    }
  }

  lemma ClaimStep(cfg: Settings, s: System, w: WorkerId, i: JobId, now: Time, j: JobId)
    requires JobsOk(s) && j in s.jobs
    ensures var t := ApplyClaim(cfg, s, w, i, now); j in t.jobs && RowStep(s.jobs[j], t.jobs[j])
  {
    if i in s.jobs && Claimable(s.jobs[i].row, now, cfg) {
      ClaimSound(s.jobs[i], w, now, cfg);
    }
  }

  lemma BeginStep(s: System, w: WorkerId, now: Time, j: JobId)
    requires JobsOk(s) && WorkersOk(s) && j in s.jobs
    ensures var t := ApplyBegin(s, w, now); j in t.jobs && RowStep(s.jobs[j], t.jobs[j])
  {
    var pc := PcOf(s, w);
    BeginAt(s, w, now, j);
    if pc.Claimed? && pc.job == j && HeldBy(s.jobs[j].row, w) && s.jobs[j].row.external.None? {
      assert WorkerOk(s.jobs, w, pc);
      BegunRow(s.jobs[j], w, pc, now);
    }
  }

  lemma BeginAt(s: System, w: WorkerId, now: Time, j: JobId)
    requires j in s.jobs
    ensures var pc, t := PcOf(s, w), ApplyBegin(s, w, now);
            && j in t.jobs
            && t.jobs[j] == if pc.Claimed? && pc.job == j then After(s.jobs[j], BeginProcessing(s.jobs[j], w, now))
                            else s.jobs[j]
  {
  }

  lemma SyncStep(s: System, i: JobId, files: seq<PreparedAsset>, planOk: bool, now: Time, j: JobId)
    requires j in s.jobs
    ensures var t := ApplySync(s, i, files, planOk, now); j in t.jobs && RowStep(s.jobs[j], t.jobs[j])
  {
  }

  lemma CancelStep(s: System, i: JobId, expected: int, user: UserId, now: Time, j: JobId)
    requires JobsOk(s) && i in s.jobs && j in s.jobs
    ensures var t := Store(s, i, CancelJob(s.jobs[i], expected, user, now));
            j in t.jobs && RowStep(s.jobs[j], t.jobs[j])
  {
    CancelSound(s.jobs[i], expected, user, now);
    StoreStep(s, i, CancelJob(s.jobs[i], expected, user, now), j);
  }

  lemma RetryStep(s: System, i: JobId, expected: int, user: UserId, now: Time, j: JobId)
    requires JobsOk(s) && i in s.jobs && j in s.jobs
    ensures var t := Store(s, i, RetryJob(s.jobs[i], expected, user, now));
            j in t.jobs && RowStep(s.jobs[j], t.jobs[j])
  {
    RetrySound(s.jobs[i], expected, user, now);
    StoreStep(s, i, RetryJob(s.jobs[i], expected, user, now), j);
  }

  lemma ScanStep(cfg: Settings, s: System, now: Time, locked1: set<JobId>, locked2: set<JobId>, j: JobId)
    requires JobsOk(s) && j in s.jobs
    ensures var jobs := ScanAll(cfg, s.jobs, now, locked1, locked2); j in jobs && RowStep(s.jobs[j], jobs[j])
  {
    ScanSound(s.jobs[j], now, cfg, j in locked1, j in locked2);
  }

  lemma QuietStep(cfg: Settings, s: System, a: Action, j: JobId)
    requires j in s.jobs && (a.Create? || a.PollReturns? || a.Crash?)
    ensures var t := Apply(cfg, s, a); j in t.jobs && t.jobs[j] == s.jobs[j]
  {
  }

  lemma WorkerStep(cfg: Settings, s: System, a: Action, j: JobId)
    requires JobsOk(s) && WorkersOk(s) && j in s.jobs && (a.Claim? || a.Begin? || a.Finish?)
    ensures var t := Apply(cfg, s, a); j in t.jobs && RowStep(s.jobs[j], t.jobs[j])
  {
    WorkerIsApplied(cfg, s, a);
    if a.Claim? {
      ClaimStep(cfg, s, a.w, a.j, a.now, j);
    } else if a.Begin? {
      BeginStep(s, a.w, a.now, j);
    } else {
      FinishStep(cfg, s, a.w, a.planOk, a.now, j);
    }
  }

  lemma OperatorStep(cfg: Settings, s: System, a: Action, j: JobId)
    requires JobsOk(s) && j in s.jobs && (a.Scan? || a.Cancel? || a.Retry? || a.Sync?)
    ensures var t := Apply(cfg, s, a); j in t.jobs && RowStep(s.jobs[j], t.jobs[j])
  {
    OperatorIsApplied(cfg, s, a);
    if a.Scan? {
      ScanStep(cfg, s, a.now, a.locked1, a.locked2, j);
    } else if a.Sync? {
      SyncStep(s, a.j, a.files, a.planOk, a.now, j);
    } else if a.j in s.jobs {
      if a.Cancel? {
        CancelStep(s, a.j, a.expected, a.user, a.now, j);
      } else {
        RetryStep(s, a.j, a.expected, a.user, a.now, j);
      }
    }
  }

  lemma StepIsRowStep(cfg: Settings, s: System, a: Action, j: JobId)
    requires JobsOk(s) && WorkersOk(s) && j in s.jobs
    ensures var t := Apply(cfg, s, a); j in t.jobs && RowStep(s.jobs[j], t.jobs[j])
  {
    if IsAnswer(a) {
      AnswerIsApplied(cfg, s, a);
      AnswerStep(cfg, s, a, j);
    } else if a.Claim? || a.Begin? || a.Finish? {
      WorkerStep(cfg, s, a, j);
    } else if a.Scan? || a.Cancel? || a.Retry? || a.Sync? {
      OperatorStep(cfg, s, a, j);
    } else {
      QuietStep(cfg, s, a, j);
    }
  }

  /**
   Along any run: the pinned order never changes, the log only grows, the version never falls,
   and a version that comes back is the very same row.
   */
  lemma {:induction false} VersionsIdentifyRows(cfg: Settings, s: System, run: seq<Action>, j: JobId)
    requires Inv(s) && j in s.jobs
    ensures var t := Run(cfg, s, run);
            && j in t.jobs
            && t.jobs[j].row.order == s.jobs[j].row.order
            && s.jobs[j].log <= t.jobs[j].log
            && s.jobs[j].row.version <= t.jobs[j].row.version
            && (t.jobs[j].row.version == s.jobs[j].row.version ==> t.jobs[j].row == s.jobs[j].row)
    decreases |run|
  {
    if run != [] {
      StepIsRowStep(cfg, s, run[0], j);
      StepKeepsInv(cfg, s, run[0]);
      VersionsIdentifyRows(cfg, Apply(cfg, s, run[0]), run[1..], j);
    }
  }

  /** A succeeded or cancelled row is never written again, whatever is still in flight. */
  lemma {:induction false} SettledForGood(cfg: Settings, s: System, run: seq<Action>, j: JobId)
    requires Inv(s) && j in s.jobs && s.jobs[j].row.status in {Succeeded, Cancelled}
    ensures var t := Run(cfg, s, run); j in t.jobs && t.jobs[j].row == s.jobs[j].row
    decreases |run|
  {
    if run != [] {
      StepIsRowStep(cfg, s, run[0], j);
      StepKeepsInv(cfg, s, run[0]);
      SettledForGood(cfg, Apply(cfg, s, run[0]), run[1..], j);
    }
  }

  lemma {:induction false} RunAppend(cfg: Settings, s: System, first: seq<Action>, second: seq<Action>)
    ensures Run(cfg, s, first + second) == Run(cfg, Run(cfg, s, first), second)
    decreases |first|
  {
    if first == [] {
      assert first + second == second;
    } else {
      assert (first + second)[0] == first[0] && (first + second)[1..] == first[1..] + second;
      RunAppend(cfg, Apply(cfg, s, first[0]), first[1..], second);
    }
  }

  // ----- theorems about reachable states ----------------------------------------

  /** The row, its log and its counters agree in every reachable state. */
  lemma ReachableJob(cfg: Settings, run: seq<Action>, j: JobId)
    requires j in Run(cfg, Initial, run).jobs
    ensures var job := Run(cfg, Initial, run).jobs[j];
            && RowInv(job.row)
            && job.row.version == |job.log| - Count(job.log, IsSync)
            && Replay(job.log) == job.row.status && LegalPath(job.log)
  {
    ReachableInv(cfg, run);
  }

  /** Attempts are submissions, and only lock recoveries of jobs without attempts left add to the limit. */
  lemma AttemptsBounded(cfg: Settings, run: seq<Action>, j: JobId)
    requires j in Run(cfg, Initial, run).jobs
    ensures var job := Run(cfg, Initial, run).jobs[j];
            var limit := job.row.order.maxAttempts;
            && job.row.attempts == Count(job.log, IsSubmitting)
            && job.row.attempts <= limit + RequeuesAtLimit(job.log, limit)
            && RequeuesAtLimit(job.log, limit) <= Count(job.log, IsRequeue)
            && (Count(job.log, IsRequeue) == 0 ==> job.row.attempts <= limit)
  {
    ReachableInv(cfg, run);
    var job := Run(cfg, Initial, run).jobs[j];
    AtLimitIsRequeue(job.log, job.row.order.maxAttempts);
  }

  /**
   For a worker in the middle of a job, "the row is running and locked by me" holds exactly when
   nobody has committed to the row since that worker last did: the lock check is a compare-and-swap
   on the version.
   */
  lemma LockTestIsCompareAndSwap(cfg: Settings, run: seq<Action>, w: WorkerId)
    requires !PcOf(Run(cfg, Initial, run), w).Idle?
    ensures var s := Run(cfg, Initial, run);
            var pc := PcOf(s, w);
            pc.job in s.jobs && (HeldBy(s.jobs[pc.job].row, w) <==> s.jobs[pc.job].row.version == pc.since)
  {
    ReachableInv(cfg, run);
  }

  lemma StoreNoSuccess(s: System, i: JobId, o: Outcome, j: JobId)
    requires i in s.jobs && j in s.jobs && s.jobs[j].row.status != Succeeded
    requires o.Commit? ==> o.job.row.status != Succeeded
    ensures j in Store(s, i, o).jobs && Store(s, i, o).jobs[j].row.status != Succeeded
  {
  }

  lemma AnswerNoSuccess(cfg: Settings, s: System, a: Action, j: JobId)
    requires JobsOk(s) && j in s.jobs && s.jobs[j].row.status != Succeeded && IsAnswer(a)
    ensures j in ApplyAnswer(cfg, s, a).jobs && ApplyAnswer(cfg, s, a).jobs[j].row.status != Succeeded
  {
    AnswerAt(cfg, s, a, j);
    AnswerSound(cfg, s.jobs[j], a);
  }

  lemma ScanNoSuccess(job: Job, now: Time, cfg: Settings, locked1: bool, locked2: bool)
    requires job.row.status != Succeeded
    ensures After(job, ScanJob(job, now, cfg, locked1, locked2)).row.status != Succeeded
  {
  }

  lemma OperatorNoSuccess(cfg: Settings, s: System, a: Action, j: JobId)
    requires j in s.jobs && s.jobs[j].row.status != Succeeded && (a.Cancel? || a.Retry? || a.Scan? || a.Sync?)
    ensures j in Apply(cfg, s, a).jobs && Apply(cfg, s, a).jobs[j].row.status != Succeeded
  {
    OperatorIsApplied(cfg, s, a);
    if a.Scan? {
      ScanNoSuccess(s.jobs[j], a.now, cfg, j in a.locked1, j in a.locked2);
    } else if !a.Sync? && a.j in s.jobs {
      var o := if a.Cancel? then CancelJob(s.jobs[a.j], a.expected, a.user, a.now)
               else RetryJob(s.jobs[a.j], a.expected, a.user, a.now);
      StoreNoSuccess(s, a.j, o, j);
    }
  }

  lemma ClaimNoSuccess(cfg: Settings, s: System, w: WorkerId, i: JobId, now: Time, j: JobId)
    requires j in s.jobs && s.jobs[j].row.status != Succeeded
    ensures var t := ApplyClaim(cfg, s, w, i, now); j in t.jobs && t.jobs[j].row.status != Succeeded
  {
  }

  lemma BeginNoSuccess(s: System, w: WorkerId, now: Time, j: JobId)
    requires j in s.jobs && s.jobs[j].row.status != Succeeded
    ensures var t := ApplyBegin(s, w, now); j in t.jobs && t.jobs[j].row.status != Succeeded
  {
  }

  /** A step that is no finishing block leaves a job unsuccessful. */
  lemma NoOtherSuccess(cfg: Settings, s: System, a: Action, j: JobId)
    requires JobsOk(s) && j in s.jobs && s.jobs[j].row.status != Succeeded && !a.Finish?
    ensures j in Apply(cfg, s, a).jobs && Apply(cfg, s, a).jobs[j].row.status != Succeeded
  {
    if IsAnswer(a) {
      AnswerIsApplied(cfg, s, a);
      AnswerNoSuccess(cfg, s, a, j);
    } else if a.Cancel? || a.Retry? || a.Scan? || a.Sync? {
      OperatorNoSuccess(cfg, s, a, j);
    } else if a.Claim? || a.Begin? {
      WorkerIsApplied(cfg, s, a);
      if a.Claim? {
        ClaimNoSuccess(cfg, s, a.w, a.j, a.now, j);
      } else {
        BeginNoSuccess(s, a.w, a.now, j);
      }
    } else {
      QuietStep(cfg, s, a, j);
    }
  }

  /** Only the last block of processing turns a job into a success. */
  lemma OnlyFinishSucceeds(cfg: Settings, s: System, a: Action, j: JobId)
    requires JobsOk(s) && j in s.jobs && s.jobs[j].row.status != Succeeded
    requires j in Apply(cfg, s, a).jobs && Apply(cfg, s, a).jobs[j].row.status == Succeeded
    ensures a.Finish? && PcOf(s, a.w).Prepared? && PcOf(s, a.w).job == j && HeldBy(s.jobs[j].row, a.w)
    ensures PcOf(s, a.w).poll == Done(Apply(cfg, s, a).jobs[j].row.result)
  {
    if !a.Finish? {
      NoOtherSuccess(cfg, s, a, j);
    } else {
      WorkerIsApplied(cfg, s, a);
      FinishSucceeds(cfg, s, a.w, a.planOk, a.now, j);
    }
  }

  lemma FinishSucceeds(cfg: Settings, s: System, w: WorkerId, planOk: bool, now: Time, j: JobId)
    requires j in s.jobs && s.jobs[j].row.status != Succeeded
    ensures var t := ApplyFinish(cfg, s, w, planOk, now);
            var pc := PcOf(s, w);
            j in t.jobs && t.jobs[j].row.status == Succeeded ==>
              && pc.Prepared? && pc.job == j && HeldBy(s.jobs[j].row, w)
              && pc.poll == Done(t.jobs[j].row.result)
  {
  }

  /**
   Fencing. When any action turns a job into a success, it is the finishing block of a worker whose
   claim is the last thing that happened to the job, and the external id it polled is the recorded one.
   */
  lemma SuccessIsFenced(cfg: Settings, run: seq<Action>, a: Action, j: JobId)
    requires var s := Run(cfg, Initial, run);
             && j in s.jobs && s.jobs[j].row.status != Succeeded
             && j in Apply(cfg, s, a).jobs && Apply(cfg, s, a).jobs[j].row.status == Succeeded
    ensures var s := Run(cfg, Initial, run);
            && a.Finish? && PcOf(s, a.w).Prepared? && PcOf(s, a.w).job == j
            && s.jobs[j].row.version == PcOf(s, a.w).since
            && s.jobs[j].row.external == Some(PcOf(s, a.w).externalId)
            && s.jobs[j].log != [] && IsClaimBy(s.jobs[j].log[|s.jobs[j].log| - 1], a.w)
  {
    ReachableInv(cfg, run);
    OnlyFinishSucceeds(cfg, Run(cfg, Initial, run), a, j);
  }

  /** Between a claim and the success it leads to, the row did not change at all. */
  lemma RowUnchangedSinceClaim(cfg: Settings, before: seq<Action>, w: WorkerId, j: JobId, claimed: Time,
                               between: seq<Action>, a: Action)
    requires var s := Run(cfg, Initial, before + [Claim(w, j, claimed)]);
             var t := Run(cfg, s, between);
             && j in s.jobs && PcOf(s, w) == Claimed(j, s.jobs[j].row.version)
             && !PcOf(t, w).Idle? && PcOf(t, w).job == j && PcOf(t, w).since == s.jobs[j].row.version
             && j in t.jobs && t.jobs[j].row.status != Succeeded
             && a.Finish? && a.w == w
             && j in Apply(cfg, t, a).jobs && Apply(cfg, t, a).jobs[j].row.status == Succeeded
    ensures var s := Run(cfg, Initial, before + [Claim(w, j, claimed)]);
            Run(cfg, s, between).jobs[j].row == s.jobs[j].row
  {
    var first := before + [Claim(w, j, claimed)];
    var s := Run(cfg, Initial, first);
    ReachableInv(cfg, first);
    RunKeepsInv(cfg, s, between);
    OnlyFinishSucceeds(cfg, Run(cfg, s, between), a, j);
    VersionsIdentifyRows(cfg, s, between, j);
  }

  /** An operator's cancel or retry that passes the version check acts on exactly the row the operator saw. */
  lemma OperatorActsOnWhatItSaw(cfg: Settings, run: seq<Action>, later: seq<Action>, j: JobId, user: UserId, now: Time)
    requires j in Run(cfg, Initial, run).jobs
    ensures var s := Run(cfg, Initial, run);
            var t := Run(cfg, s, later);
            && j in t.jobs
            && (CancelJob(t.jobs[j], s.jobs[j].row.version, user, now).Commit? ==> t.jobs[j].row == s.jobs[j].row)
            && (RetryJob(t.jobs[j], s.jobs[j].row.version, user, now).Commit? ==> t.jobs[j].row == s.jobs[j].row)
  {
    ReachableInv(cfg, run);
    VersionsIdentifyRows(cfg, Run(cfg, Initial, run), later, j);
  }

  /** A job has asset rows exactly when it succeeded: one for each entry of its result, in order. */
  lemma AssetsIffSucceeded(cfg: Settings, run: seq<Action>, j: JobId)
    requires j in Run(cfg, Initial, run).jobs
    ensures var s := Run(cfg, Initial, run);
            var r := s.jobs[j].row;
            && (r.status == Succeeded ==>
                  r.result.Some? && UsableResult(r.result.value) &&
                  Indices(s.assets, j) == Upto(|r.result.value.assets.value|))
            && (r.status != Succeeded ==> Indices(s.assets, j) == [])
  {
    ReachableInv(cfg, run);
    assert Indices(Run(cfg, Initial, run).assets, j) == Expected(Run(cfg, Initial, run).jobs, j);
  }

  /** After a committed cancel, no action still in flight writes the row or creates an asset for the job. */
  lemma CancelIsFinal(cfg: Settings, run: seq<Action>, later: seq<Action>, j: JobId)
    requires j in Run(cfg, Initial, run).jobs && Run(cfg, Initial, run).jobs[j].row.status == Cancelled
    ensures var s := Run(cfg, Initial, run);
            var t := Run(cfg, s, later);
            j in t.jobs && t.jobs[j].row == s.jobs[j].row && Indices(t.assets, j) == []
  {
    ReachableInv(cfg, run);
    SettledForGood(cfg, Run(cfg, Initial, run), later, j);
    RunAppend(cfg, Initial, run, later);
    AssetsIffSucceeded(cfg, run + later, j);
  }

  /** Over any mix of successes and manual syncs, each (plan, type) has the versions 1..n, each once. */
  lemma AssetVersionsContiguous(cfg: Settings, run: seq<Action>, planId: nat, kind: JobKind, v: int)
    ensures var table := Run(cfg, Initial, run).assets;
            && (1 <= v <= GroupCount(table, planId, kind) <==> exists p :: VersionAt(table, p, planId, kind, v))
            && forall p, q :: VersionAt(table, p, planId, kind, v) && VersionAt(table, q, planId, kind, v) ==> p == q
  {
    ReachableInv(cfg, run);
    var table := Run(cfg, Initial, run).assets;
    VersionsAreOneToN(table, planId, kind, v);
    forall p, q | VersionAt(table, p, planId, kind, v) && VersionAt(table, q, planId, kind, v) ensures p == q {
      if p < q {
        VersionsIncrease(table, p, q, planId, kind);
      } else if q < p {
        VersionsIncrease(table, q, p, planId, kind);
      }
    }
  }

  lemma SyncEffect(s: System, j: JobId, files: seq<PreparedAsset>, planOk: bool, now: Time)
    requires AssetsOk(s)
    ensures var t := ApplySync(s, j, files, planOk, now);
            t.jobs == s.jobs && |t.assets| == |s.assets| && Keeps(s.assets, t.assets)
  {
    if ApplySync(s, j, files, planOk, now) != s {
      assert Indices(s.assets, j) == Expected(s.jobs, j);
      ResyncIsIdempotent(s.assets, j, s.jobs[j].row.order, files, now);
    }
  }

  /** A manual sync of a reachable job never creates a row and never records an event. */
  lemma SyncCreatesNothing(cfg: Settings, run: seq<Action>, j: JobId, files: seq<PreparedAsset>, planOk: bool,
                           now: Time)
    ensures var s := Run(cfg, Initial, run);
            var t := Apply(cfg, s, Sync(j, files, planOk, now));
            t.jobs == s.jobs && |t.assets| == |s.assets| && Keeps(s.assets, t.assets)
  {
    ReachableInv(cfg, run);
    SyncEffect(Run(cfg, Initial, run), j, files, planOk, now);
  }

  /** No step removes an asset row or changes its plan, type, version or checksum. */
  lemma StepKeepsAssets(cfg: Settings, s: System, a: Action)
    requires AssetsOk(s)
    ensures Keeps(s.assets, Apply(cfg, s, a).assets)
  {
    if a.Sync? {
      OperatorIsApplied(cfg, s, a);
      SyncEffect(s, a.j, a.files, a.planOk, a.now);
    } else if a.Finish? {
      WorkerIsApplied(cfg, s, a);
      FinishKeepsAssets(cfg, s, a.w, a.planOk, a.now);
    } else {
      OthersLeaveAssets(cfg, s, a);
    }
  }

  lemma OthersLeaveAssets(cfg: Settings, s: System, a: Action)
    requires !a.Sync? && !a.Finish?
    ensures Apply(cfg, s, a).assets == s.assets
  {
  }

  lemma FinishKeepsAssets(cfg: Settings, s: System, w: WorkerId, planOk: bool, now: Time)
    requires AssetsOk(s)
    ensures Keeps(s.assets, ApplyFinish(cfg, s, w, planOk, now).assets)
  {
    var pc := PcOf(s, w);
    if pc.Prepared? && pc.job in s.jobs {
      PersistEffect(s.assets, pc.job, s.jobs[pc.job].row.order, pc.files, planOk, now, pc.job);
    }
  }

  lemma {:induction false} RunKeepsAssets(cfg: Settings, s: System, run: seq<Action>)
    requires Inv(s)
    ensures Keeps(s.assets, Run(cfg, s, run).assets)
    decreases |run|
  {
    if run != [] {
      StepKeepsAssets(cfg, s, run[0]);
      StepKeepsInv(cfg, s, run[0]);
      RunKeepsAssets(cfg, Apply(cfg, s, run[0]), run[1..]);
    }
  }

  /**
   However long after the success, a manual sync is accepted exactly when it delivers the content the
   worker recorded at that success.
   */
  lemma SyncAcceptsWhatTheWorkerStored(cfg: Settings, run: seq<Action>, a: Action, j: JobId, later: seq<Action>,
                                       files: seq<PreparedAsset>, again: Time)
    requires var s := Run(cfg, Initial, run);
             && j in s.jobs && s.jobs[j].row.status != Succeeded
             && j in Apply(cfg, s, a).jobs && Apply(cfg, s, a).jobs[j].row.status == Succeeded
             && a.Finish? && PcOf(s, a.w).Prepared? && Numbered(files, |PcOf(s, a.w).files|)
    ensures var stored := PcOf(Run(cfg, Initial, run), a.w).files;
            var t := Run(cfg, Apply(cfg, Run(cfg, Initial, run), a), later);
            && j in t.jobs
            && (Persist(t.assets, j, t.jobs[j].row.order, files, true, again).Ok? <==>
                forall k | 0 <= k < |stored| :: files[k].checksum == stored[k].checksum)
  {
    var s := Run(cfg, Initial, run);
    ReachableInv(cfg, run);
    OnlyFinishSucceeds(cfg, s, a, j);
    WorkerIsApplied(cfg, s, a);
    StepKeepsInv(cfg, s, a);
    FinishRecords(cfg, s, a.w, a.planOk, a.now, j);
    SyncAfter(cfg, s, j, PcOf(s, a.w).files, a.now, Apply(cfg, s, a), later, files, again);
  }

  lemma SyncAfter(cfg: Settings, s: System, j: JobId, stored: seq<PreparedAsset>, now: Time, s': System,
                  later: seq<Action>, files: seq<PreparedAsset>, again: Time)
    requires AssetsOk(s) && j in s.jobs && s.jobs[j].row.result.None? && Numbered(files, |stored|)
    requires Inv(s') && j in s'.jobs && s'.jobs[j].row.status == Succeeded
    requires s'.jobs[j].row.order == s.jobs[j].row.order
    requires Persist(s.assets, j, s.jobs[j].row.order, stored, true, now) == Ok(s'.assets)
    requires s'.jobs[j].row.result.Some? && s'.jobs[j].row.result.value.assets.Some?
    requires Numbered(stored, |s'.jobs[j].row.result.value.assets.value|)
    ensures var t := Run(cfg, s', later);
            && j in t.jobs
            && (Persist(t.assets, j, t.jobs[j].row.order, files, true, again).Ok? <==>
                forall k | 0 <= k < |stored| :: files[k].checksum == stored[k].checksum)
  {
    var t := Run(cfg, s', later);
    RunKeepsInv(cfg, s', later);
    RunKeepsAssets(cfg, s', later);
    SettledForGood(cfg, s', later, j);
    assert Indices(s.assets, j) == Expected(s.jobs, j) == [];
    assert Indices(t.assets, j) == Expected(t.jobs, j);
    SyncAcceptsRecordedContent(s.assets, j, s.jobs[j].row.order, stored, now, t.assets, files, again);
  }

  /** What a successful finishing block left in the asset table and in the result column. */
  lemma FinishRecords(cfg: Settings, s: System, w: WorkerId, planOk: bool, now: Time, j: JobId)
    requires JobsOk(s) && j in s.jobs && s.jobs[j].row.status != Succeeded
    requires PcOf(s, w).Prepared? && PcOf(s, w).job == j && PcOf(s, w).poll.Done?
    requires var t := ApplyFinish(cfg, s, w, planOk, now);
             j in t.jobs && t.jobs[j].row.status == Succeeded && PcOf(s, w).poll.result == t.jobs[j].row.result
    ensures var t := ApplyFinish(cfg, s, w, planOk, now);
            var files := PcOf(s, w).files;
            && Persist(s.assets, j, s.jobs[j].row.order, files, true, now) == Ok(t.assets)
            && t.jobs[j].row.order == s.jobs[j].row.order
            && t.jobs[j].row.result.Some? && t.jobs[j].row.result.value.assets.Some?
            && Numbered(files, |t.jobs[j].row.result.value.assets.value|)
  {
  }

  /** `ClaimableAfterScan` for any job of any reachable state and any scan, whatever rows it has to skip. */
  lemma OpenJobAfterScan(cfg: Settings, run: seq<Action>, now: Time, locked1: set<JobId>, locked2: set<JobId>, j: JobId)
    requires j in Run(cfg, Initial, run).jobs && !Terminal(Run(cfg, Initial, run).jobs[j].row.status)
    ensures var before := Run(cfg, Initial, run).jobs[j].row;
            var t := Apply(cfg, Run(cfg, Initial, run), Scan(now, locked1, locked2));
            && j in t.jobs && before.nextRunAt.Some?
            && (t.jobs[j].row.status == TimedOut ||
                (Claimable(t.jobs[j].row, now, cfg) <==>
                 && LeaseOver(before, now, cfg)
                 && ((j !in locked2 && StaleLock(before, now, cfg)) ||
                     (before.nextRunAt.value <= now && (before.status == Pending || before.external.Some?)))))
            && (j !in locked1 && j !in locked2 ==>
                t.jobs[j].row.status == TimedOut ||
                (Claimable(t.jobs[j].row, now, cfg) <==>
                 && !Stranded(t.jobs[j].row)
                 && LeaseOver(before, now, cfg)
                 && (before.lockedAt.None? ==> before.nextRunAt.value <= now)))
  {
    ReachableInv(cfg, run);
    ClaimableAfterScan(Run(cfg, Initial, run).jobs[j], now, cfg, j in locked1, j in locked2);
  }

  // ----- when the limit on attempts is exceeded -----------------------------------

  /**
   `attempts > max_attempts` holds exactly when a submission follows a lock recovery that requeued the
   job although it had made `max_attempts` attempts already: the check the recovery branch lacks.
   */
  lemma LimitExceededExactlyWhen(cfg: Settings, run: seq<Action>, j: JobId)
    requires j in Run(cfg, Initial, run).jobs
    ensures var job := Run(cfg, Initial, run).jobs[j];
            job.row.attempts > job.row.order.maxAttempts <==>
            exists k, m :: SubmittedPastLimit(job.log, job.row.order.maxAttempts, k, m)
  {
    ReachableInv(cfg, run);
    var job := Run(cfg, Initial, run).jobs[j];
    PastLimitCounts(job.log, job.row.order.maxAttempts);
    PastLimitMeans(job.log, job.row.order.maxAttempts);
  }
}
