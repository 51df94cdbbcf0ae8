/**
 What the record of a job says, field by field: whose request it is, which worker ran it, which
 error it carries and when it finished. And what a download is answered because of it.
 */
module Records {
  import opened Common
  import opened Messages
  import opened Pool
  import opened Scheduling
  import opened SchedulingTheorems
  import opened Outcomes
  import opened Jobs
  import opened Lifecycle
  import opened LifecycleSafety
  import opened LifecycleSteps
  import opened LifecycleTheorems
  import opened LifecycleExact
  import opened OverflowExact

  // ------------------------------------------------------------------
  // What one event writes
  // ------------------------------------------------------------------

  /** The record of job `j` after event `e`, when it is still stored. Only these events touch it. */
  ghost predicate Rewritten(s: System, e: Event, j: JobId, job: Record, job': Record) {
    if e.Mark? && Marks(s, e.h, j) then
      job' == job.(status := FAILED, finishedAt := Some(s.now), error := Some(QUEUE_FULL))
    else if e.Forget? && e.d < |s.downloads| && s.downloads[e.d].id == j then
      job' == job.(audioPath := None)
    else if !IsCallback(e) || e.id != j || j >= |s.a.reqs| || !s.a.reqs[j].phase.SlotReturned() then job' == job
    else
      var p := s.a.reqs[j].phase;
      match e
      case CallbackRuns(_) =>
        p.w < |s.a.pool| && job' == job.(status := RUNNING, startedAt := Some(s.now - p.ms / 1000.0),
            workerId := s.a.pool[p.w].workerId, gpu := s.a.pool[p.w].gpu)
      case CallbackFails(_) =>
        p.outcome.Result? && p.outcome.error.Some?
        && job' == job.(status := FAILED, finishedAt := Some(s.now), error := p.outcome.error)
      case CallbackEnds(_) =>
        job' == job.(status := DONE, finishedAt := Some(s.now), audioPath := Some(PathOf(s, j)))
      case _ => job' == job
  }

  lemma RecordAfter(k: Setup, s: System, e: Event, j: JobId)
    requires SysInv(k, s) && Allowed(k, s, e) && j in s.jobs && j in After(k, s, e).jobs && j < |s.a.reqs|
    ensures Rewritten(s, e, j, s.jobs[j], After(k, s, e).jobs[j])
  {
    InvLengths(k, s);
    hide SysInv, Enabled, Apply;
    if IsCallback(e) {
      CallbackRecord(k, s, e, j);
    } else {
      OtherRecord(k, s, e, j);
    }
  }

  lemma CallbackRecord(k: Setup, s: System, e: Event, j: JobId)
    requires Allowed(k, s, e) && IsCallback(e) && j in s.jobs && j in After(k, s, e).jobs && j < |s.a.reqs|
    ensures Rewritten(s, e, j, s.jobs[j], After(k, s, e).jobs[j])
  {
    hide Enabled, Apply;
  }

  lemma OtherRecord(k: Setup, s: System, e: Event, j: JobId)
    requires Allowed(k, s, e) && !IsCallback(e) && j in s.jobs && j in After(k, s, e).jobs && j < |s.a.reqs|
    ensures Rewritten(s, e, j, s.jobs[j], After(k, s, e).jobs[j])
  {
    hide Enabled, Apply;
  }

  // ------------------------------------------------------------------
  // What every record says
  // ------------------------------------------------------------------

  /** The error is that of the outcome once the callback recorded it, or that of the overflow if the batch marked it. */
  predicate ErrorFits(p: Phase, marked: bool, error: Option<string>) {
    var failed := p.Finished? && Failing(p);
    if marked then error == Some(QUEUE_FULL) || (failed && error == p.outcome.error)
    else error == if failed then p.outcome.error else None
  }

  /** Worker and start are recorded when the callback begins, and name the worker that served the request. */
  predicate WorkerFits(pool: seq<Slot>, p: Phase, job: Record) {
    if Early(p) then job.startedAt.None? && job.workerId == "" && job.gpu == -1
    else
      && p.w < |pool| && job.startedAt.Some?
      && job.workerId == pool[p.w].workerId && job.gpu == pool[p.w].gpu
  }

  ghost predicate RecordFits(pool: seq<Slot>, e: Entry, marked: bool, job: Record) {
    && (e.spec.payload.Speech? ==>
          IsPreview(job.textPreview, e.spec.payload.text) && job.language == e.spec.payload.language)
    && job.speakerId == e.spec.speakerId
    && ErrorFits(e.phase, marked, job.error)
    && (job.finishedAt.Some? <==> marked || e.phase.Finished?)
    && WorkerFits(pool, e.phase, job)
  }

  /** The record of job `j`, if it has one, fits; and its callback crashed only without a true error. */
  ghost predicate JobRecord(k: Setup, s: System, j: JobId) {
    IsJob(s, j) && j < |s.life| ==>
      && (s.a.reqs[j].phase.Crashed? ==> !Failing(s.a.reqs[j].phase))
      && (j in s.jobs ==> RecordFits(k.c.pool, s.a.reqs[j], WasMarked(s, j), s.jobs[j]))
  }

  lemma SameWorkers(k: Setup, s: System)
    requires SysInv(k, s)
    ensures |s.a.pool| == |k.c.pool|
    ensures forall w :: 0 <= w < |k.c.pool| ==>
              s.a.pool[w].workerId == k.c.pool[w].workerId && s.a.pool[w].gpu == k.c.pool[w].gpu
  {
    hide Handlers, Views, Known, Slots, Places, Desked, NoLostWakeup, Mail;
  }

  /** The phase moves, the marking and the writing of one event keep a record fitting. */
  lemma RewrittenFits(k: Setup, s: System, e: Event, j: JobId, s': System)
    requires j < |s.a.reqs| && j < |s'.a.reqs| && s'.a.reqs[j].spec == s.a.reqs[j].spec
    requires |s.a.pool| == |k.c.pool|
             && forall w :: 0 <= w < |k.c.pool| ==>
                  s.a.pool[w].workerId == k.c.pool[w].workerId && s.a.pool[w].gpu == k.c.pool[w].gpu
    requires WasMarked(s', j) <==> WasMarked(s, j) || (e.Mark? && Marks(s, e.h, j))
    requires var p, p' := s.a.reqs[j].phase, s'.a.reqs[j].phase;
             if IsCallback(e) && e.id == j then RightStage(e, p) && p' == CallbackPhase(e, p)
             else p' == p || (!e.Mark? && Early(p) && Early(p'))
    requires j in s.jobs && j in s'.jobs && Rewritten(s, e, j, s.jobs[j], s'.jobs[j])
    requires RecordFits(k.c.pool, s.a.reqs[j], WasMarked(s, j), s.jobs[j])
    ensures RecordFits(k.c.pool, s'.a.reqs[j], WasMarked(s', j), s'.jobs[j])
  {
    hide WasMarked, Marks, IsPreview;
  }

  lemma RecordStep(k: Setup, s: System, e: Event, j: JobId)
    requires SysInv(k, s) && Allowed(k, s, e) && IsJob(s, j) && JobRecord(k, s, j)
    ensures JobRecord(k, After(k, s, e), j)
  {
    hide SysInv, Enabled, Apply, After, Allowed, RecordFits, Rewritten, WasMarked;
    InvLengths(k, s);
    GrowsStep(k, s, e, j);
    PhaseAfter(k, s, e, j);
    if IsCallback(e) && e.id == j {
      CallbackOutcome(k, s, e);
    }
    if j in After(k, s, e).jobs {
      StoredBefore(k, s, e, j);
      RecordAfter(k, s, e, j);
      MarkedAfter(k, s, e, j);
      SameWorkers(k, s);
      RewrittenFits(k, s, e, j, After(k, s, e));
    }
  }

  lemma RecordBirth(k: Setup, s: System, e: Event, j: JobId)
    requires SysInv(k, s) && Allowed(k, s, e) && |s.a.reqs| <= j && IsJob(After(k, s, e), j)
    ensures JobRecord(k, After(k, s, e), j)
  {
    hide SysInv, Enabled, Apply;
    InvLengths(k, s);
    if e.Call? {
      CallBirth(k, s, e.act, j);
    } else if !e.Create? {
      RequestsFixed(k, s, e);
    }
  }

  /** Over every run and for every job, of an overflowed batch or not. */
  lemma {:induction false} RecordsInRun(k: Setup, r: seq<System>, n: nat, j: JobId)
    requires SysRun(k, r) && n < |r|
    ensures JobRecord(k, r[n], j)
  {
    hide SysInv, Allowed, JobRecord, After;
    if n == 0 {
      NoRecordsYet(k, r[0], j);
    } else {
      RecordsInRun(k, r, n - 1, j);
      RunKeepsInv(k, r, n - 1);
      assert SysNext(k, r[n - 1], r[n - 1 + 1]);
      var e :| Allowed(k, r[n - 1], e) && r[n] == After(k, r[n - 1], e);
      if IsJob(r[n - 1], j) {
        RecordStep(k, r[n - 1], e, j);
      } else {
        NewJobRecord(k, r[n - 1], e, j);
      }
    }
  }

  lemma NoRecordsYet(k: Setup, s: System, j: JobId)
    requires Lifecycle.Start(k, s)
    ensures JobRecord(k, s, j)
  {
  }

  lemma NewJobRecord(k: Setup, s: System, e: Event, j: JobId)
    requires SysInv(k, s) && Allowed(k, s, e) && !IsJob(s, j)
    ensures JobRecord(k, After(k, s, e), j)
  {
    hide SysInv, Allowed, After;
    InvLengths(k, s);
    if IsJob(After(k, s, e), j) {
      if j < |s.a.reqs| {
        GrowsStep(k, s, e, j);
      } else {
        RecordBirth(k, s, e, j);
      }
    }
  }

  // ------------------------------------------------------------------
  // The outcome decides the record
  // ------------------------------------------------------------------

  /** A job that is no stray is marked exactly when it is the item that overflowed and the marking is over. */
  lemma MarkedIffRefused(k: Setup, s: System, j: JobId)
    requires SysInv(k, s) && IsJob(s, j) && !Stray(s, j)
    ensures WasMarked(s, j) <==> s.a.reqs[j].phase.Refused? && !BeingMarked(s, j)
  {
    hide Inv, Views;
    WhereEmployed(k, s, j);
    assert HandlerOk(s, s.life[j].handler);
  }

  /**
   In every run, the stored record of a job that is no stray is FAILED with the error of its outcome if
   that is a true one, DONE without an error if not, and FAILED with the overflow error if the queue had
   no room for it. It has a finish time exactly when it is terminal, and a true error exactly when FAILED.
   */
  lemma OutcomeDecides(k: Setup, r: seq<System>, n: nat, j: JobId)
    requires SysRun(k, r) && n < |r| && IsJob(r[n], j) && j in r[n].jobs && !Stray(r[n], j)
    ensures var job, p := r[n].jobs[j], r[n].a.reqs[j].phase;
            && (p.Finished? && Failing(p) ==> job.status == FAILED && job.error == p.outcome.error)
            && (p.Finished? && !Failing(p) ==> job.status == DONE && job.error == None)
            && (!p.Finished? && job.status == FAILED ==> p.Refused? && job.error == Some(QUEUE_FULL))
            && (job.finishedAt.Some? <==> job.Terminal()) && (Truthy(job.error) <==> job.status == FAILED)
            && (!Truthy(job.error) ==> job.error == None)
  {
    hide SysRun, SysInv, AudioOk, TimeOk;
    ViewInRun(k, r, n, j);
    RunKeepsInv(k, r, n);
    RecordsInRun(k, r, n, j);
    MarkedIffRefused(k, r[n], j);
    OverflowSpeaks();
    hide WasMarked, Stray, BeingMarked;
  }

  /** A stored job's record names its own text, language and speaker, and the worker that ran it. */
  lemma OwnRecord(k: Setup, r: seq<System>, n: nat, j: JobId)
    requires SysRun(k, r) && n < |r| && IsJob(r[n], j) && j in r[n].jobs
    ensures var job, e := r[n].jobs[j], r[n].a.reqs[j];
            && (e.spec.payload.Speech? ==>
                  IsPreview(job.textPreview, e.spec.payload.text) && job.language == e.spec.payload.language)
            && job.speakerId == e.spec.speakerId
            && (job.startedAt.Some? <==> !Early(e.phase))
            && (job.startedAt.Some? ==>
                  && e.phase.Dispatched() && e.phase.w < |k.c.pool|
                  && job.workerId == k.c.pool[e.phase.w].workerId && job.gpu == k.c.pool[e.phase.w].gpu)
            && (job.error.Some? ==>
                  || job.error == Some(QUEUE_FULL)
                  || (e.phase.Concluded() && e.phase.outcome.Result? && job.error == e.phase.outcome.error))
  {
    hide SysRun, SysInv, IsPreview;
    ViewInRun(k, r, n, j);
    RecordsInRun(k, r, n, j);
  }

  // ------------------------------------------------------------------
  // A job whose worker stays silent
  // ------------------------------------------------------------------

  /**
   From the moment its collector times out, a job never crashes, writes no file, and once its
   callback has run its record is FAILED with the time-out's error.
   */
  lemma SilentJobFails(k: Setup, r: seq<System>, i: nat, n: nat, j: JobId, t: real)
    requires SysRun(k, r) && i < n < |r| && IsJob(r[i], j)
    requires Allowed(k, r[i], Call(TimeOut(j, t))) && r[i + 1] == After(k, r[i], Call(TimeOut(j, t)))
    ensures IsJob(r[n], j)
    ensures var p := r[n].a.reqs[j].phase;
            && p.Concluded() && p.outcome == Failure(Job, j, NO_RESPONSE) && !p.Saved? && !p.Crashed?
            && PathOf(r[n], j) !in r[n].files
            && (p.Finished? && j in r[n].jobs && !Stray(r[n], j) ==>
                  r[n].jobs[j].status == FAILED && r[n].jobs[j].error == Some(NO_RESPONSE))
  {
    hide SysInv, SysRun, Enabled, Apply, JobRecord, ViewOk;
    SilentOutcome(k, r, i, n, j, t);
    SilenceIsFailure(Job, j);
    RecordsInRun(k, r, n, j);
    ViewInRun(k, r, n, j);
    SilentView(k, r[n], j);
    if r[n].a.reqs[j].phase.Finished? && j in r[n].jobs && !Stray(r[n], j) {
      OutcomeDecides(k, r, n, j);
    }
  }

  lemma SilentOutcome(k: Setup, r: seq<System>, i: nat, n: nat, j: JobId, t: real)
    requires SysRun(k, r) && i < n < |r| && IsJob(r[i], j)
    requires Allowed(k, r[i], Call(TimeOut(j, t))) && r[i + 1] == After(k, r[i], Call(TimeOut(j, t)))
    ensures IsJob(r[n], j) && r[n].a.reqs[j].phase.Concluded()
    ensures r[n].a.reqs[j].phase.outcome == Failure(Job, j, NO_RESPONSE)
  {
    hide SysInv, SysRun, Enabled, Apply, Run;
    ScheduleOfRun(k, r);
    var q := Schedules(r);
    PhasesAdvanceInRun(k.c, q, i, n, j);
    SilenceStays(k.c, q, i, n, j, t);
  }

  /** A failed outcome leaves no file and no crash. */
  lemma SilentView(k: Setup, s: System, j: JobId)
    requires IsJob(s, j) && j < |s.life| && Failing(s.a.reqs[j].phase)
    requires JobRecord(k, s, j) && ViewOk(k, ViewOf(s, j), j, s.now, s.swept)
    ensures !s.a.reqs[j].phase.Saved? && !s.a.reqs[j].phase.Crashed? && PathOf(s, j) !in s.files
  {
  }

  // ------------------------------------------------------------------
  // What a download is answered
  // ------------------------------------------------------------------

  /**
   The answers of a download, for a job that is no stray: 409 exactly until its trace is terminal, 500 once it
   FAILED, 410 once a download has cleared its path, 404 exactly when its record is gone, 500 for a DONE job only
   while a download has unlinked the file, and 200 otherwise.
   */
  lemma AudioAnswers(k: Setup, r: seq<System>, n: nat, j: JobId)
    requires SysRun(k, r) && n < |r| && IsJob(r[n], j) && !Stray(r[n], j)
    ensures j < |r[n].life| && r[n].life[j].trace != []
    ensures var s, code := r[n], AudioStatus(r[n].jobs, r[n].files, j); var last := Last(s.life[j].trace);
            && (code == 409 <==> !IsTerminal(last))
            && (code == 404 <==> j !in s.jobs)
            && (last == FAILED && j in s.jobs ==> code == 500)
            && (code == 410 <==> last == DONE && j in s.jobs && |s.life[j].paths| == 2)
            && (code == 500 ==> last == FAILED || Download(j, Removed) in s.downloads)
            && (code == 200 ==> last == DONE && PathOf(s, j) in s.files)
            && code in {200, 404, 409, 410, 500}
  {
    ViewInRun(k, r, n, j);
    hide SysRun, TimeOk;
  }

  /** Once a job FAILED, a download is answered 500 until its record is evicted and 404 from then on. */
  lemma FailedForGood(k: Setup, r: seq<System>, i: nat, n: nat, j: JobId)
    requires SysRun(k, r) && i <= n < |r| && IsJob(r[i], j) && !Stray(r[n], j)
    requires j < |r[i].life| && r[i].life[j].trace != [] && Last(r[i].life[j].trace) == FAILED
    ensures AudioStatus(r[n].jobs, r[n].files, j) == if j in r[n].jobs then 500 else 404
  {
    hide SysRun, SysInv;
    GrowsInRun(k, r, i, n, j);
    TerminalIsFinal(k, r, i, n, j);
    AudioAnswers(k, r, n, j);
  }

  /** A record that is gone was removed by a sweep that found it expired. */
  lemma {:induction false} GoneByEviction(k: Setup, r: seq<System>, i: nat, n: nat, j: JobId) returns (m: nat)
    requires SysRun(k, r) && i <= n < |r| && j in r[i].jobs && j !in r[n].jobs
    ensures i <= m < n && j in r[m].jobs && j !in r[m + 1].jobs
    ensures r[m].jobs[j].Terminal() && FinishTime(r[m].jobs[j]) < r[m].now - k.ttl
    decreases n - i
  {
    hide SysInv, Allowed, After;
    if j !in r[i + 1].jobs {
      assert SysNext(k, r[i], r[i + 1]);
      var e :| Allowed(k, r[i], e) && r[i + 1] == After(k, r[i], e);
      RemovedBySweep(k, r[i], e, j);
      m := i;
    } else {
      m := GoneByEviction(k, r, i + 1, n, j);
    }
  }

  lemma RemovedBySweep(k: Setup, s: System, e: Event, j: JobId)
    requires Allowed(k, s, e) && j in s.jobs && j !in After(k, s, e).jobs
    ensures e.Sweep? && s.jobs[j].Terminal() && FinishTime(s.jobs[j]) < s.now - k.ttl
  {
    hide Enabled, Apply;
  }
}
