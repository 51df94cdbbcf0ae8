/** What every run of the whole system guarantees about jobs, files and records. */
module LifecycleTheorems {
  import opened Common
  import opened Messages
  import opened Scheduling
  import opened SchedulingTheorems
  import opened Jobs
  import opened Lifecycle
  import opened LifecycleSafety
  import opened LifecycleSteps

  ghost predicate SysNext(k: Setup, s: System, s': System) {
    exists e :: Allowed(k, s, e) && s' == After(k, s, e)
  }

  ghost predicate SysRun(k: Setup, r: seq<System>) {
    && r != [] && Lifecycle.Start(k, r[0])
    && forall i :: 0 <= i < |r| - 1 ==> SysNext(k, r[i], r[i + 1])
  }

  lemma {:induction false} RunKeepsInv(k: Setup, r: seq<System>, i: nat)
    requires SysRun(k, r) && i < |r|
    ensures SysInv(k, r[i]) && k.slack >= 0.0
  {
    hide SysInv, Allowed;
    if i == 0 {
      StartInOrder(k, r[0]);
    } else {
      RunKeepsInv(k, r, i - 1);
      assert SysNext(k, r[i - 1], r[i - 1 + 1]);
      var e :| Allowed(k, r[i - 1], e) && r[i] == After(k, r[i - 1], e);
      EventStep(k, r[i - 1], e);
    }
  }

  // ------------------------------------------------------------------
  // The scheduling protocol inside the system
  // ------------------------------------------------------------------

  lemma AdvanceProjects(k: Setup, s: System, id: JobId, to: Phase)
    requires Enabled(k.c, s.a, Advance(id, to))
    ensures Next(k.c, s.a, SetReqPhase(s, id, to).a)
  {
  }

  predicate IsCallback(e: Event) {
    e.CallbackRuns? || e.CallbackFails? || e.CallbackSaves? || e.SaveRaises? || e.CallbackEnds?
  }

  /** The stage a callback event leads to. */
  function CallbackPhase(e: Event, p: Phase): Phase
    requires IsCallback(e) && p.SlotReturned()
  {
    if e.CallbackRuns? then Running(p.w, p.outcome, p.ms)
    else if e.CallbackSaves? then Saved(p.w, p.outcome, p.ms)
    else if e.SaveRaises? then Crashed(p.w, p.outcome, p.ms)
    else Finished(p.w, p.outcome, p.ms)
  }

  lemma CallbackProjects(k: Setup, s: System, e: Event)
    requires SysInv(k, s) && Allowed(k, s, e)
    requires IsCallback(e)
    ensures Next(k.c, s.a, After(k, s, e).a)
  {
    hide SysInv;
    AdvanceProjects(k, s, e.id, CallbackPhase(e, s.a.reqs[e.id].phase));
  }

  lemma Projects(k: Setup, s: System, e: Event)
    requires SysInv(k, s) && Allowed(k, s, e)
    ensures var s' := After(k, s, e);
            s'.a == s.a || Next(k.c, s.a, s'.a)
  {
    hide SysInv, Next, Apply;
    match e {
      case Create(h) =>
        CreateProjects(k, s, h);
      case Submit(h) =>
        SubmitProjects(k, s, h);
      case Call(act) =>
        CallProjects(k, s, act);
      case CallbackRuns(id) =>
        CallbackProjects(k, s, e);
      case CallbackFails(id) =>
        CallbackProjects(k, s, e);
      case CallbackSaves(id) =>
        CallbackProjects(k, s, e);
      case SaveRaises(id) =>
        CallbackProjects(k, s, e);
      case CallbackEnds(id) =>
        CallbackProjects(k, s, e);
      case _ =>
    }
  }

  lemma CreateProjects(k: Setup, s: System, h: nat)
    requires Allowed(k, s, Create(h))
    ensures Next(k.c, s.a, Created(k, s, h).a)
  {
    var hd := s.handlers[h];
    assert Apply(k.c, s.a, Arrive(hd.items[|hd.ids|])) == Created(k, s, h).a;
  }

  lemma SubmitProjects(k: Setup, s: System, h: nat)
    requires Allowed(k, s, Submit(h))
    ensures Next(k.c, s.a, Submitted(k, s, h).a)
  {
    hide Apply;
  }

  lemma CallProjects(k: Setup, s: System, act: Action)
    requires Allowed(k, s, Call(act))
    ensures Next(k.c, s.a, Called(k, s, act).a)
  {
    hide Apply, Enabled;
  }

  function Schedules(r: seq<System>): seq<Sched> {
    seq(|r|, i requires 0 <= i < |r| => r[i].a)
  }

  /** Every run of the system is, seen from the scheduler, a run of the scheduling protocol. */
  lemma ScheduleOfRun(k: Setup, r: seq<System>)
    requires SysRun(k, r)
    ensures Run(k.c, Schedules(r))
  {
    hide SysInv, Allowed, Init;
    var q := Schedules(r);
    assert Init(k.c, q[0]);
    forall i | 0 <= i < |q| - 1
      ensures q[i + 1] == q[i] || Next(k.c, q[i], q[i + 1])
    {
      RunKeepsInv(k, r, i);
      assert SysNext(k, r[i], r[i + 1]);
      var e :| Allowed(k, r[i], e) && r[i + 1] == After(k, r[i], e);
      Projects(k, r[i], e);
    }
  }

  // ------------------------------------------------------------------
  // Histories only grow
  // ------------------------------------------------------------------

  ghost predicate Grows(s: System, s': System, j: JobId) {
    && j < |s.life| && j < |s'.life| && j < |s.a.reqs| && j < |s'.a.reqs|
    && s'.a.reqs[j].spec == s.a.reqs[j].spec
    && s.life[j].trace <= s'.life[j].trace && s.life[j].paths <= s'.life[j].paths
    && (s.a.reqs[j].spec.kind == Job && Stray(s, j) ==> Stray(s', j))
  }

  lemma GrowsStep(k: Setup, s: System, e: Event, j: JobId)
    requires SysInv(k, s) && Allowed(k, s, e) && j < |s.life|
    ensures Grows(s, After(k, s, e), j)
  {
    InvLengths(k, s);
    hide SysInv, Enabled, Apply, Grows;
    match e {
      case Call(act) =>
        CallMoves(k, s, act, j);
        CallGrows(k, s, act, j);
      case Submit(h) =>
        SubmitGrows(k, s, h, j);
      case Create(h) =>
        CreateGrows(k, s, h, j);
      case Mark(h) =>
        MarkGrows(k, s, h, j);
      case _ =>
        RestGrows(k, s, e, j);
    }
  }

  lemma RestGrows(k: Setup, s: System, e: Event, j: JobId)
    requires Allowed(k, s, e) && j < |s.life| == |s.a.reqs|
    requires !e.Call? && !e.Submit? && !e.Create? && !e.Mark?
    ensures Grows(s, After(k, s, e), j)
  {
    if IsCallback(e) {
      CallbackGrows(k, s, e, j);
    } else {
      AsideGrows(k, s, e, j);
    }
  }

  lemma CallbackGrows(k: Setup, s: System, e: Event, j: JobId)
    requires Allowed(k, s, e) && j < |s.life| == |s.a.reqs| && IsCallback(e)
    ensures Grows(s, After(k, s, e), j)
  {
    hide Enabled, Apply, MarkRunning, MarkDone, MarkFailed;
  }

  lemma AsideGrows(k: Setup, s: System, e: Event, j: JobId)
    requires Allowed(k, s, e) && j < |s.life| == |s.a.reqs|
    requires !e.Call? && !e.Submit? && !e.Create? && !e.Mark? && !IsCallback(e)
    ensures Grows(s, After(k, s, e), j)
  {
    hide Enabled, Apply, ClearAudioPath, Unexpired, ExpiredFiles;
  }

  lemma CallGrows(k: Setup, s: System, act: Action, j: JobId)
    requires Allowed(k, s, Call(act)) && j < |s.life| == |s.a.reqs|
    requires var a' := Apply(k.c, s.a, act); j < |a'.reqs| && a'.reqs[j].spec == s.a.reqs[j].spec
    ensures Grows(s, Called(k, s, act), j)
  {
    hide Apply, Enabled;
  }

  lemma CreateGrows(k: Setup, s: System, h: nat, j: JobId)
    requires Allowed(k, s, Create(h)) && j < |s.life| == |s.a.reqs|
    ensures Grows(s, Created(k, s, h), j)
  {
  }

  lemma MarkGrows(k: Setup, s: System, h: nat, j: JobId)
    requires Allowed(k, s, Mark(h)) && j < |s.life| == |s.a.reqs|
    ensures Grows(s, Marked(s, h), j)
  {
    hide Enabled, MarkFailed;
  }

  lemma SubmitGrows(k: Setup, s: System, h: nat, j: JobId)
    requires Allowed(k, s, Submit(h)) && j < |s.life| == |s.a.reqs|
    ensures Grows(s, Submitted(k, s, h), j)
  {
  }

  lemma {:induction false} GrowsInRun(k: Setup, r: seq<System>, i: nat, n: nat, j: JobId)
    requires SysRun(k, r) && i <= n < |r| && j < |r[i].life|
    ensures Grows(r[i], r[n], j)
    decreases n
  {
    hide SysInv, Allowed;
    RunKeepsInv(k, r, i);
    if i == n {
      InvLengths(k, r[i]);
    } else {
      GrowsInRun(k, r, i, n - 1, j);
      RunKeepsInv(k, r, n - 1);
      assert SysNext(k, r[n - 1], r[n - 1 + 1]);
      var e :| Allowed(k, r[n - 1], e) && r[n] == After(k, r[n - 1], e);
      GrowsStep(k, r[n - 1], e, j);
    }
  }

  lemma InvLengths(k: Setup, s: System)
    requires SysInv(k, s)
    ensures |s.life| == |s.a.reqs|
  {
  }

  /** Every job of every run is seen in order. */
  lemma ViewInRun(k: Setup, r: seq<System>, i: nat, j: JobId)
    requires SysRun(k, r) && i < |r|
    ensures Known(r[i]) && r[i].swept <= r[i].now <= r[i].swept + 60.0 + k.slack
    ensures j < |r[i].life| ==> ViewOk(k, ViewOf(r[i], j), j, r[i].now, r[i].swept)
  {
    RunKeepsInv(k, r, i);
    hide SysRun, Inv, Handlers, ViewOk;
  }

  // ------------------------------------------------------------------
  // Status lifecycle
  // ------------------------------------------------------------------

  /** The status traces the design promises. */
  ghost predicate Promised(trace: seq<Status>) {
    || trace <= [PENDING, RUNNING, DONE]
    || trace <= [PENDING, RUNNING, FAILED]
    || trace <= [PENDING, FAILED]
  }

  /**
   A job that is not an already enqueued item of an overflowed batch only ever shows a
   promised trace, its record carries the last status, and DONE excludes an error.
   */
  lemma StatusLifecycle(k: Setup, r: seq<System>, i: nat, j: JobId)
    requires SysRun(k, r) && i < |r| && IsJob(r[i], j) && !Stray(r[i], j)
    ensures var s := r[i];
            && j < |s.life| && s.life[j].trace != [] && Promised(s.life[j].trace)
            && (j in s.jobs ==> s.jobs[j].status == Last(s.life[j].trace))
            && (j in s.jobs && s.jobs[j].status == DONE ==> s.jobs[j].error.None?)
            && (j !in s.jobs ==> IsTerminal(Last(s.life[j].trace)))
  {
    ViewInRun(k, r, i, j);
    hide SysRun, AudioOk, TimeOk;
  }

  /** Once such a job is terminal its status never changes again, up to eviction. */
  lemma TerminalIsFinal(k: Setup, r: seq<System>, i: nat, n: nat, j: JobId)
    requires SysRun(k, r) && i <= n < |r| && IsJob(r[i], j) && !Stray(r[n], j)
    requires j < |r[i].life| && r[i].life[j].trace != [] && IsTerminal(Last(r[i].life[j].trace))
    ensures j < |r[n].life| && r[n].life[j].trace == r[i].life[j].trace
    ensures j in r[n].jobs ==> r[n].jobs[j].status == Last(r[i].life[j].trace)
  {
    GrowsInRun(k, r, i, n, j);
    StatusLifecycle(k, r, n, j);
    StatusLifecycle(k, r, i, j);
  }

  // ------------------------------------------------------------------
  // Audio
  // ------------------------------------------------------------------

  /**
   The bytes in job `j`'s output file encode, in `j`'s own format, samples the model
   inferred from `j`'s own text, language, voice and parameters.
   */
  lemma OwnAudio(k: Setup, r: seq<System>, i: nat, j: JobId)
    requires SysRun(k, r) && i < |r| && IsJob(r[i], j)
    ensures var s := r[i];
            && (j in s.jobs && s.jobs[j].audioPath.Some? ==> s.jobs[j].audioPath.value == PathOf(s, j))
            && (PathOf(s, j) in s.files ==>
                  exists samples :: k.c.model.infers(s.a.reqs[j].spec.payload, samples)
                                    && s.files[PathOf(s, j)] == k.encode(samples, s.a.reqs[j].spec.format))
  {
    hide SysRun, SysInv, StatusOk, TimeOk;
    ViewInRun(k, r, i, j);
    if PathOf(r[i], j) in r[i].files {
      RunKeepsInv(k, r, i);
      GenuineOutcome(k, r[i], j);
    }
  }

  lemma GenuineOutcome(k: Setup, s: System, j: JobId)
    requires SysInv(k, s) && j < |s.a.reqs| && s.a.reqs[j].phase.Concluded()
    ensures Genuine(k.c.model, j, s.a.reqs[j].spec, s.a.reqs[j].phase.outcome)
  {
  }

  /** `GET audio` misses a file that its record still names only while a download has unlinked it. */
  lemma MissingOnlyDuringDownload(k: Setup, r: seq<System>, i: nat, j: JobId)
    requires SysRun(k, r) && i < |r| && j in r[i].jobs && r[i].jobs[j].status == DONE
    requires AudioStatus(r[i].jobs, r[i].files, j) == 500
    ensures Download(j, Removed) in r[i].downloads
  {
    ViewInRun(k, r, i, j);
    hide SysRun, StatusOk, TimeOk;
  }

  /** The audio path of every job of every run goes None, its own path, None, each at most once. */
  lemma PathOnce(k: Setup, r: seq<System>, i: nat, j: JobId)
    requires SysRun(k, r) && i < |r| && IsJob(r[i], j)
    ensures j < |r[i].life| && r[i].life[j].paths <= [Some(PathOf(r[i], j)), None]
    ensures j in r[i].jobs ==>
              r[i].jobs[j].audioPath == if |r[i].life[j].paths| == 1 then Some(PathOf(r[i], j)) else None
  {
    ViewInRun(k, r, i, j);
    hide SysRun, StatusOk, TimeOk;
  }

  /** Once a download of a job has completed, it is never served again: 410 until eviction, then 404. */
  lemma OneShotDownload(k: Setup, r: seq<System>, i: nat, n: nat, d: nat)
    requires SysRun(k, r) && i <= n < |r| && d < |r[i].downloads| && r[i].downloads[d].stage.Cleared?
    ensures var j := r[i].downloads[d].id;
            && j < |r[n].life| && j < |r[n].a.reqs| && r[n].life[j].paths <= [Some(PathOf(r[n], j)), None]
            && AudioStatus(r[n].jobs, r[n].files, j) != 200
            && (!Stray(r[n], j) ==> AudioStatus(r[n].jobs, r[n].files, j) in {410, 404})
  {
    DownloadStays(k, r, i, n, d);
    var j := r[i].downloads[d].id;
    ViewInRun(k, r, n, j);
    hide SysRun, TimeOk;
    assert Download(j, Cleared) in r[n].downloads;
  }

  lemma {:induction false} DownloadStays(k: Setup, r: seq<System>, i: nat, n: nat, d: nat)
    requires SysRun(k, r) && i <= n < |r| && d < |r[i].downloads| && r[i].downloads[d].stage.Cleared?
    ensures d < |r[n].downloads| && r[n].downloads[d] == r[i].downloads[d]
    decreases n
  {
    hide SysInv, Allowed;
    if i < n {
      DownloadStays(k, r, i, n - 1, d);
      assert SysNext(k, r[n - 1], r[n - 1 + 1]);
      var e :| Allowed(k, r[n - 1], e) && r[n] == After(k, r[n - 1], e);
      DownloadStep(k, r[n - 1], e, d);
    }
  }

  lemma DownloadStep(k: Setup, s: System, e: Event, d: nat)
    requires Allowed(k, s, e) && d < |s.downloads| && s.downloads[d].stage.Cleared?
    ensures d < |After(k, s, e).downloads| && After(k, s, e).downloads[d] == s.downloads[d]
  {
    hide Enabled, Apply;
  }

  /**
   An output file whose deletion never failed and whose job is no stray belongs to a
   job in the store that still names it, or to a save not yet recorded.
   */
  lemma FilesAreOwned(k: Setup, r: seq<System>, i: nat, p: Path)
    requires SysRun(k, r) && i < |r| && p in r[i].files && p !in r[i].undeleted && !Stray(r[i], p.id)
    ensures var s := r[i];
            && IsJob(s, p.id)
            && (s.a.reqs[p.id].phase.Saved?
                || (p.id in s.jobs && s.jobs[p.id].status == DONE && s.jobs[p.id].audioPath == Some(p)))
  {
    ViewInRun(k, r, i, p.id);
    hide SysRun, TimeOk;
  }

  // ------------------------------------------------------------------
  // Records and times
  // ------------------------------------------------------------------

  /** No terminal record is ever older than the time to live, one sweep interval and its delay. */
  lemma RetentionBound(k: Setup, r: seq<System>, i: nat, j: JobId)
    requires SysRun(k, r) && i < |r| && j in r[i].jobs && r[i].jobs[j].Terminal()
    ensures r[i].jobs[j].finishedAt.Some?
    ensures r[i].now - r[i].jobs[j].finishedAt.value <= k.ttl + 60.0 + k.slack
  {
    ViewInRun(k, r, i, j);
    hide SysRun, StatusOk, AudioOk;
  }

  function FinishTime(job: Record): real {
    if job.finishedAt.Some? then job.finishedAt.value else job.createdAt
  }

  /** A sweep removes exactly the expired terminal records and keeps all others as they were. */
  lemma SweepIsExact(k: Setup, r: seq<System>, i: nat, stuck: set<Path>, j: JobId)
    requires SysRun(k, r) && i < |r| && j in r[i].jobs
    ensures var s' := After(k, r[i], Sweep(stuck));
            && (j !in s'.jobs <==> r[i].jobs[j].Terminal() && FinishTime(r[i].jobs[j]) < r[i].now - k.ttl)
            && (j in s'.jobs ==> s'.jobs[j] == r[i].jobs[j])
  {
    if r[i].jobs[j].Terminal() {
      RetentionBound(k, r, i, j);
    }
  }

  /** The timing fields of every DONE record are in order, although the start is calculated afterwards. */
  lemma TimingConsistency(k: Setup, r: seq<System>, i: nat, j: JobId)
    requires SysRun(k, r) && i < |r| && j in r[i].jobs && r[i].jobs[j].status == DONE
    ensures var job := r[i].jobs[j];
            && job.startedAt.Some? && job.finishedAt.Some?
            && job.createdAt <= job.startedAt.value <= job.finishedAt.value <= r[i].now
            && job.TotalMs().value == job.QueueWaitMs().value + job.SynthesisMs().value
            && j < |r[i].a.reqs| && r[i].a.reqs[j].phase.Finished?
            && job.SynthesisMs().value >= r[i].a.reqs[j].phase.ms >= 0.0
  {
    ViewInRun(k, r, i, j);
    hide SysRun, StatusOk, AudioOk;
  }

  // ------------------------------------------------------------------
  // The error check reads truthiness
  // ------------------------------------------------------------------

  /**
   Without a save failure, a callback that marked its job running can end exactly when
   the outcome carries audio or a non-empty error. An exception without a message leaves
   neither, and the job stays RUNNING.
   */
  lemma CallbackCanEnd(k: Setup, r: seq<System>, i: nat, j: JobId)
    requires SysRun(k, r) && i < |r| && IsJob(r[i], j) && r[i].a.reqs[j].phase.Running?
    ensures var s, outcome := r[i], r[i].a.reqs[j].phase.outcome;
            && outcome.Result?
            && (Allowed(k, s, CallbackFails(j)) || Allowed(k, s, CallbackSaves(j)) <==> outcome.error != Some(""))
            && (outcome.error == Some("") ==> Allowed(k, s, SaveRaises(j)))
  {
    hide SysRun, SysInv, Enabled, Apply;
    ViewInRun(k, r, i, j);
    RunKeepsInv(k, r, i);
    GenuineOutcome(k, r[i], j);
  }

  /** A crashed callback never ends: its job keeps the status it had. */
  lemma CrashedStays(k: Setup, r: seq<System>, i: nat, n: nat, j: JobId)
    requires SysRun(k, r) && i <= n < |r| && IsJob(r[i], j) && r[i].a.reqs[j].phase.Crashed? && !Stray(r[n], j)
    ensures IsJob(r[n], j) && r[n].a.reqs[j].phase.Crashed?
    ensures j in r[n].jobs && r[n].jobs[j].status == RUNNING
  {
    CrashedPhase(k, r, i, n, j);
    RunKeepsInv(k, r, n);
    CrashedView(k, r[n], j);
  }

  lemma CrashedView(k: Setup, s: System, j: JobId)
    requires SysInv(k, s) && IsJob(s, j) && s.a.reqs[j].phase.Crashed? && !Stray(s, j)
    ensures j in s.jobs && s.jobs[j].status == RUNNING
  {
    hide Inv, Handlers, AudioOk, TimeOk;
    assert ViewOk(k, ViewOf(s, j), j, s.now, s.swept);
  }

  lemma {:induction false} CrashedPhase(k: Setup, r: seq<System>, i: nat, n: nat, j: JobId)
    requires SysRun(k, r) && i <= n < |r| && IsJob(r[i], j) && r[i].a.reqs[j].phase.Crashed?
    ensures IsJob(r[n], j) && r[n].a.reqs[j].phase.Crashed?
    decreases n
  {
    hide SysInv;
    if i < n {
      CrashedPhase(k, r, i, n - 1, j);
      RunKeepsInv(k, r, n - 1);
      assert SysNext(k, r[n - 1], r[n - 1 + 1]);
      var e :| Allowed(k, r[n - 1], e) && r[n] == After(k, r[n - 1], e);
      CrashedStep(k, r[n - 1], e, j);
    }
  }

  lemma CrashedStep(k: Setup, s: System, e: Event, j: JobId)
    requires SysInv(k, s) && Allowed(k, s, e) && IsJob(s, j) && s.a.reqs[j].phase.Crashed?
    ensures IsJob(After(k, s, e), j) && After(k, s, e).a.reqs[j].phase.Crashed?
  {
    hide Inv, Handlers, Views, Apply;
    if e.Call? {
      CallMoves(k, s, e.act, j);
    } else if e.Submit? {
      SubmitKeeps(k, s, e.h, j);
    } else {
      hide SysInv, Enabled;
    }
  }

  lemma SubmitKeeps(k: Setup, s: System, h: nat, j: JobId)
    requires SysInv(k, s) && Allowed(k, s, Submit(h)) && j < |s.a.reqs| && !s.a.reqs[j].phase.Fresh?
    ensures var s' := Submitted(k, s, h);
            j < |s'.a.reqs| && s'.a.reqs[j] == s.a.reqs[j]
  {
    hide Inv, Handlers, Views;
  }
}
