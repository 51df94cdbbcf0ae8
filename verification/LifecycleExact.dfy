/** Exactly which steps break the promised status lifecycle, for every job including overflowed batches. */
module LifecycleExact {
  import opened Common
  import opened Scheduling
  import opened Jobs
  import opened Lifecycle
  import opened LifecycleSafety
  import opened LifecycleTheorems
  import opened LifecycleSteps

  predicate Marks(s: System, h: nat, j: JobId) {
    && h < |s.handlers| && s.handlers[h].stage.Marking? && s.handlers[h].stage.k < |s.handlers[h].ids|
    && s.handlers[h].ids[s.handlers[h].stage.k] == j
  }

  /** A setter is about to act on job `j` in a status it was not meant for. No setter looks. */
  predicate Breaking(s: System, e: Event, j: JobId) {
    && j in s.jobs
    && var status := s.jobs[j].status;
       match e
       case Mark(h) => Marks(s, h, j) && status == DONE
       case CallbackRuns(id) => id == j && (status == DONE || status == FAILED)
       case CallbackEnds(id) => id == j && (status == PENDING || status == FAILED)
       case _ => false
  }

  /** The status that event `e` writes to the record of `j`, if it writes one. */
  function Writes(s: System, e: Event, j: JobId): Option<Status> {
    if j !in s.jobs then None
    else
      match e
      case Mark(h) => if Marks(s, h, j) then Some(FAILED) else None
      case CallbackRuns(id) => if id == j then Some(RUNNING) else None
      case CallbackFails(id) => if id == j then Some(FAILED) else None
      case CallbackEnds(id) => if id == j then Some(DONE) else None
      case _ => None
  }

  function Noted(trace: seq<Status>, written: Option<Status>, status: Status): seq<Status> {
    if written.Some? && written.value != status then trace + [written.value] else trace
  }

  lemma TraceAfter(k: Setup, s: System, e: Event, j: JobId)
    requires SysInv(k, s) && Allowed(k, s, e) && j < |s.life|
    ensures var s' := After(k, s, e);
            && j < |s'.life|
            && s'.life[j].trace == if j in s.jobs then Noted(s.life[j].trace, Writes(s, e, j), s.jobs[j].status)
                 else s.life[j].trace
  {
    InvLengths(k, s);
    hide SysInv, Apply, Enabled;
    match e
    case Call(act) => CallTrace(k, s, act, j);
    case Create(h) => CreateTrace(k, s, h, j);
    case Submit(h) => SubmitTrace(k, s, h, j);
    case _ => OtherTrace(k, s, e, j);
  }

  lemma CallTrace(k: Setup, s: System, act: Action, j: JobId)
    requires Allowed(k, s, Call(act)) && j < |s.life|
    ensures j < |Called(k, s, act).life| && Called(k, s, act).life[j] == s.life[j]
  {
    hide Apply, Enabled;
  }

  lemma CreateTrace(k: Setup, s: System, h: nat, j: JobId)
    requires Allowed(k, s, Create(h)) && j < |s.life|
    ensures j < |Created(k, s, h).life| && Created(k, s, h).life[j] == s.life[j]
  {
  }

  lemma SubmitTrace(k: Setup, s: System, h: nat, j: JobId)
    requires Allowed(k, s, Submit(h)) && j < |s.life|
    ensures Submitted(k, s, h).life == s.life
  {
  }

  lemma OtherTrace(k: Setup, s: System, e: Event, j: JobId)
    requires Allowed(k, s, e) && j < |s.life| && !e.Call? && !e.Create? && !e.Submit?
    ensures var s' := After(k, s, e);
            && j < |s'.life|
            && s'.life[j].trace == if j in s.jobs then Noted(s.life[j].trace, Writes(s, e, j), s.jobs[j].status)
                 else s.life[j].trace
  {
    hide Enabled, Apply;
    if IsCallback(e) {
      CallbackTrace(k, s, e, j);
    } else {
      AsideTrace(k, s, e, j);
    }
  }

  lemma CallbackTrace(k: Setup, s: System, e: Event, j: JobId)
    requires Allowed(k, s, e) && j < |s.life| && IsCallback(e)
    ensures var s' := After(k, s, e);
            && j < |s'.life|
            && s'.life[j].trace == if j in s.jobs then Noted(s.life[j].trace, Writes(s, e, j), s.jobs[j].status)
                 else s.life[j].trace
  {
    hide Enabled, Apply;
  }

  lemma AsideTrace(k: Setup, s: System, e: Event, j: JobId)
    requires Allowed(k, s, e) && j < |s.life| && !e.Call? && !e.Create? && !e.Submit? && !IsCallback(e)
    ensures var s' := After(k, s, e);
            && j < |s'.life|
            && s'.life[j].trace == if j in s.jobs then Noted(s.life[j].trace, Writes(s, e, j), s.jobs[j].status)
                 else s.life[j].trace
  {
    hide Enabled, Apply, Unexpired, ExpiredFiles;
  }

  lemma PrefixNext(trace: seq<Status>, next: Status, pattern: seq<Status>)
    ensures trace + [next] <= pattern <==>
            |trace| < |pattern| && trace == pattern[..|trace|] && next == pattern[|trace|]
  {
    var longer := trace + [next];
    if longer <= pattern {
      assert longer == pattern[..|longer|];
      assert trace == longer[..|trace|] == pattern[..|trace|];
      assert longer[|trace|] == pattern[|trace|];
    }
    if |trace| < |pattern| && trace == pattern[..|trace|] && next == pattern[|trace|] {
      assert longer == pattern[..|longer|];
    }
  }

  /** A promised trace stays promised under exactly four continuations. */
  lemma PromisedNext(trace: seq<Status>, next: Status)
    requires trace != [] && Promised(trace) && next != Last(trace)
    ensures Promised(trace + [next]) <==>
            (Last(trace) == PENDING && next != DONE) || (Last(trace) == RUNNING && next != PENDING)
  {
    PrefixNext(trace, next, [PENDING, RUNNING, DONE]);
    PrefixNext(trace, next, [PENDING, RUNNING, FAILED]);
    PrefixNext(trace, next, [PENDING, FAILED]);
  }

  lemma StatusFacts(k: Setup, s: System, j: JobId)
    requires SysInv(k, s) && IsJob(s, j)
    ensures j < |s.life| && s.life[j].trace != []
    ensures j in s.jobs ==> s.jobs[j].status == Last(s.life[j].trace)
    ensures s.a.reqs[j].phase.Running? && j in s.jobs ==> s.jobs[j].status != DONE
  {
    hide Inv, Handlers, AudioOk, TimeOk;
    assert ViewOk(k, ViewOf(s, j), j, s.now, s.swept);
  }

  /** In every reachable state, an event keeps the lifecycle of a job if and only if it is not breaking for it. */
  lemma BreaksIff(k: Setup, s: System, e: Event, j: JobId)
    requires SysInv(k, s) && Allowed(k, s, e) && IsJob(s, j)
    requires j < |s.life| && Promised(s.life[j].trace)
    ensures j < |After(k, s, e).life|
    ensures Promised(After(k, s, e).life[j].trace) <==> !Breaking(s, e, j)
  {
    hide SysInv, Enabled, After, Promised;
    TraceAfter(k, s, e, j);
    StatusFacts(k, s, j);
    if j in s.jobs {
      var written := Writes(s, e, j);
      if written.Some? && written.value != s.jobs[j].status {
        PromisedNext(s.life[j].trace, written.value);
      }
    }
  }

  /** Only an already enqueued item of an overflowed batch is ever broken. */
  lemma OnlyOverflowBreaks(k: Setup, s: System, e: Event, j: JobId)
    requires SysInv(k, s) && Allowed(k, s, e) && k.slack >= 0.0 && IsJob(s, j)
    requires j < |s.life| && Promised(s.life[j].trace) && Breaking(s, e, j)
    ensures Stray(After(k, s, e), j)
  {
    BreaksIff(k, s, e, j);
    EventStep(k, s, e);
    GrowsStep(k, s, e, j);
    PromisedUnlessStray(k, After(k, s, e), j);
  }

  lemma PromisedUnlessStray(k: Setup, s: System, j: JobId)
    requires SysInv(k, s) && IsJob(s, j) && j < |s.life| && !Promised(s.life[j].trace)
    ensures Stray(s, j)
  {
    hide Inv, Handlers, AudioOk, TimeOk;
    assert ViewOk(k, ViewOf(s, j), j, s.now, s.swept);
  }

  // ------------------------------------------------------------------
  // Runs
  // ------------------------------------------------------------------

  ghost predicate RunBy(k: Setup, r: seq<System>, es: seq<Event>) {
    && |r| == |es| + 1 && Lifecycle.Start(k, r[0])
    && forall n :: 0 <= n < |es| ==> Takes(k, r[n], es[n], r[n + 1])
  }

  ghost predicate Takes(k: Setup, s: System, e: Event, s': System) {
    Allowed(k, s, e) && s' == After(k, s, e)
  }

  lemma RunByIsRun(k: Setup, r: seq<System>, es: seq<Event>)
    requires RunBy(k, r, es)
    ensures SysRun(k, r)
  {
    hide Allowed;
    forall i | 0 <= i < |r| - 1
      ensures SysNext(k, r[i], r[i + 1])
    {
      assert Takes(k, r[i], es[i], r[i + 1]);
    }
  }

  ghost predicate Unbroken(r: seq<System>, es: seq<Event>, i: nat, j: JobId)
    requires i <= |es| < |r|
  {
    forall n :: 0 <= n < i && j < |r[n].life| ==> !Breaking(r[n], es[n], j)
  }

  /**
   A job of any run, stray or not, shows a promised trace exactly as long as no setter was
   called on it in a status it was not meant for.
   */
  lemma {:induction false} LifecycleIffUnbroken(k: Setup, r: seq<System>, es: seq<Event>, i: nat, j: JobId)
    requires RunBy(k, r, es) && i < |r| && IsJob(r[i], j)
    ensures j < |r[i].life|
    ensures Promised(r[i].life[j].trace) <==> Unbroken(r, es, i, j)
  {
    RunByIsRun(k, r, es);
    RunKeepsInv(k, r, i);
    InvLengths(k, r[i]);
    hide SysInv, Allowed, Promised, Breaking, SysRun, After;
    if i > 0 {
      RunKeepsInv(k, r, i - 1);
      InvLengths(k, r[i - 1]);
      assert Takes(k, r[i - 1], es[i - 1], r[i - 1 + 1]);
      if j < |r[i - 1].life| {
        GrowsStep(k, r[i - 1], es[i - 1], j);
        LifecycleIffUnbroken(k, r, es, i - 1, j);
        LaterStep(k, r[i - 1], es[i - 1], j);
      } else {
        Newborn(k, r[i - 1], es[i - 1], j);
        NotBornBefore(k, r, es, i - 1, j);
      }
    } else {
      NoJobsYet(k, r[0], j);
    }
  }

  lemma NoJobsYet(k: Setup, s: System, j: JobId)
    requires Lifecycle.Start(k, s)
    ensures !IsJob(s, j)
  {
  }

  lemma LaterStep(k: Setup, s: System, e: Event, j: JobId)
    requires SysInv(k, s) && Allowed(k, s, e) && IsJob(s, j) && j < |s.life|
    ensures j < |After(k, s, e).life|
    ensures Promised(After(k, s, e).life[j].trace) <==> Promised(s.life[j].trace) && !Breaking(s, e, j)
  {
    GrowsStep(k, s, e, j);
    hide SysInv, Allowed, Breaking, After, Promised;
    if Promised(s.life[j].trace) {
      BreaksIff(k, s, e, j);
    } else {
      NeverHeals(s.life[j].trace, After(k, s, e).life[j].trace);
    }
  }

  lemma NeverHeals(trace: seq<Status>, longer: seq<Status>)
    requires trace <= longer && !Promised(trace)
    ensures !Promised(longer)
  {
  }

  lemma CallBirth(k: Setup, s: System, act: Action, j: JobId)
    requires Allowed(k, s, Call(act)) && |s.a.reqs| <= j
    ensures !IsJob(Called(k, s, act), j)
  {
  }

  /** A job is born with the trace PENDING. */
  lemma Newborn(k: Setup, s: System, e: Event, j: JobId)
    requires Allowed(k, s, e) && |s.life| == |s.a.reqs| <= j && IsJob(After(k, s, e), j)
    requires |After(k, s, e).life| == |After(k, s, e).a.reqs|
    ensures Promised(After(k, s, e).life[j].trace)
  {
    if e.Call? {
      CallBirth(k, s, e.act, j);
    } else if e.Create? {
      assert After(k, s, e).life[j].trace == [PENDING];
    }
  }

  lemma NotBornBefore(k: Setup, r: seq<System>, es: seq<Event>, i: nat, j: JobId)
    requires RunBy(k, r, es) && i < |es| && |r[i].life| <= j
    ensures Unbroken(r, es, i + 1, j)
  {
    RunByIsRun(k, r, es);
    hide RunBy, SysRun, Breaking;
    forall n | 0 <= n <= i
      ensures |r[n].life| <= j
    {
      if j < |r[n].life| {
        GrowsInRun(k, r, n, i, j);
      }
    }
  }
}
