/**
 What becomes of every item of an overflowed batch, depending on how far its request was when the
 batch marked it: each job is followed through its phase, its trace and whether it was marked.
 */
module OverflowExact {
  import opened Common
  import opened Scheduling
  import opened Jobs
  import opened Lifecycle
  import opened LifecycleSafety
  import opened LifecycleSteps
  import opened LifecycleTheorems
  import opened LifecycleExact
  import opened Quiescence

  /** The callback of the job has not run yet. */
  predicate Early(p: Phase) {
    !p.Running? && !p.Saved? && !p.Crashed? && !p.Finished?
  }

  predicate Failing(p: Phase) {
    p.Concluded() && p.outcome.Result? && Truthy(p.outcome.error)
  }

  datatype Glimpse = Glimpse(phase: Phase, trace: seq<Status>, marked: bool)

  /** The traces a job may show: the plain one until it is marked, then one for each moment of the marking. */
  predicate Fits(g: Glimpse) {
    if !g.marked then g.trace == Plain(g.phase)
    else if Early(g.phase) then g.trace == [PENDING, FAILED]
    else if !g.phase.Finished? then g.trace == [PENDING, FAILED, RUNNING] || g.trace == [PENDING, RUNNING, FAILED]
    else if Failing(g.phase) then g.trace == [PENDING, FAILED, RUNNING, FAILED] || g.trace == [PENDING, RUNNING, FAILED]
    else || g.trace == [PENDING, FAILED, RUNNING, DONE] || g.trace == [PENDING, RUNNING, FAILED, DONE]
         || g.trace == [PENDING, RUNNING, DONE, FAILED]
  }

  function Plain(p: Phase): seq<Status> {
    if Early(p) then [PENDING]
    else if !p.Finished? then [PENDING, RUNNING]
    else if Failing(p) then [PENDING, RUNNING, FAILED]
    else [PENDING, RUNNING, DONE]
  }

  /** One stage of the callback: the phase it leads to and what it writes. */
  predicate CallsBack(p: Phase, p': Phase, trace: seq<Status>, trace': seq<Status>)
    requires trace != []
  {
    && p.Concluded() && p'.Concluded() && p'.outcome == p.outcome
    && (|| (p.Released? && p'.Running? && trace' == Noted(trace, Some(RUNNING), Last(trace)))
        || (p.Running? && (p'.Saved? || p'.Crashed?) && trace' == trace)
        || (p.Running? && p'.Finished? && Failing(p) && trace' == Noted(trace, Some(FAILED), Last(trace)))
        || (p.Saved? && p'.Finished? && !Failing(p) && trace' == Noted(trace, Some(DONE), Last(trace))))
  }

  /** One event, as seen from a stored job. */
  predicate Turns(g: Glimpse, g': Glimpse)
    requires g.trace != []
  {
    || (g'.trace == g.trace && g'.marked == g.marked && (g'.phase == g.phase || (Early(g.phase) && Early(g'.phase))))
    || (g'.phase == g.phase && !g.marked && g'.marked && g'.trace == Noted(g.trace, Some(FAILED), Last(g.trace)))
    || (g'.marked == g.marked && CallsBack(g.phase, g'.phase, g.trace, g'.trace))
  }

  lemma TurnsFit(g: Glimpse, g': Glimpse)
    requires Fits(g) && g.trace != [] && Turns(g, g')
    ensures Fits(g')
  {
  }

  // ------------------------------------------------------------------
  // The system, job by job
  // ------------------------------------------------------------------

  /** The overflow branch has already marked job `j`. */
  predicate WasMarked(s: System, j: JobId) {
    && j < |s.life| && s.life[j].handler < |s.handlers|
    && match s.handlers[s.life[j].handler].stage
       case Marking(k) => s.life[j].index < k
       case Rejected => true
       case _ => false
  }

  function GlimpseOf(s: System, j: JobId): Glimpse
    requires j < |s.life| && j < |s.a.reqs|
  {
    Glimpse(s.a.reqs[j].phase, s.life[j].trace, WasMarked(s, j))
  }

  /** A mark is the only way to become marked, and marks a job that was not. */
  lemma MarkedAfter(k: Setup, s: System, e: Event, j: JobId)
    requires SysInv(k, s) && Allowed(k, s, e) && IsJob(s, j)
    ensures j < |s.life|
    ensures WasMarked(After(k, s, e), j) <==> WasMarked(s, j) || (e.Mark? && Marks(s, e.h, j))
    ensures e.Mark? && Marks(s, e.h, j) ==> !WasMarked(s, j)
  {
    InvLengths(k, s);
    WhereEmployed(k, s, j);
    hide SysInv, Enabled, Apply;
    match e
    case Mark(h) => MarkedByMark(k, s, h, j);
    case Submit(h) => MarkedBySubmit(k, s, h, j);
    case Create(h) => MarkedByCreate(k, s, h, j);
    case _ => MarkedByOther(k, s, e, j);
  }

  lemma MarkedByMark(k: Setup, s: System, h: nat, j: JobId)
    requires SysInv(k, s) && Allowed(k, s, Mark(h)) && IsJob(s, j) && j < |s.life| && Employed(s, j)
    ensures WasMarked(After(k, s, Mark(h)), j) <==> WasMarked(s, j) || Marks(s, h, j)
    ensures Marks(s, h, j) ==> !WasMarked(s, j)
  {
    hide SysInv;
    MarkedItem(k, s, h);
    MarkChanges(s, h);
    hide Marked, MarkFailed;
    assert Marks(s, h, j) <==> s.life[j].handler == h && s.life[j].index == s.handlers[h].stage.k;
    hide After, Enabled;
  }

  lemma MarkChanges(s: System, h: nat)
    requires h < |s.handlers| && s.handlers[h].stage.Marking? && s.handlers[h].stage.k < |s.handlers[h].ids|
    requires s.handlers[h].ids[s.handlers[h].stage.k] < |s.life|
    ensures var s', hd := Lifecycle.Marked(s, h), s.handlers[h];
            && s'.handlers == s.handlers[h := hd.(stage :=
                 if hd.stage.k + 1 < |hd.ids| then Marking(hd.stage.k + 1) else Rejected)]
            && |s'.life| == |s.life|
            && forall j :: 0 <= j < |s.life| ==>
                 s'.life[j].handler == s.life[j].handler && s'.life[j].index == s.life[j].index
  {
    hide MarkFailed;
  }

  lemma MarkedBySubmit(k: Setup, s: System, h: nat, j: JobId)
    requires Allowed(k, s, Submit(h)) && j < |s.life| && Employed(s, j)
    ensures WasMarked(After(k, s, Submit(h)), j) <==> WasMarked(s, j)
  {
    hide Apply, Enabled;
  }

  lemma MarkedByCreate(k: Setup, s: System, h: nat, j: JobId)
    requires Allowed(k, s, Create(h)) && j < |s.life| && Employed(s, j)
    ensures WasMarked(After(k, s, Create(h)), j) <==> WasMarked(s, j)
  {
  }

  lemma MarkedByOther(k: Setup, s: System, e: Event, j: JobId)
    requires Allowed(k, s, e) && j < |s.life| && Employed(s, j) && !e.Mark? && !e.Submit? && !e.Create?
    ensures WasMarked(After(k, s, e), j) <==> WasMarked(s, j)
  {
    hide Apply, Enabled, MarkRunning, MarkDone, MarkFailed, ClearAudioPath;
  }

  // ------------------------------------------------------------------
  // Phases
  // ------------------------------------------------------------------

  /** What an event does to the phase of a job: nothing, an early move, or a stage of its callback. */
  lemma PhaseAfter(k: Setup, s: System, e: Event, j: JobId)
    requires SysInv(k, s) && Allowed(k, s, e) && IsJob(s, j)
    ensures var s' := After(k, s, e);
            && IsJob(s', j)
            && var p, p' := s.a.reqs[j].phase, s'.a.reqs[j].phase;
               if IsCallback(e) && e.id == j then p.SlotReturned() && p' == CallbackPhase(e, p)
               else p' == p || (!e.Mark? && Early(p) && Early(p'))
  {
    hide Inv, Handlers, Views, Known, Apply;
    if e.Call? {
      CallMoves(k, s, e.act, j);
    } else if e.Submit? {
      SubmitPhase(k, s, e.h, j);
    } else if IsCallback(e) {
      CallbackEffect(k, s, e);
    } else {
      RestPhase(k, s, e, j);
    }
  }

  lemma SubmitPhase(k: Setup, s: System, h: nat, j: JobId)
    requires Allowed(k, s, Submit(h)) && IsJob(s, j)
    ensures var s' := After(k, s, Submit(h));
            IsJob(s', j) && (s'.a.reqs[j] == s.a.reqs[j] || (Early(s.a.reqs[j].phase) && Early(s'.a.reqs[j].phase)))
  {
  }

  lemma RestPhase(k: Setup, s: System, e: Event, j: JobId)
    requires Allowed(k, s, e) && IsJob(s, j) && !e.Call? && !e.Submit? && !IsCallback(e)
    ensures IsJob(After(k, s, e), j) && After(k, s, e).a.reqs[j].phase == s.a.reqs[j].phase
  {
    hide Apply, Enabled, MarkFailed, ClearAudioPath;
  }

  // ------------------------------------------------------------------
  // Every stored job fits
  // ------------------------------------------------------------------

  ghost predicate JobFits(s: System, j: JobId) {
    IsJob(s, j) && j in s.jobs && j < |s.life| ==> Fits(GlimpseOf(s, j))
  }

  /** A job that is stored after an event was stored before it, unless the event created it. */
  lemma StoredBefore(k: Setup, s: System, e: Event, j: JobId)
    requires Allowed(k, s, e) && j < |s.a.reqs| && j in After(k, s, e).jobs
    ensures j in s.jobs
  {
    hide Apply, Enabled;
  }

  lemma EventTurns(k: Setup, s: System, e: Event, j: JobId)
    requires SysInv(k, s) && Allowed(k, s, e) && IsJob(s, j) && j in s.jobs && j < |s.life| && s.life[j].trace != []
    ensures IsJob(After(k, s, e), j) && j < |After(k, s, e).life|
    ensures Turns(GlimpseOf(s, j), GlimpseOf(After(k, s, e), j))
  {
    MarkedAfter(k, s, e, j);
    PhaseAfter(k, s, e, j);
    TraceAfter(k, s, e, j);
    StatusFacts(k, s, j);
    if IsCallback(e) && e.id == j {
      CallbackOutcome(k, s, e);
    }
    hide SysInv, After, WasMarked, Enabled, Apply, Turns, Writes, Allowed;
    Compose(s, e, j, After(k, s, e));
  }

  /** What an event does to marks, phase and trace makes one turn. */
  lemma Compose(s: System, e: Event, j: JobId, s': System)
    requires j < |s.a.reqs| && j < |s.life| && j < |s'.a.reqs| && j < |s'.life| && j in s.jobs
    requires s.life[j].trace != [] && s.jobs[j].status == Last(s.life[j].trace)
    requires WasMarked(s', j) <==> WasMarked(s, j) || (e.Mark? && Marks(s, e.h, j))
    requires e.Mark? && Marks(s, e.h, j) ==> !WasMarked(s, j)
    requires s'.life[j].trace == Noted(s.life[j].trace, Writes(s, e, j), s.jobs[j].status)
    requires var p, p' := s.a.reqs[j].phase, s'.a.reqs[j].phase;
             if IsCallback(e) && e.id == j then RightStage(e, p) && p' == CallbackPhase(e, p)
             else p' == p || (!e.Mark? && Early(p) && Early(p'))
    ensures Turns(GlimpseOf(s, j), GlimpseOf(s', j))
  {
    hide WasMarked;
  }

  /** The stage of the callback at which event `e` happens. */
  predicate RightStage(e: Event, p: Phase) {
    && p.SlotReturned()
    && (e.CallbackRuns? ==> p.Released?) && (e.CallbackFails? ==> p.Running? && Failing(p))
    && (e.CallbackSaves? || e.SaveRaises? ==> p.Running? && !Failing(p))
    && (e.CallbackEnds? ==> p.Saved? && !Failing(p))
  }

  /** The callback's branches see the error of the outcome. */
  lemma CallbackOutcome(k: Setup, s: System, e: Event)
    requires SysInv(k, s) && Allowed(k, s, e) && IsCallback(e) && IsJob(s, e.id)
    ensures RightStage(e, s.a.reqs[e.id].phase)
  {
    hide Inv, Handlers, StatusOk, TimeOk;
    assert ViewOk(k, ViewOf(s, e.id), e.id, s.now, s.swept);
  }

  lemma NewbornFits(k: Setup, s: System, e: Event, j: JobId)
    requires SysInv(k, s) && Allowed(k, s, e) && |s.a.reqs| <= j && IsJob(After(k, s, e), j)
    ensures JobFits(After(k, s, e), j)
  {
    hide SysInv, Enabled, Apply;
    InvLengths(k, s);
    if e.Call? {
      CallBirth(k, s, e.act, j);
    } else if !e.Create? {
      RequestsFixed(k, s, e);
    }
  }

  lemma RequestsFixed(k: Setup, s: System, e: Event)
    requires Allowed(k, s, e) && !e.Call? && !e.Create?
    ensures |After(k, s, e).a.reqs| == |s.a.reqs|
  {
    hide Apply, Enabled;
    if e.Submit? {
      SubmitLength(k, s, e.h);
    }
  }

  lemma SubmitLength(k: Setup, s: System, h: nat)
    requires Allowed(k, s, Submit(h))
    ensures |Submitted(k, s, h).a.reqs| == |s.a.reqs|
  {
  }

  lemma StepFits(k: Setup, s: System, e: Event, j: JobId)
    requires SysInv(k, s) && Allowed(k, s, e) && JobFits(s, j)
    ensures JobFits(After(k, s, e), j)
  {
    InvLengths(k, s);
    hide SysInv, Allowed, After;
    if IsJob(After(k, s, e), j) && j in After(k, s, e).jobs && j < |After(k, s, e).life| {
      if j < |s.a.reqs| {
        GrowsStep(k, s, e, j);
        StoredBefore(k, s, e, j);
        StatusFacts(k, s, j);
        EventTurns(k, s, e, j);
        TurnsFit(GlimpseOf(s, j), GlimpseOf(After(k, s, e), j));
      } else {
        NewbornFits(k, s, e, j);
      }
    }
  }

  /** In every reachable state every stored job, of an overflowed batch or not, fits. */
  lemma {:induction false} FitsInRun(k: Setup, r: seq<System>, es: seq<Event>, i: nat, j: JobId)
    requires RunBy(k, r, es) && i < |r|
    ensures JobFits(r[i], j)
  {
    hide JobFits, SysInv, Allowed, After;
    if i == 0 {
      NoJobsFit(k, r[0], j);
    } else {
      RunByIsRun(k, r, es);
      FitsInRun(k, r, es, i - 1, j);
      RunKeepsInv(k, r, i - 1);
      assert Takes(k, r[i - 1], es[i - 1], r[i - 1 + 1]);
      StepFits(k, r[i - 1], es[i - 1], j);
    }
  }

  lemma NoJobsFit(k: Setup, s: System, j: JobId)
    requires Lifecycle.Start(k, s)
    ensures JobFits(s, j)
  {
  }

  // ------------------------------------------------------------------
  // From the mark to rest
  // ------------------------------------------------------------------

  /** What a later state keeps of job `j`. */
  ghost predicate Since(s: System, s': System, j: JobId)
    requires IsJob(s, j)
  {
    && IsJob(s', j) && (j in s'.jobs ==> j in s.jobs) && (WasMarked(s, j) ==> WasMarked(s', j))
    && (s.a.reqs[j].phase.Finished? ==> s'.a.reqs[j].phase == s.a.reqs[j].phase)
  }

  lemma SinceStep(k: Setup, s: System, e: Event, j: JobId)
    requires SysInv(k, s) && Allowed(k, s, e) && IsJob(s, j)
    ensures Since(s, After(k, s, e), j)
  {
    MarkedAfter(k, s, e, j);
    PhaseAfter(k, s, e, j);
    if IsCallback(e) && e.id == j {
      CallbackOutcome(k, s, e);
    }
    if j in After(k, s, e).jobs {
      StoredBefore(k, s, e, j);
    }
    hide SysInv, Allowed, After, WasMarked;
  }

  lemma {:induction false} SinceInRun(k: Setup, r: seq<System>, es: seq<Event>, n: nat, i: nat, j: JobId)
    requires RunBy(k, r, es) && n <= i < |r| && IsJob(r[n], j)
    ensures Since(r[n], r[i], j)
    decreases i
  {
    hide SysInv, Allowed, After, WasMarked;
    if n < i {
      RunByIsRun(k, r, es);
      SinceInRun(k, r, es, n, i - 1, j);
      RunKeepsInv(k, r, i - 1);
      assert Takes(k, r[i - 1], es[i - 1], r[i - 1 + 1]);
      SinceStep(k, r[i - 1], es[i - 1], j);
    }
  }

  /** The marking came at a moment after which the promised lifecycle is still kept. */
  predicate MarkedInTime(status: Status, phase: Phase) {
    || status == FAILED
    || (status == PENDING && phase.Refused?)
    || (status == RUNNING && (phase.Crashed? || Failing(phase)))
  }

  /**
   At rest, a stored job of an overflowed batch shows a promised trace if and only if, when it was
   marked, it had already failed, or was the item that overflowed, or was running towards a failure
   or a raising save. It does not if its envelope was still waiting or being served, nor if its
   audio was or came to be saved.
   */
  lemma OverflowedKeepsIff(k: Setup, r: seq<System>, es: seq<Event>, n: nat, i: nat, j: JobId)
    requires RunBy(k, r, es) && n < i < |r| && IsJob(r[n], j)
    requires es[n].Mark? && Marks(r[n], es[n].h, j)
    requires j < |r[i].a.reqs| && AtRest(r[i].a.reqs[j].phase) && j in r[i].jobs
    ensures j in r[n].jobs && j < |r[i].life|
    ensures Promised(r[i].life[j].trace) <==> MarkedInTime(r[n].jobs[j].status, r[i].a.reqs[j].phase)
  {
    RunByIsRun(k, r, es);
    assert Takes(k, r[n], es[n], r[n + 1]);
    FitsInRun(k, r, es, n, j);
    FitsInRun(k, r, es, i, j);
    SinceInRun(k, r, es, n, i, j);
    RunKeepsInv(k, r, n);
    MarkedAfter(k, r[n], es[n], j);
    SinceInRun(k, r, es, n, n + 1, j);
    SinceInRun(k, r, es, n + 1, i, j);
    TraceAfter(k, r[n], es[n], j);
    StatusFacts(k, r[n], j);
    GrowsInRun(k, r, n + 1, i, j);
    hide SysInv, Allowed, After, WasMarked, RunBy, SysRun;
    KeepsIff(GlimpseOf(r[n], j), r[n + 1].life[j].trace, GlimpseOf(r[i], j));
  }

  /** The same on the views of the job: just before the mark, just after it, and at rest. */
  lemma KeepsIff(before: Glimpse, marked: seq<Status>, rest: Glimpse)
    requires Fits(before) && !before.marked && Fits(rest) && rest.marked && AtRest(rest.phase)
    requires marked == Noted(before.trace, Some(FAILED), Last(before.trace)) && marked <= rest.trace
    requires before.phase.Finished? ==> rest.phase == before.phase
    ensures Promised(rest.trace) <==> MarkedInTime(Last(before.trace), rest.phase)
  {
    var t := rest.trace;
    assert forall x :: 0 <= x < |marked| ==> t[x] == marked[x];
    WhichPromised(t);
    match Last(before.trace) {
      case PENDING => assert marked == [PENDING, FAILED];
      case RUNNING =>
        assert marked == [PENDING, RUNNING, FAILED];
        assert |t| >= 3 && t[1] == RUNNING && t[2] == FAILED;
      case DONE => assert marked == [PENDING, RUNNING, DONE, FAILED];
      case FAILED => assert marked == [PENDING, RUNNING, FAILED];
    }
  }

  lemma WhichPromised(t: seq<Status>)
    ensures |t| > 3 ==> !Promised(t)
    ensures |t| == 3 && t[1] == FAILED ==> !Promised(t)
    ensures t == [PENDING, FAILED] || t == [PENDING, RUNNING, FAILED] ==> Promised(t)
  {
    assert |t| == 3 && t[1] == FAILED ==> !(t <= [PENDING, RUNNING, DONE]) && !(t <= [PENDING, RUNNING, FAILED]);
  }
}
