/**
 What a request comes to: which messages can be its outcome, that an outcome is never replaced,
 and the time its worker is credited with.
 */
module Outcomes {
  import opened Common
  import opened Messages
  import opened Pool
  import opened Scheduling
  import opened SchedulingSafety
  import opened SchedulingTheorems

  // ------------------------------------------------------------------
  // Where an outcome comes from
  // ------------------------------------------------------------------

  /** The outcome is the message taken last, or after chunks only, one the consumer made up itself. */
  ghost predicate Settled(j: JobId, e: Entry) {
    e.phase.Concluded() ==>
      || (e.read != [] && e.phase.outcome == e.read[|e.read| - 1] && !e.phase.outcome.Chunk?)
      || ((forall x <- e.read :: x.Chunk?) && exists error :: e.phase.outcome == Failure(e.spec.kind, j, error))
  }

  /** Once concluded, a request keeps its outcome, its worker, its time and the messages it took. */
  ghost predicate SameOutcome(e: Entry, e': Entry) {
    e.phase.Concluded() ==>
      && e'.phase.Concluded() && e'.phase.outcome == e.phase.outcome
      && e'.phase.w == e.phase.w && e'.phase.ms == e.phase.ms && e'.read == e.read && e'.spec == e.spec
  }

  lemma OutcomeStep(c: Config, s: Sched, a: Action, j: JobId)
    requires Inv(c, s) && Enabled(c, s, a) && j < |s.reqs|
    ensures j < |Apply(c, s, a).reqs| && SameOutcome(s.reqs[j], Apply(c, s, a).reqs[j])
  {
    hide Inv, AllBusy, IsPick, Legal, ReleaseBy, Acquire;
    if a.DrainPick? {
      HeldWaits(c, s);
    }
  }

  lemma SettledStep(c: Config, s: Sched, a: Action, j: JobId)
    requires Inv(c, s) && Enabled(c, s, a) && j < |s.reqs| && Settled(j, s.reqs[j])
    ensures j < |Apply(c, s, a).reqs| && Settled(j, Apply(c, s, a).reqs[j])
  {
    hide Inv, AllBusy, IsPick, Legal, ReleaseBy, Acquire;
    if a.DrainPick? {
      HeldWaits(c, s);
    } else if a.Receive? || a.TimeOut? || a.Abort? {
      ConsumedChunks(c, s, a.id);
    }
  }

  lemma ConsumedChunks(c: Config, s: Sched, j: JobId)
    requires Inv(c, s) && j < |s.reqs| && s.reqs[j].phase.Consuming?
    ensures forall x <- s.reqs[j].read :: x.Chunk?
  {
    hide Shape, Slots, Places, Desked, NoLostWakeup;
    assert OwnMail(c.model, j, s.reqs[j]);
  }

  lemma {:induction false} OutcomeStays(c: Config, r: seq<Sched>, i: nat, n: nat, j: JobId)
    requires Run(c, r) && i <= n < |r| && j < |r[i].reqs|
    ensures j < |r[n].reqs| && SameOutcome(r[i].reqs[j], r[n].reqs[j])
    decreases n
  {
    hide Inv, Init, Enabled;
    if i < n {
      OutcomeStays(c, r, i, n - 1, j);
      RunInv(c, r, n - 1);
      if r[n] != r[n - 1] {
        assert Next(c, r[n - 1], r[n - 1 + 1]);
        var a :| Enabled(c, r[n - 1], a) && r[n] == Apply(c, r[n - 1], a);
        OutcomeStep(c, r[n - 1], a, j);
      }
    }
  }

  /**
   The outcome of a request is the last message its consumer took from its own result queue, or a
   failure of the consumer's own making. So what the worker answered is what the caller gets.
   */
  lemma {:induction false} OutcomeIsAnswer(c: Config, r: seq<Sched>, n: nat, j: JobId)
    requires Run(c, r) && n < |r| && j < |r[n].reqs|
    ensures Settled(j, r[n].reqs[j])
  {
    hide Inv, Init, Enabled, Settled;
    if n == 0 {
      InitEmpty(c, r[0]);
    } else {
      RunInv(c, r, n - 1);
      if r[n] != r[n - 1] {
        assert Next(c, r[n - 1], r[n - 1 + 1]);
        var a :| Enabled(c, r[n - 1], a) && r[n] == Apply(c, r[n - 1], a);
        if j < |r[n - 1].reqs| {
          OutcomeIsAnswer(c, r, n - 1, j);
          SettledStep(c, r[n - 1], a, j);
        } else {
          SettledBirth(c, r[n - 1], a, j);
        }
      } else {
        OutcomeIsAnswer(c, r, n - 1, j);
      }
    }
  }

  lemma InitEmpty(c: Config, s: Sched)
    requires Init(c, s)
    ensures s.reqs == []
  {
  }

  lemma SettledBirth(c: Config, s: Sched, a: Action, j: JobId)
    requires Enabled(c, s, a) && |s.reqs| <= j < |Apply(c, s, a).reqs|
    ensures Settled(j, Apply(c, s, a).reqs[j])
  {
    hide AllBusy, IsPick, Legal, ReleaseBy, Acquire;
  }

  // ------------------------------------------------------------------
  // A silent worker
  // ------------------------------------------------------------------

  /** A consumer that waits in vain tells a true error: the text is not empty, and no audio or voice comes with it. */
  lemma SilenceIsFailure(kind: Kind, id: JobId)
    ensures var x := Failure(kind, id, NO_RESPONSE);
            && !x.Chunk? && Truthy(x.error)
            && (x.Result? ==> x.audio.None?) && (x.LatentsMsg? ==> x.voice.None?)
  {
    SilenceSpeaks();
  }

  /** From the moment its consumer times out, a request's outcome is that failure for good. */
  lemma SilenceStays(c: Config, r: seq<Sched>, i: nat, n: nat, j: JobId, t: real)
    requires Run(c, r) && i < n < |r| && Enabled(c, r[i], TimeOut(j, t)) && r[i + 1] == Apply(c, r[i], TimeOut(j, t))
    ensures j < |r[n].reqs| && r[n].reqs[j].phase.Concluded()
    ensures r[n].reqs[j].phase.outcome == Failure(r[n].reqs[j].spec.kind, j, NO_RESPONSE)
  {
    OutcomeStays(c, r, i + 1, n, j);
    hide Init, Next;
  }

  // ------------------------------------------------------------------
  // Time
  // ------------------------------------------------------------------

  /** The time that a request adds to worker `w`: that of a job or synchronous request it has released. */
  function Earned(e: Entry, w: nat): real {
    if e.phase.SlotReturned() && e.phase.w == w && (e.spec.kind == Job || e.spec.kind == Sync) then e.phase.ms else 0.0
  }

  function Spent(reqs: seq<Entry>, w: nat): real {
    if reqs == [] then 0.0 else Spent(reqs[..|reqs| - 1], w) + Earned(reqs[|reqs| - 1], w)
  }

  lemma {:induction false} SetSpent(reqs: seq<Entry>, id: JobId, e: Entry, w: nat)
    requires id < |reqs|
    ensures Spent(reqs[id := e], w) == Spent(reqs, w) - Earned(reqs[id], w) + Earned(e, w)
  {
    var front := reqs[..|reqs| - 1];
    if id < |front| {
      SetSpent(front, id, e, w);
      assert reqs[id := e][..|reqs| - 1] == front[id := e];
    } else {
      assert reqs[id := e][..|reqs| - 1] == front;
    }
  }

  /** Worker `w` has been credited with exactly the time of the requests it has released. */
  ghost predicate TimeKept(c: Config, s: Sched, w: nat) {
    w < |c.pool| && w < |s.pool| ==> s.pool[w].busyMs == c.pool[w].busyMs + Spent(s.reqs, w)
  }

  lemma {:induction false} SameSpent(a: seq<Entry>, b: seq<Entry>, w: nat)
    requires |a| <= |b| && forall j :: 0 <= j < |a| ==> Earned(b[j], w) == Earned(a[j], w)
    requires forall j :: |a| <= j < |b| ==> Earned(b[j], w) == 0.0
    ensures Spent(b, w) == Spent(a, w)
  {
    if b != [] {
      SameSpent(if |a| == |b| then a[..|a| - 1] else a, b[..|b| - 1], w);
    }
  }

  /** No action but a release changes what a request has added to a worker's time. */
  lemma EarnedStep(c: Config, s: Sched, a: Action, j: JobId, w: nat)
    requires Inv(c, s) && Enabled(c, s, a) && !a.Release? && j < |Apply(c, s, a).reqs|
    ensures Earned(Apply(c, s, a).reqs[j], w) == if j < |s.reqs| then Earned(s.reqs[j], w) else 0.0
  {
    hide Inv, AllBusy, IsPick, Legal, ReleaseBy, Acquire;
    if a.DrainPick? {
      HeldWaits(c, s);
    }
  }

  lemma PoolTime(c: Config, s: Sched, a: Action, w: nat)
    requires Enabled(c, s, a) && w < |s.pool| && !a.Release?
    ensures w < |Apply(c, s, a).pool| && Apply(c, s, a).pool[w].busyMs == s.pool[w].busyMs
  {
    hide AllBusy, IsPick, Legal, ReleaseBy, KeyLess;
  }

  lemma TimeMoves(c: Config, s: Sched, a: Action, w: nat)
    requires Inv(c, s) && Enabled(c, s, a) && w < |s.pool| && !a.Release?
    ensures var s' := Apply(c, s, a);
            && w < |s'.pool| && s'.pool[w].busyMs == s.pool[w].busyMs && Spent(s'.reqs, w) == Spent(s.reqs, w)
  {
    hide Inv, Enabled, Apply, Spent, Earned;
    PoolTime(c, s, a, w);
    var reqs := Apply(c, s, a).reqs;
    forall j | 0 <= j < |reqs|
      ensures Earned(reqs[j], w) == if j < |s.reqs| then Earned(s.reqs[j], w) else 0.0
    {
      EarnedStep(c, s, a, j, w);
    }
    RequestsStay(c, s, a);
    SameSpent(s.reqs, reqs, w);
  }

  lemma RequestsStay(c: Config, s: Sched, a: Action)
    requires Enabled(c, s, a)
    ensures |s.reqs| <= |Apply(c, s, a).reqs|
  {
    hide AllBusy, IsPick, Legal, ReleaseBy, Acquire;
  }

  lemma TimeReleased(c: Config, s: Sched, id: JobId, w: nat)
    requires Inv(c, s) && Enabled(c, s, Release(id)) && DistinctIds(c.pool) && w < |s.pool| && TimeKept(c, s, w)
    ensures TimeKept(c, Apply(c, s, Release(id)), w)
  {
    hide Slots, Places, Desked, NoLostWakeup, Mail, ReleaseBy, Spent;
    var p := s.reqs[id].phase;
    SetSpent(s.reqs, id, s.reqs[id].(phase := Released(p.w, p.outcome, p.ms)), w);
    OwnRelease(s.pool, p.w, if s.reqs[id].spec.kind in {Job, Sync} then p.ms else 0.0, id);
  }

  /** With distinct names, no time is lost or credited twice or to another worker. */
  lemma {:induction false} TimeConservation(c: Config, r: seq<Sched>, n: nat, w: nat)
    requires Run(c, r) && n < |r| && DistinctIds(c.pool) && w < |c.pool|
    ensures |r[n].pool| == |c.pool| && TimeKept(c, r[n], w)
  {
    hide Init, Enabled, TimeKept, Slots, Places, Desked, NoLostWakeup, Mail;
    RunInv(c, r, n);
    if n == 0 {
      NoTimeYet(c, r[0], w);
    } else {
      TimeConservation(c, r, n - 1, w);
      RunInv(c, r, n - 1);
      if r[n] != r[n - 1] {
        assert Next(c, r[n - 1], r[n - 1 + 1]);
        var a :| Enabled(c, r[n - 1], a) && r[n] == Apply(c, r[n - 1], a);
        TimeStep(c, r[n - 1], a, w);
      }
    }
  }

  lemma NoTimeYet(c: Config, s: Sched, w: nat)
    requires Init(c, s)
    ensures TimeKept(c, s, w)
  {
  }

  lemma TimeStep(c: Config, s: Sched, a: Action, w: nat)
    requires Inv(c, s) && Enabled(c, s, a) && DistinctIds(c.pool) && w < |s.pool| && TimeKept(c, s, w)
    ensures TimeKept(c, Apply(c, s, a), w)
  {
    hide Inv, Enabled, Apply, Spent;
    if a.Release? {
      TimeReleased(c, s, a.id, w);
    } else {
      TimeMoves(c, s, a, w);
    }
  }
}
