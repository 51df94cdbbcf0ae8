/** What every run of the scheduling protocol guarantees. */
module SchedulingTheorems {
  import opened Common
  import opened Messages
  import opened Pool
  import opened Ledgers
  import opened Scheduling
  import opened SchedulingSafety

  ghost predicate Next(c: Config, s: Sched, s': Sched) {
    exists a :: Enabled(c, s, a) && s' == Apply(c, s, a)
  }

  /** A run from the initial state; a step may also leave the protocol where it is. */
  ghost predicate Run(c: Config, r: seq<Sched>) {
    && r != [] && Init(c, r[0])
    && forall i :: 0 <= i < |r| - 1 ==> r[i + 1] == r[i] || Next(c, r[i], r[i + 1])
  }

  lemma {:induction false} RunInv(c: Config, r: seq<Sched>, i: nat)
    requires Run(c, r) && i < |r|
    ensures Inv(c, r[i])
  {
    hide Inv, Init, Enabled;
    if i == 0 {
      InitInv(c, r[0]);
    } else {
      RunInv(c, r, i - 1);
      if r[i] != r[i - 1] {
        assert Next(c, r[i - 1], r[i - 1 + 1]);
        var a :| Enabled(c, r[i - 1], a) && r[i] == Apply(c, r[i - 1], a);
        StepInv(c, r[i - 1], a);
      }
    }
  }

  // ------------------------------------------------------------------
  // Slots
  // ------------------------------------------------------------------

  /** Requests dispatched to worker `w` and not released. */
  ghost function Unreleased(s: Sched, w: nat): set<JobId> {
    set j: JobId | j < |s.reqs| && s.reqs[j].phase.HoldsSlot() && s.reqs[j].phase.w == w
  }

  /**
   If the workers' names are distinct, in every reachable state a worker's counter equals
   its table of active jobs and the number of its dispatches not yet released, every
   dispatch was either released once or is still active, and a release never meets a zero
   counter.
   */
  lemma SlotConservation(c: Config, r: seq<Sched>, i: nat, w: nat)
    requires Run(c, r) && i < |r| && w < |r[i].pool| && DistinctIds(c.pool)
    ensures var s := r[i];
            && s.pool[w].jobs.Keys == Unreleased(s, w)
            && s.pool[w].active == |Unreleased(s, w)|
            && |s.log| == |s.pool| && s.pool[w].total + s.pool[w].active == |s.log[w]| && NoDup(s.log[w])
            && (forall j: JobId :: j in s.log[w] <==>
                  j < |s.reqs| && s.reqs[j].phase.Dispatched() && s.reqs[j].phase.w == w)
            && (forall id: JobId :: id < |s.reqs| && s.reqs[id].phase.Closing? && s.reqs[id].phase.w == w ==>
                 s.pool[w].active >= 1)
  {
    RunInv(c, r, i);
    SlotsMeaning(c, r[i], w);
  }

  lemma SlotsMeaning(c: Config, s: Sched, w: nat)
    requires Inv(c, s) && w < |s.pool| && DistinctIds(c.pool)
    ensures s.pool[w].jobs.Keys == Unreleased(s, w)
    ensures s.pool[w].active == |Unreleased(s, w)|
    ensures s.pool[w].total + s.pool[w].active == |s.log[w]| && NoDup(s.log[w])
    ensures forall j: JobId :: j in s.log[w] <==> j < |s.reqs| && s.reqs[j].phase.Dispatched() && s.reqs[j].phase.w == w
    ensures forall id: JobId :: id < |s.reqs| && s.reqs[id].phase.Closing? && s.reqs[id].phase.w == w ==>
        s.pool[w].active >= 1
  {
  }

  /** No lost wakeup: a drain loop parked and not notified means every worker is busy. */
  lemma ParkedMeansAllBusy(c: Config, r: seq<Sched>, i: nat)
    requires Run(c, r) && i < |r| && r[i].drain.Parked?
    ensures AllBusy(r[i].pool)
  {
    RunInv(c, r, i);
  }

  // ------------------------------------------------------------------
  // The line
  // ------------------------------------------------------------------

  /**
   The accepted envelopes, in order of acceptance, are the dispatched ones, then the
   one in the drain loop's hands, then the queue: none lost, repeated or overtaken.
   */
  lemma FirstInFirstOut(c: Config, r: seq<Sched>, i: nat)
    requires Run(c, r) && i < |r|
    ensures var s := r[i];
            && s.accepted == s.drained + s.drain.Held() + s.queue
            && NoDup(s.accepted) && |s.queue| <= c.maxQueue
            && (forall j: JobId :: j in s.drained <==>
                  j < |s.reqs| && s.reqs[j].spec.kind != Latents && s.reqs[j].phase.Dispatched())
  {
    RunInv(c, r, i);
    DrainedMeaning(c, r[i]);
  }

  lemma DrainedMeaning(c: Config, s: Sched)
    requires Inv(c, s)
    ensures forall j: JobId :: j in s.drained <==>
              j < |s.reqs| && s.reqs[j].spec.kind != Latents && s.reqs[j].phase.Dispatched()
  {
    hide BooksInOrder, DesksInOrder, OwnMail, AllBusy;
    var n := |s.drained|;
    var st := Stations(s.reqs);
    var ahead := s.drain.Held() + s.queue;
    assert s.accepted == s.drained + ahead;
    forall x, y | 0 <= x < n && 0 <= y < |ahead|
      ensures s.drained[x] != ahead[y]
    {
      assert s.accepted[x] == s.drained[x] && s.accepted[n + y] == ahead[y];
    }
    assert forall j: JobId :: j in s.drained <==> j in s.accepted && j !in ahead;
    forall j: JobId
      ensures j in s.drained <==> j < |s.reqs| && s.reqs[j].spec.kind != Latents && s.reqs[j].phase.Dispatched()
    {
      if j < |s.reqs| {
        assert st[j] == StationOf(s.reqs[j]);
        assert j in ahead <==> StandsAt(st, j, InLine);
      }
    }
  }

  // ------------------------------------------------------------------
  // Callbacks
  // ------------------------------------------------------------------

  /** No action moves a request to an earlier stage or to another payload. */
  lemma PhasesAdvance(c: Config, s: Sched, a: Action, j: JobId)
    requires Inv(c, s) && Enabled(c, s, a) && j < |s.reqs|
    ensures var s' := Apply(c, s, a);
            j < |s'.reqs| && s'.reqs[j].phase.Weight() <= s.reqs[j].phase.Weight() && s'.reqs[j].spec == s.reqs[j].spec
  {
    hide Inv, AllBusy, IsPick, Legal, ReleaseBy, Acquire;
    if a.DrainPick? {
      HeldWaits(c, s);
    }
  }

  lemma {:induction false} PhasesAdvanceInRun(c: Config, r: seq<Sched>, i: nat, k: nat, j: JobId)
    requires Run(c, r) && i <= k < |r| && j < |r[i].reqs|
    ensures j < |r[k].reqs| && r[k].reqs[j].phase.Weight() <= r[i].reqs[j].phase.Weight()
    ensures r[k].reqs[j].spec == r[i].reqs[j].spec
    decreases k
  {
    hide Inv, Init, Enabled, Phase.Weight;
    if i < k {
      PhasesAdvanceInRun(c, r, i, k - 1, j);
      RunInv(c, r, k - 1);
      if r[k] != r[k - 1] {
        assert Next(c, r[k - 1], r[k - 1 + 1]);
        var a :| Enabled(c, r[k - 1], a) && r[k] == Apply(c, r[k - 1], a);
        PhasesAdvance(c, r[k - 1], a, j);
      }
    }
  }

  /** The callback of request `j` starts between these two states. */
  ghost predicate Fires(s: Sched, s': Sched, j: JobId) {
    j < |s.reqs| && j < |s'.reqs| && s.reqs[j].phase.Released? && !s'.reqs[j].phase.Released?
  }

  /** A callback starts at most once, and only after the worker slot was given back. */
  lemma CallbackOnce(c: Config, r: seq<Sched>, i: nat, k: nat, j: JobId)
    requires Run(c, r) && i < k && k + 1 < |r|
    requires Fires(r[i], r[i + 1], j)
    ensures !Fires(r[k], r[k + 1], j)
    ensures DistinctIds(c.pool) ==> forall w :: 0 <= w < |r[i].pool| ==> j !in r[i].pool[w].jobs
  {
    hide Run, Inv;
    RunInv(c, r, i);
    PhasesAdvanceInRun(c, r, i, i + 1, j);
    PhasesAdvanceInRun(c, r, i + 1, k, j);
    forall w | 0 <= w < |r[i].pool| && DistinctIds(c.pool)
      ensures j !in r[i].pool[w].jobs
    {
      SlotsMeaning(c, r[i], w);
      assert j !in Unreleased(r[i], w);
    }
  }

  // ------------------------------------------------------------------
  // One request per worker, and the bound on accepted work
  // ------------------------------------------------------------------

  ghost predicate QueueTrafficOnly(s: Sched) {
    forall j :: 0 <= j < |s.reqs| ==> s.reqs[j].spec.kind != Latents
  }

  ghost predicate OnePerWorker(s: Sched) {
    AtMostOneEach(s.pool) && (s.drain.Pick? ==> SomeIdle(s.pool))
  }

  lemma DirectIsClone(c: Config, s: Sched, a: Action)
    requires Inv(c, s) && Enabled(c, s, a) && a.Direct?
    ensures !QueueTrafficOnly(Apply(c, s, a))
  {
    assert Apply(c, s, a).reqs[a.id].spec.kind == Latents;
  }

  lemma OnePerWorkerStep(c: Config, s: Sched, a: Action)
    requires Inv(c, s) && Balanced(c.pool) && OnePerWorker(s) && Enabled(c, s, a)
    requires QueueTrafficOnly(Apply(c, s, a))
    ensures OnePerWorker(Apply(c, s, a))
  {
    hide BooksInOrder, DesksInOrder, OwnMail, LineInOrder, IsPick, Balanced, ReleaseBy;
    var s' := Apply(c, s, a);
    match a {
      case DrainPick(_) =>
        BalancedTopology(c.pool, s.pool);
        IdleChoice(s.pool);
      case Direct(_, _) =>
        DirectIsClone(c, s, a);
        assert false;
      case DrainCheck =>
        if !AllBusy(s.pool) {
          var i :| 0 <= i < |s.pool| && s.pool[i].active < 1;
          assert s.pool[i].active == 0;
        }
      case Release(id) =>
        ReleaseLowers(s.pool, s.pool[s.reqs[id].phase.w].workerId,
                      if s.reqs[id].spec.kind in {Job, Sync} then s.reqs[id].phase.ms else 0.0, id);
        if i :| 0 <= i < |s.pool| && s.pool[i].active == 0 {
          assert s'.pool[i].active == 0;
        }
      case _ =>
        assert s'.pool == s.pool;
    }
  }

  lemma TrafficSoFar(c: Config, r: seq<Sched>, i: nat, k: nat)
    requires Run(c, r) && i <= k < |r| && QueueTrafficOnly(r[k])
    ensures QueueTrafficOnly(r[i])
  {
    forall j | 0 <= j < |r[i].reqs|
      ensures r[i].reqs[j].spec.kind != Latents
    {
      PhasesAdvanceInRun(c, r, i, k, j);
    }
  }

  /** Without clone traffic, on a balanced topology, no worker ever counts two requests. */
  lemma {:induction false} NeverTwoOnOneWorker(c: Config, r: seq<Sched>, i: nat)
    requires Run(c, r) && i < |r| && Balanced(c.pool) && QueueTrafficOnly(r[i])
    ensures OnePerWorker(r[i])
  {
    hide Inv, Enabled, Balanced, OnePerWorker, QueueTrafficOnly;
    if i == 0 {
      InitOnePerWorker(c, r[0]);
    } else {
      TrafficSoFar(c, r, i - 1, i);
      NeverTwoOnOneWorker(c, r, i - 1);
      RunInv(c, r, i - 1);
      if r[i] != r[i - 1] {
        assert Next(c, r[i - 1], r[i - 1 + 1]);
        var a :| Enabled(c, r[i - 1], a) && r[i] == Apply(c, r[i - 1], a);
        OnePerWorkerStep(c, r[i - 1], a);
      }
    }
  }

  /** Nor, where names are distinct, does it have two. */
  lemma NeverTwoRequests(c: Config, r: seq<Sched>, i: nat, w: nat)
    requires Run(c, r) && i < |r| && w < |r[i].pool|
    requires Balanced(c.pool) && QueueTrafficOnly(r[i]) && DistinctIds(c.pool)
    ensures |Unreleased(r[i], w)| <= 1
  {
    hide Balanced;
    NeverTwoOnOneWorker(c, r, i);
    SlotConservation(c, r, i, w);
  }

  lemma InitOnePerWorker(c: Config, s: Sched)
    requires Init(c, s)
    ensures OnePerWorker(s)
  {
  }

  /** Accepted requests whose slot is not given back yet: waiting or with a worker. */
  ghost function Outstanding(s: Sched): set<JobId> {
    set j: JobId | j < |s.reqs| && IsAccepted(s.reqs[j]) && !s.reqs[j].phase.SlotReturned()
  }

  ghost predicate IsAccepted(e: Entry) {
    e.spec.kind != Latents && !e.phase.Fresh? && !e.phase.Refused?
  }

  lemma UnionSize<T>(a: set<T>, b: set<T>)
    ensures |a + b| <= |a| + |b|
  {
  }

  lemma {:induction false} SubsetSize<T>(a: set<T>, b: set<T>)
    requires a <= b
    ensures |a| <= |b|
  {
    if x :| x in a {
      SubsetSize(a - {x}, b - {x});
    }
  }

  function Elements(q: seq<JobId>): set<JobId> {
    set x | x in q
  }

  lemma {:induction false} ElementsBound(q: seq<JobId>)
    ensures |Elements(q)| <= |q|
  {
    if q != [] {
      ElementsBound(q[1..]);
      assert Elements(q) == {q[0]} + Elements(q[1..]);
      UnionSize({q[0]}, Elements(q[1..]));
    }
  }

  lemma WhereOutstanding(c: Config, s: Sched, j: JobId)
    requires Inv(c, s) && j in Outstanding(s)
    ensures j in s.queue || j in s.drain.Held() || j in AllHolders(Seats(s.reqs))
  {
    hide BooksInOrder, DesksInOrder, OwnMail, AllBusy;
    if s.reqs[j].phase.Waiting? {
      assert Stations(s.reqs)[j] == InLine;
      assert j in s.drain.Held() + s.queue;
    } else {
      assert Seats(s.reqs)[j] == Holding(s.reqs[j].phase.w);
    }
  }

  /** Accepted and unreleased work never exceeds the queue, one held envelope and one request per worker. */
  lemma BackpressureBound(c: Config, r: seq<Sched>, i: nat)
    requires Run(c, r) && i < |r| && Balanced(c.pool) && QueueTrafficOnly(r[i])
    ensures |Outstanding(r[i])| <= c.maxQueue + 1 + |c.pool|
  {
    RunInv(c, r, i);
    NeverTwoOnOneWorker(c, r, i);
    TotalAtMost(r[i].pool, 1);
    OutstandingBound(c, r[i]);
  }

  lemma OutstandingBound(c: Config, s: Sched)
    requires Inv(c, s) && TotalActive(s.pool) <= |s.pool|
    ensures |Outstanding(s)| <= c.maxQueue + 1 + |c.pool|
  {
    hide DesksInOrder, OwnMail, AllBusy, HistoryInOrder, CountersInOrder;
    var line, holders := s.queue + s.drain.Held(), AllHolders(Seats(s.reqs));
    forall j | j in Outstanding(s)
      ensures j in Elements(line) + holders
    {
      WhereOutstanding(c, s, j);
    }
    ElementsBound(line);
    UnionSize(Elements(line), holders);
    SubsetSize(Outstanding(s), Elements(line) + holders);
  }

  // ------------------------------------------------------------------
  // Mail
  // ------------------------------------------------------------------

  /**
   Whatever the interleaving, late replies included: what the consumer of `j` read,
   followed by what is still in its queue, is a prefix of one legal script of the
   worker for `j`'s own request, and its outcome is genuine.
   */
  lemma NoCrosstalk(c: Config, r: seq<Sched>, i: nat, j: JobId)
    requires Run(c, r) && i < |r| && j < |r[i].reqs|
    ensures var e := r[i].reqs[j];
            && e.read + e.mail <= e.script
            && (e.script != [] ==> Legal(c.model, j, e.spec, e.script))
            && (e.phase.Concluded() ==> Genuine(c.model, j, e.spec, e.phase.outcome))
  {
    RunInv(c, r, i);
    hide BooksInOrder, LineInOrder, DesksInOrder, AllBusy, Legal, Genuine;
    assert OwnMail(c.model, j, r[i].reqs[j]);
  }
}
