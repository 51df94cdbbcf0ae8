/**
 The conditions of two theorems about runs are needed: on every unbalanced topology some run without
 clone traffic doubles up on a worker, and with shared worker names some run leaks a slot.
 */
module Necessity {
  import opened Messages
  import opened Pool
  import opened Topology
  import opened WorkerIds
  import opened Ledgers
  import opened Scheduling
  import opened SchedulingTheorems

  // ------------------------------------------------------------------
  // Building runs
  // ------------------------------------------------------------------

  ghost predicate Path(c: Config, r: seq<Sched>) {
    r != [] && forall i :: 0 <= i < |r| - 1 ==> r[i + 1] == r[i] || Next(c, r[i], r[i + 1])
  }

  lemma Walk(c: Config, r: seq<Sched>, a: Action) returns (longer: seq<Sched>)
    requires Path(c, r) && Enabled(c, r[|r| - 1], a)
    ensures Path(c, longer) && r <= longer && longer[|longer| - 1] == Apply(c, r[|r| - 1], a)
  {
    hide Enabled, Apply;
    longer := r + [Apply(c, r[|r| - 1], a)];
    assert Next(c, r[|r| - 1], longer[|r|]);
  }

  const VOICE := Voice([], [])
  const PARAMS := Params(0.75, 1.0, 10.0, 50, 0.85, true, 1, 1.0, false)
  const SYNC := Spec(Sync, Speech("hello", "en", VOICE, PARAMS), Wav, "alice")
  const CLONE := Spec(Latents, Reference("ref.wav"), Wav, "")

  /** Nothing waits, and every request so far stands with the worker it was dispatched to. */
  ghost predicate Ready(c: Config, s: Sched) {
    && s.queue == [] && s.drain.Get? && s.pool != [] && |s.inbox| == |s.pool| && SameTopology(c.pool, s.pool)
    && (forall x :: 0 <= x < |s.reqs| ==> s.reqs[x].phase.Spawned? && s.reqs[x].phase.w < |s.pool|)
  }

  // ------------------------------------------------------------------
  // One dispatch through the queue, one past it
  // ------------------------------------------------------------------

  /** The entry of a request handed to worker `w`. */
  function HandedTo(spec: Spec, w: nat): Entry {
    Entry(spec, Phase.Spawned(w), Posted(w), [], [], [])
  }

  lemma TakenInHand(c: Config, r: seq<Sched>) returns (longer: seq<Sched>)
    requires Path(c, r) && Ready(c, r[|r| - 1]) && c.maxQueue > 0
    ensures Path(c, longer) && r <= longer
    ensures var s, id := r[|r| - 1], |r[|r| - 1].reqs|;
            longer[|longer| - 1] == s.(reqs := s.reqs + [Entry(SYNC, Waiting, Unposted, [], [], [])],
                                       drain := Check(id), accepted := s.accepted + [id])
  {
    var s := r[|r| - 1];
    var id := |s.reqs|;
    longer := Walk(c, r, Arrive(SYNC));
    longer := Walk(c, longer, Enqueue(id));
    assert longer[|longer| - 1].reqs == s.reqs + [Entry(SYNC, Waiting, Unposted, [], [], [])];
    longer := Walk(c, longer, DrainGet);
  }

  lemma QueuedDispatch(c: Config, r: seq<Sched>) returns (longer: seq<Sched>)
    requires Path(c, r) && Ready(c, r[|r| - 1]) && c.maxQueue > 0 && SomeIdle(r[|r| - 1].pool)
    ensures Path(c, longer) && r <= longer
    ensures var s, t := r[|r| - 1], longer[|longer| - 1];
            && Ready(c, t) && t.reqs == s.reqs + [HandedTo(SYNC, PickIndex(s.pool))]
            && t.pool == Acquire(s.pool, PickIndex(s.pool), |s.reqs|, 0.0)
  {
    var s := r[|r| - 1];
    IdleIsNotAllBusy(s.pool);
    hide PickIndex, SomeIdle, SameTopology, AllBusy, Path;
    longer := TakenInHand(c, r);
    longer := Walk(c, longer, DrainCheck);
    longer := Walk(c, longer, DrainPick(0.0));
    longer := Walk(c, longer, Action.Post(|s.reqs|));
  }

  lemma DirectDispatch(c: Config, r: seq<Sched>) returns (longer: seq<Sched>)
    requires Path(c, r) && Ready(c, r[|r| - 1])
    ensures Path(c, longer) && r <= longer
    ensures var s, t := r[|r| - 1], longer[|longer| - 1];
            && Ready(c, t) && t.reqs == s.reqs + [HandedTo(CLONE, PickIndex(s.pool))]
            && t.pool == Acquire(s.pool, PickIndex(s.pool), |s.reqs|, 0.0)
  {
    var s := r[|r| - 1];
    hide PickIndex, SameTopology, Path;
    longer := Walk(c, r, Arrive(CLONE));
    longer := Walk(c, longer, Direct(|s.reqs|, 0.0));
    longer := Walk(c, longer, Action.Post(|s.reqs|));
  }

  lemma IdleIsNotAllBusy(ws: seq<Slot>)
    requires SomeIdle(ws)
    ensures !AllBusy(ws)
  {
  }

  // ------------------------------------------------------------------
  // Counting
  // ------------------------------------------------------------------

  lemma IdleIsEven(ws: seq<Slot>)
    requires Pool.Empty(ws)
    ensures Even(ws)
  {
    forall i | 0 <= i < |ws|
      ensures GpuLoad(ws, ws[i].gpu) == 0
    {
      EmptyLoad(ws, ws[i].gpu);
    }
  }

  // ------------------------------------------------------------------
  // Unbalanced topologies
  // ------------------------------------------------------------------

  /** If every worker has exactly one request and the loads are even, the topology is balanced. */
  lemma FullAndEven(ws: seq<Slot>)
    requires Even(ws) && forall i :: 0 <= i < |ws| ==> ws[i].active == 1
    ensures Balanced(ws)
  {
    forall i, j | 0 <= i < |ws| && 0 <= j < |ws|
      ensures GpuSize(ws, ws[i].gpu) <= GpuSize(ws, ws[j].gpu) + 1
    {
      LoadAtMostSize(ws, ws[i].gpu);
      LoadAtMostSize(ws, ws[j].gpu);
      assert GpuLoad(ws, ws[i].gpu) <= GpuLoad(ws, ws[j].gpu) + 1;
    }
  }

  /** Dispatching `n` requests one after the other: either some worker got two, or `n` workers have one each. */
  lemma {:induction false} FillUp(c: Config, s0: Sched, n: nat) returns (r: seq<Sched>)
    requires Init(c, s0) && n <= |c.pool|
    ensures Path(c, r) && r[0] == s0 && QueueTrafficOnly(r[|r| - 1])
    ensures var s := r[|r| - 1];
            !AtMostOneEach(s.pool) || (Ready(c, s) && Even(s.pool) && TotalActive(s.pool) == n)
  {
    if n == 0 {
      r := [s0];
      TotalOfIdle(s0.pool);
      IdleIsEven(s0.pool);
    } else {
      r := FillUp(c, s0, n - 1);
      var s := r[|r| - 1];
      if AtMostOneEach(s.pool) {
        StillIdle(c, s, n - 1);
        var longer := QueuedDispatch(c, r);
        EvenAfterPick(s.pool, |s.reqs|, 0.0);
        TotalAfterAcquire(s.pool, PickIndex(s.pool), |s.reqs|, 0.0);
        r := longer;
      }
    }
  }

  lemma StillIdle(c: Config, s: Sched, n: nat)
    requires Ready(c, s) && AtMostOneEach(s.pool) && TotalActive(s.pool) == n < |c.pool|
    ensures SomeIdle(s.pool)
  {
    TotalAtMost(s.pool, 1);
    var i :| 0 <= i < |s.pool| && s.pool[i].active != 1;
    assert s.pool[i].active == 0;
  }

  /** On every unbalanced topology some run without clone traffic puts two requests on one worker. */
  lemma UnbalancedDoubles(c: Config, s0: Sched) returns (r: seq<Sched>)
    requires Init(c, s0) && !Balanced(c.pool)
    ensures Path(c, r) && r[0] == s0
    ensures QueueTrafficOnly(r[|r| - 1]) && !AtMostOneEach(r[|r| - 1].pool)
  {
    r := FillUp(c, s0, |c.pool|);
    var pool := r[|r| - 1].pool;
    if AtMostOneEach(pool) {
      TotalAtMost(pool, 1);
      assert forall i :: 0 <= i < |pool| ==> pool[i].active == 1;
      FullAndEven(pool);
      BalancedTopology(pool, c.pool);
      assert false;
    }
  }

  ghost predicate NeverDoubles(c: Config) {
    forall r: seq<Sched>, i: nat :: Run(c, r) && i < |r| && QueueTrafficOnly(r[i]) ==> AtMostOneEach(r[i].pool)
  }

  /** Without clone traffic no worker ever counts two requests, in any run, if and only if the topology is balanced. */
  lemma OnePerWorkerIffBalanced(c: Config, s0: Sched)
    requires Init(c, s0)
    ensures Balanced(c.pool) <==> NeverDoubles(c)
  {
    if Balanced(c.pool) {
      forall r: seq<Sched>, i: nat | Run(c, r) && i < |r| && QueueTrafficOnly(r[i])
        ensures AtMostOneEach(r[i].pool)
      {
        NeverTwoOnOneWorker(c, r, i);
      }
    } else {
      var r := UnbalancedDoubles(c, s0);
      assert Run(c, r) && QueueTrafficOnly(r[|r| - 1]) && !AtMostOneEach(r[|r| - 1].pool);
    }
  }

  /** In terms of WORKERS_PER_GPU: if and only if any two counts are at most one apart. */
  lemma NeverDoublesIffWithinOne(c: Config, s0: Sched, cuda: bool, counts: seq<nat>)
    requires Init(c, s0) && c.pool == WorkerIds.Spawned(cuda, counts) && forall n <- counts :: n >= 1
    ensures WithinOne(counts) <==> NeverDoubles(c)
  {
    BalancedIffWithinOne(cuda, counts);
    OnePerWorkerIffBalanced(c, s0);
  }

  // ------------------------------------------------------------------
  // Shared worker names
  // ------------------------------------------------------------------

  /** No request was ever dispatched to worker `j`, which shares its name with an earlier one. */
  ghost predicate Avoided(s: Sched, j: nat) {
    && Shadowed(s.pool, j) && s.pool[j].active == 0
    && forall x :: 0 <= x < |s.reqs| ==> s.reqs[x].phase.Spawned? && s.reqs[x].phase.w != j
  }

  /** While a worker is avoided, the others cannot take more than so many requests. */
  lemma AvoidedBound(ws: seq<Slot>, j: nat)
    requires j < |ws| && ws[j].active == 0 && Even(ws)
    ensures TotalActive(ws) <= |ws| * |ws|
  {
    forall i | 0 <= i < |ws| && ws[i].gpu == ws[j].gpu
      ensures ws[i].active <= 1
    {
      assert ws[i].active <= ws[j].active + 1;
    }
    LoadWithout(ws, ws[j].gpu, j);
    forall i | 0 <= i < |ws|
      ensures ws[i].active <= |ws|
    {
      assert GpuLoad(ws, ws[i].gpu) <= GpuLoad(ws, ws[j].gpu) + 1;
      OwnLoad(ws, i);
    }
    TotalAtMost(ws, |ws|);
  }

  lemma {:induction false} OwnLoad(ws: seq<Slot>, i: nat)
    requires i < |ws|
    ensures ws[i].active <= GpuLoad(ws, ws[i].gpu)
  {
    if i < |ws| - 1 {
      OwnLoad(ws[..|ws| - 1], i);
    }
  }

  lemma {:induction false} LoadWithout(ws: seq<Slot>, g: nat, j: nat)
    requires forall i :: 0 <= i < |ws| && ws[i].gpu == g ==> ws[i].active <= 1
    requires j < |ws| ==> ws[j].active == 0
    ensures GpuLoad(ws, g) <= |ws| - if j < |ws| then 1 else 0
  {
    if ws != [] {
      LoadWithout(ws[..|ws| - 1], g, j);
    }
  }

  /** The state before worker `j` is first picked, after `n` clone requests. */
  ghost predicate Looking(s: Sched, j: nat, n: nat) {
    Avoided(s, j) && Even(s.pool) && TotalActive(s.pool) == n
  }

  /** The last request is the first one that worker `j` was given. */
  ghost predicate Hit(s: Sched, j: nat) {
    && s.reqs != [] && s.reqs[|s.reqs| - 1] == HandedTo(CLONE, j)
    && Shadowed(s.pool, j) && s.pool[j].active == 1
    && forall x :: 0 <= x < |s.reqs| - 1 ==> s.reqs[x].phase.Spawned? && s.reqs[x].phase.w != j
  }

  lemma LookOn(s: Sched, t: Sched, j: nat, n: nat)
    requires s.pool != [] && Looking(s, j, n)
    requires t.reqs == s.reqs + [HandedTo(CLONE, PickIndex(s.pool))]
    requires t.pool == Acquire(s.pool, PickIndex(s.pool), |s.reqs|, 0.0)
    ensures if PickIndex(s.pool) == j then Hit(t, j) else Looking(t, j, n + 1)
    ensures n <= |s.pool| * |s.pool| && |t.pool| == |s.pool|
  {
    var w := PickIndex(s.pool);
    AvoidedBound(s.pool, j);
    EvenAfterPick(s.pool, |s.reqs|, 0.0);
    TotalAfterAcquire(s.pool, w, |s.reqs|, 0.0);
    ShadowedKeeps(s.pool, j, Take(w, |s.reqs|, 0.0));
    hide Even, Shadowed, PickIndex;
  }

  /** Some clone request is sooner or later dispatched to worker `j`. */
  lemma ReachWorker(c: Config, r0: seq<Sched>, j: nat, n: nat, bound: nat) returns (r: seq<Sched>)
    requires Path(c, r0) && Ready(c, r0[|r0| - 1]) && Looking(r0[|r0| - 1], j, n)
    requires bound == |r0[|r0| - 1].pool| * |r0[|r0| - 1].pool|
    ensures Path(c, r) && r0 <= r && Ready(c, r[|r| - 1]) && Hit(r[|r| - 1], j)
    decreases bound + 1 - n
  {
    var s := r0[|r0| - 1];
    assert s.pool != [];
    hide Path, Ready, Looking, PickIndex, Hit, Acquire;
    r := DirectDispatch(c, r0);
    LookOn(s, r[|r| - 1], j, n);
    if PickIndex(s.pool) != j {
      r := ReachWorker(c, r, j, n + 1, bound);
    }
  }

  /**
   If a worker shares its name with an earlier one, some run leaves a slot of it taken with no
   request that could return it.
   */
  lemma SharedNameLeaks(c: Config, s0: Sched, j: nat) returns (r: seq<Sched>)
    requires Init(c, s0) && Shadowed(c.pool, j)
    ensures Path(c, r) && r[0] == s0
    ensures var s := r[|r| - 1]; j < |s.pool| && s.pool[j].active >= 1 && Unreleased(s, j) == {}
  {
    TotalOfIdle(s0.pool);
    IdleIsEven(s0.pool);
    r := ReachWorker(c, [s0], j, 0, |s0.pool| * |s0.pool|);
    var s := r[|r| - 1];
    ShadowedKeeps(s.pool, j, Return(s.pool[j].workerId, 0.0, |s.reqs| - 1));
    hide Path, Shadowed, ReleaseBy, Unreleased;
    r := TimedOut(c, r, j);
    NobodyHolds(s, r[|r| - 1], j);
  }

  /** The last request times out and its slot is released by the name of its worker. */
  lemma TimedOut(c: Config, r: seq<Sched>, j: nat) returns (longer: seq<Sched>)
    requires Path(c, r) && r[|r| - 1].reqs != []
    requires var s := r[|r| - 1]; s.reqs[|s.reqs| - 1] == HandedTo(CLONE, j) && j < |s.pool|
    ensures Path(c, longer) && r <= longer
    ensures var s, t := r[|r| - 1], longer[|longer| - 1];
            var id := |s.reqs| - 1;
            && t.pool == ReleaseBy(s.pool, s.pool[j].workerId, 0.0, id)
            && |t.reqs| == |s.reqs| && t.reqs[id].phase.Released? && t.reqs[..id] == s.reqs[..id]
  {
    var id := |r[|r| - 1].reqs| - 1;
    hide ReleaseBy, Path;
    longer := Walk(c, r, Action.Start(id, 0.0));
    longer := Walk(c, longer, TimeOut(id, 0.0));
    longer := Walk(c, longer, Release(id));
  }

  lemma NobodyHolds(s: Sched, t: Sched, j: nat)
    requires Hit(s, j) && |t.reqs| == |s.reqs| && t.reqs[|s.reqs| - 1].phase.Released?
    requires t.reqs[..|s.reqs| - 1] == s.reqs[..|s.reqs| - 1]
    ensures Unreleased(t, j) == {}
  {
    forall x | 0 <= x < |t.reqs| - 1
      ensures t.reqs[x] == s.reqs[x]
    {
      assert t.reqs[..|s.reqs| - 1][x] == s.reqs[..|s.reqs| - 1][x];
    }
  }

  ghost predicate Conserved(s: Sched, w: nat)
    requires w < |s.pool|
  {
    s.pool[w].active == |Unreleased(s, w)|
  }

  ghost predicate AlwaysConserved(c: Config, s0: Sched) {
    forall r: seq<Sched>, i: nat, w: nat :: Path(c, r) && r[0] == s0 && i < |r| && w < |r[i].pool| ==>
      Conserved(r[i], w)
  }

  /**
   Every slot of every run is held by a request that will return it if and only if the workers can
   be told apart by name.
   */
  lemma ConservedIffNamesDistinct(c: Config, s0: Sched)
    requires Init(c, s0)
    ensures DistinctIds(c.pool) <==> AlwaysConserved(c, s0)
  {
    if DistinctIds(c.pool) {
      forall r: seq<Sched>, i: nat, w: nat | Path(c, r) && r[0] == s0 && i < |r| && w < |r[i].pool|
        ensures Conserved(r[i], w)
      {
        assert Run(c, r);
        SlotConservation(c, r, i, w);
      }
    } else {
      var i, j :| 0 <= i < j < |c.pool| && c.pool[i].workerId == c.pool[j].workerId;
      var r := SharedNameLeaks(c, s0, j);
      assert !Conserved(r[|r| - 1], j);
    }
  }

  /** For the workers that `start` spawns: if and only if CUDA is present or there is one GPU slot. */
  lemma ConservedIffCudaOrOneSlot(c: Config, s0: Sched, cuda: bool, counts: seq<nat>)
    requires Init(c, s0) && c.pool == WorkerIds.Spawned(cuda, counts) && forall n <- counts :: n >= 1
    ensures cuda || |counts| <= 1 <==> AlwaysConserved(c, s0)
  {
    DistinctIff(cuda, counts);
    ConservedIffNamesDistinct(c, s0);
  }
}
