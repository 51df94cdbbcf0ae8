/**
 The slot accounting and the load balancing of the dispatcher, on values.

 A pool is the list of worker slots in spawn order. The imperative
 `Dispatcher.Dispatcher` is proved against these functions, and the protocol in
 `Scheduling` takes its steps with them.
 */
module Pool {
  import opened Common

  datatype Slot = Slot(
    workerId: string,
    gpu: nat,
    active: nat,
    total: nat,
    busyMs: real,
    jobs: map<JobId, real>)
  {
    /** One more request, `id`, dispatched at time `t`. */
    function Taking(id: JobId, t: real): Slot {
      this.(active := active + 1, jobs := jobs[id := t])
    }

    /** One request less. The counter is clamped at zero. */
    function Giving(ms: real, id: JobId): Slot {
      this.(active := if active >= 1 then active - 1 else 0,
            busyMs := busyMs + ms,
            total := total + 1,
            jobs := jobs - {id})
    }
  }

  /** Take a slot of worker `w` for job `id` at time `t`. */
  function Acquire(ws: seq<Slot>, w: nat, id: JobId, t: real): seq<Slot>
    requires w < |ws|
  {
    ws[w := ws[w].Taking(id, t)]
  }

  /** Give a slot of worker `w` back. */
  function Vacate(ws: seq<Slot>, w: nat, ms: real, id: JobId): seq<Slot>
    requires w < |ws|
  {
    ws[w := ws[w].Giving(ms, id)]
  }

  ghost predicate AllBusy(ws: seq<Slot>) {
    ws != [] && forall i :: 0 <= i < |ws| ==> ws[i].active >= 1
  }

  // ------------------------------------------------------------------
  // Releasing by name
  // ------------------------------------------------------------------

  ghost predicate DistinctIds(ws: seq<Slot>) {
    forall i, j :: 0 <= i < j < |ws| ==> ws[i].workerId != ws[j].workerId
  }

  /** Every worker has a name, and no two share one. */
  ghost predicate WellNamed(ws: seq<Slot>) {
    DistinctIds(ws) && forall w :: 0 <= w < |ws| ==> ws[w].workerId != ""
  }

  /** The first worker of that name, as the loop in `release` finds it. */
  function Find(ws: seq<Slot>, workerId: string): Option<nat> {
    FindFrom(ws, workerId, 0)
  }

  function FindFrom(ws: seq<Slot>, workerId: string, n: nat): (r: Option<nat>)
    requires n <= |ws|
    ensures r.Some? ==> n <= r.value < |ws| && ws[r.value].workerId == workerId
                        && forall i :: n <= i < r.value ==> ws[i].workerId != workerId
    ensures r.None? ==> forall i :: n <= i < |ws| ==> ws[i].workerId != workerId
    decreases |ws| - n
  {
    if n == |ws| then None
    else if ws[n].workerId == workerId then Some(n)
    else FindFrom(ws, workerId, n + 1)
  }

  /** `release`: the worker found by its name gives a slot back; an empty name does nothing. */
  function ReleaseBy(ws: seq<Slot>, workerId: string, ms: real, id: JobId): seq<Slot> {
    var w := Find(ws, workerId);
    if workerId == "" || w.None? then ws else Vacate(ws, w.value, ms, id)
  }

  /** Every worker is found under its own name exactly when the names are distinct. */
  lemma FindIffDistinct(ws: seq<Slot>)
    ensures DistinctIds(ws) <==> forall w :: 0 <= w < |ws| ==> Find(ws, ws[w].workerId) == Some(w)
  {
  }

  /** In a well named pool a release reaches the worker it is meant for. */
  lemma OwnRelease(ws: seq<Slot>, w: nat, ms: real, id: JobId)
    requires WellNamed(ws) && w < |ws|
    ensures ReleaseBy(ws, ws[w].workerId, ms, id) == Vacate(ws, w, ms, id)
    ensures WellNamed(Vacate(ws, w, ms, id))
  {
    FindIffDistinct(ws);
    assert Find(ws, ws[w].workerId) == Some(w);
  }

  // ------------------------------------------------------------------
  // The sort key
  // ------------------------------------------------------------------

  /** Active requests over all workers of GPU `g`. */
  ghost function GpuLoad(ws: seq<Slot>, g: nat): nat {
    if ws == [] then 0
    else GpuLoad(ws[..|ws| - 1], g) + (if ws[|ws| - 1].gpu == g then ws[|ws| - 1].active else 0)
  }

  /** Number of workers on GPU `g`. */
  ghost function GpuSize(ws: seq<Slot>, g: nat): nat {
    if ws == [] then 0
    else GpuSize(ws[..|ws| - 1], g) + (if ws[|ws| - 1].gpu == g then 1 else 0)
  }

  ghost predicate KeyLess(ws: seq<Slot>, i: nat, j: nat)
    requires i < |ws| && j < |ws|
  {
    var a, b := GpuLoad(ws, ws[i].gpu), GpuLoad(ws, ws[j].gpu);
    a < b || (a == b && ws[i].active < ws[j].active)
  }

  /** Worker `k` is the first one with the least key, as Python's `min` returns it. */
  ghost predicate IsPick(ws: seq<Slot>, k: nat) {
    && k < |ws|
    && (forall j :: 0 <= j < |ws| ==> !KeyLess(ws, j, k))
    && (forall j :: 0 <= j < k ==> KeyLess(ws, k, j))
  }

  /** The first least worker among the first `n`. */
  ghost function PickAmong(ws: seq<Slot>, n: nat): (k: nat)
    requires 0 < n <= |ws|
    ensures k < n
    ensures forall j :: 0 <= j < n ==> !KeyLess(ws, j, k)
    ensures forall j :: 0 <= j < k ==> KeyLess(ws, k, j)
  {
    if n == 1 then 0
    else
      var k := PickAmong(ws, n - 1);
      if KeyLess(ws, n - 1, k) then LessThanLeast(ws, n - 1, k); n - 1 else k
  }

  lemma LessThanLeast(ws: seq<Slot>, n: nat, k: nat)
    requires k < n < |ws| && KeyLess(ws, n, k)
    requires forall j :: 0 <= j < n ==> !KeyLess(ws, j, k)
    ensures forall j :: 0 <= j < n ==> KeyLess(ws, n, j)
    ensures forall j :: 0 <= j <= n ==> !KeyLess(ws, j, n)
  {
    forall j | 0 <= j < n
      ensures KeyLess(ws, n, j) && !KeyLess(ws, j, n)
    {
      assert !KeyLess(ws, j, k);
    }
  }

  ghost function PickIndex(ws: seq<Slot>): (k: nat)
    requires ws != []
    ensures IsPick(ws, k)
  {
    PickAmong(ws, |ws|)
  }

  lemma PickUnique(ws: seq<Slot>, k: nat)
    requires IsPick(ws, k)
    ensures k == PickIndex(ws)
  {
    var p := PickIndex(ws);
    var kLess, pLess := KeyLess(ws, k, p), KeyLess(ws, p, k);
  }

  // ------------------------------------------------------------------
  // Idle choice: exactly on balanced topologies
  // ------------------------------------------------------------------

  /** Worker counts of any two GPUs that have workers differ by at most one. */
  ghost predicate Balanced(ws: seq<Slot>) {
    forall i, j :: 0 <= i < |ws| && 0 <= j < |ws| ==>
      GpuSize(ws, ws[i].gpu) <= GpuSize(ws, ws[j].gpu) + 1
  }

  ghost predicate AtMostOneEach(ws: seq<Slot>) {
    forall i :: 0 <= i < |ws| ==> ws[i].active <= 1
  }

  ghost predicate SameTopology(ws: seq<Slot>, vs: seq<Slot>) {
    |ws| == |vs| && forall i :: 0 <= i < |ws| ==> ws[i].gpu == vs[i].gpu
  }

  ghost predicate SomeIdle(ws: seq<Slot>) {
    exists i :: 0 <= i < |ws| && ws[i].active == 0
  }

  lemma {:induction false} LoadAtMostSize(ws: seq<Slot>, g: nat)
    requires AtMostOneEach(ws)
    ensures GpuLoad(ws, g) <= GpuSize(ws, g)
    ensures (exists i :: 0 <= i < |ws| && ws[i].gpu == g && ws[i].active == 0) <==> GpuLoad(ws, g) < GpuSize(ws, g)
  {
    if ws != [] {
      var front := ws[..|ws| - 1];
      LoadAtMostSize(front, g);
      if i :| 0 <= i < |ws| && ws[i].gpu == g && ws[i].active == 0 && i < |front| {
        assert front[i] == ws[i];
      }
      if i :| 0 <= i < |front| && front[i].gpu == g && front[i].active == 0 {
        assert ws[i] == front[i];
      }
    }
  }

  lemma {:induction false} SizeOfTopology(ws: seq<Slot>, vs: seq<Slot>, g: nat)
    requires SameTopology(ws, vs)
    ensures GpuSize(ws, g) == GpuSize(vs, g)
  {
    if ws != [] {
      SizeOfTopology(ws[..|ws| - 1], vs[..|vs| - 1], g);
    }
  }

  lemma BalancedTopology(ws: seq<Slot>, vs: seq<Slot>)
    requires SameTopology(ws, vs) && Balanced(ws)
    ensures Balanced(vs)
  {
    forall i, j | 0 <= i < |vs| && 0 <= j < |vs|
      ensures GpuSize(vs, vs[i].gpu) <= GpuSize(vs, vs[j].gpu) + 1
    {
      SizeOfTopology(ws, vs, vs[i].gpu);
      SizeOfTopology(ws, vs, vs[j].gpu);
      assert GpuSize(ws, ws[i].gpu) <= GpuSize(ws, ws[j].gpu) + 1;
    }
  }

  lemma IdleChoice(ws: seq<Slot>)
    requires Balanced(ws) && AtMostOneEach(ws) && SomeIdle(ws)
    ensures ws[PickIndex(ws)].active == 0
  {
    var k := PickIndex(ws);
    var i :| 0 <= i < |ws| && ws[i].active == 0;
    var gk, gi := ws[k].gpu, ws[i].gpu;
    assert GpuSize(ws, ws[i].gpu) <= GpuSize(ws, ws[k].gpu) + 1;
    assert !KeyLess(ws, i, k);
    LoadAtMostSize(ws, gk);
    LoadAtMostSize(ws, gi);
    forall j | 0 <= j < |ws| && ws[j].gpu == gk
      ensures ws[k].active == 1 ==> ws[j].active != 0
    {
      assert !KeyLess(ws, j, k);
    }
  }

  /** Every worker busy with one request, except worker `idle`. */
  function AllButOne(ws: seq<Slot>, idle: nat): (vs: seq<Slot>)
    ensures SameTopology(ws, vs) && AtMostOneEach(vs)
  {
    seq(|ws|, i requires 0 <= i < |ws| => ws[i].(active := if i == idle then 0 else 1))
  }

  lemma BusyChoice(ws: seq<Slot>, small: nat, large: nat)
    requires small < |ws| && large < |ws|
    requires GpuSize(ws, ws[large].gpu) > GpuSize(ws, ws[small].gpu) + 1
    ensures var vs := AllButOne(ws, large);
            SomeIdle(vs) && vs[PickIndex(vs)].active == 1
  {
    var vs := AllButOne(ws, large);
    var k := PickIndex(vs);
    assert vs[large].active == 0;
    if k == large {
      assert !KeyLess(vs, small, large);
      SizeOfTopology(ws, vs, ws[small].gpu);
      SizeOfTopology(ws, vs, ws[large].gpu);
      LoadAtMostSize(vs, ws[small].gpu);
      OneIdle(vs, large);
      assert false;
    }
  }

  lemma {:induction false} OneIdle(vs: seq<Slot>, idle: nat)
    requires idle < |vs|
    requires forall i :: 0 <= i < |vs| ==> vs[i].active == if i == idle then 0 else 1
    ensures GpuLoad(vs, vs[idle].gpu) + 1 == GpuSize(vs, vs[idle].gpu)
  {
    var front := vs[..|vs| - 1];
    if idle < |front| {
      OneIdle(front, idle);
    } else {
      LoadAtMostSize(front, vs[idle].gpu);
    }
  }

  /**
   The routing rule finds an idle worker in every occupancy of at most one request
   per worker if and only if the topology is balanced.
   */
  lemma IdleChoiceIffBalanced(ws: seq<Slot>)
    ensures Balanced(ws) <==>
            forall vs: seq<Slot> :: SameTopology(ws, vs) && AtMostOneEach(vs) && SomeIdle(vs) ==>
                vs[PickIndex(vs)].active == 0
  {
    if Balanced(ws) {
      forall vs: seq<Slot> | SameTopology(ws, vs) && AtMostOneEach(vs) && SomeIdle(vs)
        ensures vs[PickIndex(vs)].active == 0
      {
        BalancedTopology(ws, vs);
        IdleChoice(vs);
      }
    } else {
      var i, j :| 0 <= i < |ws| && 0 <= j < |ws| && GpuSize(ws, ws[i].gpu) > GpuSize(ws, ws[j].gpu) + 1;
      BusyChoice(ws, j, i);
      var vs := AllButOne(ws, i);
      assert SameTopology(ws, vs) && AtMostOneEach(vs) && SomeIdle(vs) && vs[PickIndex(vs)].active != 0;
    }
  }

  // ------------------------------------------------------------------
  // Burst balance
  // ------------------------------------------------------------------

  /** The pool after dispatching `ids` one after the other, with no release. */
  ghost function AfterBurst(ws: seq<Slot>, ids: seq<JobId>, t: real): (vs: seq<Slot>)
    requires ws != []
    ensures SameTopology(ws, vs)
  {
    if ids == [] then ws
    else
      var before := AfterBurst(ws, ids[..|ids| - 1], t);
      Acquire(before, PickIndex(before), ids[|ids| - 1], t)
  }

  ghost predicate Even(ws: seq<Slot>) {
    && (forall i, j :: 0 <= i < |ws| && 0 <= j < |ws| ==> GpuLoad(ws, ws[i].gpu) <= GpuLoad(ws, ws[j].gpu) + 1)
    && (forall i, j :: 0 <= i < |ws| && 0 <= j < |ws| && ws[i].gpu == ws[j].gpu ==> ws[i].active <= ws[j].active + 1)
  }

  lemma {:induction false} LoadAfterAcquire(ws: seq<Slot>, w: nat, id: JobId, t: real, g: nat)
    requires w < |ws|
    ensures GpuLoad(Acquire(ws, w, id, t), g) == GpuLoad(ws, g) + if ws[w].gpu == g then 1 else 0
  {
    var vs := Acquire(ws, w, id, t);
    var front := ws[..|ws| - 1];
    if w < |front| {
      LoadAfterAcquire(front, w, id, t, g);
      assert vs[..|vs| - 1] == Acquire(front, w, id, t);
    } else {
      assert vs[..|vs| - 1] == front;
    }
  }

  lemma EvenAfterPick(ws: seq<Slot>, id: JobId, t: real)
    requires ws != [] && Even(ws)
    ensures Even(Acquire(ws, PickIndex(ws), id, t))
  {
    var k := PickIndex(ws);
    var vs := Acquire(ws, k, id, t);
    forall i, j | 0 <= i < |vs| && 0 <= j < |vs|
      ensures GpuLoad(vs, vs[i].gpu) <= GpuLoad(vs, vs[j].gpu) + 1
    {
      LoadAfterAcquire(ws, k, id, t, ws[i].gpu);
      LoadAfterAcquire(ws, k, id, t, ws[j].gpu);
      assert !KeyLess(ws, j, k);
      assert GpuLoad(ws, ws[i].gpu) <= GpuLoad(ws, ws[j].gpu) + 1;
    }
    forall i, j | 0 <= i < |vs| && 0 <= j < |vs| && vs[i].gpu == vs[j].gpu
      ensures vs[i].active <= vs[j].active + 1
    {
      assert !KeyLess(ws, j, k);
      assert ws[i].active <= ws[j].active + 1;
    }
  }

  ghost function LoadOfGpus(ws: seq<Slot>, gpus: nat): nat {
    if gpus == 0 then 0 else LoadOfGpus(ws, gpus - 1) + GpuLoad(ws, gpus - 1)
  }

  lemma {:induction false} LoadOfGpusAfterAcquire(ws: seq<Slot>, w: nat, id: JobId, t: real, gpus: nat)
    requires w < |ws|
    ensures LoadOfGpus(Acquire(ws, w, id, t), gpus) == LoadOfGpus(ws, gpus) + if ws[w].gpu < gpus then 1 else 0
  {
    if gpus > 0 {
      LoadOfGpusAfterAcquire(ws, w, id, t, gpus - 1);
      LoadAfterAcquire(ws, w, id, t, gpus - 1);
    }
  }

  /** GPUs `0..gpus` each have a worker, and no worker is on another GPU. */
  ghost predicate Covers(ws: seq<Slot>, gpus: nat) {
    && (forall i :: 0 <= i < |ws| ==> ws[i].gpu < gpus)
    && (forall g: nat :: g < gpus ==> HasGpu(ws, g))
  }

  ghost predicate HasGpu(ws: seq<Slot>, g: nat) {
    exists i :: 0 <= i < |ws| && ws[i].gpu == g
  }

  ghost predicate Empty(ws: seq<Slot>) {
    forall i :: 0 <= i < |ws| ==> ws[i].active == 0
  }

  lemma {:induction false} EmptyLoad(ws: seq<Slot>, g: nat)
    requires Empty(ws)
    ensures GpuLoad(ws, g) == 0
  {
    if ws != [] {
      EmptyLoad(ws[..|ws| - 1], g);
    }
  }

  lemma {:induction false} EmptyLoads(ws: seq<Slot>, gpus: nat)
    requires Empty(ws)
    ensures LoadOfGpus(ws, gpus) == 0
  {
    if gpus > 0 {
      EmptyLoads(ws, gpus - 1);
      EmptyLoad(ws, gpus - 1);
    }
  }

  /** Loads between `m` and `m + 1` put the total within one `gpus` of `gpus * m`. */
  lemma {:induction false} LoadsBetween(ws: seq<Slot>, gpus: nat, m: nat, low: nat)
    requires forall g: nat :: g < gpus ==> m <= GpuLoad(ws, g) <= m + 1
    requires low < gpus ==> GpuLoad(ws, low) == m
    ensures gpus * m <= LoadOfGpus(ws, gpus) <= gpus * m + gpus - if low < gpus then 1 else 0
    ensures (exists g: nat :: g < gpus && GpuLoad(ws, g) == m + 1) ==> LoadOfGpus(ws, gpus) > gpus * m
  {
    if gpus > 0 {
      LoadsBetween(ws, gpus - 1, m, low);
      assert gpus * m == (gpus - 1) * m + m;
      assert m <= GpuLoad(ws, gpus - 1) <= m + 1;
    }
  }

  lemma DivideWithin(n: nat, gpus: nat, m: nat)
    requires gpus > 0 && gpus * m <= n < gpus * m + gpus
    ensures n / gpus == m
    ensures n > gpus * m ==> (n + gpus - 1) / gpus == m + 1
  {
    QuotientUnique(n, gpus, m);
    if n > gpus * m {
      assert gpus * (m + 1) == gpus * m + gpus;
      QuotientUnique(n + gpus - 1, gpus, m + 1);
    }
  }

  lemma QuotientUnique(n: nat, d: nat, q: nat)
    requires d > 0 && d * q <= n < d * q + d
    ensures n / d == q
  {
    var p := n / d;
    assert n == d * p + n % d;
    assert p < q ==> d * p + d == d * (p + 1) <= d * q;
    assert p > q ==> d * p >= d * (q + 1) == d * q + d;
  }

  lemma {:induction false} BurstSteps(ws: seq<Slot>, gpus: nat, ids: seq<JobId>, t: real)
    requires ws != [] && Covers(ws, gpus) && Empty(ws)
    ensures Even(AfterBurst(ws, ids, t))
    ensures LoadOfGpus(AfterBurst(ws, ids, t), gpus) == |ids|
  {
    if ids == [] {
      forall i | 0 <= i < |ws|
        ensures GpuLoad(ws, ws[i].gpu) == 0
      {
        EmptyLoad(ws, ws[i].gpu);
      }
      EmptyLoads(ws, gpus);
    } else {
      var front := ids[..|ids| - 1];
      BurstSteps(ws, gpus, front, t);
      var before := AfterBurst(ws, front, t);
      EvenAfterPick(before, ids[|ids| - 1], t);
      LoadOfGpusAfterAcquire(before, PickIndex(before), ids[|ids| - 1], t, gpus);
    }
  }

  /**
   After any burst of n dispatches into an empty pool, every GPU carries the floor
   or the ceiling of n / gpus, and workers of one GPU differ by at most one.
   */
  lemma BurstBalance(ws: seq<Slot>, gpus: nat, ids: seq<JobId>, t: real)
    requires ws != [] && Covers(ws, gpus) && Empty(ws)
    ensures var vs := AfterBurst(ws, ids, t);
            && (forall g: nat :: g < gpus ==>
                  GpuLoad(vs, g) == |ids| / gpus || GpuLoad(vs, g) == (|ids| + gpus - 1) / gpus)
            && (forall i, j :: 0 <= i < |vs| && 0 <= j < |vs| && vs[i].gpu == vs[j].gpu ==>
                  vs[i].active <= vs[j].active + 1)
  {
    BurstSteps(ws, gpus, ids, t);
    var vs := AfterBurst(ws, ids, t);
    assert ws[0].gpu < gpus;
    var low := LeastLoaded(ws, vs, gpus);
    var m := GpuLoad(vs, low);
    LoadsBetween(vs, gpus, m, low);
    DivideWithin(|ids|, gpus, m);
  }

  lemma LeastLoaded(ws: seq<Slot>, vs: seq<Slot>, gpus: nat) returns (low: nat)
    requires SameTopology(ws, vs) && Covers(ws, gpus) && Even(vs) && gpus > 0
    ensures low < gpus
    ensures forall g: nat :: g < gpus ==> GpuLoad(vs, low) <= GpuLoad(vs, g) <= GpuLoad(vs, low) + 1
  {
    low := 0;
    var n := 1;
    while n < gpus
      invariant low < n <= gpus
      invariant forall g: nat :: g < n ==> GpuLoad(vs, low) <= GpuLoad(vs, g)
    {
      if GpuLoad(vs, n) < GpuLoad(vs, low) {
        low := n;
      }
      n := n + 1;
    }
    assert HasGpu(ws, low);
    var i :| 0 <= i < |ws| && ws[i].gpu == low;
    forall g: nat | g < gpus
      ensures GpuLoad(vs, g) <= GpuLoad(vs, low) + 1
    {
      assert HasGpu(ws, g);
      var j :| 0 <= j < |ws| && ws[j].gpu == g;
      assert GpuLoad(vs, vs[j].gpu) <= GpuLoad(vs, vs[i].gpu) + 1;
    }
  }

  // ------------------------------------------------------------------
  // Totals over the pool
  // ------------------------------------------------------------------

  function TotalActive(ws: seq<Slot>): nat {
    if ws == [] then 0 else TotalActive(ws[..|ws| - 1]) + ws[|ws| - 1].active
  }

  lemma {:induction false} TotalAfterAcquire(ws: seq<Slot>, w: nat, id: JobId, t: real)
    requires w < |ws|
    ensures TotalActive(Acquire(ws, w, id, t)) == TotalActive(ws) + 1
  {
    var front, vs := ws[..|ws| - 1], Acquire(ws, w, id, t);
    if w < |front| {
      TotalAfterAcquire(front, w, id, t);
      assert vs[..|vs| - 1] == Acquire(front, w, id, t);
    } else {
      assert vs[..|vs| - 1] == front;
    }
  }

  lemma {:induction false} TotalAtMost(ws: seq<Slot>, most: nat)
    requires forall i :: 0 <= i < |ws| ==> ws[i].active <= most
    ensures TotalActive(ws) <= |ws| * most
    ensures (forall i :: 0 <= i < |ws| ==> ws[i].active == most) ==> TotalActive(ws) == |ws| * most
    ensures (exists i :: 0 <= i < |ws| && ws[i].active < most) ==> TotalActive(ws) < |ws| * most
  {
    if ws != [] {
      var n := |ws| - 1;
      TotalAtMost(ws[..n], most);
      assert |ws| * most == n * most + most;
      if i :| 0 <= i < |ws| && ws[i].active < most && i < n {
        assert ws[..n][i] == ws[i];
      }
    }
  }

  lemma {:induction false} TotalOfIdle(ws: seq<Slot>)
    requires Empty(ws)
    ensures TotalActive(ws) == 0
  {
    if ws != [] {
      TotalOfIdle(ws[..|ws| - 1]);
    }
  }

  lemma {:induction false} TotalAfterVacate(ws: seq<Slot>, w: nat, ms: real, id: JobId)
    requires w < |ws|
    ensures TotalActive(ws) <= TotalActive(Vacate(ws, w, ms, id)) + 1
  {
    var front, vs := ws[..|ws| - 1], Vacate(ws, w, ms, id);
    if w < |front| {
      TotalAfterVacate(front, w, ms, id);
      assert vs[..|vs| - 1] == Vacate(front, w, ms, id);
    } else {
      assert vs[..|vs| - 1] == front;
    }
  }

  ghost predicate SameNames(ws: seq<Slot>, vs: seq<Slot>) {
    |ws| == |vs| && forall w :: 0 <= w < |ws| ==> ws[w].workerId == vs[w].workerId && ws[w].gpu == vs[w].gpu
  }

  lemma SameNamesSameKind(ws: seq<Slot>, vs: seq<Slot>)
    requires SameNames(ws, vs)
    ensures WellNamed(ws) <==> WellNamed(vs)
  {
  }

  /** A release by any name touches no name, raises no counter and lowers the total by at most one. */
  lemma ReleaseLowers(ws: seq<Slot>, workerId: string, ms: real, id: JobId)
    ensures var vs := ReleaseBy(ws, workerId, ms, id);
            && SameNames(ws, vs)
            && (forall w :: 0 <= w < |ws| ==> vs[w].active <= ws[w].active)
            && TotalActive(ws) <= TotalActive(vs) + 1
            && (ws != [] && ws[0].workerId == workerId != "" ==>
                  vs[0].active == if ws[0].active >= 1 then ws[0].active - 1 else 0)
  {
    var w := Find(ws, workerId);
    if workerId != "" && w.Some? {
      TotalAfterVacate(ws, w.value, ms, id);
    }
  }
}
