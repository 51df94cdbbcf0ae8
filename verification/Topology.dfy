/** What the WORKERS_PER_GPU list means for load balancing. */
module Topology {
  import opened Pool
  import opened WorkerIds

  lemma {:induction false} SizeOfConcat(a: seq<Slot>, b: seq<Slot>, g: nat)
    ensures GpuSize(a + b, g) == GpuSize(a, g) + GpuSize(b, g)
  {
    if b == [] {
      assert a + b == a;
    } else {
      SizeOfConcat(a, b[..|b| - 1], g);
      assert (a + b)[..|a + b| - 1] == a + b[..|b| - 1];
    }
  }

  lemma {:induction false} SizeOfRow(cuda: bool, h: nat, n: nat, g: nat)
    ensures GpuSize(Row(cuda, h, n), g) == if g == h then n else 0
  {
    if n > 0 {
      SizeOfRow(cuda, h, n - 1, g);
      assert Row(cuda, h, n)[..n - 1] == Row(cuda, h, n - 1);
    }
  }

  lemma {:induction false} SizeOfSpawned(cuda: bool, counts: seq<nat>, g: nat)
    ensures GpuSize(Spawned(cuda, counts), g) == if g < |counts| then counts[g] else 0
  {
    if counts != [] {
      var n := |counts| - 1;
      SizeOfSpawned(cuda, counts[..n], g);
      SizeOfRow(cuda, n, counts[n], g);
      SizeOfConcat(Spawned(cuda, counts[..n]), Row(cuda, n, counts[n]), g);
    }
  }

  lemma {:induction false} SizeIffWorker(ws: seq<Slot>, g: nat)
    ensures GpuSize(ws, g) > 0 <==> HasGpu(ws, g)
  {
    if ws != [] {
      var front := ws[..|ws| - 1];
      SizeIffWorker(front, g);
      if i :| 0 <= i < |front| && front[i].gpu == g {
        assert ws[i].gpu == g;
      }
    }
  }

  /** Any two GPU slots are configured with worker counts at most one apart. */
  ghost predicate WithinOne(counts: seq<nat>) {
    forall g, h :: 0 <= g < |counts| && 0 <= h < |counts| ==> counts[g] <= counts[h] + 1
  }

  lemma BalancedIffWithinOne(cuda: bool, counts: seq<nat>)
    requires forall c <- counts :: c >= 1
    ensures Balanced(Spawned(cuda, counts)) <==> WithinOne(counts)
  {
    var ws := Spawned(cuda, counts);
    forall g: nat
      ensures GpuSize(ws, g) == if g < |counts| then counts[g] else 0
      ensures GpuSize(ws, g) > 0 <==> HasGpu(ws, g)
    {
      SizeOfSpawned(cuda, counts, g);
      SizeIffWorker(ws, g);
    }
    forall i | 0 <= i < |ws|
      ensures ws[i].gpu < |counts|
    {
      assert HasGpu(ws, ws[i].gpu);
    }
    if Balanced(ws) {
      forall g, h | 0 <= g < |counts| && 0 <= h < |counts|
        ensures counts[g] <= counts[h] + 1
      {
        assert counts[g] in counts && counts[h] in counts;
        var i :| 0 <= i < |ws| && ws[i].gpu == g;
        var j :| 0 <= j < |ws| && ws[j].gpu == h;
        assert GpuSize(ws, ws[i].gpu) <= GpuSize(ws, ws[j].gpu) + 1;
      }
    }
  }

  /**
   For every WORKERS_PER_GPU list: whenever some worker is idle and none has two requests, the
   next request goes to an idle one, if and only if the counts are within one of each other.
   */
  lemma IdleFirstIffWithinOne(cuda: bool, counts: seq<nat>)
    requires forall c <- counts :: c >= 1
    ensures WithinOne(counts) <==>
            forall vs: seq<Slot> :: SameTopology(Spawned(cuda, counts), vs) && AtMostOneEach(vs) && SomeIdle(vs) ==>
              vs[PickIndex(vs)].active == 0
  {
    BalancedIffWithinOne(cuda, counts);
    IdleChoiceIffBalanced(Spawned(cuda, counts));
  }
}
