/** The worker names `start()` hands out, and when a release by name finds the right worker. */
module WorkerIds {
  import opened Common
  import opened Pool

  const DIGITS := "0123456789"

  /** The decimal numeral of `n`. */
  function Decimal(n: nat): (s: string)
    ensures s != [] && forall c <- s :: c in DIGITS
  {
    if n < 10 then [DIGITS[n]] else Decimal(n / 10) + [DIGITS[n % 10]]
  }

  lemma {:induction false} DecimalInjective(m: nat, n: nat)
    requires Decimal(m) == Decimal(n)
    ensures m == n
  {
    var s, t := Decimal(m), Decimal(n);
    assert s[|s| - 1] == DIGITS[m % 10] && t[|t| - 1] == DIGITS[n % 10];
    if m >= 10 && n >= 10 {
      assert s[..|s| - 1] == Decimal(m / 10) && t[..|t| - 1] == Decimal(n / 10);
      DecimalInjective(m / 10, n / 10);
    } else {
      assert |s| == 1 <==> m < 10;
      assert |t| == 1 <==> n < 10;
    }
  }

  function Name(cuda: bool, gpu: nat, slot: nat): string {
    if cuda then "gpu" + Decimal(gpu) + "-w" + Decimal(slot) else "cpu-w" + Decimal(slot)
  }

  /** A numeral ends where the first dash stands. */
  lemma SplitAtDash(a: string, b: string, x: string, y: string)
    requires (forall c <- a :: c in DIGITS) && (forall c <- b :: c in DIGITS)
    requires a + "-w" + x == b + "-w" + y
    ensures a == b && x == y
  {
    var s := a + "-w" + x;
    assert s[|a|] == '-' && s[|b|] == '-';
    forall i | 0 <= i < |a|
      ensures s[i] != '-'
    {
      assert s[i] == a[i] && a[i] in a;
    }
    forall i | 0 <= i < |b|
      ensures s[i] != '-'
    {
      assert s[i] == b[i] && b[i] in b;
    }
    assert a == s[..|a|] && b == s[..|b|];
    assert x == s[|a| + 2..] && y == s[|b| + 2..];
  }

  lemma CudaName(g: nat, i: nat)
    ensures |Name(true, g, i)| >= 3 && Name(true, g, i)[3..] == Decimal(g) + "-w" + Decimal(i)
  {
    hide Decimal;
  }

  lemma CudaNamesInjective(g: nat, i: nat, h: nat, j: nat)
    requires Name(true, g, i) == Name(true, h, j)
    ensures g == h && i == j
  {
    CudaName(g, i);
    CudaName(h, j);
    hide Name, Decimal;
    SplitAtDash(Decimal(g), Decimal(h), Decimal(i), Decimal(j));
    DecimalInjective(g, h);
    DecimalInjective(i, j);
  }

  lemma NamesInjective(cuda: bool, g: nat, i: nat, j: nat)
    requires Name(cuda, g, i) == Name(cuda, g, j)
    ensures i == j
  {
    if cuda {
      CudaNamesInjective(g, i, g, j);
    } else {
      assert Name(false, g, i)[5..] == Decimal(i) && Name(false, g, j)[5..] == Decimal(j);
      DecimalInjective(i, j);
    }
  }

  // ------------------------------------------------------------------
  // The pool that start() builds
  // ------------------------------------------------------------------

  function Idle(cuda: bool, gpu: nat, slot: nat): Slot {
    Slot(Name(cuda, gpu, slot), gpu, 0, 0, 0.0, map[])
  }

  function Row(cuda: bool, gpu: nat, n: nat): seq<Slot> {
    seq(n, i requires 0 <= i < n => Idle(cuda, gpu, i))
  }

  function Spawned(cuda: bool, counts: seq<nat>): seq<Slot> {
    if counts == [] then [] else Spawned(cuda, counts[..|counts| - 1]) + Row(cuda, |counts| - 1, counts[|counts| - 1])
  }

  /** Every name stems from the worker's own GPU and slot. */
  ghost predicate Named(cuda: bool, ws: seq<Slot>, gpus: nat) {
    forall i :: 0 <= i < |ws| ==> ws[i].gpu < gpus && exists slot :: ws[i].workerId == Name(cuda, ws[i].gpu, slot)
  }

  lemma {:induction false} SpawnedDistinct(cuda: bool, counts: seq<nat>)
    requires cuda || |counts| <= 1
    ensures DistinctIds(Spawned(cuda, counts)) && Named(cuda, Spawned(cuda, counts), |counts|)
  {
    if counts != [] {
      var g := |counts| - 1;
      SpawnedDistinct(cuda, counts[..g]);
      RowDistinct(cuda, Spawned(cuda, counts[..g]), g, counts[g]);
      RowNamed(cuda, Spawned(cuda, counts[..g]), g, counts[g]);
    }
  }

  lemma NewName(front: seq<Slot>, g: nat, i: nat, slot: nat)
    requires Named(true, front, g) && i < |front|
    ensures front[i].workerId != Name(true, g, slot)
  {
    hide Name;
    var other :| front[i].workerId == Name(true, front[i].gpu, other);
    if front[i].workerId == Name(true, g, slot) {
      CudaNamesInjective(front[i].gpu, other, g, slot);
    }
  }

  lemma NewNames(cuda: bool, g: nat, i: nat, j: nat)
    requires i != j
    ensures Name(cuda, g, i) != Name(cuda, g, j)
  {
    if Name(cuda, g, i) == Name(cuda, g, j) {
      NamesInjective(cuda, g, i, j);
    }
  }

  lemma RowDistinct(cuda: bool, front: seq<Slot>, g: nat, n: nat)
    requires DistinctIds(front) && Named(cuda, front, g) && (cuda || front == [])
    ensures DistinctIds(front + Row(cuda, g, n))
  {
    hide Name, Named;
    var ws := front + Row(cuda, g, n);
    forall i, j | 0 <= i < j < |ws| && j >= |front|
      ensures ws[i].workerId != ws[j].workerId
    {
      if i >= |front| {
        NewNames(cuda, g, i - |front|, j - |front|);
      } else {
        NewName(front, g, i, j - |front|);
      }
    }
  }

  lemma RowNamed(cuda: bool, front: seq<Slot>, g: nat, n: nat)
    requires Named(cuda, front, g)
    ensures Named(cuda, front + Row(cuda, g, n), g + 1)
  {
    var ws := front + Row(cuda, g, n);
    forall i | 0 <= i < |ws|
      ensures ws[i].gpu < g + 1 && exists slot :: ws[i].workerId == Name(cuda, ws[i].gpu, slot)
    {
      if i < |front| {
        assert ws[i] == front[i];
      } else {
        var slot: nat := i - |front|;
        assert ws[i].workerId == Name(cuda, g, slot);
      }
    }
  }

  lemma {:induction false} SpawnedPrefix(cuda: bool, counts: seq<nat>, n: nat)
    requires n <= |counts|
    ensures Spawned(cuda, counts[..n]) <= Spawned(cuda, counts)
    decreases |counts|
  {
    if n < |counts| {
      var front := counts[..|counts| - 1];
      SpawnedPrefix(cuda, front, n);
      assert front[..n] == counts[..n];
    } else {
      assert counts[..n] == counts;
    }
  }

  /**
   With at least one worker per GPU slot, the names are distinct exactly when CUDA is
   present or there is a single GPU slot.
   */
  lemma DistinctIff(cuda: bool, counts: seq<nat>)
    requires forall c <- counts :: c >= 1
    ensures DistinctIds(Spawned(cuda, counts)) <==> cuda || |counts| <= 1
  {
    if cuda || |counts| <= 1 {
      SpawnedDistinct(cuda, counts);
    } else {
      var ws := Spawned(cuda, counts);
      SpawnedPrefix(cuda, counts, 2);
      assert counts[0] in counts && counts[1] in counts;
      assert counts[..2][..1] == [counts[0]] && [counts[0]][..0] == [];
      assert Spawned(cuda, [counts[0]]) == Row(cuda, 0, counts[0]);
      assert Spawned(cuda, counts[..2]) == Row(cuda, 0, counts[0]) + Row(cuda, 1, counts[1]);
      assert ws[0] == Idle(false, 0, 0) && ws[counts[0]] == Idle(false, 1, 0);
    }
  }

  // ------------------------------------------------------------------
  // Releases of spawned workers
  // ------------------------------------------------------------------

  /**
   For the pool of every configuration: each release gives back a slot of the very worker
   it was taken from if and only if CUDA is present or there is a single GPU slot.
   */
  lemma ReleaseFindsItsWorkerIff(cuda: bool, counts: seq<nat>)
    requires forall c <- counts :: c >= 1
    ensures (forall w :: 0 <= w < |Spawned(cuda, counts)| ==>
               Find(Spawned(cuda, counts), Spawned(cuda, counts)[w].workerId) == Some(w))
            <==> cuda || |counts| <= 1
  {
    DistinctIff(cuda, counts);
    FindIffDistinct(Spawned(cuda, counts));
  }

  /** What may happen to the counters: a dispatch to any worker, a release by any name. */
  datatype Use = Take(w: nat, id: JobId, t: real) | Return(workerId: string, ms: real, id: JobId)

  function Used(ws: seq<Slot>, use: Use): seq<Slot> {
    match use
    case Take(w, id, t) => if w < |ws| then Acquire(ws, w, id, t) else ws
    case Return(workerId, ms, id) => ReleaseBy(ws, workerId, ms, id)
  }

  function UsedAll(ws: seq<Slot>, uses: seq<Use>): seq<Slot> {
    if uses == [] then ws else Used(UsedAll(ws, uses[..|uses| - 1]), uses[|uses| - 1])
  }

  /** Worker `j` shares its name with an earlier one. */
  predicate Shadowed(ws: seq<Slot>, j: nat) {
    j < |ws| && exists i :: 0 <= i < j && ws[i].workerId == ws[j].workerId
  }

  lemma ShadowedKeeps(ws: seq<Slot>, j: nat, use: Use)
    requires Shadowed(ws, j)
    ensures Shadowed(Used(ws, use), j)
    ensures ws[j].active <= Used(ws, use)[j].active && ws[j].jobs.Keys <= Used(ws, use)[j].jobs.Keys
  {
    var i :| 0 <= i < j && ws[i].workerId == ws[j].workerId;
    var vs := Used(ws, use);
    assert |vs| == |ws| && vs[i].workerId == ws[i].workerId && vs[j].workerId == ws[j].workerId;
    assert use.Return? ==> vs[j] == ws[j];
  }

  /** Whatever is dispatched and released from now on, no slot of a shadowed worker is ever given back. */
  lemma {:induction false} ShadowedNeverReleased(ws: seq<Slot>, j: nat, uses: seq<Use>)
    requires Shadowed(ws, j)
    ensures Shadowed(UsedAll(ws, uses), j)
    ensures ws[j].active <= UsedAll(ws, uses)[j].active && ws[j].jobs.Keys <= UsedAll(ws, uses)[j].jobs.Keys
  {
    if uses != [] {
      var n := |uses| - 1;
      ShadowedNeverReleased(ws, j, uses[..n]);
      ShadowedKeeps(UsedAll(ws, uses[..n]), j, uses[n]);
    }
  }

  /**
   Two CPU slots of one worker each: a request on the second is released on the first, and
   whatever happens afterwards the second stays busy with it.
   */
  lemma CpuReleaseMisses(t: real, ms: real, id: JobId, uses: seq<Use>)
    ensures var ws := Spawned(false, [1, 1]);
            && |ws| == 2 && ws[0].workerId == ws[1].workerId
            && var held := Acquire(ws, 1, id, t);
               var freed := ReleaseBy(held, held[1].workerId, ms, id);
               && |freed| == 2 && freed[1] == held[1] && freed[0].active == 0 && freed[0].total == 1
               && var later := UsedAll(freed, uses);
                  |later| > 1 && later[1].active >= 1 && id in later[1].jobs
  {
    var ws := Spawned(false, [1, 1]);
    assert ws == [Idle(false, 0, 0), Idle(false, 1, 0)] by {
      assert [1, 1][..1] == [1] && [1][..0] == [];
      assert Spawned(false, [1]) == Row(false, 0, 1);
    }
    var held := Acquire(ws, 1, id, t);
    assert held[0].workerId == held[1].workerId;
    var freed := ReleaseBy(held, held[1].workerId, ms, id);
    assert Find(held, held[1].workerId) == Some(0);
    assert freed[0].workerId == freed[1].workerId;
    ShadowedNeverReleased(freed, 1, uses);
  }
}
