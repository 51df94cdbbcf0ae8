/** The dispatcher and its worker handles as the objects they are. */
module Dispatchers {
  import opened Common
  import opened Messages
  import opened Pool
  import opened WorkerIds

  /** What the blocking `get` on a result queue comes to. */
  datatype Reply = Got(msg: Msg) | Empty | Raised(text: string)

  class WorkerHandle {
    const workerId: string
    const gpu: nat
    var active: nat
    var total: nat
    var busyMs: real
    var jobs: map<JobId, real>
    var inbox: seq<JobId>   // the request queue

    constructor (workerId: string, gpu: nat)
      ensures State() == Slot(workerId, gpu, 0, 0, 0.0, map[]) && inbox == []
    {
      this.workerId := workerId;
      this.gpu := gpu;
      active, total, busyMs, jobs, inbox := 0, 0, 0.0, map[], [];
    }

    function State(): Slot
      reads this
    {
      Slot(workerId, gpu, active, total, busyMs, jobs)
    }

    method Take(id: JobId, now: real)
      modifies this`active, this`jobs
      ensures State() == old(State()).Taking(id, now)
    {
      active := active + 1;
      jobs := jobs[id := now];
    }

    method GiveBack(ms: real, id: JobId)
      modifies this`active, this`busyMs, this`total, this`jobs
      ensures State() == old(State()).Giving(ms, id)
    {
      active := if active >= 1 then active - 1 else 0;
      busyMs := busyMs + ms;
      total := total + 1;
      jobs := jobs - {id};
    }
  }

  class Dispatcher {
    var workers: seq<WorkerHandle>
    var notifications: nat   // notify_all calls on the condition

    ghost predicate Valid()
      reads this
    {
      forall i, j :: 0 <= i < j < |workers| ==> workers[i] != workers[j]
    }

    function View(): seq<Slot>
      reads this, workers
    {
      seq(|workers|, i requires 0 <= i < |workers| reads this, workers => workers[i].State())
    }

    function Inboxes(): seq<seq<JobId>>
      reads this, workers
    {
      seq(|workers|, i requires 0 <= i < |workers| reads this, workers => workers[i].inbox)
    }

    constructor ()
      ensures Valid() && workers == [] && notifications == 0
    {
      workers, notifications := [], 0;
    }

    /** `start`: spawn `counts[g]` workers on every GPU slot g. */
    method StartWorkers(cuda: bool, counts: seq<nat>)
      requires Valid() && workers == []
      modifies this`workers
      ensures Valid() && fresh(workers)
      ensures View() == Spawned(cuda, counts)
    {
      var g := 0;
      while g < |counts|
        invariant g <= |counts| && Valid() && fresh(workers)
        invariant View() == Spawned(cuda, counts[..g])
      {
        SpawnOn(cuda, g, counts[g]);
        assert counts[..g + 1][..g] == counts[..g];
        g := g + 1;
      }
      assert counts[..g] == counts;
    }

    /** The workers of one GPU slot. */
    method SpawnOn(cuda: bool, g: nat, count: nat)
      requires Valid()
      modifies this`workers
      ensures Valid() && old(workers) <= workers && fresh(set w | w in workers[|old(workers)|..])
      ensures View() == old(View()) + Row(cuda, g, count)
    {
      hide Name;
      ghost var before, n := View(), |workers|;
      var slot := 0;
      while slot < count
        invariant slot <= count && Valid() && old(workers) <= workers && |workers| == n + slot
        invariant forall i :: n <= i < |workers| ==> fresh(workers[i]) && workers[i].State() == Idle(cuda, g, i - n)
      {
        var w := new WorkerHandle(Name(cuda, g, slot), g);
        workers := workers + [w];
        slot := slot + 1;
      }
      assert View() == before + Row(cuda, g, count);
    }

    method IsAllBusy() returns (busy: bool)
      requires Valid()
      ensures busy <==> AllBusy(View())
    {
      if |workers| == 0 {
        return false;
      }
      for i := 0 to |workers|
        invariant forall j :: 0 <= j < i ==> View()[j].active >= 1
      {
        assert View()[i].active == workers[i].active;
        if workers[i].active < 1 {
          return false;
        }
      }
      return true;
    }

    method MinActiveRequests() returns (m: nat)
      requires Valid()
      ensures workers == [] ==> m == 0
      ensures workers != [] ==> exists i :: 0 <= i < |workers| && workers[i].active == m
      ensures forall i :: 0 <= i < |workers| ==> m <= workers[i].active
    {
      if |workers| == 0 {
        return 0;
      }
      m := workers[0].active;
      for i := 1 to |workers|
        invariant exists j :: 0 <= j < |workers| && workers[j].active == m
        invariant forall j :: 0 <= j < i ==> m <= workers[j].active
      {
        if workers[i].active < m {
          m := workers[i].active;
        }
      }
    }

    /** The first loop of `_pick_worker`: active requests accumulated per GPU. */
    method GpuLoads() returns (load: map<nat, nat>)
      requires Valid()
      ensures forall i :: 0 <= i < |workers| ==> workers[i].gpu in load
      ensures forall g :: g in load ==> load[g] == GpuLoad(View(), g)
    {
      load := map[];
      ghost var ws := View();
      for i := 0 to |workers|
        invariant forall j :: 0 <= j < i ==> workers[j].gpu in load
        invariant forall g: nat :: (if g in load then load[g] else 0) == GpuLoad(ws[..i], g)
      {
        var w := workers[i];
        assert ws[i] == w.State();
        assert ws[..i + 1][..i] == ws[..i];
        load := load[w.gpu := (if w.gpu in load then load[w.gpu] else 0) + w.active];
      }
      assert ws[..|workers|] == ws;
    }

    /** `_pick_worker`: the first worker with the least (GPU load, own load). */
    method PickWorker() returns (k: nat)
      requires Valid() && workers != []
      ensures k < |workers| && k == PickIndex(View())
    {
      var load := GpuLoads();
      ghost var ws := View();
      k := 0;
      var i := 1;
      while i < |workers|
        invariant k < i <= |workers|
        invariant forall j :: 0 <= j < i ==> !KeyLess(ws, j, k)
        invariant forall j :: 0 <= j < k ==> KeyLess(ws, k, j)
      {
        assert ws[i] == workers[i].State() && ws[k] == workers[k].State();
        var a, b := load[workers[i].gpu], load[workers[k].gpu];
        if a < b || (a == b && workers[i].active < workers[k].active) {
          LessThanLeast(ws, i, k);
          k := i;
        }
        i := i + 1;
      }
      PickUnique(ws, k);
    }

    /**
     The critical section of `dispatch`: a slot of the least loaded worker, or None
     (`dispatch` raises) when `start` has spawned none.
     */
    method TakeSlot(id: JobId, now: real) returns (k: Option<nat>)
      requires Valid()
      modifies workers
      ensures k.Some? <==> workers != []
      ensures k.Some? ==> k.value < |workers| && k.value == PickIndex(old(View()))
      ensures View() == if k.Some? then Acquire(old(View()), k.value, id, now) else old(View())
      ensures k.Some? ==> var w, was := workers[k.value], old(View())[k.value];
              && w.active == was.active + 1 && w.jobs == was.jobs[id := now]
              && w.total == was.total && w.busyMs == was.busyMs
      ensures Inboxes() == old(Inboxes())
    {
      if |workers| == 0 {
        return None;
      }
      var i := PickWorker();
      ghost var ws := View();
      workers[i].Take(id, now);
      assert forall j :: 0 <= j < |workers| && j != i ==> View()[j] == ws[j];
      k := Some(i);
    }

    /** The `put` on the request queue of worker `k` that follows the critical section. */
    method Put(k: nat, id: JobId)
      requires Valid() && k < |workers|
      modifies workers[k]
      ensures Inboxes() == old(Inboxes())[k := old(Inboxes())[k] + [id]]
      ensures View() == old(View())
    {
      workers[k].inbox := workers[k].inbox + [id];
    }

    /** `dispatch` with nothing between its critical section and the put. */
    method Dispatch(id: JobId, now: real) returns (k: Option<nat>)
      requires Valid()
      modifies workers
      ensures k.Some? <==> workers != []
      ensures k.Some? ==>
                && k.value < |workers| && k.value == PickIndex(old(View()))
                && View() == Acquire(old(View()), k.value, id, now)
                && Inboxes() == old(Inboxes())[k.value := old(Inboxes())[k.value] + [id]]
    {
      k := TakeSlot(id, now);
      if k.Some? {
        Put(k.value, id);
      }
    }

    /**
     `release`: the first worker of that name gives a slot back and every waiter is
     notified; with an empty name nothing happens.
     */
    method Release(workerId: string, ms: real, id: JobId)
      requires Valid()
      modifies this`notifications, workers
      ensures View() == ReleaseBy(old(View()), workerId, ms, id)
      ensures Inboxes() == old(Inboxes())
      ensures notifications == old(notifications) + if workerId == "" then 0 else 1
    {
      if workerId == "" {
        return;
      }
      ghost var ws := View();
      var i := 0;
      while i < |workers| && workers[i].workerId != workerId
        invariant i <= |workers|
        invariant FindFrom(ws, workerId, 0) == FindFrom(ws, workerId, i)
      {
        assert ws[i] == workers[i].State();
        i := i + 1;
      }
      if i < |workers| {
        assert ws[i] == workers[i].State();
        workers[i].GiveBack(ms, id);
        assert forall j :: 0 <= j < |workers| && j != i ==> View()[j] == ws[j];
        assert View() == Vacate(ws, i, ms, id);
      }
      notifications := notifications + 1;
    }

    /**
     `compute_latents` with nothing in between: whether the worker answers, stays silent or the
     queue raises (None), the slot is given back by name once. With well named workers only the
     total of the worker that served has changed.
     */
    method ComputeLatents(id: JobId, now: real, reply: Reply) returns (result: Option<Msg>)
      requires Valid() && workers != []
      modifies this`notifications, workers
      ensures var ws, w := old(View()), PickIndex(old(View()));
              && View() == ReleaseBy(Acquire(ws, w, id, now), ws[w].workerId, 0.0, id)
              && (WellNamed(ws) && id !in ws[w].jobs ==> View() == ws[w := ws[w].(total := ws[w].total + 1)])
              && notifications == old(notifications) + if ws[w].workerId == "" then 0 else 1
      ensures match reply
              case Got(msg) => result == Some(msg)
              case Empty => result.Some? && result.value.LatentsMsg? && result.value.job == id
                  && result.value.voice.None? && Truthy(result.value.error)
              case Raised(_) => result == None
    {
      SilenceSpeaks();
      ghost var ws := View();
      var k := Dispatch(id, now);
      match reply {
        case Got(msg) => result := Some(msg);
        case Empty => result := Some(LatentsMsg(id, None, Some(NO_RESPONSE)));
        case Raised(_) => result := None;
      }
      if WellNamed(ws) && id !in ws[k.value].jobs {
        ReleaseUndoesDispatch(ws, k.value, id, now, 0.0);
      }
      assert workers[k.value].workerId == ws[k.value].workerId;
      Release(workers[k.value].workerId, 0.0, id);
    }
  }

  /** With well named workers a release undoes its dispatch, except for the totals. */
  lemma ReleaseUndoesDispatch(ws: seq<Slot>, w: nat, id: JobId, t: real, ms: real)
    requires WellNamed(ws) && w < |ws| && id !in ws[w].jobs
    ensures ReleaseBy(Acquire(ws, w, id, t), ws[w].workerId, ms, id)
            == ws[w := ws[w].(total := ws[w].total + 1, busyMs := ws[w].busyMs + ms)]
  {
    var held := Acquire(ws, w, id, t);
    assert WellNamed(held);
    OwnRelease(held, w, ms, id);
    assert held[w].jobs - {id} == ws[w].jobs;
  }
}
