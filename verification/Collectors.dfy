/**
 The way of a closure from its submission to its call: whatever else runs in between, a collector
 calls the one its own request came with, and so writes that job's own file and record.
 */
module Collectors {
  import opened Common
  import opened Messages
  import opened Pool
  import opened Scheduling
  import opened SchedulingSafety
  import opened Jobs
  import opened JobStores
  import opened Lifecycle
  import opened QueueManagers
  import opened Completion

  // ------------------------------------------------------------------
  // Routes stay
  // ------------------------------------------------------------------

  lemma RequestStays(c: Config, s: Sched, a: Action, j: JobId)
    requires Inv(c, s) && Enabled(c, s, a) && j < |s.reqs|
    ensures j < |Apply(c, s, a).reqs| && SameRequest(s.reqs[j], Apply(c, s, a).reqs[j])
  {
    hide Inv, AllBusy, IsPick, Legal, ReleaseBy, Acquire;
    if a.DrainPick? {
      HeldWaits(c, s);
    }
  }

  lemma RequestsGrow(c: Config, s: Sched, a: Action)
    requires Enabled(c, s, a)
    ensures |s.reqs| <= |Apply(c, s, a).reqs|
  {
    hide AllBusy, IsPick, Legal, ReleaseBy, Acquire;
  }

  /** No step of any coroutine takes a closure away from its request or a collector from its worker. */
  lemma RoutesStay(manager: QueueManager, c: Config, s: Sched, a: Action)
    requires Inv(c, s) && Enabled(c, s, a) && manager.Routes(s)
    ensures manager.Routes(Apply(c, s, a))
  {
    hide Inv, Enabled, Apply, SameRequest, Routed;
    forall j: JobId | j < |s.reqs|
      ensures j < |Apply(c, s, a).reqs| && SameRequest(s.reqs[j], Apply(c, s, a).reqs[j])
    {
      RequestStays(c, s, a, j);
    }
    RequestsGrow(c, s, a);
    RoutedOn(manager.queue, manager.drain, manager.drain, manager.callback, manager.collectors, s, Apply(c, s, a));
  }

  // ------------------------------------------------------------------
  // The call
  // ------------------------------------------------------------------

  /**
   The last part of `_collect_result`, after its release: the collector calls its closure with its worker.
   This performs the lifecycle's callback events for its own job. When the outcome carries audio and no
   true error, and the save returns, the job's own file holds that audio in the format it asked for.
   */
  method CallBack(manager: QueueManager, id: JobId, result: Msg, ms: real, now: real, saves: bool,
                  encode: (Samples, Format) -> Bytes,
                  store: JobStore, disk: JobStores.Disk, future: Future, ghost k: Setup, ghost s: System)
    returns (ghost s': System)
    requires manager.Shows(k.c, s.a) && manager.Routes(s.a) && id in manager.collectors
    requires Allowed(k, s, CallbackRuns(id)) && result.Result?
    requires s.a.reqs[id].phase.outcome == result && s.a.reqs[id].phase.ms == ms
    requires store.Valid() && store.View() == s.jobs && disk.files == s.files
    requires now == s.now && encode == k.encode
    modifies disk, future, if id in store.jobs then {store.jobs[id]} else {}
    ensures Performs(k, s, CallbackEvents(id, result, saves), s')
    ensures store.View() == s'.jobs && disk.files == s'.files
    ensures !Truthy(result.error) && result.audio.Some? && saves ==>
              && PathOf(s, id) in disk.files
              && disk.files[PathOf(s, id)] == encode(result.audio.value, s.a.reqs[id].spec.format)
    ensures Truthy(result.error) && id in store.jobs ==>
              store.View()[id].status == FAILED && store.View()[id].error == result.error
  {
    var x := manager.collectors[id];
    assert Collects(id, x, s.a) && x.callback == Save(id, s.a.reqs[id].spec.format);
    var w := manager.dispatcher.workers[x.w];
    assert manager.dispatcher.View()[x.w] == w.State();
    s' := CallbackPerforms(k, s, id, saves);
    hide Allowed, Performs, After, CallbackEvents;
    OnComplete(x.callback, w.workerId, w.gpu, result, ms, now, saves, encode, store, disk, future);
  }
}
