/**
 The queue manager as the object it is. Each method is the code between two awaits and
 implements one step of the protocol in `Scheduling`.
 */
module QueueManagers {
  import opened Common
  import opened Messages
  import opened Pool
  import opened Ledgers
  import opened Scheduling
  import opened Dispatchers

  /** What `on_complete` captures: a job and its output format, or the future of a synchronous request. */
  datatype Callback = Save(job: JobId, format: Format) | Resolve

  /** A collector task: the worker whose answer it awaits and the closure it will call. */
  datatype Collector = Collector(w: nat, callback: Callback)

  /** A waiting request. Without a callback it is a stream, whose future hands the worker over. */
  datatype Envelope = Envelope(id: JobId, spec: Spec, enqueuedAt: real, callback: Option<Callback>)

  function Ids(q: seq<Envelope>): seq<JobId> {
    seq(|q|, i requires 0 <= i < |q| => q[i].id)
  }

  /** What `submit_job` and `submit_stream` are given along with a request of each kind. */
  function CallbackOf(id: JobId, spec: Spec): Option<Callback> {
    match spec.kind
    case Job => Some(Save(id, spec.format))
    case Sync => Some(Resolve)
    case _ => None
  }

  /** The envelope carries its own request and the closure that goes with it. */
  ghost predicate Addressed(item: Envelope, s: Sched) {
    At(s, item.id) && item.spec == s.reqs[item.id].spec && item.callback == CallbackOf(item.id, item.spec)
  }

  ghost predicate Routed(queue: seq<Envelope>, drain: Drain, callback: Option<Callback>,
                         collectors: map<JobId, Collector>, s: Sched) {
    && (forall i :: 0 <= i < |queue| ==> Addressed(queue[i], s))
    && (!drain.Get? ==> At(s, drain.id) && callback == CallbackOf(drain.id, s.reqs[drain.id].spec))
    && (forall id <- collectors :: Collects(id, collectors[id], s))
  }

  /** The collector holds the closure of its own request and awaits the worker that serves it. */
  ghost predicate Collects(id: JobId, x: Collector, s: Sched) {
    && At(s, id) && CallbackOf(id, s.reqs[id].spec) == Some(x.callback)
    && s.reqs[id].phase.Dispatched() && s.reqs[id].phase.w == x.w
  }

  /** No request has changed what it asks for or the worker it was given. */
  ghost predicate SameRequests(s: Sched, s': Sched) {
    |s.reqs| <= |s'.reqs| && forall id: JobId :: id < |s.reqs| ==> SameRequest(s.reqs[id], s'.reqs[id])
  }

  ghost predicate SameRequest(e: Entry, e': Entry) {
    && e'.spec == e.spec
    && (e.phase.Dispatched() ==> e'.phase.Dispatched() && e'.phase.w == e.phase.w)
  }

  lemma RoutedOn(queue: seq<Envelope>, drain: Drain, drain': Drain, callback: Option<Callback>,
                 collectors: map<JobId, Collector>, s: Sched, s': Sched)
    requires Routed(queue, drain, callback, collectors, s) && SameRequests(s, s')
    requires drain'.Get? || (!drain.Get? && drain'.id == drain.id)
    ensures Routed(queue, drain', callback, collectors, s')
  {
    hide CallbackOf, Phase.Dispatched;
  }

  /** The protocol action of a collector that sees `reply` at time `t`. */
  function Collecting(id: JobId, reply: Reply, t: real): Action {
    match reply
    case Got(_) => Receive(id, t)
    case Empty => TimeOut(id, t)
    case Raised(text) => Abort(id, t, text)
  }

  /** What a consumer of `id` concludes from a reply that is no chunk. */
  function OutcomeOf(kind: Kind, id: JobId, reply: Reply): Msg {
    match reply
    case Got(msg) => msg
    case Empty => Failure(kind, id, NO_RESPONSE)
    case Raised(text) => Failure(kind, id, text)
  }

  /** The time that `release` adds to the worker's statistics. */
  function Credited(kind: Kind, ms: real): real {
    if kind in {Job, Sync} then ms else 0.0
  }

  /** Collecting a reply and then releasing touches the pool, the drain loop and the entry only. */
  lemma CollectThenRelease(c: Config, s: Sched, id: JobId, reply: Reply, t: real)
    requires At(s, id) && s.reqs[id].phase.Consuming? && s.reqs[id].phase.w < |s.pool|
    requires Enabled(c, s, Collecting(id, reply, t))
    requires reply.Got? ==> reply.msg == s.reqs[id].mail[0] && !reply.msg.Chunk?
    ensures var s1 := Apply(c, s, Collecting(id, reply, t));
            var p, kind := s.reqs[id].phase, s.reqs[id].spec.kind;
            var ms := (t - p.t0) * 1000.0;
            && At(s1, id) && s1.reqs[id].phase == Closing(p.w, OutcomeOf(kind, id, reply), ms)
            && Enabled(c, s1, Release(id))
            && var s2 := Apply(c, s1, Release(id));
               && s2.queue == s.queue && s2.inbox == s.inbox
               && s2.pool == ReleaseBy(s.pool, s.pool[p.w].workerId, Credited(kind, ms), id)
               && s2.drain == (if s.drain.Parked? then Woken(s.drain.id) else s.drain)
               && At(s2, id) && s2.reqs[id].phase == Released(p.w, OutcomeOf(kind, id, reply), ms)
  {
  }

  lemma BurstGrows(ws: seq<Slot>, q: seq<Envelope>, n: nat, t: real)
    requires ws != [] && n < |q|
    ensures var before := AfterBurst(ws, Ids(q[..n]), t);
            AfterBurst(ws, Ids(q[..n + 1]), t) == Acquire(before, PickIndex(before), q[n].id, t)
  {
    assert Ids(q[..n + 1])[..n] == Ids(q[..n]);
  }

  lemma BurstStarts(ws: seq<Slot>, q: seq<Envelope>, t: real)
    requires ws != []
    ensures AfterBurst(ws, Ids(q[..0]), t) == ws
  {
  }

  class QueueManager {
    const maxSize: int
    const dispatcher: Dispatcher
    var queue: seq<Envelope>
    var drain: Drain                   // the drain loop's program counter
    var callback: Option<Callback>          // that of the envelope in the drain loop's hands
    var collectors: map<JobId, Collector>   // collector tasks spawned
    var futures: map<JobId, nat>            // futures resolved, with their workers

    ghost predicate Valid()
      reads this, dispatcher
    {
      dispatcher.Valid()
    }

    /** This object, its dispatcher and the worker handles show the state `s` of the protocol. */
    ghost predicate Shows(c: Config, s: Sched)
      reads this, dispatcher, dispatcher.workers
    {
      && Valid()
      && maxSize == c.maxQueue && maxSize > 0
      && Ids(queue) == s.queue && drain == s.drain
      && dispatcher.View() == s.pool && dispatcher.Inboxes() == s.inbox
    }

    /**
     Every closure is with the request it was submitted for: in the queue, in the drain loop's hands
     and with the collectors, each of which awaits the worker that serves its request.
     */
    ghost predicate Routes(s: Sched)
      reads this
    {
      Routed(queue, drain, callback, collectors, s)
    }

    constructor (dispatcher: Dispatcher, maxSize: int)
      requires dispatcher.Valid()
      ensures Valid() && queue == [] && drain == Get && this.dispatcher == dispatcher && this.maxSize == maxSize
    {
      this.maxSize := maxSize;
      this.dispatcher := dispatcher;
      queue, drain, callback, collectors, futures := [], Get, None, map[], map[];
    }

    /**
     `_enqueue`: accepted exactly when there is room, where a limit of zero or less means
     no limit; a rejection leaves the queue as it is.
     */
    method Enqueue(item: Envelope) returns (ok: bool)
      modifies this`queue
      ensures ok <==> maxSize <= 0 || |old(queue)| < maxSize
      ensures queue == if ok then old(queue) + [item] else old(queue)
    {
      ok := maxSize <= 0 || |queue| < maxSize;
      if ok {
        queue := queue + [item];
      }
    }

    /** `submit_job` and `submit_stream`: the steps Enqueue and Refuse of the protocol. */
    method Submit(item: Envelope, ghost c: Config, ghost s: Sched) returns (ok: bool)
      requires Shows(c, s) && At(s, item.id) && s.reqs[item.id].phase.Fresh? && s.reqs[item.id].spec.kind != Latents
      modifies this`queue
      ensures queue == if ok then old(queue) + [item] else old(queue)
      ensures var a := if ok then Action.Enqueue(item.id) else Refuse(item.id);
              && Enabled(c, s, a) && Shows(c, Apply(c, s, a))
              && (old(Routes(s)) && Addressed(item, s) ==> Routes(Apply(c, s, a)))
    {
      assert |Ids(queue)| == |queue|;
      ok := Enqueue(item);
      assert ok ==> Ids(queue) == s.queue + [item.id];
    }

    /** The drain loop's `get`: the step DrainGet. */
    method TakeNext(ghost c: Config, ghost s: Sched)
      requires Shows(c, s) && drain.Get? && queue != []
      modifies this`queue, this`drain, this`callback
      ensures Enabled(c, s, DrainGet) && Shows(c, Apply(c, s, DrainGet))
      ensures callback == old(queue[0]).callback
      ensures old(Routes(s)) ==> Routes(Apply(c, s, DrainGet))
    {
      assert Ids(queue)[1..] == Ids(queue[1..]);
      drain, callback := Check(queue[0].id), queue[0].callback;
      queue := queue[1..];
    }

    /** One look at the pool inside `wait_for_free_worker`: the step DrainCheck. */
    method LookForFreeWorker(ghost c: Config, ghost s: Sched)
      requires Shows(c, s) && (drain.Check? || drain.Woken?)
      modifies this`drain
      ensures Enabled(c, s, DrainCheck) && Shows(c, Apply(c, s, DrainCheck))
      ensures drain.Pick? <==> !AllBusy(dispatcher.View())
    {
      var busy := dispatcher.IsAllBusy();
      drain := if busy then Parked(drain.id) else Pick(drain.id);
    }

    /** The critical section of `dispatch` for the envelope in hand: the step DrainPick. */
    method PickWorker(now: real, ghost c: Config, ghost s: Sched)
      requires Shows(c, s) && drain.Pick? && At(s, drain.id) && s.pool != []
      modifies this`drain, dispatcher.workers
      ensures Enabled(c, s, DrainPick(now)) && Shows(c, Apply(c, s, DrainPick(now)))
    {
      var k := dispatcher.TakeSlot(drain.id, now);
      assert k.Some?;
      drain := Put(drain.id, k.value);
    }

    /**
     The rest of one round: post the request, then spawn the collector of an envelope with
     a callback or resolve the future of one without. The step Post.
     */
    method HandOver(ghost c: Config, ghost s: Sched)
      requires Shows(c, s) && drain.Put? && At(s, drain.id) && s.reqs[drain.id].phase == Slotted(drain.w)
      requires s.reqs[drain.id].spec.kind != Latents && drain.w < |dispatcher.workers|
      modifies this`drain, this`collectors, this`futures, dispatcher.workers
      ensures Enabled(c, s, Post(s.drain.id)) && Shows(c, Apply(c, s, Post(s.drain.id)))
      ensures callback.Some? ==>
                collectors == old(collectors)[s.drain.id := Collector(s.drain.w, callback.value)]
                    && futures == old(futures)
      ensures callback.None? ==>
                collectors == old(collectors) && futures == old(futures)[s.drain.id := s.drain.w]
      ensures old(Routes(s)) ==> Routes(Apply(c, s, Post(s.drain.id)))
    {
      var id, w := drain.id, drain.w;
      dispatcher.Put(w, id);
      HandTo(id, w, callback);
      drain := Get;
    }

    /** Spawn the collector of a request with a callback, or resolve the future of one without. */
    method HandTo(id: JobId, w: nat, callback: Option<Callback>)
      modifies this`collectors, this`futures
      ensures match callback
              case Some(cb) => collectors == old(collectors)[id := Collector(w, cb)] && futures == old(futures)
              case None => collectors == old(collectors) && futures == old(futures)[id := w]
    {
      if callback.Some? {
        collectors := collectors[id := Collector(w, callback.value)];
      } else {
        futures := futures[id := w];
      }
    }

    /**
     `_collect_result` up to its callback: the outcome and the elapsed time follow from the
     reply, and the slot is returned once, whatever the reply was. The protocol's Receive,
     TimeOut or Abort, and then its Release.
     */
    method CollectResult(id: JobId, w: nat, t0: real, reply: Reply, t: real, ghost c: Config, ghost s: Sched)
      returns (result: Msg, ms: real)
      requires Shows(c, s) && At(s, id) && s.reqs[id].phase == Consuming(w, t0)
      requires s.reqs[id].spec.kind in {Job, Sync} && w < |s.pool| && s.pool[w].workerId != ""
      requires Enabled(c, s, Collecting(id, reply, t))
      requires reply.Got? ==> reply.msg == s.reqs[id].mail[0] && reply.msg.Result?
      modifies this`drain, dispatcher`notifications, dispatcher.workers
      ensures var s1 := Apply(c, s, Collecting(id, reply, t));
              && s1.reqs[id].phase == Closing(w, result, ms)
              && Enabled(c, s1, Release(id)) && Shows(c, Apply(c, s1, Release(id)))
      ensures dispatcher.notifications == old(dispatcher.notifications) + 1
      ensures ms == (t - t0) * 1000.0
      ensures match reply
              case Got(msg) => result == msg
              case Empty => result.Result? && result.job == id && result.audio == None && Truthy(result.error)
              case Raised(text) => result == Result(id, None, Some(text))
    {
      SilenceSpeaks();
      ms := (t - t0) * 1000.0;
      match reply {
        case Got(msg) => result := msg;
        case Empty => result := Result(id, None, Some(NO_RESPONSE));
        case Raised(text) => result := Result(id, None, Some(text));
      }
      CollectThenRelease(c, s, id, reply, t);
      ghost var s1 := Apply(c, s, Collecting(id, reply, t));
      hide Apply, Enabled, ReleaseBy;
      GiveBackShown(id, w, ms, c, s, Apply(c, s1, Release(id)));
    }

    /** The release, against the state `s2` that it leads to. */
    method GiveBackShown(id: JobId, w: nat, ms: real, ghost c: Config, ghost s: Sched, ghost s2: Sched)
      requires Shows(c, s) && w < |s.pool| && s.pool[w].workerId != ""
      requires s2.queue == s.queue && s2.inbox == s.inbox && s2.pool == ReleaseBy(s.pool, s.pool[w].workerId, ms, id)
      requires s2.drain == if s.drain.Parked? then Woken(s.drain.id) else s.drain
      modifies this`drain, dispatcher`notifications, dispatcher.workers
      ensures Shows(c, s2) && dispatcher.notifications == old(dispatcher.notifications) + 1
    {
      hide ReleaseBy;
      GiveBack(id, w, ms);
    }

    /** A consumer's `release` of its worker, which also wakes a parked drain loop. */
    method GiveBack(id: JobId, w: nat, ms: real)
      requires Valid() && w < |dispatcher.workers| && dispatcher.workers[w].workerId != ""
      modifies this`drain, dispatcher`notifications, dispatcher.workers
      ensures dispatcher.View() == ReleaseBy(old(dispatcher.View()), old(dispatcher.View())[w].workerId, ms, id)
      ensures dispatcher.Inboxes() == old(dispatcher.Inboxes())
      ensures drain == if old(drain).Parked? then Woken(old(drain).id) else old(drain)
      ensures dispatcher.notifications == old(dispatcher.notifications) + 1
    {
      hide ReleaseBy;
      assert dispatcher.View()[w].workerId == dispatcher.workers[w].workerId;
      dispatcher.Release(dispatcher.workers[w].workerId, ms, id);
      drain := if drain.Parked? then Woken(drain.id) else drain;
    }

    /**
     One round of the drain loop with nothing in between: the head of the queue goes to the
     least loaded worker, unless every worker is busy and it stays in hand.
     */
    method Round(now: real)
      requires Valid() && drain.Get? && queue != [] && dispatcher.workers != []
      modifies this, dispatcher.workers
      ensures queue == old(queue)[1..]
      ensures var id := old(queue[0]).id; var ws := old(dispatcher.View());
              if AllBusy(ws)
              then drain == Parked(id) && dispatcher.View() == ws
              else
                && drain == Get && dispatcher.View() == Acquire(ws, PickIndex(ws), id, now)
                && match old(queue[0]).callback
                   case Some(cb) => collectors == old(collectors)[id := Collector(PickIndex(ws), cb)]
                       && futures == old(futures)
                   case None => collectors == old(collectors) && futures == old(futures)[id := PickIndex(ws)]
    {
      var item := queue[0];
      queue := queue[1..];
      var busy := dispatcher.IsAllBusy();
      if busy {
        drain := Parked(item.id);
        return;
      }
      var k := dispatcher.Dispatch(item.id, now);
      HandTo(item.id, k.value, item.callback);
    }

    /**
     The drain loop while nothing else runs: it dispatches a prefix of the queue, in order and
     as a burst, and stops with the queue empty or with the next envelope parked before a busy pool.
     */
    method DrainAlone(now: real) returns (ghost n: nat)
      requires Valid() && drain.Get? && dispatcher.workers != []
      modifies this, dispatcher.workers
      ensures n <= |old(queue)|
      ensures dispatcher.View() == AfterBurst(old(dispatcher.View()), Ids(old(queue)[..n]), now)
      ensures drain.Get? ==> n == |old(queue)| && queue == []
      ensures !drain.Get? ==> n < |old(queue)| && queue == old(queue)[n + 1..]
                              && drain == Parked(old(queue)[n].id) && AllBusy(dispatcher.View())
    {
      n := 0;
      ghost var start, all := dispatcher.View(), queue;
      BurstStarts(start, all, now);
      assert Burst(start, all, 0, now);
      while queue != []
        invariant dispatcher.workers == old(dispatcher.workers) && Burst(start, all, n, now)
        decreases |queue|
      {
        RoundOfBurst(now, start, all, n);
        if !drain.Get? {
          return;
        }
        n := n + 1;
      }
    }

    /** The first `n` envelopes of `all` were dispatched as a burst from the pool `start`. */
    ghost predicate Burst(start: seq<Slot>, all: seq<Envelope>, n: nat, now: real)
      reads this, dispatcher, dispatcher.workers
    {
      && Valid() && drain.Get? && start != [] && n <= |all| && queue == all[n..]
      && dispatcher.View() == AfterBurst(start, Ids(all[..n]), now)
    }

    method RoundOfBurst(now: real, ghost start: seq<Slot>, ghost all: seq<Envelope>, ghost n: nat)
      requires Burst(start, all, n, now) && queue != [] && dispatcher.workers != []
      modifies this, dispatcher.workers
      ensures queue == old(queue)[1..]
      ensures drain.Get? ==> Burst(start, all, n + 1, now)
      ensures !drain.Get? ==>
                && drain == Parked(all[n].id) && AllBusy(dispatcher.View())
                && dispatcher.View() == AfterBurst(start, Ids(all[..n]), now)
    {
      BurstGrows(start, all, n, now);
      hide AllBusy, AfterBurst, Acquire, PickIndex, Ids;
      Round(now);
    }
  }
}
