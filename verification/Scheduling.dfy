/**
 The scheduling protocol: a bounded FIFO, one drain loop, a pool of workers and the
 consumers of their answers, as a transition system over every interleaving.

 Each `await` of the coroutines involved is a point where any other action may
 happen. A request is identified by its position in `reqs`, the order of arrival.
 */
module Scheduling {
  import opened Common
  import opened Messages
  import opened Pool
  import opened Ledgers

  /** The control point of the coroutines serving one request. */
  datatype Phase =
    | Fresh
    | Refused
    | Waiting
    | Slotted(w: nat)
    | Spawned(w: nat)
    | Consuming(w: nat, t0: real)
    | Closing(w: nat, outcome: Msg, ms: real)
    | Released(w: nat, outcome: Msg, ms: real)
    | Running(w: nat, outcome: Msg, ms: real)
    | Saved(w: nat, outcome: Msg, ms: real)
    | Finished(w: nat, outcome: Msg, ms: real)
    | Crashed(w: nat, outcome: Msg, ms: real)
  {
    predicate HoldsSlot() {
      Slotted? || Spawned? || Consuming? || Closing?
    }

    predicate SlotReturned() {
      Released? || Running? || Saved? || Finished? || Crashed?
    }

    predicate Dispatched() {
      HoldsSlot() || SlotReturned()
    }

    predicate Concluded() {
      Closing? || SlotReturned()
    }

    /** How many stages are left, weighted so that every internal action lowers it. */
    function Weight(): nat {
      match this
      case Fresh => 30
      case Refused => 0
      case Waiting => 20
      case Slotted(_) => 10
      case Spawned(_) => 9
      case Consuming(_, _) => 8
      case Closing(_, _, _) => 7
      case Released(_, _, _) => 4
      case Running(_, _, _) => 3
      case Saved(_, _, _) => 2
      case Finished(_, _, _) => 0
      case Crashed(_, _, _) => 0
    }
  }

  /** What the worker side has done with the request. */
  datatype Work =
    | Unposted
    | Posted(w: nat)
    | Serving(w: nat, rest: seq<Msg>)
    | Served

  datatype Entry = Entry(
    spec: Spec,
    phase: Phase,
    work: Work,
    script: seq<Msg>,   // everything the worker puts on the result queue, chosen when it starts
    mail: seq<Msg>,     // the private result queue
    read: seq<Msg>)     // what the consumer took from it

  datatype Config = Config(model: Model, maxQueue: nat, pool: seq<Slot>)

  datatype Sched = Sched(
    queue: seq<JobId>,
    drain: Drain,
    pool: seq<Slot>,
    inbox: seq<seq<JobId>>,         // request queue of each worker
    current: seq<Option<JobId>>,    // request each worker is serving
    reqs: seq<Entry>,
    accepted: seq<JobId>,           // history: envelopes enqueued
    drained: seq<JobId>,            // history: envelopes dispatched by the drain loop
    log: seq<seq<JobId>>)           // history: requests dispatched to each worker

  datatype Action =
    | Arrive(spec: Spec)
    | Enqueue(id: JobId)
    | Refuse(id: JobId)
    | Direct(id: JobId, t: real)
    | DrainGet
    | DrainCheck
    | DrainPick(t: real)
    | Post(id: JobId)
    | Serve(w: nat, script: seq<Msg>)
    | Emit(w: nat)
    | Retire(w: nat)
    | Start(id: JobId, t: real)
    | Receive(id: JobId, t: real)
    | TimeOut(id: JobId, t: real)
    | Abort(id: JobId, t: real, error: string)
    | Release(id: JobId)
    | Advance(id: JobId, to: Phase)

  /** The server starts: every worker has a name, though names need not be distinct. */
  ghost predicate Init(c: Config, s: Sched) {
    && c.maxQueue > 0 && c.pool != [] && (forall w :: 0 <= w < |c.pool| ==> c.pool[w].workerId != "")
    && (forall w :: 0 <= w < |c.pool| ==> c.pool[w].active == 0 && c.pool[w].total == 0 && c.pool[w].jobs == map[])
    && s == Sched([], Get, c.pool, seq(|c.pool|, _ => []), seq(|c.pool|, _ => None), [], [], [], seq(|c.pool|, _ => []))
  }

  ghost predicate At(s: Sched, id: JobId) {
    id < |s.reqs|
  }

  ghost predicate Enabled(c: Config, s: Sched, a: Action) {
    match a
    case Arrive(_) => true
    case Enqueue(id) => At(s, id) && s.reqs[id].phase.Fresh? && s.reqs[id].spec.kind != Latents
        && |s.queue| < c.maxQueue
    case Refuse(id) => At(s, id) && s.reqs[id].phase.Fresh? && s.reqs[id].spec.kind != Latents
        && |s.queue| >= c.maxQueue
    case Direct(id, _) => At(s, id) && s.reqs[id].phase.Fresh? && s.reqs[id].spec.kind == Latents && s.pool != []
    case DrainGet => s.drain.Get? && s.queue != []
    case DrainCheck => s.drain.Check? || s.drain.Woken?
    case DrainPick(_) => s.drain.Pick? && At(s, s.drain.id) && s.pool != []
    case Post(id) => At(s, id) && s.reqs[id].phase.Slotted? && s.reqs[id].phase.w < |s.inbox|
    case Serve(w, script) =>
      && w < |s.inbox| && w < |s.current| && s.inbox[w] != [] && s.current[w].None? && At(s, s.inbox[w][0])
      && Legal(c.model, s.inbox[w][0], s.reqs[s.inbox[w][0]].spec, script)
    case Emit(w) => Busy(s, w) && s.reqs[s.current[w].value].work.rest != []
    case Retire(w) => Busy(s, w) && s.reqs[s.current[w].value].work.rest == []
    case Start(id, _) => At(s, id) && s.reqs[id].phase.Spawned?
    case Receive(id, _) => At(s, id) && s.reqs[id].phase.Consuming? && s.reqs[id].mail != []
    case TimeOut(id, _) => At(s, id) && s.reqs[id].phase.Consuming? && s.reqs[id].mail == []
    case Abort(id, _, _) => At(s, id) && s.reqs[id].phase.Consuming?
    case Release(id) => At(s, id) && s.reqs[id].phase.Closing? && s.reqs[id].phase.w < |s.pool|
    case Advance(id, to) =>
      && At(s, id) && s.reqs[id].phase.SlotReturned() && to.SlotReturned() && !to.Released?
      && to.w == s.reqs[id].phase.w && to.outcome == s.reqs[id].phase.outcome && to.ms == s.reqs[id].phase.ms
      && to.Weight() < s.reqs[id].phase.Weight()
  }

  ghost predicate Busy(s: Sched, w: nat) {
    && w < |s.current| && s.current[w].Some? && At(s, s.current[w].value)
    && s.reqs[s.current[w].value].work.Serving?
  }

  // ------------------------------------------------------------------
  // Effects
  // ------------------------------------------------------------------

  ghost function SetPhase(s: Sched, id: JobId, p: Phase): Sched
    requires At(s, id)
  {
    s.(reqs := s.reqs[id := s.reqs[id].(phase := p)])
  }

  /** `dispatch`'s critical section: pick the least loaded worker and take a slot of it. */
  ghost function Dispatch(s: Sched, id: JobId, t: real): Sched
    requires At(s, id) && s.pool != []
  {
    var w := PickIndex(s.pool);
    SetPhase(s, id, Slotted(w)).(pool := Acquire(s.pool, w, id, t),
        log := if w < |s.log| then s.log[w := s.log[w] + [id]] else s.log)
  }

  /** The consumer of `id` stops with `outcome` at time `t`. */
  ghost function Conclude(e: Entry, outcome: Msg, t: real): Entry
    requires e.phase.Consuming?
  {
    e.(phase := Closing(e.phase.w, outcome, (t - e.phase.t0) * 1000.0))
  }

  /** One `get` on the result queue that finds a message. A stream goes on after a chunk. */
  ghost function Take(e: Entry, t: real): Entry
    requires e.phase.Consuming? && e.mail != []
  {
    var e' := e.(mail := e.mail[1..], read := e.read + [e.mail[0]]);
    if e.mail[0].Chunk? then e' else Conclude(e', e.mail[0], t)
  }

  ghost function Apply(c: Config, s: Sched, a: Action): Sched
    requires Enabled(c, s, a)
  {
    match a
    case Arrive(spec) => s.(reqs := s.reqs + [Entry(spec, Fresh, Unposted, [], [], [])])
    case Enqueue(id) => SetPhase(s, id, Waiting).(queue := s.queue + [id], accepted := s.accepted + [id])
    case Refuse(id) => SetPhase(s, id, Refused)
    case Direct(id, t) => Dispatch(s, id, t)
    case DrainGet => s.(queue := s.queue[1..], drain := Check(s.queue[0]))
    case DrainCheck => s.(drain := if AllBusy(s.pool) then Parked(s.drain.id) else Pick(s.drain.id))
    case DrainPick(t) =>
      var id := s.drain.id;
      Dispatch(s, id, t).(drain := Put(id, PickIndex(s.pool)), drained := s.drained + [id])
    case Post(id) =>
      var w := s.reqs[id].phase.w;
      s.(reqs := s.reqs[id := s.reqs[id].(phase := Spawned(w), work := Posted(w))],
         inbox := s.inbox[w := s.inbox[w] + [id]],
         drain := if s.reqs[id].spec.kind == Latents then s.drain else Get)
    case Serve(w, script) =>
      var id := s.inbox[w][0];
      s.(reqs := s.reqs[id := s.reqs[id].(work := Serving(w, script), script := script)],
         inbox := s.inbox[w := s.inbox[w][1..]],
         current := s.current[w := Some(id)])
    case Emit(w) =>
      var id := s.current[w].value;
      var e := s.reqs[id];
      s.(reqs := s.reqs[id := e.(work := Serving(e.work.w, e.work.rest[1..]), mail := e.mail + [e.work.rest[0]])])
    case Retire(w) =>
      var id := s.current[w].value;
      s.(reqs := s.reqs[id := s.reqs[id].(work := Served)], current := s.current[w := None])
    case Start(id, t) => SetPhase(s, id, Consuming(s.reqs[id].phase.w, t))
    case Receive(id, t) => s.(reqs := s.reqs[id := Take(s.reqs[id], t)])
    case TimeOut(id, t) =>
      s.(reqs := s.reqs[id := Conclude(s.reqs[id], Failure(s.reqs[id].spec.kind, id, NO_RESPONSE), t)])
    case Abort(id, t, error) =>
      s.(reqs := s.reqs[id := Conclude(s.reqs[id], Failure(s.reqs[id].spec.kind, id, error), t)])
    case Release(id) =>
      var p := s.reqs[id].phase;
      SetPhase(s, id, Released(p.w, p.outcome, p.ms)).(
        pool := ReleaseBy(s.pool, s.pool[p.w].workerId, if s.reqs[id].spec.kind in {Job, Sync} then p.ms else 0.0, id),
        drain := if s.drain.Parked? then Woken(s.drain.id) else s.drain)
    case Advance(id, to) => SetPhase(s, id, to)
  }

  // ------------------------------------------------------------------
  // Invariants
  // ------------------------------------------------------------------

  function SeatOf(p: Phase): Seat {
    if p.HoldsSlot() then Holding(p.w) else if p.SlotReturned() then Returned(p.w) else Outside
  }

  function StationOf(e: Entry): Station {
    if e.spec.kind == Latents || e.phase.Fresh? || e.phase.Refused? then Apart
    else if e.phase.Waiting? then InLine
    else if e.phase.Slotted? then AtPut(e.phase.w)
    else Past
  }

  function DeskOf(work: Work): Desk {
    match work
    case Unposted => Nowhere
    case Posted(w) => Inbox(w)
    case Serving(w, _) => OnDesk(w)
    case Served => Done
  }

  function Seats(reqs: seq<Entry>): seq<Seat> {
    seq(|reqs|, i requires 0 <= i < |reqs| => SeatOf(reqs[i].phase))
  }

  function Stations(reqs: seq<Entry>): seq<Station> {
    seq(|reqs|, i requires 0 <= i < |reqs| => StationOf(reqs[i]))
  }

  function Desks(reqs: seq<Entry>): seq<Desk> {
    seq(|reqs|, i requires 0 <= i < |reqs| => DeskOf(reqs[i].work))
  }

  /** The dispatch histories, and the counters as far as the workers' names allow, follow the requests. */
  ghost predicate Slots(s: Sched) {
    BooksInOrder(s.pool, s.log, Seats(s.reqs))
  }

  /** Every accepted envelope is in exactly one place, in FIFO order. */
  ghost predicate Places(c: Config, s: Sched) {
    LineInOrder(c.maxQueue, Line(s.queue, s.drain, s.accepted, s.drained), Stations(s.reqs))
  }

  ghost predicate Desked(s: Sched) {
    DesksInOrder(s.inbox, s.current, Desks(s.reqs))
  }

  /** A parked and not yet notified drain loop means that every worker is busy. */
  ghost predicate NoLostWakeup(s: Sched) {
    s.drain.Parked? ==> AllBusy(s.pool)
  }

  /** A result queue holds messages of its own request only, none lost and none repeated. */
  ghost predicate OwnMail(m: Model, j: JobId, e: Entry) {
    && (e.spec.kind == Latents ==> !e.phase.Waiting? && !e.phase.Refused?)
    && (e.work.Unposted? <==> e.phase.Fresh? || e.phase.Refused? || e.phase.Waiting? || e.phase.Slotted?)
    && (match e.work
        case Unposted => e.script == e.mail == e.read == []
        case Posted(_) => e.script == e.mail == e.read == []
        case Serving(_, rest) => Legal(m, j, e.spec, e.script) && e.script == e.read + e.mail + rest
        case Served => Legal(m, j, e.spec, e.script) && e.script == e.read + e.mail)
    && (e.phase.Spawned? ==> e.read == [])
    && (e.phase.Consuming? ==> forall x <- e.read :: x.Chunk?)
    && (e.phase.Concluded() ==> Genuine(m, j, e.spec, e.phase.outcome))
  }

  ghost predicate Mail(c: Config, s: Sched) {
    forall j :: 0 <= j < |s.reqs| ==> OwnMail(c.model, j, s.reqs[j])
  }

  ghost predicate Shape(c: Config, s: Sched) {
    && s.pool != [] && SameNames(c.pool, s.pool) && (forall w :: 0 <= w < |s.pool| ==> s.pool[w].workerId != "")
    && |s.inbox| == |s.pool| && |s.log| == |s.pool|
  }

  ghost predicate Inv(c: Config, s: Sched) {
    Shape(c, s) && Slots(s) && Places(c, s) && Desked(s) && NoLostWakeup(s) && Mail(c, s)
  }
}
