/**
 Progress. Every internal step lowers a well-founded measure and no unfinished state
 is stuck, whether or not a worker ever answers, so every run without new requests
 comes to rest with nothing queued, no request holding a slot and no job left unfinished.
 */
module Quiescence {
  import opened Common
  import opened Messages
  import opened Pool
  import opened Ledgers
  import opened Scheduling
  import opened SchedulingSafety
  import opened SchedulingTheorems
  import opened Jobs
  import opened Lifecycle
  import opened LifecycleSafety
  import opened LifecycleSteps
  import opened LifecycleTheorems

  // ------------------------------------------------------------------
  // The measure
  // ------------------------------------------------------------------

  function WorkWeight(work: Work): nat {
    match work
    case Unposted => 3
    case Posted(_) => 2
    case Serving(_, _) => 1
    case Served => 0
  }

  function DrainWeight(drain: Drain): nat {
    match drain
    case Get => 0
    case Put(_, _) => 0
    case Parked(_) => 2
    case Pick(_) => 2
    case Check(_) => 3
    case Woken(_) => 3
  }

  function EntryWeight(e: Entry): nat {
    e.phase.Weight() + WorkWeight(e.work)
  }

  /** Messages of one request still to be put (counted twice) or taken. */
  function EntryMessages(e: Entry): nat {
    |e.mail| + if e.work.Serving? then 2 * |e.work.rest| else 0
  }

  function Stages(reqs: seq<Entry>): nat {
    if reqs == [] then 0 else Stages(reqs[..|reqs| - 1]) + EntryWeight(reqs[|reqs| - 1])
  }

  function Letters(reqs: seq<Entry>): nat {
    if reqs == [] then 0 else Letters(reqs[..|reqs| - 1]) + EntryMessages(reqs[|reqs| - 1])
  }

  /** What a handler still has to do: items to create and submit, or jobs to mark. */
  function HandlerWeight(hd: Handler): nat {
    var left := if |hd.ids| <= |hd.items| then |hd.items| - |hd.ids| else 0;
    match hd.stage
    case Creating => 40 * left + |hd.items| + 1
    case Submitting => 40 * left + |hd.items| + 2
    case Marking(i) => if i <= |hd.ids| then |hd.ids| - i else 0
    case Accepted => 0
    case Rejected => 0
  }

  function HandlerWork(handlers: seq<Handler>): nat {
    if handlers == [] then 0 else HandlerWork(handlers[..|handlers| - 1]) + HandlerWeight(handlers[|handlers| - 1])
  }

  function SchedStages(a: Sched): nat {
    Stages(a.reqs) + 4 * |a.queue| + DrainWeight(a.drain)
  }

  function SysStages(s: System): nat {
    SchedStages(s.a) + HandlerWork(s.handlers)
  }

  predicate Below(m: (nat, nat), n: (nat, nat)) {
    m.0 < n.0 || (m.0 == n.0 && m.1 < n.1)
  }

  function Measure(s: System): (nat, nat) {
    (SysStages(s), Letters(s.a.reqs))
  }

  lemma {:induction false} SetStages(reqs: seq<Entry>, id: JobId, e: Entry)
    requires id < |reqs|
    ensures Stages(reqs[id := e]) == Stages(reqs) - EntryWeight(reqs[id]) + EntryWeight(e)
    ensures Letters(reqs[id := e]) == Letters(reqs) - EntryMessages(reqs[id]) + EntryMessages(e)
  {
    var front := reqs[..|reqs| - 1];
    if id < |front| {
      SetStages(front, id, e);
      assert reqs[id := e][..|reqs| - 1] == front[id := e];
    } else {
      assert reqs[id := e][..|reqs| - 1] == front;
    }
  }

  lemma {:induction false} SetHandlerWork(handlers: seq<Handler>, h: nat, hd: Handler)
    requires h < |handlers|
    ensures HandlerWork(handlers[h := hd]) == HandlerWork(handlers) - HandlerWeight(handlers[h]) + HandlerWeight(hd)
  {
    var front := handlers[..|handlers| - 1];
    if h < |front| {
      SetHandlerWork(front, h, hd);
      assert handlers[h := hd][..|handlers| - 1] == front[h := hd];
    } else {
      assert handlers[h := hd][..|handlers| - 1] == front;
    }
  }

  // ------------------------------------------------------------------
  // Every internal step lowers it
  // ------------------------------------------------------------------

  /** A step of the server or of a worker; arrivals, downloads, sweeps and time are not. */
  predicate Internal(e: Event) {
    match e
    case Create(_) => true
    case Submit(_) => true
    case Mark(_) => true
    case Call(act) => !act.Arrive?
    case CallbackRuns(_) => true
    case CallbackFails(_) => true
    case CallbackSaves(_) => true
    case SaveRaises(_) => true
    case CallbackEnds(_) => true
    case _ => false
  }

  /** An internal step that no worker takes. */
  predicate OfServer(e: Event) {
    Internal(e) && (e.Call? ==> !e.act.Serve? && !e.act.Emit? && !e.act.Retire?)
  }

  ghost predicate Lowers(c: Config, s: Sched, a: Action)
    requires Enabled(c, s, a)
  {
    var s' := Apply(c, s, a);
    Below((SchedStages(s'), Letters(s'.reqs)), (SchedStages(s), Letters(s.reqs)))
  }

  lemma LineActionLowers(c: Config, s: Sched, a: Action)
    requires Inv(c, s) && Enabled(c, s, a)
    requires a.Enqueue? || a.Refuse? || a.Direct? || a.DrainGet? || a.DrainCheck? || a.DrainPick? || a.Post?
    ensures Lowers(c, s, a)
  {
    hide Shape, Slots, Places, Desked, NoLostWakeup, IsPick, AllBusy, Stages, Letters, Acquire;
    if a.DrainPick? {
      HeldWaits(c, s);
      hide Inv;
      SetStages(s.reqs, s.drain.id, Apply(c, s, a).reqs[s.drain.id]);
    } else if a.Post? {
      assert OwnMail(c.model, a.id, s.reqs[a.id]);
      hide Inv;
      SetStages(s.reqs, a.id, Apply(c, s, a).reqs[a.id]);
    } else if !a.DrainGet? && !a.DrainCheck? {
      hide Inv;
      SetStages(s.reqs, a.id, Apply(c, s, a).reqs[a.id]);
    }
  }

  lemma WorkerActionLowers(c: Config, s: Sched, a: Action)
    requires Inv(c, s) && Enabled(c, s, a) && (a.Serve? || a.Emit? || a.Retire?)
    ensures Lowers(c, s, a)
  {
    hide Stages, Letters, Legal;
    if a.Serve? {
      ServeFromInbox(c, s, a.w);
    }
    hide Inv;
    var id := if a.Serve? then s.inbox[a.w][0] else s.current[a.w].value;
    SetStages(s.reqs, id, Apply(c, s, a).reqs[id]);
  }

  lemma ConsumerActionLowers(c: Config, s: Sched, a: Action)
    requires Inv(c, s) && Enabled(c, s, a)
    requires a.Start? || a.Receive? || a.TimeOut? || a.Abort? || a.Release? || a.Advance?
    ensures Lowers(c, s, a)
  {
    hide Inv, Stages, Letters, Vacate;
    SetStages(s.reqs, a.id, Apply(c, s, a).reqs[a.id]);
  }

  lemma ActionLowers(c: Config, s: Sched, a: Action)
    requires Inv(c, s) && Enabled(c, s, a) && !a.Arrive?
    ensures Lowers(c, s, a)
  {
    hide Inv, Enabled, Lowers;
    if a.Serve? || a.Emit? || a.Retire? {
      WorkerActionLowers(c, s, a);
    } else if a.Start? || a.Receive? || a.TimeOut? || a.Abort? || a.Release? || a.Advance? {
      ConsumerActionLowers(c, s, a);
    } else {
      LineActionLowers(c, s, a);
    }
  }

  lemma ServeFromInbox(c: Config, s: Sched, w: nat)
    requires Inv(c, s) && w < |s.inbox| && s.inbox[w] != [] && w < |s.current| && s.current[w].None?
    ensures At(s, s.inbox[w][0]) && s.reqs[s.inbox[w][0]].work.Posted?
  {
    hide BooksInOrder, LineInOrder, OwnMail, AllBusy;
    TakeUp(s.inbox, s.current, Desks(s.reqs), w);
    assert Desks(s.reqs)[s.inbox[w][0]] == DeskOf(s.reqs[s.inbox[w][0]].work);
  }

  lemma EventLowers(k: Setup, s: System, e: Event)
    requires SysInv(k, s) && Allowed(k, s, e) && Internal(e)
    ensures Below(Measure(After(k, s, e)), Measure(s))
  {
    hide SysInv, Stages, Letters, HandlerWork;
    match e
    case Create(h) => CreateLowers(k, s, h);
    case Submit(h) => SubmitLowers(k, s, h);
    case Mark(h) => MarkLowers(k, s, h);
    case Call(act) => CallLowers(k, s, act);
    case CallbackRuns(_) => CallbackLowers(k, s, e);
    case CallbackFails(_) => CallbackLowers(k, s, e);
    case CallbackSaves(_) => CallbackLowers(k, s, e);
    case SaveRaises(_) => CallbackLowers(k, s, e);
    case CallbackEnds(_) => CallbackLowers(k, s, e);
  }

  lemma CallLowers(k: Setup, s: System, act: Action)
    requires SysInv(k, s) && Allowed(k, s, Call(act)) && !act.Arrive?
    ensures Below(Measure(Called(k, s, act)), Measure(s))
  {
    hide Inv, Enabled, Handlers, Views, Known, Stages, Letters, HandlerWork, Apply;
    ActionLowers(k.c, s.a, act);
  }

  lemma CallbackEffect(k: Setup, s: System, e: Event)
    requires Allowed(k, s, e) && IsCallback(e)
    ensures After(k, s, e).a == SetReqPhase(s, e.id, CallbackPhase(e, s.a.reqs[e.id].phase)).a
    ensures After(k, s, e).handlers == s.handlers
  {
    hide MarkRunning, MarkDone, MarkFailed;
  }

  lemma CallbackLowers(k: Setup, s: System, e: Event)
    requires SysInv(k, s) && Allowed(k, s, e)
    requires IsCallback(e)
    ensures Below(Measure(After(k, s, e)), Measure(s))
  {
    hide SysInv, Stages, Letters, HandlerWork, Stored, MarkRunning, MarkDone, MarkFailed;
    SetStages(s.a.reqs, e.id, s.a.reqs[e.id].(phase := CallbackPhase(e, s.a.reqs[e.id].phase)));
    CallbackEffect(k, s, e);
  }

  lemma CreateLowers(k: Setup, s: System, h: nat)
    requires SysInv(k, s) && Allowed(k, s, Create(h))
    ensures Below(Measure(Created(k, s, h)), Measure(s))
  {
    hide SysInv, HandlerWork;
    var s' := Created(k, s, h);
    SetHandlerWork(s.handlers, h, s'.handlers[h]);
    assert s'.a.reqs[..|s'.a.reqs| - 1] == s.a.reqs;
  }

  lemma SubmitLowers(k: Setup, s: System, h: nat)
    requires SysInv(k, s) && Allowed(k, s, Submit(h))
    ensures Below(Measure(Submitted(k, s, h)), Measure(s))
  {
    assert |s.handlers[h].ids| <= |s.handlers[h].items| by {
      hide Inv, Views, Known;
      assert HandlerOk(s, h);
    }
    hide SysInv, HandlerWork, Stages, Letters, Apply, Enabled, HandlerWeight;
    var s' := Submitted(k, s, h);
    var id := s.handlers[h].ids[|s.handlers[h].ids| - 1];
    SetHandlerWork(s.handlers, h, s'.handlers[h]);
    SubmitEffect(k, s, h);
    SubmitStages(k, s, h);
  }

  lemma SubmitEffect(k: Setup, s: System, h: nat)
    requires Allowed(k, s, Submit(h)) && |s.handlers[h].ids| <= |s.handlers[h].items|
    ensures HandlerWeight(Submitted(k, s, h).handlers[h]) < HandlerWeight(s.handlers[h])
  {
    hide Apply, Enabled;
  }

  lemma SubmitStages(k: Setup, s: System, h: nat)
    requires Allowed(k, s, Submit(h))
    ensures SchedStages(Submitted(k, s, h).a) < SchedStages(s.a)
  {
    hide Stages, Letters;
    var id := s.handlers[h].ids[|s.handlers[h].ids| - 1];
    SetStages(s.a.reqs, id, Submitted(k, s, h).a.reqs[id]);
  }

  lemma MarkLowers(k: Setup, s: System, h: nat)
    requires SysInv(k, s) && Allowed(k, s, Mark(h))
    ensures Below(Measure(Marked(s, h)), Measure(s))
  {
    hide SysInv, HandlerWork, Stages, Letters, MarkFailed;
    SetHandlerWork(s.handlers, h, Marked(s, h).handlers[h]);
  }

  // ------------------------------------------------------------------
  // No unfinished state is stuck
  // ------------------------------------------------------------------

  predicate AtRest(p: Phase) {
    p.Refused? || p.Finished? || p.Crashed?
  }

  /** All handlers have answered and all requests have come to their end. */
  ghost predicate Quiet(s: System) {
    && (forall h :: 0 <= h < |s.handlers| ==> s.handlers[h].stage.Accepted? || s.handlers[h].stage.Rejected?)
    && (forall j :: 0 <= j < |s.a.reqs| ==> AtRest(s.a.reqs[j].phase))
  }

  ghost predicate ServerCanMove(k: Setup, s: System) {
    exists e :: Allowed(k, s, e) && OfServer(e)
  }

  lemma HandlerMoves(k: Setup, s: System, h: nat)
    requires SysInv(k, s) && h < |s.handlers| && !s.handlers[h].stage.Accepted? && !s.handlers[h].stage.Rejected?
    ensures ServerCanMove(k, s)
  {
    hide Inv, Views;
    var hd := s.handlers[h];
    assert HandlerOk(s, h);
    match hd.stage {
      case Creating =>
        assert Allowed(k, s, Create(h));
      case Submitting =>
        var last := |hd.ids| - 1;
        assert OwnItem(s, h, last);
        assert hd.items[last] in hd.items;
        assert Allowed(k, s, Submit(h));
      case Marking(i) =>
        assert OwnItem(s, h, i);
        assert Allowed(k, s, Mark(h));
    }
  }

  lemma SeatInPool(k: Setup, s: System, j: JobId)
    requires SysInv(k, s) && j < |s.a.reqs| && !SeatOf(s.a.reqs[j].phase).Outside?
    ensures SeatOf(s.a.reqs[j].phase).w < |s.a.pool| == |s.a.inbox|
  {
    hide Handlers, Views, Known, Places, Desked, Mail, NoLostWakeup, CountersInOrder, HoldersOf, AllHolders,
      TotalActive, HasSeat, WellNamed, SameNames;
    assert Seats(s.a.reqs)[j] == SeatOf(s.a.reqs[j].phase);
  }

  /** Past the line, the coroutine of a request can always go on, answered or not. */
  lemma DispatchedMoves(k: Setup, s: System, j: JobId)
    requires SysInv(k, s) && j < |s.a.reqs| && s.a.reqs[j].phase.HoldsSlot()
    ensures ServerCanMove(k, s)
  {
    hide SysInv, Apply;
    SeatInPool(k, s, j);
    match s.a.reqs[j].phase {
      case Slotted(_) =>
        assert Allowed(k, s, Call(Action.Post(j)));
      case Spawned(_) =>
        assert Allowed(k, s, Call(Action.Start(j, s.now)));
      case Consuming(_, _) =>
        if s.a.reqs[j].mail == [] {
          assert Allowed(k, s, Call(TimeOut(j, s.now)));
        } else {
          assert Allowed(k, s, Call(Receive(j, s.now)));
        }
      case Closing(_, _, _) =>
        assert Allowed(k, s, Call(Release(j)));
    }
  }

  lemma CallbackMoves(k: Setup, s: System, j: JobId)
    requires SysInv(k, s) && j < |s.a.reqs| && s.a.reqs[j].phase.SlotReturned() && !AtRest(s.a.reqs[j].phase)
    ensures ServerCanMove(k, s)
  {
    hide SysInv, Apply;
    InvLengths(k, s);
    SeatInPool(k, s, j);
    GenuineOutcome(k, s, j);
    if s.a.reqs[j].spec.kind != Job {
      var p := s.a.reqs[j].phase;
      assert Allowed(k, s, Call(Advance(j, Finished(p.w, p.outcome, p.ms))));
    } else {
      match s.a.reqs[j].phase {
        case Released(_, _, _) =>
          assert Allowed(k, s, CallbackRuns(j));
        case Running(_, outcome, _) =>
          if Truthy(outcome.error) {
            assert Allowed(k, s, CallbackFails(j));
          } else {
            assert Allowed(k, s, SaveRaises(j));
          }
        case Saved(_, _, _) =>
          assert Allowed(k, s, CallbackEnds(j));
      }
    }
  }

  lemma WaitsInLine(k: Setup, s: System, j: JobId)
    requires SysInv(k, s) && j < |s.a.reqs| && s.a.reqs[j].phase.Waiting?
    ensures j in s.a.drain.Held() + s.a.queue
  {
    hide Handlers, Views, Known, Slots, Desked, NoLostWakeup, Legal;
    assert OwnMail(k.c.model, j, s.a.reqs[j]);
    assert StandsAt(Stations(s.a.reqs), j, InLine);
  }

  /** With an envelope in the line, the drain loop can move or waits for a busy worker that can. */
  lemma LineMoves(k: Setup, s: System, j: JobId)
    requires SysInv(k, s) && j < |s.a.reqs| && s.a.reqs[j].phase.Waiting?
    ensures ServerCanMove(k, s)
  {
    hide SysInv, Apply;
    WaitsInLine(k, s, j);
    match s.a.drain {
      case Get =>
        assert Allowed(k, s, Call(DrainGet));
      case Check(_) =>
        assert Allowed(k, s, Call(DrainCheck));
      case Woken(_) =>
        assert Allowed(k, s, Call(DrainCheck));
      case Pick(_) =>
        PickMoves(k, s);
      case Put(id, _) =>
        PutMoves(k, s);
      case Parked(_) =>
        ParkedMoves(k, s);
    }
  }

  lemma PickMoves(k: Setup, s: System)
    requires SysInv(k, s) && s.a.drain.Pick?
    ensures ServerCanMove(k, s)
  {
    HeldWaits(k.c, s.a);
    hide Handlers, Views, Known, Slots, Desked, NoLostWakeup, Places, Mail, Apply;
    assert Allowed(k, s, Call(DrainPick(s.now)));
  }

  lemma PutMoves(k: Setup, s: System)
    requires SysInv(k, s) && s.a.drain.Put?
    ensures ServerCanMove(k, s)
  {
    var id := s.a.drain.id;
    assert id < |s.a.reqs| && s.a.reqs[id].phase.Slotted? by {
      hide Handlers, Views, Known, Slots, Desked, NoLostWakeup, Mail;
      assert StandsAt(Stations(s.a.reqs), id, AtPut(s.a.drain.w));
    }
    DispatchedMoves(k, s, id);
  }

  lemma ParkedMoves(k: Setup, s: System)
    requires SysInv(k, s) && s.a.drain.Parked?
    ensures ServerCanMove(k, s)
  {
    var j := BusyRequest(k, s);
    DispatchedMoves(k, s, j);
  }

  lemma BusyRequest(k: Setup, s: System) returns (j: JobId)
    requires SysInv(k, s) && s.a.drain.Parked?
    ensures j < |s.a.reqs| && s.a.reqs[j].phase.HoldsSlot()
  {
    hide Handlers, Views, Known, Places, Desked, Mail, HistoryInOrder, CountersInOrder;
    assert |HoldersOf(Seats(s.a.reqs), 0)| >= 1;
    j :| j in HoldersOf(Seats(s.a.reqs), 0);
  }

  lemma FreshMoves(k: Setup, s: System, j: JobId)
    requires SysInv(k, s) && j < |s.a.reqs| && s.a.reqs[j].phase.Fresh?
    ensures ServerCanMove(k, s)
  {
    InvLengths(k, s);
    if s.a.reqs[j].spec.kind == Job {
      var h := FreshHandler(k, s, j);
      HandlerMoves(k, s, h);
    } else {
      assert s.a.pool != [];
      hide SysInv, Apply;
      if s.a.reqs[j].spec.kind == Latents {
        assert Allowed(k, s, Call(Direct(j, s.now)));
      } else if |s.a.queue| < k.c.maxQueue {
        assert Allowed(k, s, Call(Enqueue(j)));
      } else {
        assert Allowed(k, s, Call(Refuse(j)));
      }
    }
  }

  lemma FreshHandler(k: Setup, s: System, j: JobId) returns (h: nat)
    requires SysInv(k, s) && j < |s.a.reqs| && j < |s.life| && s.a.reqs[j].phase.Fresh? && s.a.reqs[j].spec.kind == Job
    ensures h < |s.handlers| && s.handlers[h].stage.Submitting?
  {
    hide Inv, Views;
    WhereEmployed(k, s, j);
    h := s.life[j].handler;
    assert HandlerOk(s, h);
  }

  lemma NotStuck(k: Setup, s: System)
    requires SysInv(k, s) && !Quiet(s)
    ensures ServerCanMove(k, s)
  {
    hide SysInv, ServerCanMove;
    if h :| 0 <= h < |s.handlers| && !s.handlers[h].stage.Accepted? && !s.handlers[h].stage.Rejected? {
      HandlerMoves(k, s, h);
    } else {
      var j :| 0 <= j < |s.a.reqs| && !AtRest(s.a.reqs[j].phase);
      var p := s.a.reqs[j].phase;
      if p.Fresh? {
        FreshMoves(k, s, j);
      } else if p.Waiting? {
        LineMoves(k, s, j);
      } else if p.HoldsSlot() {
        DispatchedMoves(k, s, j);
      } else {
        CallbackMoves(k, s, j);
      }
    }
  }

  // ------------------------------------------------------------------
  // What rest means, and that it comes
  // ------------------------------------------------------------------

  /**
   At rest the queue is empty, the drain loop waits for it, every counter is zero if the
   workers' names are distinct, and no record is PENDING or RUNNING, except jobs whose save
   raised.
   */
  lemma QuietMeans(k: Setup, s: System)
    requires SysInv(k, s) && Quiet(s)
    ensures s.a.queue == [] && s.a.drain.Get?
    ensures DistinctIds(k.c.pool) ==> forall w :: 0 <= w < |s.a.pool| ==> s.a.pool[w].active == 0
    ensures forall j <- s.jobs :: s.jobs[j].Terminal() || (j < |s.a.reqs| && s.a.reqs[j].phase.Crashed?)
  {
    InvLengths(k, s);
    QuietLine(k, s);
    forall w | 0 <= w < |s.a.pool| && DistinctIds(k.c.pool)
      ensures s.a.pool[w].active == 0
    {
      SlotsMeaning(k.c, s.a, w);
      assert Unreleased(s.a, w) == {};
    }
    forall j | j in s.jobs
      ensures s.jobs[j].Terminal() || (j < |s.a.reqs| && s.a.reqs[j].phase.Crashed?)
    {
      QuietJob(k, s, j);
    }
  }

  lemma QuietLine(k: Setup, s: System)
    requires SysInv(k, s) && Quiet(s)
    ensures s.a.queue == [] && s.a.drain.Get?
  {
    hide Handlers, Views, Known, Slots, Desked, NoLostWakeup, Mail;
    var st := Stations(s.a.reqs);
    var ahead := s.a.drain.Held() + s.a.queue;
    assert ahead == [] || ahead[0] in ahead;
    forall j: JobId
      ensures j !in ahead
    {
      assert j in ahead <==> StandsAt(st, j, InLine);
    }
    assert s.a.drain.Put? ==> StandsAt(st, s.a.drain.id, AtPut(s.a.drain.w));
  }

  lemma QuietJob(k: Setup, s: System, j: JobId)
    requires SysInv(k, s) && Quiet(s) && j in s.jobs
    ensures s.jobs[j].Terminal() || (j < |s.a.reqs| && s.a.reqs[j].phase.Crashed?)
  {
    hide Inv, AudioOk, TimeOk;
    assert ViewOk(k, ViewOf(s, j), j, s.now, s.swept);
    if s.a.reqs[j].spec.kind == Job && s.a.reqs[j].phase.Refused? {
      WhereEmployed(k, s, j);
      assert HandlerOk(s, s.life[j].handler);
    }
  }

  // ------------------------------------------------------------------
  // Runs that go on
  // ------------------------------------------------------------------

  /** Time, sweeps and downloads: they bring no request and leave the measure as it is. */
  predicate Aside(e: Event) {
    e.Fetch? || e.Unlink? || e.Forget? || e.Sweep? || e.Tick?
  }

  ghost predicate Works(k: Setup, s: System, s': System) {
    exists e :: Allowed(k, s, e) && Internal(e) && s' == After(k, s, e)
  }

  /** One step of a run without new requests: work, something aside, or nothing. */
  ghost predicate GoesOn(k: Setup, s: System, s': System) {
    || Works(k, s, s')
    || (exists e :: Allowed(k, s, e) && Aside(e) && s' == After(k, s, e))
    || s' == s
  }

  /** The server is not put off for ever: again and again it works, or there is nothing it could do. */
  ghost predicate Fair(k: Setup, f: nat -> System) {
    forall x: nat :: AttendedFrom(k, f, x)
  }

  ghost predicate AttendedFrom(k: Setup, f: nat -> System, x: nat) {
    exists y: nat :: x <= y && Attended(k, f, y)
  }

  ghost predicate Attended(k: Setup, f: nat -> System, y: nat) {
    Works(k, f(y), f(y + 1)) || !ServerCanMove(k, f(y))
  }

  lemma AsideKeepsMeasure(k: Setup, s: System, e: Event)
    requires Allowed(k, s, e) && Aside(e)
    ensures Measure(After(k, s, e)) == Measure(s)
  {
    hide Stages, Letters, HandlerWork, ClearAudioPath;
  }

  /** A step keeps the invariant and does not raise the measure; work lowers it. */
  lemma StepOn(k: Setup, s: System, s': System)
    requires k.slack >= 0.0 && SysInv(k, s) && GoesOn(k, s, s')
    ensures SysInv(k, s') && (Below(Measure(s'), Measure(s)) || Measure(s') == Measure(s))
    ensures Works(k, s, s') ==> Below(Measure(s'), Measure(s))
  {
    hide SysInv, Allowed, After, Internal, Aside, Measure;
    if Works(k, s, s') {
      var e :| Allowed(k, s, e) && Internal(e) && s' == After(k, s, e);
      EventLowers(k, s, e);
      EventStep(k, s, e);
    } else if s' != s {
      var e :| Allowed(k, s, e) && Aside(e) && s' == After(k, s, e);
      AsideKeepsMeasure(k, s, e);
      EventStep(k, s, e);
    }
  }

  lemma {:induction false} ComesToRest(k: Setup, f: nat -> System, i: nat) returns (n: nat)
    requires k.slack >= 0.0 && SysInv(k, f(i)) && Fair(k, f)
    requires forall x: nat :: GoesOn(k, f(x), f(x + 1))
    ensures n >= i && Quiet(f(n)) && SysInv(k, f(n))
    decreases Measure(f(i)).0, Measure(f(i)).1, 1, 0
  {
    hide SysInv, GoesOn, Attended, Quiet, Measure;
    assert AttendedFrom(k, f, i);
    var y: nat :| i <= y && Attended(k, f, y);
    n := RestsAfter(k, f, i, y);
  }

  /** The same with the next moment `y` at which the server is attended to. */
  lemma {:induction false} RestsAfter(k: Setup, f: nat -> System, i: nat, y: nat) returns (n: nat)
    requires k.slack >= 0.0 && SysInv(k, f(i)) && Fair(k, f)
    requires forall x: nat :: GoesOn(k, f(x), f(x + 1))
    requires i <= y && Attended(k, f, y)
    ensures n >= i && Quiet(f(n)) && SysInv(k, f(n))
    decreases Measure(f(i)).0, Measure(f(i)).1, 0, y - i
  {
    hide SysInv, GoesOn, Quiet, Measure, Fair, ServerCanMove, Works;
    if Quiet(f(i)) {
      n := i;
      return;
    }
    NotStuck(k, f(i));
    assert GoesOn(k, f(i), f(i + 1));
    StepOn(k, f(i), f(i + 1));
    if Below(Measure(f(i + 1)), Measure(f(i))) {
      n := ComesToRest(k, f, i + 1);
    } else {
      assert i != y;
      n := RestsAfter(k, f, i + 1, y);
    }
  }

  /**
   From every reachable state, every run without new requests in which the server is not put off
   for ever reaches a state at rest and stays there, while time passes, sweeps run, workers answer
   late and files are downloaded.
   */
  lemma EveryRunComesToRest(k: Setup, r: seq<System>, f: nat -> System)
    requires SysRun(k, r) && f(0) == r[|r| - 1] && Fair(k, f)
    requires forall x: nat :: GoesOn(k, f(x), f(x + 1))
    ensures exists n: nat :: DoneFrom(k, f, n)
  {
    hide SysInv, GoesOn, Quiet, AllDone, Fair;
    RunKeepsInv(k, r, |r| - 1);
    var n := ComesToRest(k, f, 0);
    forall m: nat | n <= m
      ensures AllDone(k, f(m))
    {
      RestStays(k, f, n, m);
      QuietIsDone(k, f(m));
    }
    assert DoneFrom(k, f, n);
  }

  ghost predicate DoneFrom(k: Setup, f: nat -> System, n: nat) {
    forall m: nat :: n <= m ==> AllDone(k, f(m))
  }

  /** Nothing queued, every request at its end, no slot counted, no record unfinished but those whose save raised. */
  ghost predicate AllDone(k: Setup, s: System) {
    && s.a.queue == [] && s.a.drain.Get?
    && (forall j :: 0 <= j < |s.a.reqs| ==> AtRest(s.a.reqs[j].phase))
    && (DistinctIds(k.c.pool) ==> forall w :: 0 <= w < |s.a.pool| ==> s.a.pool[w].active == 0)
    && (forall j <- s.jobs :: s.jobs[j].Terminal() || (j < |s.a.reqs| && s.a.reqs[j].phase.Crashed?))
  }

  lemma QuietIsDone(k: Setup, s: System)
    requires SysInv(k, s) && Quiet(s)
    ensures AllDone(k, s)
  {
    hide SysInv;
    QuietMeans(k, s);
  }

  lemma {:induction false} RestStays(k: Setup, f: nat -> System, n: nat, m: nat)
    requires k.slack >= 0.0 && SysInv(k, f(n)) && Quiet(f(n)) && n <= m
    requires forall x: nat :: GoesOn(k, f(x), f(x + 1))
    ensures SysInv(k, f(m)) && Quiet(f(m))
    decreases m
  {
    hide SysInv, GoesOn, Quiet;
    if n < m {
      RestStays(k, f, n, m - 1);
      assert GoesOn(k, f(m - 1), f(m - 1 + 1));
      StepOn(k, f(m - 1), f(m));
      QuietStays(k, f(m - 1), f(m));
    }
  }

  lemma QuietStays(k: Setup, s: System, s': System)
    requires SysInv(k, s) && Quiet(s) && GoesOn(k, s, s')
    ensures Quiet(s')
  {
    hide SysInv, Allowed, After, Quiet;
    if Works(k, s, s') {
      var e :| Allowed(k, s, e) && Internal(e) && s' == After(k, s, e);
      QuietWork(k, s, e);
    } else if s' != s {
      var e :| Allowed(k, s, e) && Aside(e) && s' == After(k, s, e);
      QuietAside(k, s, e);
    }
  }

  lemma QuietAside(k: Setup, s: System, e: Event)
    requires Quiet(s) && Allowed(k, s, e) && Aside(e)
    ensures Quiet(After(k, s, e))
  {
    hide ClearAudioPath;
  }

  /** At rest only workers still move, and what they do changes no phase. */
  lemma QuietWork(k: Setup, s: System, e: Event)
    requires SysInv(k, s) && Quiet(s) && Allowed(k, s, e) && Internal(e)
    ensures Quiet(After(k, s, e))
  {
    hide SysInv, Enabled, Apply;
    if e.Call? {
      QuietCall(k, s, e.act);
    } else {
      QuietBusiness(k, s, e);
    }
  }

  lemma QuietBusiness(k: Setup, s: System, e: Event)
    requires SysInv(k, s) && Quiet(s) && Allowed(k, s, e)
    ensures e.Post? || e.Call? || Aside(e)
  {
    hide SysInv, Enabled;
    assert e.CallbackRuns? || e.CallbackFails? || e.CallbackSaves? || e.SaveRaises? || e.CallbackEnds? ==>
      AtRest(s.a.reqs[e.id].phase);
  }

  lemma QuietCall(k: Setup, s: System, act: Action)
    requires SysInv(k, s) && Quiet(s) && Allowed(k, s, Call(act)) && !act.Arrive?
    ensures Quiet(Called(k, s, act))
  {
    CallCount(k, s, act);
    hide SysInv, Inv, Apply, Enabled;
    forall j | 0 <= j < |s.a.reqs|
      ensures AtRest(Called(k, s, act).a.reqs[j].phase)
    {
      RestingCall(k, s, act, j);
    }
  }

  /** Nothing is left to advance to. */
  lemma RestingCall(k: Setup, s: System, act: Action, j: JobId)
    requires SysInv(k, s) && Allowed(k, s, Call(act)) && j < |s.a.reqs| && AtRest(s.a.reqs[j].phase)
    ensures j < |Apply(k.c, s.a, act).reqs| && AtRest(Apply(k.c, s.a, act).reqs[j].phase)
  {
    hide Inv, Enabled, Apply, Known, Handlers, Views, AtRest;
    PhasesAdvance(k.c, s.a, act, j);
    RestIsWeightless(s.a.reqs[j].phase);
    RestIsWeightless(Apply(k.c, s.a, act).reqs[j].phase);
  }

  lemma RestIsWeightless(p: Phase)
    ensures AtRest(p) <==> p.Weight() == 0
  {
  }
}
