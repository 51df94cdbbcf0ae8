/**
 A concrete run in which collecting an answer raises an exception without a message, as an
 `EOFError()` of a result queue whose manager process has gone: the job stays RUNNING for good.
 */
module SilentCrash {
  import opened Common
  import opened Messages
  import opened Ledgers
  import opened Pool
  import opened Scheduling
  import opened Jobs
  import opened Lifecycle
  import opened LifecycleTheorems
  import opened Quiescence
  import opened Witnesses

  const NOTHING := Result(0, None, Some(""))
  const STUCK_REC := REC.(status := RUNNING, startedAt := Some(0.0), workerId := "gpu0-w0", gpu := 0)

  /** One request `e`, which the worker never takes up, and its handler's answer already given. */
  function Alone(queue: seq<JobId>, drain: Drain, slot: Slot, inbox: seq<JobId>, drained: seq<JobId>, e: Entry,
                 rec: Record, trace: seq<Status>): System {
    Shot(Sched(queue, drain, [slot], [inbox], [None], [e], [0], drained, [drained]),
         map[0 := rec], [Life(0, 0, trace, [])], Handler([SPEC], [0], Accepted))
  }

  function Requested(): System {
    Shot(AtStart().a, map[], [], Handler([SPEC], [], Creating))
  }

  function JobCreated(): System {
    Shot(Sched([], Get, [WORKER], [[]], [None], [Item(Fresh)], [], [], [[]]),
         map[0 := REC], [Life(0, 0, [PENDING], [])], Handler([SPEC], [0], Submitting))
  }

  function JobQueued(): System {
    Alone([0], Get, WORKER, [], [], Item(Waiting), REC, [PENDING])
  }

  function JobInHand(): System {
    Alone([], Check(0), WORKER, [], [], Item(Waiting), REC, [PENDING])
  }

  function IdleWorkerFound(): System {
    Alone([], Pick(0), WORKER, [], [], Item(Waiting), REC, [PENDING])
  }

  function WorkerTaken(): System {
    Alone([], Put(0, 0), BUSY, [], [0], Item(Slotted(0)), REC, [PENDING])
  }

  function JobPosted(): System {
    Alone([], Get, BUSY, [0], [0], POSTED, REC, [PENDING])
  }

  function CollectorWaits(): System {
    Alone([], Get, BUSY, [0], [0], POSTED.(phase := Consuming(0, 0.0)), REC, [PENDING])
  }

  function CollectorFails(): System {
    Alone([], Get, BUSY, [0], [0], POSTED.(phase := Closing(0, NOTHING, 0.0)), REC, [PENDING])
  }

  function WorkerFreed(): System {
    Alone([], Get, TOLD, [0], [0], POSTED.(phase := Released(0, NOTHING, 0.0)), REC, [PENDING])
  }

  function JobMarkedRunning(): System {
    Alone([], Get, TOLD, [0], [0], POSTED.(phase := Running(0, NOTHING, 0.0)), STUCK_REC, [PENDING, RUNNING])
  }

  function SaveRaised(): System {
    Alone([], Get, TOLD, [0], [0], POSTED.(phase := Crashed(0, NOTHING, 0.0)), STUCK_REC, [PENDING, RUNNING])
  }

  lemma ToRequested()
    ensures Leads(AtStart(), Event.Post([SPEC]), Requested())
  {
    AlikeIsSame(After(Tiny(), AtStart(), Event.Post([SPEC])), Requested());
  }

  lemma ToJobCreated()
    ensures Leads(Requested(), Create(0), JobCreated())
  {
    AlikeIsSame(After(Tiny(), Requested(), Create(0)), JobCreated());
  }

  lemma ToJobQueued()
    ensures Leads(JobCreated(), Submit(0), JobQueued())
  {
    AlikeIsSame(After(Tiny(), JobCreated(), Submit(0)), JobQueued());
  }

  lemma ToJobInHand()
    ensures Leads(JobQueued(), Call(DrainGet), JobInHand())
  {
    hide Stored, Created, Submitted, Marked, Runs, Fails, Saves, Ends, Unlinked, Forgotten, Swept;
    AlikeIsSame(After(Tiny(), JobQueued(), Call(DrainGet)), JobInHand());
  }

  lemma ToIdleWorkerFound()
    ensures Leads(JobInHand(), Call(DrainCheck), IdleWorkerFound())
  {
    hide Stored, Created, Submitted, Marked, Runs, Fails, Saves, Ends, Unlinked, Forgotten, Swept;
    assert JobInHand().a.pool[0].active == 0;
    AlikeIsSame(After(Tiny(), JobInHand(), Call(DrainCheck)), IdleWorkerFound());
  }

  lemma ToWorkerTaken()
    ensures Leads(IdleWorkerFound(), Call(DrainPick(0.0)), WorkerTaken())
  {
    hide Stored, Created, Submitted, Marked, Runs, Fails, Saves, Ends, Unlinked, Forgotten, Swept;
    AlikeIsSame(After(Tiny(), IdleWorkerFound(), Call(DrainPick(0.0))), WorkerTaken());
  }

  lemma ToJobPosted()
    ensures Leads(WorkerTaken(), Call(Action.Post(0)), JobPosted())
  {
    hide Stored, Created, Submitted, Marked, Runs, Fails, Saves, Ends, Unlinked, Forgotten, Swept;
    AlikeIsSame(After(Tiny(), WorkerTaken(), Call(Action.Post(0))), JobPosted());
  }

  lemma ToCollectorWaits()
    ensures Leads(JobPosted(), Call(Action.Start(0, 0.0)), CollectorWaits())
  {
    hide Stored, Created, Submitted, Marked, Runs, Fails, Saves, Ends, Unlinked, Forgotten, Swept;
    AlikeIsSame(After(Tiny(), JobPosted(), Call(Action.Start(0, 0.0))), CollectorWaits());
  }

  lemma ToCollectorFails()
    ensures Leads(CollectorWaits(), Call(Abort(0, 0.0, "")), CollectorFails())
  {
    hide Stored, Created, Submitted, Marked, Runs, Fails, Saves, Ends, Unlinked, Forgotten, Swept;
    AlikeIsSame(After(Tiny(), CollectorWaits(), Call(Abort(0, 0.0, ""))), CollectorFails());
  }

  lemma ToWorkerFreed()
    ensures Leads(CollectorFails(), Call(Release(0)), WorkerFreed())
  {
    hide Stored, Created, Submitted, Marked, Runs, Fails, Saves, Ends, Unlinked, Forgotten, Swept;
    AlikeIsSame(After(Tiny(), CollectorFails(), Call(Release(0))), WorkerFreed());
  }

  lemma ToJobMarkedRunning()
    ensures Leads(WorkerFreed(), CallbackRuns(0), JobMarkedRunning())
  {
    hide Apply, Enabled, Created, Submitted, Marked, Unlinked, Forgotten, Swept;
    AlikeIsSame(After(Tiny(), WorkerFreed(), CallbackRuns(0)), JobMarkedRunning());
  }

  lemma ToSaveRaised()
    ensures Leads(JobMarkedRunning(), SaveRaises(0), SaveRaised())
  {
    hide Apply, Enabled, Created, Submitted, Marked, Unlinked, Forgotten, Swept;
    AlikeIsSame(After(Tiny(), JobMarkedRunning(), SaveRaises(0)), SaveRaised());
  }

  /** A reachable state at rest whose only job is RUNNING: its error was the empty string. */
  lemma EmptyErrorStaysRunning() returns (r: seq<System>)
    ensures SysRun(Tiny(), r)
    ensures var s := r[|r| - 1];
            && IsJob(s, 0) && s.a.reqs[0].phase.Crashed? && s.a.reqs[0].phase.outcome == NOTHING
            && 0 in s.jobs && s.jobs[0].status == RUNNING && Quiet(s)
  {
    StartsEmpty();
    r := [AtStart()];
    hide SysRun, Leads;
    ToRequested();
    r := Extend(r, Event.Post([SPEC]), Requested());
    ToJobCreated();
    r := Extend(r, Create(0), JobCreated());
    ToJobQueued();
    r := Extend(r, Submit(0), JobQueued());
    ToJobInHand();
    r := Extend(r, Call(DrainGet), JobInHand());
    ToIdleWorkerFound();
    r := Extend(r, Call(DrainCheck), IdleWorkerFound());
    ToWorkerTaken();
    r := Extend(r, Call(DrainPick(0.0)), WorkerTaken());
    r := CrashesFrom(r);
  }

  lemma CrashesFrom(r0: seq<System>) returns (r: seq<System>)
    requires SysRun(Tiny(), r0) && r0[|r0| - 1] == WorkerTaken()
    ensures SysRun(Tiny(), r) && r[|r| - 1] == SaveRaised()
  {
    hide SysRun, Leads, WorkerTaken, SaveRaised;
    r := r0;
    ToJobPosted();
    r := Extend(r, Call(Action.Post(0)), JobPosted());
    ToCollectorWaits();
    r := Extend(r, Call(Action.Start(0, 0.0)), CollectorWaits());
    ToCollectorFails();
    r := Extend(r, Call(Abort(0, 0.0, "")), CollectorFails());
    ToWorkerFreed();
    r := Extend(r, Call(Release(0)), WorkerFreed());
    ToJobMarkedRunning();
    r := Extend(r, CallbackRuns(0), JobMarkedRunning());
    ToSaveRaised();
    r := Extend(r, SaveRaises(0), SaveRaised());
  }
}
