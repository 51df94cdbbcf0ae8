/** Concrete runs: a batch overflow that goes FAILED, RUNNING, DONE, and a lopsided pool. */
module Witnesses {
  import opened Common
  import opened Messages
  import opened Pool
  import opened Ledgers
  import opened Scheduling
  import opened Jobs
  import opened Lifecycle
  import opened LifecycleSafety
  import opened LifecycleTheorems

  const SPEC := Spec(Job, Speech("hello", "en", Voice([], []),
      Params(0.75, 1.0, 10.0, 50, 0.85, true, 1, 1.0, false)), Wav, "alice")
  const WORKER := Slot("gpu0-w0", 0, 0, 0, 0.0, map[])

  /** One worker and a queue of one. */
  ghost function Tiny(): Setup {
    Setup(Config(Model((p, s) => true, (p, cs) => true, (p, cs) => true, (p, v) => true), 1, [WORKER]),
          (s, f) => [], 300.0, 0.0)
  }

  const REC := New("hello", "en", "alice", 0.0)
  const FAILED_REC := REC.(status := FAILED, finishedAt := Some(0.0), error := Some(QUEUE_FULL))
  const RUNNING_REC := FAILED_REC.(status := RUNNING, startedAt := Some(0.0), workerId := "gpu0-w0", gpu := 0)
  const DONE_REC := RUNNING_REC.(status := DONE, audioPath := Some(Path(0, Wav)))
  const REPLY := Result(0, Some([]), None)
  const BUSY := WORKER.(active := 1, jobs := map[0 := 0.0])

  function Item(phase: Phase): Entry {
    Entry(SPEC, phase, Unposted, [], [], [])
  }

  /** The scheduler with item 0 as given and item 1 refused. */
  function Pair(drain: Drain, slot: Slot, inbox: seq<JobId>, current: Option<JobId>, e: Entry): Sched {
    Sched([], drain, [slot], [inbox], [current], [e, Item(Refused)], [0], if e.phase.Waiting? then [] else [0],
          [if e.phase.Waiting? then [] else [0]])
  }

  function Shot(a: Sched, jobs: Table, lives: seq<Life>, hd: Handler): System {
    System(a, jobs, map[], lives, [hd], [], {}, 0.0, 0.0)
  }

  function Overflow(a: Sched): System {
    Shot(a, map[0 := FAILED_REC, 1 := FAILED_REC],
         [Life(0, 0, [PENDING, FAILED], []), Life(0, 1, [PENDING, FAILED], [])],
         Handler([SPEC, SPEC], [0, 1], Rejected))
  }

  function Resumed(a: Sched): System {
    Shot(a, map[0 := RUNNING_REC, 1 := FAILED_REC],
         [Life(0, 0, [PENDING, FAILED, RUNNING], []), Life(0, 1, [PENDING, FAILED], [])],
         Handler([SPEC, SPEC], [0, 1], Rejected))
  }

  const ITEMS := [SPEC, SPEC]
  const POSTED := Entry(SPEC, Spawned(0), Posted(0), [], [], [])
  const REPLIED := Entry(SPEC, Consuming(0, 0.0), Serving(0, []), [REPLY], [REPLY], [])
  const TAKEN := REPLIED.(mail := [], read := [REPLY])
  const TOLD := WORKER.(total := 1)

  // A batch of two meets a queue of one and a single idle worker.

  function AtStart(): System {
    System(Sched([], Get, [WORKER], [[]], [None], [], [], [], [[]]), map[], map[], [], [], [], {}, 0.0, 0.0)
  }

  function Received(): System {
    Shot(Sched([], Get, [WORKER], [[]], [None], [], [], [], [[]]), map[], [], Handler(ITEMS, [], Creating))
  }

  function FirstCreated(): System {
    Shot(Sched([], Get, [WORKER], [[]], [None], [Item(Fresh)], [], [], [[]]),
         map[0 := REC],
         [Life(0, 0, [PENDING], [])],
         Handler(ITEMS, [0], Submitting))
  }

  function FirstQueued(): System {
    Shot(Sched([0], Get, [WORKER], [[]], [None], [Item(Waiting)], [0], [], [[]]),
         map[0 := REC],
         [Life(0, 0, [PENDING], [])],
         Handler(ITEMS, [0], Creating))
  }

  function SecondCreated(): System {
    Shot(Sched([0], Get, [WORKER], [[]], [None], [Item(Waiting), Item(Fresh)], [0], [], [[]]),
         map[0 := REC, 1 := REC],
         [Life(0, 0, [PENDING], []), Life(0, 1, [PENDING], [])],
         Handler(ITEMS, [0, 1], Submitting))
  }

  function SecondRefused(): System {
    Shot(Sched([0], Get, [WORKER], [[]], [None], [Item(Waiting), Item(Refused)], [0], [], [[]]),
         map[0 := REC, 1 := REC],
         [Life(0, 0, [PENDING], []), Life(0, 1, [PENDING], [])],
         Handler(ITEMS, [0, 1], Marking(0)))
  }

  function FirstMarked(): System {
    Shot(Sched([0], Get, [WORKER], [[]], [None], [Item(Waiting), Item(Refused)], [0], [], [[]]),
         map[0 := FAILED_REC, 1 := REC],
         [Life(0, 0, [PENDING, FAILED], []), Life(0, 1, [PENDING], [])],
         Handler(ITEMS, [0, 1], Marking(1)))
  }

  function BothMarked(): System {
    Overflow(Sched([0], Get, [WORKER], [[]], [None], [Item(Waiting), Item(Refused)], [0], [], [[]]))
  }

  function InHand(): System {
    Overflow(Pair(Check(0), WORKER, [], None, Item(Waiting)))
  }

  function WorkerFound(): System {
    Overflow(Pair(Pick(0), WORKER, [], None, Item(Waiting)))
  }

  function SlotTaken(): System {
    Overflow(Pair(Put(0, 0), BUSY, [], None, Item(Slotted(0))))
  }

  function RequestPosted(): System {
    Overflow(Pair(Get, BUSY, [0], None, POSTED))
  }

  function CollectorStarted(): System {
    Overflow(Pair(Get, BUSY, [0], None, POSTED.(phase := Consuming(0, 0.0))))
  }

  function WorkerServing(): System {
    Overflow(Pair(Get, BUSY, [], Some(0), REPLIED.(work := Serving(0, [REPLY]), mail := [])))
  }

  function AnswerPut(): System {
    Overflow(Pair(Get, BUSY, [], Some(0), REPLIED))
  }

  function AnswerTaken(): System {
    Overflow(Pair(Get, BUSY, [], Some(0), TAKEN.(phase := Closing(0, REPLY, 0.0))))
  }

  function SlotGivenBack(): System {
    Overflow(Pair(Get, TOLD, [], Some(0), TAKEN.(phase := Released(0, REPLY, 0.0))))
  }

  function RunningAgain(): System {
    Resumed(Pair(Get, TOLD, [], Some(0), TAKEN.(phase := Running(0, REPLY, 0.0))))
  }

  function FileWritten(): System {
    Resumed(Pair(Get, TOLD, [], Some(0), TAKEN.(phase := Saved(0, REPLY, 0.0)))).(files := map[Path(0, Wav) := []])
  }

  function DoneAfterAll(): System {
    Shot(Pair(Get, TOLD, [], Some(0), TAKEN.(phase := Finished(0, REPLY, 0.0))),
         map[0 := DONE_REC, 1 := FAILED_REC],
         [Life(0, 0, [PENDING, FAILED, RUNNING, DONE], [Some(Path(0, Wav))]), Life(0, 1, [PENDING, FAILED], [])],
         Handler(ITEMS, [0, 1], Rejected)).(files := map[Path(0, Wav) := []])
  }

  ghost predicate Leads(s: System, e: Event, t: System) {
    Allowed(Tiny(), s, e) && After(Tiny(), s, e) == t
  }

  ghost predicate AlikeEntry(e: Entry, f: Entry) {
    && e.spec == f.spec && e.phase == f.phase && e.script == f.script && e.mail == f.mail && e.read == f.read
    && (e.work == f.work || (e.work.Serving? && f.work.Serving? && e.work.w == f.work.w && e.work.rest == f.work.rest))
  }

  ghost predicate AlikeSched(a: Sched, b: Sched) {
    && a.queue == b.queue && a.drain == b.drain && a.current == b.current
    && a.accepted == b.accepted && a.drained == b.drained
    && |a.pool| == |b.pool| == 1 && a.pool[0].jobs == b.pool[0].jobs
         && a.pool[0].(jobs := map[]) == b.pool[0].(jobs := map[])
    && |a.inbox| == |b.inbox| == 1 && a.inbox[0] == b.inbox[0]
    && |a.log| == |b.log| == 1 && a.log[0] == b.log[0]
    && |a.reqs| == |b.reqs| && (forall i :: 0 <= i < |a.reqs| ==> AlikeEntry(a.reqs[i], b.reqs[i]))
  }

  ghost predicate AlikeLife(l: Life, m: Life) {
    l.handler == m.handler && l.index == m.index && l.trace == m.trace && l.paths == m.paths
  }

  ghost predicate Alike(s: System, t: System) {
    && AlikeSched(s.a, t.a)
    && s.jobs == t.jobs && s.files == t.files && s.downloads == t.downloads && s.undeleted == t.undeleted
    && s.now == t.now && s.swept == t.swept
    && |s.life| == |t.life| && (forall i :: 0 <= i < |s.life| ==> AlikeLife(s.life[i], t.life[i]))
    && |s.handlers| == |t.handlers| == 1 && s.handlers[0].items == t.handlers[0].items
         && s.handlers[0].ids == t.handlers[0].ids
    && s.handlers[0].stage == t.handlers[0].stage
  }

  lemma AlikeIsSame(s: System, t: System)
    requires Alike(s, t)
    ensures s == t
  {
    assert s.a.pool == t.a.pool && s.a.inbox == t.a.inbox && s.a.log == t.a.log && s.a.reqs == t.a.reqs;
    assert s.life == t.life && s.handlers == t.handlers;
  }

  lemma ToReceived()
    ensures Leads(AtStart(), Event.Post([SPEC, SPEC]), Received())
  {
    AlikeIsSame(After(Tiny(), AtStart(), Event.Post([SPEC, SPEC])), Received());
  }

  lemma ToFirstCreated()
    ensures Leads(Received(), Create(0), FirstCreated())
  {
    AlikeIsSame(After(Tiny(), Received(), Create(0)), FirstCreated());
  }

  lemma ToFirstQueued()
    ensures Leads(FirstCreated(), Submit(0), FirstQueued())
  {
    AlikeIsSame(After(Tiny(), FirstCreated(), Submit(0)), FirstQueued());
  }

  lemma ToSecondCreated()
    ensures Leads(FirstQueued(), Create(0), SecondCreated())
  {
    AlikeIsSame(After(Tiny(), FirstQueued(), Create(0)), SecondCreated());
  }

  lemma ToSecondRefused()
    ensures Leads(SecondCreated(), Submit(0), SecondRefused())
  {
    AlikeIsSame(After(Tiny(), SecondCreated(), Submit(0)), SecondRefused());
  }

  lemma ToFirstMarked()
    ensures Leads(SecondRefused(), Mark(0), FirstMarked())
  {
    AlikeIsSame(After(Tiny(), SecondRefused(), Mark(0)), FirstMarked());
  }

  lemma ToBothMarked()
    ensures Leads(FirstMarked(), Mark(0), BothMarked())
  {
    AlikeIsSame(After(Tiny(), FirstMarked(), Mark(0)), BothMarked());
  }

  lemma ToInHand()
    ensures Leads(BothMarked(), Call(DrainGet), InHand())
  {
    hide Stored, Created, Submitted, Marked, Runs, Fails, Saves, Ends, Unlinked, Forgotten, Swept;
    AlikeIsSame(After(Tiny(), BothMarked(), Call(DrainGet)), InHand());
  }

  lemma ToWorkerFound()
    ensures Leads(InHand(), Call(DrainCheck), WorkerFound())
  {
    hide Stored, Created, Submitted, Marked, Runs, Fails, Saves, Ends, Unlinked, Forgotten, Swept;
    assert InHand().a.pool[0].active == 0;
    AlikeIsSame(After(Tiny(), InHand(), Call(DrainCheck)), WorkerFound());
  }

  lemma ToSlotTaken()
    ensures Leads(WorkerFound(), Call(DrainPick(0.0)), SlotTaken())
  {
    hide Stored, Created, Submitted, Marked, Runs, Fails, Saves, Ends, Unlinked, Forgotten, Swept;
    AlikeIsSame(After(Tiny(), WorkerFound(), Call(DrainPick(0.0))), SlotTaken());
  }

  lemma ToRequestPosted()
    ensures Leads(SlotTaken(), Call(Action.Post(0)), RequestPosted())
  {
    hide Stored, Created, Submitted, Marked, Runs, Fails, Saves, Ends, Unlinked, Forgotten, Swept;
    AlikeIsSame(After(Tiny(), SlotTaken(), Call(Action.Post(0))), RequestPosted());
  }

  lemma ToCollectorStarted()
    ensures Leads(RequestPosted(), Call(Action.Start(0, 0.0)), CollectorStarted())
  {
    hide Stored, Created, Submitted, Marked, Runs, Fails, Saves, Ends, Unlinked, Forgotten, Swept;
    AlikeIsSame(After(Tiny(), RequestPosted(), Call(Action.Start(0, 0.0))), CollectorStarted());
  }

  lemma ToWorkerServing()
    ensures Leads(CollectorStarted(), Call(Serve(0, [REPLY])), WorkerServing())
  {
    hide Stored, Created, Submitted, Marked, Runs, Fails, Saves, Ends, Unlinked, Forgotten, Swept;
    AlikeIsSame(After(Tiny(), CollectorStarted(), Call(Serve(0, [REPLY]))), WorkerServing());
  }

  lemma ToAnswerPutAllowed()
    ensures Allowed(Tiny(), WorkerServing(), Call(Emit(0)))
  {
    hide Apply;
  }

  lemma ToAnswerPutScheduler()
    requires Allowed(Tiny(), WorkerServing(), Call(Emit(0)))
    ensures AlikeSched(Apply(Tiny().c, WorkerServing().a, Emit(0)), AnswerPut().a)
  {
    hide Called, After;
  }

  lemma ToAnswerPut()
    ensures Leads(WorkerServing(), Call(Emit(0)), AnswerPut())
  {
    ToAnswerPutAllowed();
    ToAnswerPutScheduler();
    hide Allowed, Enabled, Apply, AlikeSched, Created, Submitted, Marked, Runs, Fails, Saves, Ends, Unlinked, Forgotten,
      Swept;
    AlikeIsSame(After(Tiny(), WorkerServing(), Call(Emit(0))), AnswerPut());
  }

  lemma ToAnswerTakenAllowed()
    ensures Allowed(Tiny(), AnswerPut(), Call(Receive(0, 0.0)))
  {
    hide After, Apply;
    assert AnswerPut().a.reqs[0].mail == [REPLY];
  }

  lemma ToAnswerTaken()
    ensures Leads(AnswerPut(), Call(Receive(0, 0.0)), AnswerTaken())
  {
    ToAnswerTakenAllowed();
    hide Allowed, Enabled, Stored, Created, Submitted, Marked, Runs, Fails, Saves, Ends, Unlinked, Forgotten, Swept;
    assert AnswerPut().a.reqs[0].mail[0] == REPLY;
    AlikeIsSame(After(Tiny(), AnswerPut(), Call(Receive(0, 0.0))), AnswerTaken());
  }

  lemma ToSlotGivenBackAllowed()
    ensures Allowed(Tiny(), AnswerTaken(), Call(Release(0)))
  {
    hide After, Apply;
  }

  lemma ToSlotGivenBack()
    ensures Leads(AnswerTaken(), Call(Release(0)), SlotGivenBack())
  {
    ToSlotGivenBackAllowed();
    hide Allowed, Enabled, Stored, Created, Submitted, Marked, Runs, Fails, Saves, Ends, Unlinked, Forgotten, Swept;
    AlikeIsSame(After(Tiny(), AnswerTaken(), Call(Release(0))), SlotGivenBack());
  }

  lemma ToRunningAgain()
    ensures Leads(SlotGivenBack(), CallbackRuns(0), RunningAgain())
  {
    hide Apply, Enabled, Created, Submitted, Marked, Unlinked, Forgotten, Swept;
    AlikeIsSame(After(Tiny(), SlotGivenBack(), CallbackRuns(0)), RunningAgain());
  }

  lemma ToFileWritten()
    ensures Leads(RunningAgain(), CallbackSaves(0), FileWritten())
  {
    hide Apply, Enabled, Created, Submitted, Marked, Unlinked, Forgotten, Swept;
    AlikeIsSame(After(Tiny(), RunningAgain(), CallbackSaves(0)), FileWritten());
  }

  lemma ToDoneAfterAllAllowed()
    ensures Allowed(Tiny(), FileWritten(), CallbackEnds(0))
  {
    hide Apply, Enabled;
  }

  lemma ToDoneAfterAllScheduler()
    ensures AlikeSched(Ends(FileWritten(), 0).a, DoneAfterAll().a)
  {
    hide MarkDone;
  }

  lemma ToDoneAfterAll()
    ensures Leads(FileWritten(), CallbackEnds(0), DoneAfterAll())
  {
    ToDoneAfterAllAllowed();
    ToDoneAfterAllScheduler();
    hide Allowed, Apply, Enabled, AlikeSched, Created, Submitted, Marked, Runs, Fails, Saves, Unlinked, Forgotten,
      Swept;
    var s := FileWritten();
    assert After(Tiny(), s, CallbackEnds(0)) == Ends(s, 0);
    AlikeIsSame(Ends(s, 0), DoneAfterAll());
  }

  lemma Extend(r: seq<System>, e: Event, t: System) returns (r': seq<System>)
    requires SysRun(Tiny(), r) && Leads(r[|r| - 1], e, t)
    ensures SysRun(Tiny(), r') && r' == r + [t]
  {
    hide Allowed, After, Lifecycle.Start;
    r' := r + [t];
    forall i | 0 <= i < |r'| - 1
      ensures SysNext(Tiny(), r'[i], r'[i + 1])
    {
      if i < |r| - 1 {
        assert SysNext(Tiny(), r[i], r[i + 1]);
      }
    }
  }

  lemma StartsEmpty()
    ensures SysRun(Tiny(), [AtStart()])
  {
    var a := AtStart().a;
    assert a.inbox == seq(1, _ => []) && a.log == seq(1, _ => []);
    assert a.current == seq(1, _ => None);
  }

  /**
   A reachable run in which an enqueued item of an overflowed batch is marked FAILED,
   then RUNNING, then DONE, and its DONE record keeps the overflow error.
   */
  lemma OverflowedItemRevives() returns (r: seq<System>)
    ensures SysRun(Tiny(), r)
    ensures var s := r[|r| - 1];
            && Stray(s, 0) && s.life[0].trace == [PENDING, FAILED, RUNNING, DONE]
            && 0 in s.jobs && s.jobs[0].status == DONE && s.jobs[0].error == Some(QUEUE_FULL)
  {
    StartsEmpty();
    r := [AtStart()];
    hide SysRun, Leads;
    ToReceived();
    r := Extend(r, Event.Post([SPEC, SPEC]), Received());
    ToFirstCreated();
    r := Extend(r, Create(0), FirstCreated());
    ToFirstQueued();
    r := Extend(r, Submit(0), FirstQueued());
    ToSecondCreated();
    r := Extend(r, Create(0), SecondCreated());
    ToSecondRefused();
    r := Extend(r, Submit(0), SecondRefused());
    ToFirstMarked();
    r := Extend(r, Mark(0), FirstMarked());
    ToBothMarked();
    r := Extend(r, Mark(0), BothMarked());
    r := RevivesFrom(r);
  }

  /** The second half of that run, from the overflow on. */
  lemma RevivesFrom(r0: seq<System>) returns (r: seq<System>)
    requires SysRun(Tiny(), r0) && r0[|r0| - 1] == BothMarked()
    ensures SysRun(Tiny(), r) && r[|r| - 1] == DoneAfterAll()
  {
    hide SysRun, Leads, BothMarked, DoneAfterAll;
    r := r0;
    ToInHand();
    r := Extend(r, Call(DrainGet), InHand());
    ToWorkerFound();
    r := Extend(r, Call(DrainCheck), WorkerFound());
    ToSlotTaken();
    r := Extend(r, Call(DrainPick(0.0)), SlotTaken());
    ToRequestPosted();
    r := Extend(r, Call(Action.Post(0)), RequestPosted());
    ToCollectorStarted();
    r := Extend(r, Call(Action.Start(0, 0.0)), CollectorStarted());
    ToWorkerServing();
    r := Extend(r, Call(Serve(0, [REPLY])), WorkerServing());
    ToAnswerPut();
    r := Extend(r, Call(Emit(0)), AnswerPut());
    ToAnswerTaken();
    r := Extend(r, Call(Receive(0, 0.0)), AnswerTaken());
    ToSlotGivenBack();
    r := Extend(r, Call(Release(0)), SlotGivenBack());
    ToRunningAgain();
    r := Extend(r, CallbackRuns(0), RunningAgain());
    ToFileWritten();
    r := Extend(r, CallbackSaves(0), FileWritten());
    ToDoneAfterAll();
    r := Extend(r, CallbackEnds(0), DoneAfterAll());
  }

  // ------------------------------------------------------------------
  // WORKERS_PER_GPU="3,1"
  // ------------------------------------------------------------------

  function Idle(gpu: nat): Slot {
    Slot("", gpu, 0, 0, 0.0, map[])
  }

  /** Three workers on GPU 0 and one on GPU 1. */
  const LOPSIDED := [Idle(0), Idle(0), Idle(0), Idle(1)]

  lemma LoadsOf(ws: seq<Slot>)
    requires |ws| == 4 && ws[0].gpu == ws[1].gpu == ws[2].gpu == 0 && ws[3].gpu == 1
    ensures GpuLoad(ws, 0) == ws[0].active + ws[1].active + ws[2].active && GpuLoad(ws, 1) == ws[3].active
  {
    var three := ws[..3];
    var two := three[..2];
    var one := two[..1];
    assert ws[..|ws| - 1] == three && three[..|three| - 1] == two && two[..|two| - 1] == one && one[..|one| - 1] == [];
    assert GpuLoad(one, 0) == ws[0].active && GpuLoad(two, 0) == ws[0].active + ws[1].active;
    assert GpuLoad(three, 0) == ws[0].active + ws[1].active + ws[2].active;
    assert GpuLoad(one, 1) == 0;
    assert GpuLoad(two, 1) == 0;
    assert GpuLoad(three, 1) == 0;
  }

  /** Three dispatches into the empty pool leave worker 2 idle, and the fourth still goes to busy worker 3. */
  lemma LopsidedBurst(t: real)
    ensures var before := AfterBurst(LOPSIDED, [0, 1, 2], t);
            && !AllBusy(before) && PickIndex(before) == 3 && before[3].active == 1
            && before[2].active == 0
  {
    var a := AfterBurst(LOPSIDED, [], t);
    LopsidedPick(a, 0);
    var b := Acquire(a, 0, 0, t);
    assert [0][..0] == [] && AfterBurst(LOPSIDED, [0], t) == b;
    LopsidedPick(b, 3);
    var d := Acquire(b, 3, 1, t);
    assert [0, 1][..1] == [0] && AfterBurst(LOPSIDED, [0, 1], t) == d;
    LopsidedPick(d, 1);
    var e := Acquire(d, 1, 2, t);
    assert [0, 1, 2][..2] == [0, 1] && AfterBurst(LOPSIDED, [0, 1, 2], t) == e;
    LopsidedPick(e, 3);
  }

  lemma LopsidedPick(ws: seq<Slot>, k: nat)
    requires |ws| == 4 && ws[0].gpu == ws[1].gpu == ws[2].gpu == 0 && ws[3].gpu == 1 && k < 4
    requires var x, y := ws[0].active + ws[1].active + ws[2].active, ws[3].active;
             if k == 3 then y < x || (x == y && y < ws[0].active && y < ws[1].active && y < ws[2].active)
             else (x < y || (x == y && ws[k].active <= y))
                  && (forall j :: 0 <= j < 3 ==> ws[k].active <= ws[j].active)
                  && (forall j :: 0 <= j < k ==> ws[k].active < ws[j].active)
    ensures PickIndex(ws) == k
  {
    LoadsOf(ws);
    PickUnique(ws, k);
  }
}
