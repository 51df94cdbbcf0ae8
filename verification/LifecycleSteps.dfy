/** Every event of the job lifecycle preserves its invariant. */
module LifecycleSteps {
  import opened Common
  import opened Messages
  import opened Pool
  import opened Ledgers
  import opened Scheduling
  import opened SchedulingSafety
  import opened Jobs
  import opened Lifecycle
  import opened LifecycleSafety

  // ------------------------------------------------------------------
  // Frames
  // ------------------------------------------------------------------

  /** The handlers only ask in which of three stages a job's request is. */
  ghost predicate SameStanding(s: System, s': System, j: JobId)
    requires j < |s.a.reqs| && j < |s'.a.reqs|
  {
    && s'.a.reqs[j].spec == s.a.reqs[j].spec
    && s'.a.reqs[j].phase.Fresh? == s.a.reqs[j].phase.Fresh?
    && s'.a.reqs[j].phase.Refused? == s.a.reqs[j].phase.Refused?
  }

  ghost predicate SamePost(s: System, s': System, j: JobId)
    requires j < |s.life| && j < |s'.life|
  {
    s'.life[j].handler == s.life[j].handler && s'.life[j].index == s.life[j].index
  }

  lemma HandlersFrame(s: System, s': System)
    requires Handlers(s) && |s.life| == |s.a.reqs|
    requires s'.handlers == s.handlers && |s.life| <= |s'.life| && |s'.life| == |s'.a.reqs|
    requires forall j :: 0 <= j < |s.life| ==> SamePost(s, s', j)
    requires forall j :: 0 <= j < |s.life| && s.a.reqs[j].spec.kind == Job ==> SameStanding(s, s', j)
    requires forall j :: 0 <= j < |s.life| ==> s'.a.reqs[j].spec == s.a.reqs[j].spec
    requires forall j :: |s.life| <= j < |s'.life| ==> s'.a.reqs[j].spec.kind != Job
    ensures Handlers(s')
  {
    forall h | 0 <= h < |s'.handlers|
      ensures HandlerOk(s', h)
    {
      HandlerFrame(s, s', h);
    }
    forall id | 0 <= id < |s'.life| && s'.a.reqs[id].spec.kind == Job
      ensures Employed(s', id)
    {
      assert SamePost(s, s', id);
      assert Employed(s, id);
    }
  }

  lemma HandlerFrame(s: System, s': System, h: nat)
    requires h < |s.handlers| && h < |s'.handlers| && HandlerOk(s, h) && s'.handlers[h] == s.handlers[h]
    requires |s.life| == |s.a.reqs| && |s.life| <= |s'.life| && |s'.life| == |s'.a.reqs|
    requires forall j :: 0 <= j < |s.life| && s.life[j].handler == h ==> SamePost(s, s', j)
    requires forall j :: 0 <= j < |s.life| && s.life[j].handler == h && s.a.reqs[j].spec.kind == Job ==>
        SameStanding(s, s', j)
    ensures HandlerOk(s', h)
  {
    var hd := s.handlers[h];
    forall i | 0 <= i < |hd.ids|
      ensures OwnItem(s', h, i)
      ensures SameStanding(s, s', hd.ids[i])
    {
      assert OwnItem(s, h, i);
      assert hd.items[i] in hd.items;
      assert SamePost(s, s', hd.ids[i]);
      assert SameStanding(s, s', hd.ids[i]);
    }
    if hd.ids != [] {
      assert SameStanding(s, s', hd.ids[|hd.ids| - 1]);
    }
  }

  // ------------------------------------------------------------------
  // Scheduling actions
  // ------------------------------------------------------------------

  /** How one scheduling action at time `now` may move a request, up to the callback. */
  ghost predicate Moves(kind: Kind, p: Phase, p': Phase, now: real) {
    || p' == p
    || (p.Waiting? && p'.Slotted?)
    || (p.Slotted? && p'.Spawned?)
    || (p.Spawned? && p'.Consuming? && p'.t0 == now)
    || (p.Consuming? && p'.Closing? && p'.ms == (now - p.t0) * 1000.0)
    || (p.Closing? && p'.Released? && p'.ms == p.ms && p'.outcome == p.outcome)
    || kind != Job
  }

  lemma CallMoves(k: Setup, s: System, act: Action, j: JobId)
    requires SysInv(k, s) && Allowed(k, s, Call(act)) && j < |s.a.reqs|
    ensures var a' := Apply(k.c, s.a, act);
            && j < |a'.reqs| && a'.reqs[j].spec == s.a.reqs[j].spec
            && Moves(s.a.reqs[j].spec.kind, s.a.reqs[j].phase, a'.reqs[j].phase, s.now)
            && |a'.reqs| == |s.a.reqs| + if act.Arrive? then 1 else 0
  {
    hide BooksInOrder, DesksInOrder, OwnMail, AllBusy, LineInOrder, IsPick, Handlers, Views, Known;
    if act.DrainPick? {
      HeldWaits(k.c, s.a);
    }
  }

  lemma CallView(k: Setup, s: System, act: Action, j: JobId)
    requires SysInv(k, s) && Allowed(k, s, Call(act)) && j < |s.life|
    ensures var s' := Called(k, s, act);
            j < |s'.a.reqs| && ViewOk(k, ViewOf(s', j), j, s'.now, s'.swept)
  {
    hide Inv, Handlers, Enabled, Plain, Apply;
    CallMoves(k, s, act, j);
    assert ViewOk(k, ViewOf(s, j), j, s.now, s.swept);
    var s' := Called(k, s, act);
    MovedView(k, ViewOf(s, j), s'.a.reqs[j].phase, j, s.now, s.swept);
    assert ViewOf(s', j) == ViewOf(s, j).(phase := s'.a.reqs[j].phase);
  }

  lemma MovedView(k: Setup, v: View, p: Phase, id: JobId, now: real, swept: real)
    requires ViewOk(k, v, id, now, swept) && Moves(v.spec.kind, v.phase, p, now)
    ensures ViewOk(k, v.(phase := p), id, now, swept)
  {
  }

  lemma CallStep(k: Setup, s: System, act: Action)
    requires SysInv(k, s) && Allowed(k, s, Call(act))
    ensures SysInv(k, Called(k, s, act))
  {
    hide Inv, Handlers, Enabled, ViewOk, Moves, Apply;
    var s' := Called(k, s, act);
    StepInv(k.c, s.a, act);
    forall j | 0 <= j < |s.life|
      ensures j < |s'.a.reqs| && s'.a.reqs[j].spec == s.a.reqs[j].spec
      ensures ViewOk(k, ViewOf(s', j), j, s'.now, s'.swept)
    {
      CallMoves(k, s, act, j);
      CallView(k, s, act, j);
    }
    CallHandlers(k, s, act);
    if act.Arrive? {
      CallArrives(k, s, act);
    } else {
      CallCount(k, s, act);
    }
  }

  lemma CallCount(k: Setup, s: System, act: Action)
    requires SysInv(k, s) && Allowed(k, s, Call(act)) && !act.Arrive?
    ensures |Apply(k.c, s.a, act).reqs| == |s.a.reqs|
  {
    hide BooksInOrder, DesksInOrder, OwnMail, AllBusy, LineInOrder, IsPick, Handlers, Views, Known;
  }

  lemma CallArrives(k: Setup, s: System, act: Action)
    requires SysInv(k, s) && Allowed(k, s, Call(act)) && act.Arrive?
    ensures var s' := Called(k, s, act);
            && |s'.a.reqs| == |s.a.reqs| + 1 && |s'.life| == |s'.a.reqs|
            && ViewOk(k, ViewOf(s', |s.life|), |s.life|, s'.now, s'.swept)
  {
    hide Inv, Handlers, Views;
  }

  lemma CallHandlers(k: Setup, s: System, act: Action)
    requires SysInv(k, s) && Allowed(k, s, Call(act))
    ensures Handlers(Called(k, s, act))
  {
    hide Inv, Views, Handlers, Enabled, Apply, ViewOf, ViewOk;
    var s' := Called(k, s, act);
    forall j | 0 <= j < |s.life|
      ensures j < |s'.a.reqs| && s'.a.reqs[j].spec == s.a.reqs[j].spec && SamePost(s, s', j)
      ensures s.a.reqs[j].spec.kind == Job ==> SameStanding(s, s', j)
    {
      CallMoves(k, s, act, j);
    }
    if act.Arrive? {
      CallArrives(k, s, act);
      NewcomerKind(k, s, act);
    } else {
      CallCount(k, s, act);
    }
    HandlersFrame(s, s');
  }

  lemma NewcomerKind(k: Setup, s: System, act: Action)
    requires SysInv(k, s) && Allowed(k, s, Call(act)) && act.Arrive?
    ensures Apply(k.c, s.a, act).reqs == s.a.reqs + [Entry(act.spec, Fresh, Unposted, [], [], [])]
    ensures act.spec.kind != Job
  {
    hide Inv, Handlers, Views;
  }

  // ------------------------------------------------------------------
  // Callbacks
  // ------------------------------------------------------------------

  /** At most the phase, the record, the history and the file of `id` differ. */
  ghost predicate OnlyJob(s: System, s': System, id: JobId) {
    && id < |s.life| && id < |s.a.reqs|
    && s'.handlers == s.handlers && s'.downloads == s.downloads && s'.undeleted == s.undeleted
    && s'.now == s.now && s'.swept == s.swept
    && |s'.a.reqs| == |s.a.reqs| && |s'.life| == |s.life|
    && s'.a.reqs[id].spec == s.a.reqs[id].spec && SamePost(s, s', id)
    && (forall j :: 0 <= j < |s.a.reqs| && j != id ==> s'.a.reqs[j] == s.a.reqs[j])
    && (forall j :: 0 <= j < |s.life| && j != id ==> s'.life[j] == s.life[j])
    && (forall j: JobId :: j != id ==> (j in s'.jobs <==> j in s.jobs) && (j in s.jobs ==> s'.jobs[j] == s.jobs[j]))
    && (forall p: Path :: p != PathOf(s, id) ==>
         (p in s'.files <==> p in s.files) && (p in s.files ==> s'.files[p] == s.files[p]))
  }

  lemma OneJobStep(k: Setup, s: System, s': System, id: JobId)
    requires SysInv(k, s) && Inv(k.c, s'.a) && OnlyJob(s, s', id) && SameStanding(s, s', id)
    requires ViewOk(k, ViewOf(s', id), id, s'.now, s'.swept)
    ensures SysInv(k, s')
  {
    hide Inv, ViewOk, Handlers;
    forall j | 0 <= j < |s'.life|
      ensures ViewOk(k, ViewOf(s', j), j, s'.now, s'.swept)
    {
      if j != id {
        assert ViewOf(s', j) == ViewOf(s, j);
      }
    }
    HandlersFrame(s, s');
    assert Known(s');
  }

  lemma AdvanceIsAction(k: Setup, s: System, id: JobId, p: Phase)
    requires SysInv(k, s) && Enabled(k.c, s.a, Advance(id, p))
    ensures Inv(k.c, SetReqPhase(s, id, p).a)
  {
    hide Inv;
    StepInv(k.c, s.a, Advance(id, p));
  }

  lemma RunsView(k: Setup, s: System, id: JobId)
    requires SysInv(k, s) && Allowed(k, s, CallbackRuns(id))
    ensures var s' := Runs(s, id);
            ViewOk(k, ViewOf(s', id), id, s'.now, s'.swept)
  {
    hide Inv, Handlers;
    assert ViewOk(k, ViewOf(s, id), id, s.now, s.swept);
  }

  lemma RunsStep(k: Setup, s: System, id: JobId)
    requires SysInv(k, s) && Allowed(k, s, CallbackRuns(id))
    ensures SysInv(k, Runs(s, id))
  {
    hide Inv, Handlers, HandlerOk, ViewOk, Views;
    var p := s.a.reqs[id].phase;
    AdvanceIsAction(k, s, id, Running(p.w, p.outcome, p.ms));
    RunsView(k, s, id);
    OneJobStep(k, s, Runs(s, id), id);
  }

  lemma FailsView(k: Setup, s: System, id: JobId)
    requires SysInv(k, s) && Allowed(k, s, CallbackFails(id))
    ensures var s' := Fails(s, id);
            ViewOk(k, ViewOf(s', id), id, s'.now, s'.swept)
  {
    hide Inv, Handlers;
    assert ViewOk(k, ViewOf(s, id), id, s.now, s.swept);
  }

  lemma FailsStep(k: Setup, s: System, id: JobId)
    requires SysInv(k, s) && Allowed(k, s, CallbackFails(id))
    ensures SysInv(k, Fails(s, id))
  {
    hide Inv, Handlers, HandlerOk, ViewOk, Views;
    var p := s.a.reqs[id].phase;
    AdvanceIsAction(k, s, id, Finished(p.w, p.outcome, p.ms));
    FailsView(k, s, id);
    OneJobStep(k, s, Fails(s, id), id);
  }

  lemma SavesView(k: Setup, s: System, id: JobId)
    requires SysInv(k, s) && Allowed(k, s, CallbackSaves(id))
    ensures var s' := Saves(k, s, id);
            ViewOk(k, ViewOf(s', id), id, s'.now, s'.swept)
  {
    hide Inv, Handlers;
    assert ViewOk(k, ViewOf(s, id), id, s.now, s.swept);
  }

  lemma SavesStep(k: Setup, s: System, id: JobId)
    requires SysInv(k, s) && Allowed(k, s, CallbackSaves(id))
    ensures SysInv(k, Saves(k, s, id))
  {
    hide Inv, Handlers, HandlerOk, ViewOk, Views;
    var p := s.a.reqs[id].phase;
    AdvanceIsAction(k, s, id, Saved(p.w, p.outcome, p.ms));
    SavesView(k, s, id);
    OneJobStep(k, s, Saves(k, s, id), id);
  }

  lemma RaisesView(k: Setup, s: System, id: JobId)
    requires SysInv(k, s) && Allowed(k, s, SaveRaises(id))
    ensures var s' := Raises(s, id);
            ViewOk(k, ViewOf(s', id), id, s'.now, s'.swept)
  {
    hide Inv, Handlers;
    assert ViewOk(k, ViewOf(s, id), id, s.now, s.swept);
  }

  lemma RaisesStep(k: Setup, s: System, id: JobId)
    requires SysInv(k, s) && Allowed(k, s, SaveRaises(id))
    ensures SysInv(k, Raises(s, id))
  {
    hide Inv, Handlers, HandlerOk, ViewOk, Views;
    var p := s.a.reqs[id].phase;
    AdvanceIsAction(k, s, id, Crashed(p.w, p.outcome, p.ms));
    RaisesView(k, s, id);
    OneJobStep(k, s, Raises(s, id), id);
  }

  /** The view of a job before and after its record is marked done. */
  lemma DoneView(k: Setup, v: View, id: JobId, now: real, swept: real)
    requires swept <= now && k.ttl >= 0.0
    requires ViewOk(k, v, id, now, swept) && v.spec.kind == Job && v.phase.Saved?
    ensures var path := Path(id, v.spec.format);
            var p := Finished(v.phase.w, v.phase.outcome, v.phase.ms);
            ViewOk(k, if v.job.None? then v.(phase := p) else
                        v.(phase := p,
                           job := Some(v.job.value.(status := DONE, finishedAt := Some(now), audioPath := Some(path))),
                           life := v.life.(trace := v.life.trace + [DONE], paths := v.life.paths + [Some(path)])),
                   id, now, swept)
  {
  }

  lemma EndsView(k: Setup, s: System, id: JobId)
    requires SysInv(k, s) && Allowed(k, s, CallbackEnds(id))
    ensures var s' := Ends(s, id);
            ViewOk(k, ViewOf(s', id), id, s'.now, s'.swept)
  {
    hide Inv, Handlers;
    var v := ViewOf(s, id);
    assert ViewOk(k, v, id, s.now, s.swept);
    SavedIsRunning(k, v, id, s.now, s.swept);
    DoneView(k, v, id, s.now, s.swept);
    hide ViewOk;
    var l := v.life;
    assert ViewOf(Ends(s, id), id) ==
      if v.job.None? then v.(phase := Finished(v.phase.w, v.phase.outcome, v.phase.ms)) else
        v.(phase := Finished(v.phase.w, v.phase.outcome, v.phase.ms),
           job := Some(v.job.value.(status := DONE, finishedAt := Some(s.now), audioPath := Some(PathOf(s, id)))),
           life := l.(trace := l.trace + [DONE], paths := l.paths + [Some(PathOf(s, id))]));
  }

  lemma SavedIsRunning(k: Setup, v: View, id: JobId, now: real, swept: real)
    requires ViewOk(k, v, id, now, swept) && v.spec.kind == Job && v.phase.Saved?
    ensures v.job.Some? ==> v.job.value.status != DONE && v.job.value.audioPath.None?
  {
  }

  lemma EndsStep(k: Setup, s: System, id: JobId)
    requires SysInv(k, s) && Allowed(k, s, CallbackEnds(id))
    ensures SysInv(k, Ends(s, id))
  {
    hide Inv, Handlers, HandlerOk, ViewOk, Views;
    var p := s.a.reqs[id].phase;
    AdvanceIsAction(k, s, id, Finished(p.w, p.outcome, p.ms));
    EndsView(k, s, id);
    OneJobStep(k, s, Ends(s, id), id);
  }

  // ------------------------------------------------------------------
  // Handlers
  // ------------------------------------------------------------------

  lemma PostedStep(k: Setup, s: System, items: seq<Spec>)
    requires SysInv(k, s) && Allowed(k, s, Event.Post(items))
    ensures SysInv(k, After(k, s, Event.Post(items)))
  {
    hide Inv, ViewOk;
    var s' := After(k, s, Event.Post(items));
    forall j | 0 <= j < |s.life|
      ensures ViewOf(s', j) == ViewOf(s, j)
    {
    }
    forall h | 0 <= h < |s.handlers|
      ensures HandlerOk(s', h)
    {
      HandlerFrame(s, s', h);
    }
    forall id | 0 <= id < |s'.life| && s'.a.reqs[id].spec.kind == Job
      ensures Employed(s', id)
    {
      assert Employed(s, id);
    }
  }

  lemma CreatedStep(k: Setup, s: System, h: nat)
    requires SysInv(k, s) && Allowed(k, s, Create(h))
    ensures SysInv(k, Created(k, s, h))
  {
    hide Inv, ViewOk, HandlerOk;
    var s' := Created(k, s, h);
    CreatedAction(k, s, h);
    CreatedHandlers(k, s, h);
    CreatedView(k, s, h);
    forall j | 0 <= j < |s.life|
      ensures ViewOf(s', j) == ViewOf(s, j)
    {
      CreatedOther(k, s, h, j);
    }
    CreatedKnown(k, s, h);
    hide Created, ViewOf, Known, Handlers;
  }

  lemma CreatedOther(k: Setup, s: System, h: nat, j: JobId)
    requires SysInv(k, s) && Allowed(k, s, Create(h)) && j < |s.life|
    ensures j < |Created(k, s, h).life| == |Created(k, s, h).a.reqs| && ViewOf(Created(k, s, h), j) == ViewOf(s, j)
  {
    hide Inv, ViewOk, HandlerOk;
  }

  lemma CreatedKnown(k: Setup, s: System, h: nat)
    requires SysInv(k, s) && Allowed(k, s, Create(h))
    ensures Known(Created(k, s, h))
  {
    hide Inv, Views, Handlers;
  }

  lemma CreatedAction(k: Setup, s: System, h: nat)
    requires SysInv(k, s) && Allowed(k, s, Create(h))
    ensures Inv(k.c, Created(k, s, h).a)
  {
    hide Inv;
    var hd := s.handlers[h];
    StepInv(k.c, s.a, Arrive(hd.items[|hd.ids|]));
  }

  lemma CreatedView(k: Setup, s: System, h: nat)
    requires SysInv(k, s) && Allowed(k, s, Create(h))
    ensures ViewOk(k, ViewOf(Created(k, s, h), |s.life|), |s.life|, s.now, s.swept)
  {
    hide Inv, Views;
    var hd := s.handlers[h];
    assert HandlerOk(s, h);
    assert hd.items[|hd.ids|] in hd.items;
  }

  /** One handler changes, and only its own requests change their standing. */
  lemma HandlersUpdate(s: System, s': System, h: nat)
    requires Handlers(s) && |s.life| == |s.a.reqs| && |s.life| <= |s'.life| && |s'.life| == |s'.a.reqs|
    requires h < |s.handlers| && |s'.handlers| == |s.handlers| && s'.handlers == s.handlers[h := s'.handlers[h]]
    requires s.handlers[h].ids <= s'.handlers[h].ids
    requires HandlerOk(s', h)
    requires forall j :: 0 <= j < |s.life| ==> SamePost(s, s', j) && s'.a.reqs[j].spec == s.a.reqs[j].spec
    requires forall j :: 0 <= j < |s.life| && s.life[j].handler != h ==> SameStanding(s, s', j)
    requires forall j :: |s.life| <= j < |s'.life| ==> s'.a.reqs[j].spec.kind == Job ==> Employed(s', j)
    ensures Handlers(s')
  {
    forall h' | 0 <= h' < |s.handlers| && h' != h
      ensures HandlerOk(s', h')
    {
      HandlerFrame(s, s', h');
    }
    hide HandlerOk;
    forall id | 0 <= id < |s'.life| && s'.a.reqs[id].spec.kind == Job
      ensures Employed(s', id)
    {
      if id < |s.life| {
        assert SamePost(s, s', id);
        assert Employed(s, id);
      }
    }
  }

  lemma CreatedHandler(k: Setup, s: System, h: nat)
    requires SysInv(k, s) && Allowed(k, s, Create(h))
    ensures HandlerOk(Created(k, s, h), h)
  {
    hide Inv, Views, ViewOk;
    var s' := Created(k, s, h);
    var hd := s.handlers[h];
    assert HandlerOk(s, h);
    forall i | 0 <= i < |hd.ids|
      ensures OwnItem(s', h, i) && Joined(s', hd.ids[i])
    {
      assert OwnItem(s, h, i);
      assert s'.handlers[h].ids[i] == hd.ids[i];
    }
    assert OwnItem(s', h, |hd.ids|);
  }

  lemma CreatedHandlers(k: Setup, s: System, h: nat)
    requires SysInv(k, s) && Allowed(k, s, Create(h))
    ensures Handlers(Created(k, s, h))
  {
    hide Inv, Views, ViewOk;
    CreatedHandler(k, s, h);
    hide HandlerOk, Handlers;
    HandlersUpdate(s, Created(k, s, h), h);
  }

  lemma SubmittedAction(k: Setup, s: System, h: nat)
    requires SysInv(k, s) && Allowed(k, s, Submit(h))
    ensures Inv(k.c, Submitted(k, s, h).a)
  {
    hide Inv, Handlers, Views;
    var id := s.handlers[h].ids[|s.handlers[h].ids| - 1];
    if Enabled(k.c, s.a, Enqueue(id)) {
      StepInv(k.c, s.a, Enqueue(id));
    } else {
      StepInv(k.c, s.a, Refuse(id));
    }
  }

  lemma SubmittedHandler(k: Setup, s: System, h: nat)
    requires SysInv(k, s) && Allowed(k, s, Submit(h))
    ensures HandlerOk(Submitted(k, s, h), h)
  {
    hide Inv, Views, ViewOk;
    var s' := Submitted(k, s, h);
    var hd := s.handlers[h];
    var last := |hd.ids| - 1;
    assert HandlerOk(s, h);
    assert OwnItem(s, h, last);
    forall i | 0 <= i < |hd.ids|
      ensures OwnItem(s', h, i)
      ensures i < last ==> Joined(s', hd.ids[i])
    {
      assert OwnItem(s, h, i);
    }
  }

  lemma LastOwnItem(k: Setup, s: System, h: nat)
    requires SysInv(k, s) && Allowed(k, s, Submit(h))
    ensures var id := s.handlers[h].ids[|s.handlers[h].ids| - 1];
            id < |s.life| && s.life[id].handler == h && s.life[id].index == |s.handlers[h].ids| - 1
  {
    hide Inv, Views, ViewOk;
    assert HandlerOk(s, h);
    assert OwnItem(s, h, |s.handlers[h].ids| - 1);
  }

  lemma SubmittedHandlers(k: Setup, s: System, h: nat)
    requires SysInv(k, s) && Allowed(k, s, Submit(h))
    ensures Handlers(Submitted(k, s, h))
  {
    hide Inv, Views, ViewOk, HandlerOk, Handlers;
    SubmittedHandler(k, s, h);
    LastOwnItem(k, s, h);
    HandlersUpdate(s, Submitted(k, s, h), h);
  }

  lemma SubmittedView(k: Setup, s: System, h: nat)
    requires SysInv(k, s) && Allowed(k, s, Submit(h))
    ensures var id := s.handlers[h].ids[|s.handlers[h].ids| - 1];
            id < |s.life| && ViewOk(k, ViewOf(Submitted(k, s, h), id), id, s.now, s.swept)
  {
    hide Inv, ViewOk;
    var last := |s.handlers[h].ids| - 1;
    var id := s.handlers[h].ids[last];
    assert HandlerOk(s, h);
    assert OwnItem(s, h, last);
    assert ViewOk(k, ViewOf(s, id), id, s.now, s.swept);
    SubmittedItem(k, s, h);
    hide Submitted, ViewOf, Handlers, HandlerOk;
    NoStrayYet(k, s, ViewOf(s, id), ViewOf(Submitted(k, s, h), id), id);
  }

  /** The item just submitted waits, or is refused and about to be marked. */
  lemma SubmittedItem(k: Setup, s: System, h: nat)
    requires Allowed(k, s, Submit(h)) && |s.life| == |s.a.reqs|
    requires var last := |s.handlers[h].ids| - 1; OwnItem(s, h, last)
    ensures var id := s.handlers[h].ids[|s.handlers[h].ids| - 1];
            var v, v' := ViewOf(s, id), ViewOf(Submitted(k, s, h), id);
            && v.phase.Fresh? && !v'.stray
            && (v' == v.(phase := Waiting, stray := v'.stray, marking := v'.marking)
                || v' == v.(phase := Refused, stray := v'.stray, marking := true))
  {
    var hd := s.handlers[h];
    var id := hd.ids[|hd.ids| - 1];
    var s' := Submitted(k, s, h);
    SubmittedParts(k, s, h);
    hide Submitted, Enabled, Apply;
    assert PathOf(s', id) == PathOf(s, id);
  }

  lemma SubmittedParts(k: Setup, s: System, h: nat)
    requires Allowed(k, s, Submit(h))
    ensures var hd, s' := s.handlers[h], Submitted(k, s, h);
            var id := hd.ids[|hd.ids| - 1];
            && s' == s.(a := s'.a, handlers := s'.handlers)
            && s.a.reqs[id].phase.Fresh? && s'.handlers == s.handlers[h := s'.handlers[h]]
            && ((s'.a.reqs == s.a.reqs[id := s.a.reqs[id].(phase := Waiting)]
                 && s'.handlers[h] == hd.(stage := if |hd.ids| < |hd.items| then Creating else Accepted))
                || (s'.a.reqs == s.a.reqs[id := s.a.reqs[id].(phase := Refused)]
                    && s'.handlers[h] == hd.(stage := Marking(0))))
  {
  }

  lemma NoStrayYet(k: Setup, s: System, v: View, v': View, id: JobId)
    requires ViewOk(k, v, id, s.now, s.swept) && v.phase.Fresh? && !v.stray && !v'.stray
    requires v' == v.(phase := Waiting, stray := v'.stray, marking := v'.marking)
             || v' == v.(phase := Refused, stray := v'.stray, marking := true)
    ensures ViewOk(k, v', id, s.now, s.swept)
  {
  }

  /** A request that is not the one a handler works on keeps its view, but for the batch overflowing. */
  lemma Bystander(k: Setup, s: System, s': System, h: nat, j: JobId)
    requires j < |s.a.reqs| && j < |s.life| && j < |s'.a.reqs| && j < |s'.life|
    requires ViewOk(k, ViewOf(s, j), j, s.now, s.swept)
    requires s'.a.reqs[j] == s.a.reqs[j] && s'.life[j] == s.life[j]
    requires (j in s'.jobs <==> j in s.jobs) && (j in s.jobs ==> s'.jobs[j] == s.jobs[j])
    requires s'.files == s.files && s'.downloads == s.downloads && s'.undeleted == s.undeleted
    requires h < |s.handlers| == |s'.handlers| && s'.handlers == s.handlers[h := s'.handlers[h]]
    requires s.a.reqs[j].spec.kind == Job && s.life[j].handler == h ==>
               || (s.life[j].index + 1 < |s'.handlers[h].ids| && s'.handlers[h].Overflowed())
               || (|s'.handlers[h].ids| == |s.handlers[h].ids|
                    && s'.handlers[h].Overflowed() == s.handlers[h].Overflowed()
                   && s'.handlers[h].stage.Marking? == s.handlers[h].stage.Marking?)
    ensures ViewOk(k, ViewOf(s', j), j, s.now, s.swept)
  {
  }

  lemma WhereEmployed(k: Setup, s: System, j: JobId)
    requires SysInv(k, s) && j < |s.life| && s.a.reqs[j].spec.kind == Job
    ensures Employed(s, j)
  {
    hide Inv, ViewOk, HandlerOk, Employed;
  }

  lemma SubmittedOther(k: Setup, s: System, h: nat, j: JobId)
    requires SysInv(k, s) && Allowed(k, s, Submit(h))
    requires j < |s.life| && j != s.handlers[h].ids[|s.handlers[h].ids| - 1]
    ensures var s' := Submitted(k, s, h);
            |s'.life| == |s'.a.reqs| == |s.life| && ViewOk(k, ViewOf(s', j), j, s'.now, s'.swept)
  {
    hide Inv, ViewOk, HandlerOk, Handlers, ViewOf;
    assert ViewOk(k, ViewOf(s, j), j, s.now, s.swept);
    if s.a.reqs[j].spec.kind == Job {
      WhereEmployed(k, s, j);
    }
    Bystander(k, s, Submitted(k, s, h), h, j);
  }

  lemma SubmittedStep(k: Setup, s: System, h: nat)
    requires SysInv(k, s) && Allowed(k, s, Submit(h))
    ensures SysInv(k, Submitted(k, s, h))
  {
    hide Inv, ViewOk, HandlerOk, Handlers, ViewOf;
    var s' := Submitted(k, s, h);
    SubmittedAction(k, s, h);
    SubmittedHandlers(k, s, h);
    SubmittedView(k, s, h);
    forall j | 0 <= j < |s.life| && j != s.handlers[h].ids[|s.handlers[h].ids| - 1]
      ensures ViewOk(k, ViewOf(s', j), j, s'.now, s'.swept)
    {
      SubmittedOther(k, s, h, j);
    }
    assert Known(s');
  }

  lemma MarkedItem(k: Setup, s: System, h: nat)
    requires SysInv(k, s) && Allowed(k, s, Mark(h))
    ensures var i := s.handlers[h].stage.k;
            var id := s.handlers[h].ids[i];
            && id < |s.life| && s.life[id].handler == h && s.life[id].index == i && s.a.reqs[id].spec.kind == Job
            && (i + 1 == |s.handlers[h].ids| ==> s.a.reqs[id].phase.Refused?)
  {
    hide Inv, Views, ViewOk;
    var i := s.handlers[h].stage.k;
    assert HandlerOk(s, h);
    assert OwnItem(s, h, i);
    assert s.handlers[h].items[i] in s.handlers[h].items;
  }

  lemma MarkedFrame(s: System, h: nat)
    requires h < |s.handlers| && s.handlers[h].stage.Marking? && s.handlers[h].stage.k < |s.handlers[h].ids|
    requires s.handlers[h].ids[s.handlers[h].stage.k] < |s.life|
    ensures var s' := Marked(s, h);
            && s'.a == s.a && |s'.life| == |s.life|
            && (forall j :: 0 <= j < |s.life| ==>
                  s'.life[j].handler == s.life[j].handler && s'.life[j].index == s.life[j].index)
            && |s'.handlers| == |s.handlers|
            && s'.handlers[h].items == s.handlers[h].items && s'.handlers[h].ids == s.handlers[h].ids
            && s'.handlers[h].stage == if s.handlers[h].stage.k + 1 < |s.handlers[h].ids|
                 then Marking(s.handlers[h].stage.k + 1) else Rejected
  {
    hide MarkFailed;
  }

  /** A handler that marks one of its items still has all its items in order. */
  lemma MarkingKeepsOrder(s: System, h: nat, s': System)
    requires h < |s.handlers| && s.handlers[h].stage.Marking? && HandlerOk(s, h)
    requires s'.a == s.a && |s'.life| == |s.life|
    requires forall j :: 0 <= j < |s.life| ==>
               s'.life[j].handler == s.life[j].handler && s'.life[j].index == s.life[j].index
    requires h < |s'.handlers|
    requires s'.handlers[h].items == s.handlers[h].items && s'.handlers[h].ids == s.handlers[h].ids
    requires s'.handlers[h].stage == if s.handlers[h].stage.k + 1 < |s.handlers[h].ids|
               then Marking(s.handlers[h].stage.k + 1) else Rejected
    ensures HandlerOk(s', h)
  {
    forall i | 0 <= i < |s.handlers[h].ids|
      ensures OwnItem(s', h, i)
      ensures i < |s.handlers[h].ids| - 1 ==> Joined(s', s.handlers[h].ids[i])
    {
      assert OwnItem(s, h, i);
    }
  }

  lemma MarkedHandler(k: Setup, s: System, h: nat)
    requires SysInv(k, s) && Allowed(k, s, Mark(h))
    ensures HandlerOk(Marked(s, h), h)
  {
    assert HandlerOk(s, h) && OwnItem(s, h, s.handlers[h].stage.k) by {
      hide Inv, Views, Known;
    }
    hide SysInv, HandlerOk;
    MarkedFrame(s, h);
    hide Marked;
    MarkingKeepsOrder(s, h, Marked(s, h));
  }

  lemma MarkedHandlers(k: Setup, s: System, h: nat)
    requires SysInv(k, s) && Allowed(k, s, Mark(h))
    ensures Handlers(Marked(s, h))
  {
    hide Inv, Views, ViewOk, HandlerOk, Handlers;
    MarkedHandler(k, s, h);
    HandlersUpdate(s, Marked(s, h), h);
  }

  /** The view of a job before and after its record is marked failed for overflow. */
  lemma OverflowView(k: Setup, v: View, id: JobId, now: real, swept: real, error: string, marking: bool)
    requires swept <= now && k.ttl >= 0.0
    requires ViewOk(k, v, id, now, swept) && v.spec.kind == Job && v.marking
    requires v.stray || (v.phase.Refused? && !marking)
    ensures ViewOk(k, if v.job.None? then v.(marking := marking) else
                        v.(marking := marking,
                           job := Some(v.job.value.(status := FAILED, finishedAt := Some(now), error := Some(error))),
                           life := v.life.(trace := if v.job.value.status == FAILED then v.life.trace
                               else v.life.trace + [FAILED])),
                   id, now, swept)
  {
  }

  lemma MarkedView(k: Setup, s: System, h: nat)
    requires SysInv(k, s) && Allowed(k, s, Mark(h))
    ensures var id := s.handlers[h].ids[s.handlers[h].stage.k];
            ViewOk(k, ViewOf(Marked(s, h), id), id, s.now, s.swept)
  {
    hide Inv, ViewOk, HandlerOk;
    var i := s.handlers[h].stage.k;
    var id := s.handlers[h].ids[i];
    var s' := Marked(s, h);
    MarkedItem(k, s, h);
    var v := ViewOf(s, id);
    assert ViewOk(k, v, id, s.now, s.swept);
    OverflowView(k, v, id, s.now, s.swept, QUEUE_FULL, BeingMarked(s', id));
  }

  lemma MarkedOther(k: Setup, s: System, h: nat, j: JobId)
    requires SysInv(k, s) && Allowed(k, s, Mark(h))
    requires j < |s.life| && j != s.handlers[h].ids[s.handlers[h].stage.k]
    ensures ViewOk(k, ViewOf(Marked(s, h), j), j, s.now, s.swept)
  {
    hide Inv, ViewOk, HandlerOk, Handlers, ViewOf;
    assert ViewOk(k, ViewOf(s, j), j, s.now, s.swept);
    if s.a.reqs[j].spec.kind == Job {
      WhereEmployed(k, s, j);
    }
    Bystander(k, s, Marked(s, h), h, j);
  }

  lemma MarkedStep(k: Setup, s: System, h: nat)
    requires SysInv(k, s) && Allowed(k, s, Mark(h))
    ensures SysInv(k, Marked(s, h))
  {
    hide Inv, ViewOk, HandlerOk, Handlers, ViewOf;
    var s' := Marked(s, h);
    MarkedItem(k, s, h);
    MarkedHandlers(k, s, h);
    MarkedView(k, s, h);
    forall j | 0 <= j < |s.life| && j != s.handlers[h].ids[s.handlers[h].stage.k]
      ensures ViewOk(k, ViewOf(s', j), j, s'.now, s'.swept)
    {
      MarkedOther(k, s, h, j);
    }
    assert Known(s');
  }

  // ------------------------------------------------------------------
  // Downloads, sweeps and time
  // ------------------------------------------------------------------

  lemma FetchView(k: Setup, s: System, id: JobId)
    requires SysInv(k, s) && Allowed(k, s, Fetch(id))
    ensures id < |s.life| == |s.a.reqs|
    ensures ViewOk(k, ViewOf(After(k, s, Fetch(id)), id), id, s.now, s.swept)
  {
    hide Inv, Handlers;
    assert ViewOk(k, ViewOf(s, id), id, s.now, s.swept);
    assert ViewOf(After(k, s, Fetch(id)), id) == ViewOf(s, id).(sending := true);
  }

  lemma FetchStep(k: Setup, s: System, id: JobId)
    requires SysInv(k, s) && Allowed(k, s, Fetch(id))
    ensures SysInv(k, After(k, s, Fetch(id)))
  {
    hide Inv, HandlerOk;
    var s' := After(k, s, Fetch(id));
    HandlersFrame(s, s');
    FetchView(k, s, id);
    forall j | 0 <= j < |s.life| && j != id
      ensures ViewOf(s', j) == ViewOf(s, j)
    {
      FetchOther(s, id, j);
    }
    hide ViewOk, ViewOf, Handlers;
  }

  lemma FetchOther(s: System, id: JobId, j: JobId)
    requires j < |s.life| == |s.a.reqs| && j != id
    ensures var s' := s.(downloads := s.downloads + [Download(id, Sending)]);
            ViewOf(s', j) == ViewOf(s, j)
  {
  }

  lemma Restaged(downloads: seq<Download>, d: nat, stage: DownloadStage, id: JobId, other: DownloadStage)
    requires d < |downloads|
    ensures var after := downloads[d := downloads[d].(stage := stage)];
            && (id != downloads[d].id || (other != stage && other != downloads[d].stage) ==>
                  (Download(id, other) in after <==> Download(id, other) in downloads))
            && Download(downloads[d].id, stage) in after
  {
    var after := downloads[d := downloads[d].(stage := stage)];
    assert after[d] == Download(downloads[d].id, stage);
    if Download(id, other) in downloads && (id != downloads[d].id || (other != stage && other != downloads[d].stage)) {
      var i :| 0 <= i < |downloads| && downloads[i] == Download(id, other);
      assert after[i] == Download(id, other);
    }
  }

  lemma UnlinkStep(k: Setup, s: System, d: nat, ok: bool)
    requires SysInv(k, s) && Allowed(k, s, Unlink(d, ok))
    ensures SysInv(k, Unlinked(s, d, ok))
  {
    hide Inv, HandlerOk, ViewOk;
    var s' := Unlinked(s, d, ok);
    var id := s.downloads[d].id;
    HandlersFrame(s, s');
    assert s.downloads[d] == Download(id, Sending);
    UnlinkedView(k, s, d, ok);
    forall j | 0 <= j < |s.life| && j != id
      ensures ViewOf(s', j) == ViewOf(s, j)
    {
      Restaged(s.downloads, d, Removed, j, Sending);
      Restaged(s.downloads, d, Removed, j, Removed);
      Restaged(s.downloads, d, Removed, j, Cleared);
    }
    assert Known(s');
  }

  lemma UnlinkedView(k: Setup, s: System, d: nat, ok: bool)
    requires SysInv(k, s) && Allowed(k, s, Unlink(d, ok))
    ensures var s' := Unlinked(s, d, ok);
            s.downloads[d].id < |s.life| && ViewOk(k, ViewOf(s', s.downloads[d].id), s.downloads[d].id, s'.now,
                s'.swept)
  {
    hide Inv, HandlerOk, Handlers;
    var id := s.downloads[d].id;
    assert s.downloads[d] == Download(id, Sending);
    assert ViewOk(k, ViewOf(s, id), id, s.now, s.swept);
    Restaged(s.downloads, d, Removed, id, Cleared);
  }

  /** The view of a downloaded job before and after its record's audio path is cleared. */
  lemma ClearedView(k: Setup, v: View, id: JobId, now: real, swept: real, removed: bool)
    requires ViewOk(k, v, id, now, swept) && v.removed && v.spec.kind == Job
    ensures var w := v.(removed := removed, cleared := true);
            ViewOk(k, if v.job.None? then w else
                        w.(job := Some(v.job.value.(audioPath := None)),
                           life := v.life.(paths := if v.job.value.audioPath.None? then v.life.paths
                               else v.life.paths + [None])),
                   id, now, swept)
  {
  }

  lemma ForgottenView(k: Setup, s: System, d: nat)
    requires SysInv(k, s) && Allowed(k, s, Forget(d))
    ensures var s' := Forgotten(s, d);
            ViewOk(k, ViewOf(s', s.downloads[d].id), s.downloads[d].id, s'.now, s'.swept)
  {
    hide Inv, HandlerOk, Handlers, ViewOk;
    var id := s.downloads[d].id;
    var v := ViewOf(s, id);
    assert s.downloads[d] == Download(id, Removed);
    assert ViewOk(k, v, id, s.now, s.swept);
    Restaged(s.downloads, d, Cleared, id, Sending);
    if v.spec.kind != Job {
      UntouchedView(k, v, id, s.now, s.swept);
    }
    ClearedView(k, v, id, s.now, s.swept, DownloadAt(Forgotten(s, d), id, Removed));
  }

  lemma UntouchedView(k: Setup, v: View, id: JobId, now: real, swept: real)
    requires ViewOk(k, v, id, now, swept) && v.spec.kind != Job
    ensures Untouched(v)
  {
  }

  lemma ForgottenOther(s: System, d: nat, j: JobId)
    requires d < |s.downloads| && s.downloads[d].stage == Removed && j < |s.life| == |s.a.reqs|
    requires j != s.downloads[d].id && s.downloads[d].id < |s.life|
    ensures ViewOf(Forgotten(s, d), j) == ViewOf(s, j)
  {
    Restaged(s.downloads, d, Cleared, j, Sending);
    Restaged(s.downloads, d, Cleared, j, Removed);
    Restaged(s.downloads, d, Cleared, j, Cleared);
  }

  lemma ForgetStep(k: Setup, s: System, d: nat)
    requires SysInv(k, s) && Allowed(k, s, Forget(d))
    ensures SysInv(k, Forgotten(s, d))
  {
    hide Inv, HandlerOk, ViewOk;
    var s' := Forgotten(s, d);
    HandlersFrame(s, s');
    hide Handlers, ViewOf;
    ForgottenView(k, s, d);
    forall j | 0 <= j < |s.life| && j != s.downloads[d].id
      ensures ViewOf(s', j) == ViewOf(s, j)
    {
      ForgottenOther(s, d, j);
    }
  }

  /** A sweep as one job sees it: its record goes with its file, unless the file is stuck. */
  lemma SweepShown(k: Setup, v: View, w: View, id: JobId, now: real, swept: real)
    requires ViewOk(k, v, id, now, swept) && swept <= now
    requires w == v.(job := w.job, file := w.file, undeleted := w.undeleted)
    requires w.job == if v.job.Some? && v.job.value.Expired(now - k.ttl) then None else v.job
    requires v.undeleted ==> w.undeleted
    requires (w.file == v.file && w.undeleted)
             || w.file == if w.job != v.job && v.job.value.audioPath.Some? then None else v.file
    ensures ViewOk(k, w, id, now, now)
  {
  }

  lemma SweptView(k: Setup, s: System, stuck: set<Path>, j: JobId)
    requires SysInv(k, s) && j < |s.life|
    ensures ViewOk(k, ViewOf(Swept(k, s, stuck), j), j, s.now, s.now)
  {
    hide Inv, Handlers, ViewOk;
    assert ViewOk(k, ViewOf(s, j), j, s.now, s.swept);
    ExpiredOwnFile(k, s, j);
    hide SysInv;
    SweepShown(k, ViewOf(s, j), ViewOf(Swept(k, s, stuck), j), j, s.now, s.swept);
  }

  /** The sweep deletes a job's file only along with that job. */
  lemma ExpiredOwnFile(k: Setup, s: System, j: JobId)
    requires SysInv(k, s) && j < |s.life|
    ensures PathOf(s, j) in ExpiredFiles(s.jobs, s.now - k.ttl) <==>
            j in s.jobs && s.jobs[j].Expired(s.now - k.ttl) && s.jobs[j].audioPath.Some?
  {
    hide Inv, HandlerOk, Handlers;
    forall id | id in s.jobs && s.jobs[id].audioPath.Some?
      ensures s.jobs[id].audioPath == Some(PathOf(s, id))
    {
      assert ViewOk(k, ViewOf(s, id), id, s.now, s.swept);
    }
  }

  lemma SweepStep(k: Setup, s: System, stuck: set<Path>)
    requires SysInv(k, s) && k.slack >= 0.0
    ensures SysInv(k, Swept(k, s, stuck))
  {
    hide Inv, HandlerOk, ViewOk;
    var s' := Swept(k, s, stuck);
    HandlersFrame(s, s');
    forall j | 0 <= j < |s.life|
      ensures ViewOk(k, ViewOf(s', j), j, s'.now, s'.swept)
    {
      SweptView(k, s, stuck, j);
    }
    assert Known(s');
  }

  lemma LaterView(k: Setup, v: View, id: JobId, now: real, later: real, swept: real)
    requires ViewOk(k, v, id, now, swept) && now <= later
    ensures ViewOk(k, v, id, later, swept)
  {
  }

  lemma TickStep(k: Setup, s: System, dt: real)
    requires SysInv(k, s) && Allowed(k, s, Tick(dt))
    ensures SysInv(k, After(k, s, Tick(dt)))
  {
    hide Inv, HandlerOk, ViewOk;
    var s' := After(k, s, Tick(dt));
    HandlersFrame(s, s');
    forall j | 0 <= j < |s.life|
      ensures ViewOk(k, ViewOf(s', j), j, s'.now, s'.swept)
    {
      assert ViewOf(s', j) == ViewOf(s, j);
      LaterView(k, ViewOf(s, j), j, s.now, s'.now, s.swept);
    }
  }

  lemma EventStep(k: Setup, s: System, e: Event)
    requires SysInv(k, s) && Allowed(k, s, e) && k.slack >= 0.0
    ensures SysInv(k, After(k, s, e))
  {
    hide SysInv;
    match e
    case Post(items) => PostedStep(k, s, items);
    case Create(h) => CreatedStep(k, s, h);
    case Submit(h) => SubmittedStep(k, s, h);
    case Mark(h) => MarkedStep(k, s, h);
    case Call(act) => CallStep(k, s, act);
    case CallbackRuns(id) => RunsStep(k, s, id);
    case CallbackFails(id) => FailsStep(k, s, id);
    case CallbackSaves(id) => SavesStep(k, s, id);
    case SaveRaises(id) => RaisesStep(k, s, id);
    case CallbackEnds(id) => EndsStep(k, s, id);
    case Fetch(id) => FetchStep(k, s, id);
    case Unlink(d, ok) => UnlinkStep(k, s, d, ok);
    case Forget(d) => ForgetStep(k, s, d);
    case Sweep(stuck) => SweepStep(k, s, stuck);
    case Tick(dt) => TickStep(k, s, dt);
  }

  lemma StartInOrder(k: Setup, s: System)
    requires Lifecycle.Start(k, s)
    ensures SysInv(k, s)
  {
    InitInv(k.c, s.a);
    hide Inv;
  }
}
