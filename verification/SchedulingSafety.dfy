/** Every action of the scheduling protocol preserves its invariant, hence every run does. */
module SchedulingSafety {
  import opened Common
  import opened Messages
  import opened Pool
  import opened Ledgers
  import opened Scheduling

  lemma SetEntry(reqs: seq<Entry>, id: JobId, e: Entry)
    requires id < |reqs|
    ensures Seats(reqs[id := e]) == Seats(reqs)[id := SeatOf(e.phase)]
    ensures Stations(reqs[id := e]) == Stations(reqs)[id := StationOf(e)]
    ensures Desks(reqs[id := e]) == Desks(reqs)[id := DeskOf(e.work)]
  {
  }

  lemma SameEntry(reqs: seq<Entry>, id: JobId, e: Entry)
    requires id < |reqs|
    ensures SeatOf(e.phase) == SeatOf(reqs[id].phase) ==> Seats(reqs[id := e]) == Seats(reqs)
    ensures StationOf(e) == StationOf(reqs[id]) ==> Stations(reqs[id := e]) == Stations(reqs)
    ensures DeskOf(e.work) == DeskOf(reqs[id].work) ==> Desks(reqs[id := e]) == Desks(reqs)
  {
  }

  lemma SetMail(c: Config, s: Sched, s': Sched, id: JobId, e: Entry)
    requires Mail(c, s) && At(s, id) && OwnMail(c.model, id, e) && s'.reqs == s.reqs[id := e]
    ensures Mail(c, s')
  {
    hide OwnMail;
  }

  lemma InitInv(c: Config, s: Sched)
    requires Init(c, s)
    ensures Inv(c, s)
  {
  }

  /** Only the entry of one request changes, and none of the three ledgers sees it. */
  lemma QuietStep(c: Config, s: Sched, id: JobId, e: Entry)
    requires Inv(c, s) && At(s, id)
    requires SeatOf(e.phase) == SeatOf(s.reqs[id].phase)
    requires StationOf(e) == StationOf(s.reqs[id])
    requires DeskOf(e.work) == DeskOf(s.reqs[id].work)
    requires OwnMail(c.model, id, e)
    ensures Inv(c, s.(reqs := s.reqs[id := e]))
  {
    hide BooksInOrder, LineInOrder, DesksInOrder, OwnMail;
    SameEntry(s.reqs, id, e);
  }

  lemma ArriveStep(c: Config, s: Sched, spec: Spec)
    requires Inv(c, s)
    ensures Inv(c, Apply(c, s, Arrive(spec)))
  {
    hide BooksInOrder, LineInOrder, DesksInOrder;
    var e := Entry(spec, Fresh, Unposted, [], [], []);
    var reqs := s.reqs + [e];
    NewcomerOutside(s.pool, s.log, Seats(s.reqs));
    assert Seats(reqs) == Seats(s.reqs) + [Outside];
    NewcomerApart(c.maxQueue, Line(s.queue, s.drain, s.accepted, s.drained), Stations(s.reqs));
    assert Stations(reqs) == Stations(s.reqs) + [Apart];
    NewcomerNowhere(s.inbox, s.current, Desks(s.reqs));
    assert Desks(reqs) == Desks(s.reqs) + [Nowhere];
  }

  lemma EnqueueStep(c: Config, s: Sched, id: JobId)
    requires Inv(c, s) && Enabled(c, s, Enqueue(id))
    ensures Inv(c, Apply(c, s, Enqueue(id)))
  {
    hide BooksInOrder, LineInOrder, DesksInOrder;
    var e := s.reqs[id].(phase := Waiting);
    SetEntry(s.reqs, id, e);
    SameEntry(s.reqs, id, e);
    JoinLine(c.maxQueue, Line(s.queue, s.drain, s.accepted, s.drained), Stations(s.reqs), id);
  }

  lemma RefuseStep(c: Config, s: Sched, id: JobId)
    requires Inv(c, s) && Enabled(c, s, Refuse(id))
    ensures Inv(c, Apply(c, s, Refuse(id)))
  {
    assert OwnMail(c.model, id, s.reqs[id]);
    QuietStep(c, s, id, s.reqs[id].(phase := Refused));
  }

  /** The pool and the histories after a dispatch critical section. */
  lemma DispatchBooks(c: Config, s: Sched, id: JobId, t: real)
    requires Inv(c, s) && At(s, id) && SeatOf(s.reqs[id].phase).Outside?
    ensures var s' := Dispatch(s, id, t);
            Shape(c, s') && Slots(s') && (AllBusy(s.pool) ==> AllBusy(s'.pool))
  {
    hide BooksInOrder, LineInOrder, DesksInOrder, OwnMail;
    var w := PickIndex(s.pool);
    SetEntry(s.reqs, id, s.reqs[id].(phase := Slotted(w)));
    TakeSeat(s.pool, s.log, Seats(s.reqs), id, w, t);
  }

  lemma SlottedMail(c: Config, s: Sched, id: JobId, w: nat)
    requires Inv(c, s) && At(s, id) && s.reqs[id].work.Unposted?
    ensures OwnMail(c.model, id, s.reqs[id].(phase := Slotted(w)))
  {
  }

  /** The envelope in the drain loop's hands belongs to a waiting request. */
  lemma HeldWaits(c: Config, s: Sched)
    requires Inv(c, s) && s.drain.Held() != []
    ensures At(s, s.drain.id) && StationOf(s.reqs[s.drain.id]) == InLine
    ensures s.reqs[s.drain.id].phase.Waiting? && s.reqs[s.drain.id].work.Unposted?
  {
    HeldOnce(c.maxQueue, Line(s.queue, s.drain, s.accepted, s.drained), Stations(s.reqs));
    assert Stations(s.reqs)[s.drain.id] == StationOf(s.reqs[s.drain.id]);
    assert OwnMail(c.model, s.drain.id, s.reqs[s.drain.id]);
  }

  lemma DirectStep(c: Config, s: Sched, id: JobId, t: real)
    requires Inv(c, s) && Enabled(c, s, Direct(id, t))
    ensures Inv(c, Apply(c, s, Direct(id, t)))
  {
    DispatchBooks(c, s, id, t);
    SlottedMail(c, s, id, PickIndex(s.pool));
    hide BooksInOrder, LineInOrder, DesksInOrder, AllBusy, OwnMail;
    SameEntry(s.reqs, id, s.reqs[id].(phase := Slotted(PickIndex(s.pool))));
  }

  lemma DrainGetStep(c: Config, s: Sched)
    requires Inv(c, s) && Enabled(c, s, DrainGet)
    ensures Inv(c, Apply(c, s, DrainGet))
  {
    hide BooksInOrder, LineInOrder, DesksInOrder, OwnMail, AllBusy, WellNamed, SameTopology;
    PopLine(c.maxQueue, Line(s.queue, s.drain, s.accepted, s.drained), Stations(s.reqs));
  }

  lemma DrainCheckStep(c: Config, s: Sched)
    requires Inv(c, s) && Enabled(c, s, DrainCheck)
    ensures Inv(c, Apply(c, s, DrainCheck))
  {
  }

  lemma DrainPickPlaces(c: Config, s: Sched, t: real)
    requires Inv(c, s) && Enabled(c, s, DrainPick(t))
    ensures Places(c, Apply(c, s, DrainPick(t))) && Desked(Apply(c, s, DrainPick(t)))
  {
    hide BooksInOrder, LineInOrder, DesksInOrder, AllBusy, OwnMail, IsPick, SameTopology;
    var id, w := s.drain.id, PickIndex(s.pool);
    HeldWaits(c, s);
    LeaveLine(c.maxQueue, Line(s.queue, s.drain, s.accepted, s.drained), Stations(s.reqs), w);
    SetEntry(s.reqs, id, s.reqs[id].(phase := Slotted(w)));
    SameEntry(s.reqs, id, s.reqs[id].(phase := Slotted(w)));
  }

  lemma DrainPickStep(c: Config, s: Sched, t: real)
    requires Inv(c, s) && Enabled(c, s, DrainPick(t))
    ensures Inv(c, Apply(c, s, DrainPick(t)))
  {
    hide BooksInOrder, LineInOrder, DesksInOrder, AllBusy, OwnMail, IsPick, SameTopology, KeyLess;
    var id, w := s.drain.id, PickIndex(s.pool);
    HeldWaits(c, s);
    DispatchBooks(c, s, id, t);
    SlottedMail(c, s, id, w);
    SetMail(c, s, Apply(c, s, DrainPick(t)), id, s.reqs[id].(phase := Slotted(w)));
    DrainPickPlaces(c, s, t);
  }

  lemma PostStep(c: Config, s: Sched, id: JobId)
    requires Inv(c, s) && Enabled(c, s, Post(id))
    ensures Inv(c, Apply(c, s, Post(id)))
  {
    hide BooksInOrder, LineInOrder, DesksInOrder, AllBusy;
    var w := s.reqs[id].phase.w;
    var e := s.reqs[id].(phase := Spawned(w), work := Posted(w));
    assert OwnMail(c.model, id, s.reqs[id]);
    assert Desks(s.reqs)[id] == Nowhere;
    SetEntry(s.reqs, id, e);
    SameEntry(s.reqs, id, e);
    PutInbox(s.inbox, s.current, Desks(s.reqs), id, w);
    if s.reqs[id].spec.kind != Latents {
      assert Stations(s.reqs)[id] == AtPut(w);
      PassLine(c.maxQueue, Line(s.queue, s.drain, s.accepted, s.drained), Stations(s.reqs), id);
    }
  }

  lemma ServeStep(c: Config, s: Sched, w: nat, script: seq<Msg>)
    requires Inv(c, s) && Enabled(c, s, Serve(w, script))
    ensures Inv(c, Apply(c, s, Serve(w, script)))
  {
    hide BooksInOrder, LineInOrder, DesksInOrder, AllBusy, Legal;
    var id := s.inbox[w][0];
    var e := s.reqs[id].(work := Serving(w, script), script := script);
    TakeUp(s.inbox, s.current, Desks(s.reqs), w);
    assert Desks(s.reqs)[id] == DeskOf(s.reqs[id].work);
    assert OwnMail(c.model, id, s.reqs[id]);
    assert [] + [] + script == script;
    SetEntry(s.reqs, id, e);
    SameEntry(s.reqs, id, e);
  }

  lemma EmitStep(c: Config, s: Sched, w: nat)
    requires Inv(c, s) && Enabled(c, s, Emit(w))
    ensures Inv(c, Apply(c, s, Emit(w)))
  {
    hide BooksInOrder, LineInOrder, DesksInOrder, Legal;
    var id := s.current[w].value;
    var e := s.reqs[id];
    var e' := e.(work := Serving(e.work.w, e.work.rest[1..]), mail := e.mail + [e.work.rest[0]]);
    assert OwnMail(c.model, id, e);
    assert e.read + e.mail + e.work.rest == e'.read + e'.mail + e'.work.rest;
    QuietStep(c, s, id, e');
  }

  lemma RetireStep(c: Config, s: Sched, w: nat)
    requires Inv(c, s) && Enabled(c, s, Retire(w))
    ensures Inv(c, Apply(c, s, Retire(w)))
  {
    hide BooksInOrder, LineInOrder, DesksInOrder, AllBusy, Legal;
    var id := s.current[w].value;
    var e := s.reqs[id].(work := Served);
    PutAway(s.inbox, s.current, Desks(s.reqs), w);
    assert OwnMail(c.model, id, s.reqs[id]);
    assert e.read + e.mail + [] == e.read + e.mail;
    SetEntry(s.reqs, id, e);
    SameEntry(s.reqs, id, e);
  }

  lemma StartStep(c: Config, s: Sched, id: JobId, t: real)
    requires Inv(c, s) && Enabled(c, s, Start(id, t))
    ensures Inv(c, Apply(c, s, Start(id, t)))
  {
    var e := s.reqs[id];
    assert OwnMail(c.model, id, e);
    QuietStep(c, s, id, e.(phase := Consuming(e.phase.w, t)));
  }

  /** The first message of a legal script that is not a chunk is a genuine outcome. */
  lemma GenuineMessage(m: Model, id: JobId, spec: Spec, script: seq<Msg>, i: nat)
    requires Legal(m, id, spec, script) && i < |script| && !script[i].Chunk?
    ensures Genuine(m, id, spec, script[i])
  {
  }

  lemma ReceiveStep(c: Config, s: Sched, id: JobId, t: real)
    requires Inv(c, s) && Enabled(c, s, Receive(id, t))
    ensures Inv(c, Apply(c, s, Receive(id, t)))
  {
    hide BooksInOrder, LineInOrder, DesksInOrder, Legal, Genuine;
    var e := s.reqs[id];
    var e' := Take(e, t);
    assert OwnMail(c.model, id, e);
    assert e'.read + e'.mail == e.read + e.mail;
    if !e.mail[0].Chunk? {
      assert (e.read + e.mail)[|e.read|] == e.mail[0];
      assert e.script[|e.read|] == e.mail[0];
      GenuineMessage(c.model, id, e.spec, e.script, |e.read|);
    }
    QuietStep(c, s, id, e');
  }

  lemma GiveUpStep(c: Config, s: Sched, id: JobId, t: real, error: string)
    requires Inv(c, s) && At(s, id) && s.reqs[id].phase.Consuming?
    ensures Inv(c, s.(reqs := s.reqs[id := Conclude(s.reqs[id], Failure(s.reqs[id].spec.kind, id, error), t)]))
  {
    hide BooksInOrder, LineInOrder, DesksInOrder, Legal;
    var e := s.reqs[id];
    assert OwnMail(c.model, id, e);
    FailureIsGenuine(c.model, id, e.spec, error);
    QuietStep(c, s, id, Conclude(e, Failure(e.spec.kind, id, error), t));
  }

  lemma ReleasedMail(c: Config, s: Sched, id: JobId)
    requires Inv(c, s) && At(s, id) && s.reqs[id].phase.Closing?
    ensures var p := s.reqs[id].phase;
            OwnMail(c.model, id, s.reqs[id].(phase := Released(p.w, p.outcome, p.ms)))
  {
  }

  lemma ReleasePlaces(c: Config, s: Sched, id: JobId)
    requires Inv(c, s) && Enabled(c, s, Release(id))
    ensures Places(c, Apply(c, s, Release(id))) && Desked(Apply(c, s, Release(id)))
  {
    hide BooksInOrder, LineInOrder, DesksInOrder, AllBusy, OwnMail, SameTopology;
    var p := s.reqs[id].phase;
    SameEntry(s.reqs, id, s.reqs[id].(phase := Released(p.w, p.outcome, p.ms)));
    if s.drain.Parked? {
      HoldLine(c.maxQueue, Line(s.queue, s.drain, s.accepted, s.drained), Stations(s.reqs), Woken(s.drain.id));
    }
  }

  lemma ReleaseBooks(c: Config, s: Sched, id: JobId)
    requires Inv(c, s) && Enabled(c, s, Release(id))
    ensures Slots(Apply(c, s, Release(id)))
  {
    hide BooksInOrder, LineInOrder, DesksInOrder, AllBusy, OwnMail, ReleaseBy;
    var p := s.reqs[id].phase;
    var e := s.reqs[id].(phase := Released(p.w, p.outcome, p.ms));
    assert HasSeat(Seats(s.reqs), id, Holding(p.w));
    ReturnSeat(s.pool, s.log, Seats(s.reqs), id, p.w, if e.spec.kind in {Job, Sync} then p.ms else 0.0);
    SetEntry(s.reqs, id, e);
  }

  lemma ReleaseStep(c: Config, s: Sched, id: JobId)
    requires Inv(c, s) && Enabled(c, s, Release(id))
    ensures Inv(c, Apply(c, s, Release(id)))
  {
    hide BooksInOrder, LineInOrder, DesksInOrder, AllBusy, OwnMail, ReleaseBy;
    var p := s.reqs[id].phase;
    ReleaseLowers(s.pool, s.pool[p.w].workerId, if s.reqs[id].spec.kind in {Job, Sync} then p.ms else 0.0, id);
    ReleasedMail(c, s, id);
    SetMail(c, s, Apply(c, s, Release(id)), id, s.reqs[id].(phase := Released(p.w, p.outcome, p.ms)));
    ReleasePlaces(c, s, id);
    ReleaseBooks(c, s, id);
  }

  lemma AdvanceStep(c: Config, s: Sched, id: JobId, to: Phase)
    requires Inv(c, s) && Enabled(c, s, Advance(id, to))
    ensures Inv(c, Apply(c, s, Advance(id, to)))
  {
    hide BooksInOrder, LineInOrder, DesksInOrder, Genuine;
    assert OwnMail(c.model, id, s.reqs[id]);
    QuietStep(c, s, id, s.reqs[id].(phase := to));
  }

  lemma StepInv(c: Config, s: Sched, a: Action)
    requires Inv(c, s) && Enabled(c, s, a)
    ensures Inv(c, Apply(c, s, a))
  {
    hide BooksInOrder, LineInOrder, DesksInOrder, OwnMail, AllBusy;
    match a
    case Arrive(spec) => ArriveStep(c, s, spec);
    case Enqueue(id) => EnqueueStep(c, s, id);
    case Refuse(id) => RefuseStep(c, s, id);
    case Direct(id, t) => DirectStep(c, s, id, t);
    case DrainGet => DrainGetStep(c, s);
    case DrainCheck => DrainCheckStep(c, s);
    case DrainPick(t) => DrainPickStep(c, s, t);
    case Post(id) => PostStep(c, s, id);
    case Serve(w, script) => ServeStep(c, s, w, script);
    case Emit(w) => EmitStep(c, s, w);
    case Retire(w) => RetireStep(c, s, w);
    case Start(id, t) => StartStep(c, s, id, t);
    case Receive(id, t) => ReceiveStep(c, s, id, t);
    case TimeOut(id, t) => GiveUpStep(c, s, id, t, NO_RESPONSE);
    case Abort(id, t, error) => GiveUpStep(c, s, id, t, error);
    case Release(id) => ReleaseStep(c, s, id);
    case Advance(id, to) => AdvanceStep(c, s, id, to);
  }
}
