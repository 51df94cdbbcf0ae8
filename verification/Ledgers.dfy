/**
 Three small ledgers over all requests, each with the steps that keep it in order:
 who holds which worker slot, who stands where in the line, who is on which worker's
 desk. `Scheduling` reads each of them off its own state.
 */
module Ledgers {
  import opened Common
  import opened Pool

  // ------------------------------------------------------------------
  // Worker slots
  // ------------------------------------------------------------------

  datatype Seat = Outside | Holding(w: nat) | Returned(w: nat)

  /**
   The dispatch histories agree with the seats of all requests, the first worker counts no request
   it does not have, and all workers together count every request that holds a slot. Where workers can
   be told apart by name, the counters and job tables agree with the seats as well.
   */
  ghost predicate BooksInOrder(pool: seq<Slot>, log: seq<seq<JobId>>, seats: seq<Seat>) {
    && |log| == |pool| && HistoryInOrder(log, seats)
    && (pool != [] ==> pool[0].active <= |HoldersOf(seats, 0)|)
    && |AllHolders(seats)| <= TotalActive(pool)
    && (WellNamed(pool) ==> CountersInOrder(pool, log, seats))
  }

  ghost predicate HistoryInOrder(log: seq<seq<JobId>>, seats: seq<Seat>) {
    && (forall w :: 0 <= w < |log| ==> NoDup(log[w]))
    && (forall w, j: JobId :: 0 <= w < |log| ==>
         (j in log[w] <==> HasSeat(seats, j, Holding(w)) || HasSeat(seats, j, Returned(w))))
    && (forall j :: 0 <= j < |seats| && !seats[j].Outside? ==> seats[j].w < |log|)
  }

  ghost predicate CountersInOrder(pool: seq<Slot>, log: seq<seq<JobId>>, seats: seq<Seat>)
    requires |log| == |pool|
  {
    && (forall w :: 0 <= w < |pool| ==> SlotInOrder(pool[w], log[w]))
    && (forall w, j: JobId :: 0 <= w < |pool| ==> (j in pool[w].jobs <==> HasSeat(seats, j, Holding(w))))
  }

  ghost predicate SlotInOrder(slot: Slot, history: seq<JobId>) {
    slot.active == |slot.jobs| && slot.total + slot.active == |history|
  }

  ghost predicate HasSeat(seats: seq<Seat>, j: JobId, seat: Seat) {
    j < |seats| && seats[j] == seat
  }

  ghost function HoldersOf(seats: seq<Seat>, w: nat): set<JobId> {
    set j: JobId | j < |seats| && seats[j] == Holding(w)
  }

  ghost function AllHolders(seats: seq<Seat>): set<JobId> {
    set j: JobId | j < |seats| && seats[j].Holding?
  }

  /** Taking and returning a seat, as the sets of holders see it. */
  lemma HoldersAfter(seats: seq<Seat>, id: JobId, seat: Seat, v: nat)
    requires id < |seats|
    ensures seats[id].Outside? && seat.Holding? ==>
              && HoldersOf(seats[id := seat], v) == HoldersOf(seats, v) + (if seat == Holding(v) then {id} else {})
              && AllHolders(seats[id := seat]) == AllHolders(seats) + {id} && id !in AllHolders(seats)
              && id !in HoldersOf(seats, v)
    ensures seats[id].Holding? && seat.Returned? ==>
              && HoldersOf(seats[id := seat], v) == HoldersOf(seats, v) - {id}
              && AllHolders(seats[id := seat]) == AllHolders(seats) - {id} && id in AllHolders(seats)
              && (id in HoldersOf(seats, v) <==> seats[id] == Holding(v))
  {
  }

  lemma NewcomerOutside(pool: seq<Slot>, log: seq<seq<JobId>>, seats: seq<Seat>)
    requires BooksInOrder(pool, log, seats)
    ensures BooksInOrder(pool, log, seats + [Outside])
  {
    var after := seats + [Outside];
    assert forall j: JobId, w: nat :: HasSeat(after, j, Holding(w)) <==> HasSeat(seats, j, Holding(w));
    assert forall j: JobId, w: nat :: HasSeat(after, j, Returned(w)) <==> HasSeat(seats, j, Returned(w));
    assert HoldersOf(after, 0) == HoldersOf(seats, 0) && AllHolders(after) == AllHolders(seats);
  }

  lemma TakeSeat(pool: seq<Slot>, log: seq<seq<JobId>>, seats: seq<Seat>, id: JobId, w: nat, t: real)
    requires BooksInOrder(pool, log, seats)
    requires id < |seats| && seats[id].Outside? && w < |pool|
    ensures BooksInOrder(Acquire(pool, w, id, t), log[w := log[w] + [id]], seats[id := Holding(w)])
  {
    TakeInHistory(log, seats, id, w);
    HoldersAfter(seats, id, Holding(w), 0);
    TotalAfterAcquire(pool, w, id, t);
    var more := Acquire(pool, w, id, t);
    SameNamesSameKind(pool, more);
    if WellNamed(pool) {
      TakeInCounters(pool, log, seats, id, w, t);
    }
    hide HistoryInOrder, CountersInOrder, WellNamed, HoldersOf, AllHolders, TotalActive, SameNames;
  }

  lemma TakeInHistory(log: seq<seq<JobId>>, seats: seq<Seat>, id: JobId, w: nat)
    requires HistoryInOrder(log, seats) && id < |seats| && seats[id].Outside? && w < |log|
    ensures HistoryInOrder(log[w := log[w] + [id]], seats[id := Holding(w)])
  {
    var after := seats[id := Holding(w)];
    assert !HasSeat(seats, id, Holding(w)) && !HasSeat(seats, id, Returned(w));
    assert forall j: JobId, v: nat :: HasSeat(after, j, Holding(v)) <==>
        HasSeat(seats, j, Holding(v)) || (j == id && v == w);
    assert forall j: JobId, v: nat :: HasSeat(after, j, Returned(v)) <==> HasSeat(seats, j, Returned(v));
  }

  lemma TakeInCounters(pool: seq<Slot>, log: seq<seq<JobId>>, seats: seq<Seat>, id: JobId, w: nat, t: real)
    requires |log| == |pool| && CountersInOrder(pool, log, seats) && id < |seats| && seats[id].Outside? && w < |pool|
    ensures CountersInOrder(Acquire(pool, w, id, t), log[w := log[w] + [id]], seats[id := Holding(w)])
  {
    var after := seats[id := Holding(w)];
    assert !HasSeat(seats, id, Holding(w));
    assert forall j: JobId, v: nat :: HasSeat(after, j, Holding(v)) <==>
        HasSeat(seats, j, Holding(v)) || (j == id && v == w);
    assert SlotInOrder(pool[w], log[w]);
  }

  /** A release by the name of the worker: with distinct names it meets a positive counter. */
  lemma ReturnSeat(pool: seq<Slot>, log: seq<seq<JobId>>, seats: seq<Seat>, id: JobId, w: nat, ms: real)
    requires BooksInOrder(pool, log, seats)
    requires HasSeat(seats, id, Holding(w)) && w < |pool| && pool[w].workerId != ""
    ensures WellNamed(pool) ==> pool[w].active >= 1 && id in pool[w].jobs
    ensures BooksInOrder(ReleaseBy(pool, pool[w].workerId, ms, id), log, seats[id := Returned(w)])
  {
    var less := ReleaseBy(pool, pool[w].workerId, ms, id);
    ReturnInHistory(log, seats, id, w);
    HoldersAfter(seats, id, Returned(w), 0);
    ReleaseLowers(pool, pool[w].workerId, ms, id);
    SameNamesSameKind(pool, less);
    if WellNamed(pool) {
      OwnRelease(pool, w, ms, id);
      ReturnInCounters(pool, log, seats, id, w, ms);
    }
    hide HistoryInOrder, CountersInOrder, WellNamed, HoldersOf, AllHolders, TotalActive, ReleaseBy;
    assert w != 0 ==> id !in HoldersOf(seats, 0);
  }

  lemma ReturnInHistory(log: seq<seq<JobId>>, seats: seq<Seat>, id: JobId, w: nat)
    requires HistoryInOrder(log, seats) && HasSeat(seats, id, Holding(w))
    ensures HistoryInOrder(log, seats[id := Returned(w)])
  {
    var after := seats[id := Returned(w)];
    assert seats[id].w < |log|;
    assert forall j: JobId, v: nat :: HasSeat(after, j, Holding(v)) <==> HasSeat(seats, j, Holding(v)) && j != id;
    assert forall j: JobId, v: nat :: HasSeat(after, j, Returned(v)) <==>
        HasSeat(seats, j, Returned(v)) || (j == id && v == w);
  }

  lemma ReturnInCounters(pool: seq<Slot>, log: seq<seq<JobId>>, seats: seq<Seat>, id: JobId, w: nat, ms: real)
    requires |log| == |pool| && CountersInOrder(pool, log, seats) && HasSeat(seats, id, Holding(w)) && w < |pool|
    ensures pool[w].active >= 1 && id in pool[w].jobs
    ensures CountersInOrder(Vacate(pool, w, ms, id), log, seats[id := Returned(w)])
  {
    var after := seats[id := Returned(w)];
    assert forall j: JobId, v: nat :: HasSeat(after, j, Holding(v)) <==> HasSeat(seats, j, Holding(v)) && j != id;
    assert SlotInOrder(pool[w], log[w]);
    assert |pool[w].jobs - {id}| == |pool[w].jobs| - 1 by {
      assert (pool[w].jobs - {id}).Keys == pool[w].jobs.Keys - {id};
    }
  }

  // ------------------------------------------------------------------
  // The line
  // ------------------------------------------------------------------

  /** Where the drain loop stands. `Check` is about to test the pool, `Pick` about to dispatch. */
  datatype Drain =
    | Get
    | Check(id: JobId)
    | Parked(id: JobId)
    | Woken(id: JobId)
    | Pick(id: JobId)
    | Put(id: JobId, w: nat)
  {
    /** The envelope popped from the queue and not dispatched yet. */
    function Held(): seq<JobId> {
      if Get? || Put? then [] else [id]
    }
  }

  datatype Station = Apart | InLine | AtPut(w: nat) | Past

  datatype Line = Line(queue: seq<JobId>, drain: Drain, accepted: seq<JobId>, drained: seq<JobId>)

  /** Every accepted envelope is in exactly one place, in FIFO order. */
  ghost predicate LineInOrder(max: nat, l: Line, stations: seq<Station>) {
    && l.accepted == l.drained + l.drain.Held() + l.queue
    && NoDup(l.accepted)
    && |l.queue| <= max
    && (forall j: JobId :: j in l.accepted <==> j < |stations| && !stations[j].Apart?)
    && (forall j: JobId :: j in l.drain.Held() + l.queue <==> StandsAt(stations, j, InLine))
    && (l.drain.Put? ==> StandsAt(stations, l.drain.id, AtPut(l.drain.w)))
    && (forall j :: 0 <= j < |stations| && stations[j].AtPut? ==> l.drain == Put(j, stations[j].w))
  }

  ghost predicate StandsAt(stations: seq<Station>, j: JobId, station: Station) {
    j < |stations| && stations[j] == station
  }

  lemma NewcomerApart(max: nat, l: Line, stations: seq<Station>)
    requires LineInOrder(max, l, stations)
    ensures LineInOrder(max, l, stations + [Apart])
  {
  }

  lemma JoinLine(max: nat, l: Line, stations: seq<Station>, id: JobId)
    requires LineInOrder(max, l, stations) && StandsAt(stations, id, Apart) && |l.queue| < max
    ensures LineInOrder(max, l.(queue := l.queue + [id], accepted := l.accepted + [id]), stations[id := InLine])
  {
    assert l.accepted + [id] == l.drained + l.drain.Held() + (l.queue + [id]);
    assert l.drain.Held() + (l.queue + [id]) == (l.drain.Held() + l.queue) + [id];
  }

  lemma PopLine(max: nat, l: Line, stations: seq<Station>)
    requires LineInOrder(max, l, stations) && l.drain.Get? && l.queue != []
    ensures LineInOrder(max, l.(queue := l.queue[1..], drain := Check(l.queue[0])), stations)
  {
    assert l.queue == [] + l.queue == [l.queue[0]] + l.queue[1..];
    assert l.accepted == l.drained + [l.queue[0]] + l.queue[1..];
  }

  lemma HoldLine(max: nat, l: Line, stations: seq<Station>, drain: Drain)
    requires LineInOrder(max, l, stations)
    requires l.drain.Held() == drain.Held() != []
    ensures LineInOrder(max, l.(drain := drain), stations)
  {
  }

  /** The held envelope is in the line and not in the queue. */
  lemma HeldOnce(max: nat, l: Line, stations: seq<Station>)
    requires LineInOrder(max, l, stations) && l.drain.Held() != []
    ensures StandsAt(stations, l.drain.id, InLine) && l.drain.id !in l.queue
  {
    assert l.drain.id in l.drain.Held() + l.queue;
    var n := |l.drained|;
    assert l.accepted[n] == l.drain.id;
    forall k | 0 <= k < |l.queue|
      ensures l.queue[k] != l.drain.id
    {
      assert l.accepted[n + 1 + k] == l.queue[k];
    }
  }

  lemma LeaveLine(max: nat, l: Line, stations: seq<Station>, w: nat)
    requires LineInOrder(max, l, stations) && l.drain.Held() != []
    ensures StandsAt(stations, l.drain.id, InLine)
    ensures LineInOrder(max, l.(drain := Put(l.drain.id, w), drained := l.drained + [l.drain.id]),
                        stations[l.drain.id := AtPut(w)])
  {
    HeldOnce(max, l, stations);
    var id := l.drain.id;
    var l' := l.(drain := Put(id, w), drained := l.drained + [id]);
    assert l'.drained + l'.drain.Held() + l'.queue == l.accepted;
    assert l'.drain.Held() + l'.queue == l.queue;
    forall j: JobId
      ensures j in l.drain.Held() + l.queue <==> j == id || j in l.queue
    {
    }
    assert forall j: JobId :: j in l.queue <==> StandsAt(stations[id := AtPut(w)], j, InLine);
  }

  lemma PassLine(max: nat, l: Line, stations: seq<Station>, id: JobId)
    requires LineInOrder(max, l, stations) && id < |stations| && stations[id].AtPut?
    ensures l.drain == Put(id, stations[id].w)
    ensures LineInOrder(max, l.(drain := Get), stations[id := Past])
  {
  }

  // ------------------------------------------------------------------
  // The workers' desks
  // ------------------------------------------------------------------

  datatype Desk = Nowhere | Inbox(w: nat) | OnDesk(w: nat) | Done

  /** Every request put on a worker's request queue is there once, and taken up once. */
  ghost predicate DesksInOrder(inbox: seq<seq<JobId>>, current: seq<Option<JobId>>, desks: seq<Desk>) {
    && |inbox| == |current|
    && (forall w :: 0 <= w < |inbox| ==> NoDup(inbox[w]))
    && (forall w, j: JobId :: 0 <= w < |inbox| && j in inbox[w] ==> HasDesk(desks, j, Inbox(w)))
    && (forall w :: 0 <= w < |current| && current[w].Some? ==>
          HasDesk(desks, current[w].value, OnDesk(w)))
  }

  ghost predicate HasDesk(desks: seq<Desk>, j: JobId, desk: Desk) {
    j < |desks| && desks[j] == desk
  }

  lemma NewcomerNowhere(inbox: seq<seq<JobId>>, current: seq<Option<JobId>>, desks: seq<Desk>)
    requires DesksInOrder(inbox, current, desks)
    ensures DesksInOrder(inbox, current, desks + [Nowhere])
  {
  }

  lemma PutInbox(inbox: seq<seq<JobId>>, current: seq<Option<JobId>>, desks: seq<Desk>, id: JobId, w: nat)
    requires DesksInOrder(inbox, current, desks)
    requires id < |desks| && desks[id].Nowhere? && w < |inbox|
    ensures DesksInOrder(inbox[w := inbox[w] + [id]], current, desks[id := Inbox(w)])
  {
    assert id !in inbox[w];
  }

  lemma TakeUp(inbox: seq<seq<JobId>>, current: seq<Option<JobId>>, desks: seq<Desk>, w: nat)
    requires DesksInOrder(inbox, current, desks)
    requires w < |inbox| && inbox[w] != [] && current[w].None?
    ensures var id := inbox[w][0];
            && HasDesk(desks, id, Inbox(w))
            && DesksInOrder(inbox[w := inbox[w][1..]], current[w := Some(id)], desks[id := OnDesk(w)])
  {
    assert inbox[w][0] in inbox[w];
    forall j | j in inbox[w][1..]
      ensures j in inbox[w] && j != inbox[w][0]
    {
    }
    assert NoDup(inbox[w]);
  }

  lemma PutAway(inbox: seq<seq<JobId>>, current: seq<Option<JobId>>, desks: seq<Desk>, w: nat)
    requires DesksInOrder(inbox, current, desks)
    requires w < |current| && current[w].Some?
    ensures HasDesk(desks, current[w].value, OnDesk(w))
    ensures DesksInOrder(inbox, current[w := None], desks[current[w].value := Done])
  {
  }
}
