/**
 The two consumers that collect their own answers, the stream handler and `compute_latents`,
 as steps of the protocol in `Scheduling`.
 */
module Consumers {
  import opened Common
  import opened Messages
  import opened Pool
  import opened Ledgers
  import opened Scheduling
  import opened Dispatchers
  import opened QueueManagers
  import opened Streaming

  /** The actions lead from one state to the other. */
  ghost predicate Acts(c: Config, s: Sched, acts: seq<Action>, s': Sched)
    decreases |acts|
  {
    if acts == [] then s == s' else Enabled(c, s, acts[0]) && Acts(c, Apply(c, s, acts[0]), acts[1..], s')
  }

  lemma {:induction false} ActsThen(c: Config, s: Sched, acts: seq<Action>, s1: Sched, more: seq<Action>, s2: Sched)
    requires Acts(c, s, acts, s1) && Acts(c, s1, more, s2)
    ensures Acts(c, s, acts + more, s2)
    decreases |acts|
  {
    hide Enabled, Apply;
    if acts == [] {
      assert acts + more == more;
    } else {
      ActsThen(c, Apply(c, s, acts[0]), acts[1..], s1, more, s2);
      assert (acts + more)[0] == acts[0] && (acts + more)[1..] == acts[1..] + more;
    }
  }

  // ------------------------------------------------------------------
  // compute_latents
  // ------------------------------------------------------------------

  /** Its `dispatch`: the steps Direct and Post. The waiting queue and the drain loop are bypassed. */
  method DispatchLatents(manager: QueueManager, id: JobId, now: real, ghost c: Config, ghost s: Sched) returns (w: nat)
    requires manager.Shows(c, s) && Enabled(c, s, Direct(id, now)) && |s.inbox| == |s.pool|
    modifies manager.dispatcher.workers
    ensures var s1 := Apply(c, s, Direct(id, now));
            && s1.reqs[id].phase == Slotted(w) && Enabled(c, s1, Post(id))
            && manager.Shows(c, Apply(c, s1, Post(id)))
  {
    DirectThenPost(c, s, id, now);
    hide Apply, Enabled, PickIndex;
    var k := manager.dispatcher.Dispatch(id, now);
    w := k.value;
  }

  lemma DirectThenPost(c: Config, s: Sched, id: JobId, now: real)
    requires Enabled(c, s, Direct(id, now)) && |s.inbox| == |s.pool|
    ensures var s1, w := Apply(c, s, Direct(id, now)), PickIndex(s.pool);
            && s1.reqs[id].phase == Slotted(w) && Enabled(c, s1, Post(id))
            && var s2 := Apply(c, s1, Post(id));
               && s2.queue == s.queue && s2.drain == s.drain
               && s2.pool == Acquire(s.pool, w, id, now) && s2.inbox == s.inbox[w := s.inbox[w] + [id]]
  {
  }

  /**
   The rest of it: the outcome follows from the reply, an exception other than the timeout is
   passed on (None), and the slot is returned once in any case. The protocol's Receive, TimeOut
   or Abort, and then its Release.
   */
  method CollectLatents(manager: QueueManager, id: JobId, w: nat, reply: Reply, t: real,
                        ghost c: Config, ghost s: Sched)
    returns (result: Option<Msg>)
    requires manager.Shows(c, s) && At(s, id) && s.reqs[id].phase.Consuming? && s.reqs[id].phase.w == w
    requires s.reqs[id].spec.kind == Latents && w < |s.pool| && s.pool[w].workerId != ""
    requires Enabled(c, s, Collecting(id, reply, t))
    requires reply.Got? ==> reply.msg == s.reqs[id].mail[0] && reply.msg.LatentsMsg?
    modifies manager`drain, manager.dispatcher`notifications, manager.dispatcher.workers
    ensures var s1 := Apply(c, s, Collecting(id, reply, t));
            && s1.reqs[id].phase.Closing? && (!reply.Raised? ==> result == Some(s1.reqs[id].phase.outcome))
            && Enabled(c, s1, Release(id)) && manager.Shows(c, Apply(c, s1, Release(id)))
    ensures match reply
            case Got(msg) => result == Some(msg)
            case Empty => result.Some? && result.value.LatentsMsg? && result.value.job == id
                && result.value.voice.None? && Truthy(result.value.error)
            case Raised(_) => result.None?
    ensures manager.dispatcher.notifications == old(manager.dispatcher.notifications) + 1
  {
    SilenceSpeaks();
    match reply {
      case Got(msg) => result := Some(msg);
      case Empty => result := Some(LatentsMsg(id, None, Some(NO_RESPONSE)));
      case Raised(_) => result := None;
    }
    CollectThenRelease(c, s, id, reply, t);
    ghost var s1 := Apply(c, s, Collecting(id, reply, t));
    hide Apply, Enabled, ReleaseBy;
    manager.GiveBackShown(id, w, 0.0, c, s, Apply(c, s1, Release(id)));
  }

  // ------------------------------------------------------------------
  // The stream handler
  // ------------------------------------------------------------------

  /** The entry after its consumer took the first `n` messages, all of them chunks. */
  function Taken(s: Sched, id: JobId, n: nat): Sched
    requires At(s, id) && n <= |s.reqs[id].mail|
  {
    var e := s.reqs[id];
    s.(reqs := s.reqs[id := e.(mail := e.mail[n..], read := e.read + e.mail[..n])])
  }

  function Receives(id: JobId, t: real, n: nat): seq<Action> {
    if n == 0 then [] else Receives(id, t, n - 1) + [Receive(id, t)]
  }

  lemma {:induction false} ReceiveChunks(c: Config, s: Sched, id: JobId, t: real, n: nat)
    requires At(s, id) && s.reqs[id].phase.Consuming? && n <= |s.reqs[id].mail|
    requires forall i :: 0 <= i < n ==> s.reqs[id].mail[i].Chunk?
    ensures Acts(c, s, Receives(id, t, n), Taken(s, id, n))
  {
    var e := s.reqs[id];
    if n == 0 {
      assert e.(mail := e.mail[0..], read := e.read + e.mail[..0]) == e;
      assert s.reqs[id := e] == s.reqs;
    } else {
      ReceiveChunks(c, s, id, t, n - 1);
      var s1 := Taken(s, id, n - 1);
      OneReceive(c, s, id, t, n);
      assert Acts(c, Taken(s, id, n), [], Taken(s, id, n));
      assert Acts(c, s1, [Receive(id, t)], Taken(s, id, n));
      ActsThen(c, s, Receives(id, t, n - 1), s1, [Receive(id, t)], Taken(s, id, n));
    }
  }

  lemma OneReceive(c: Config, s: Sched, id: JobId, t: real, n: nat)
    requires At(s, id) && s.reqs[id].phase.Consuming? && 0 < n <= |s.reqs[id].mail| && s.reqs[id].mail[n - 1].Chunk?
    ensures Enabled(c, Taken(s, id, n - 1), Receive(id, t))
    ensures Apply(c, Taken(s, id, n - 1), Receive(id, t)) == Taken(s, id, n)
  {
    var e, s1 := s.reqs[id], Taken(s, id, n - 1);
    assert e.mail[n - 1..][0] == e.mail[n - 1] && e.mail[n - 1..][1..] == e.mail[n..];
    assert e.read + e.mail[..n - 1] + [e.mail[n - 1]] == e.read + e.mail[..n];
    assert s1.reqs[id := Taken(s, id, n).reqs[id]] == Taken(s, id, n).reqs;
  }

  /** How many messages the handler has taken when `sent` binary frames went out, and what it took last. */
  function LastReply(mail: seq<Msg>, silence: Option<string>, sent: nat): (nat, Reply) {
    if sent < FirstEnd(mail) then (sent + 1, Raised(INTERNAL))
    else if FirstEnd(mail) < |mail| then (FirstEnd(mail), Got(mail[FirstEnd(mail)]))
    else (|mail|, if silence.None? then Empty else Raised(silence.value))
  }

  lemma {:induction false} AllChunks(mail: seq<Msg>, n: nat)
    requires n <= |mail| && forall i :: 0 <= i < n ==> mail[i].Chunk?
    ensures |ChunksOf(mail[..n])| == n
  {
    if n > 0 {
      AllChunks(mail, n - 1);
      assert mail[..n][..n - 1] == mail[..n - 1];
    }
  }

  lemma ChunksBeforeEnd(mail: seq<Msg>)
    requires forall x <- mail :: x.Chunk? || x.End?
    ensures |Chunks(mail)| == FirstEnd(mail)
    ensures forall i :: 0 <= i < FirstEnd(mail) ==> mail[i].Chunk?
  {
    assert forall i :: 0 <= i < FirstEnd(mail) ==> mail[i] in mail && mail[i].Chunk?;
    AllChunks(mail, FirstEnd(mail));
  }

  /** Taking the chunks, concluding and releasing, as one sequence of protocol steps. */
  lemma StreamActs(c: Config, s: Sched, id: JobId, silence: Option<string>, sent: nat, t: real) returns (s': Sched)
    requires At(s, id) && s.reqs[id].phase.Consuming? && s.reqs[id].phase.w < |s.pool| && s.reqs[id].spec.kind == Stream
    requires forall x <- s.reqs[id].mail :: x.Chunk? || x.End?
    requires sent <= FirstEnd(s.reqs[id].mail)
    ensures var mail, p := s.reqs[id].mail, s.reqs[id].phase;
            var (n, last) := LastReply(mail, silence, sent);
            && Acts(c, s, Receives(id, t, n) + [Collecting(id, last, t), Release(id)], s')
            && s'.queue == s.queue && s'.inbox == s.inbox
            && s'.pool == ReleaseBy(s.pool, s.pool[p.w].workerId, 0.0, id)
            && s'.drain == (if s.drain.Parked? then Woken(s.drain.id) else s.drain)
            && At(s', id) && s'.reqs[id].phase.Released? && s'.reqs[id].phase.outcome == OutcomeOf(Stream, id, last)
  {
    hide Acts, Receives, ReleaseBy, Chunks;
    var e := s.reqs[id];
    var (n, last) := LastReply(e.mail, silence, sent);
    ChunksBeforeEnd(e.mail);
    ReceiveChunks(c, s, id, t, n);
    var s1 := Taken(s, id, n);
    assert last.Got? ==> e.mail[n..][0] == last.msg;
    CollectThenRelease(c, s1, id, last, t);
    var s2 := Apply(c, s1, Collecting(id, last, t));
    s' := Apply(c, s2, Release(id));
    TwoActs(c, s1, Collecting(id, last, t), Release(id));
    ActsThen(c, s, Receives(id, t, n), s1, [Collecting(id, last, t), Release(id)], s');
  }

  lemma TwoActs(c: Config, s: Sched, a: Action, b: Action)
    requires Enabled(c, s, a) && Enabled(c, Apply(c, s, a), b)
    ensures Acts(c, s, [a, b], Apply(c, Apply(c, s, a), b))
  {
    hide Enabled, Apply;
    var s1 := Apply(c, s, a);
    var s2 := Apply(c, s1, b);
    assert Acts(c, s2, [], s2);
    assert [b][1..] == [] && Acts(c, s1, [b], s2);
    assert [a, b][1..] == [b];
  }

  /**
   Step 6 of `stream_tts` with nothing in between, when its result queue holds all the messages
   there will be: a Receive for every message taken, a TimeOut or Abort when there is no end marker
   or a send failed, and one Release.
   */
  method StreamAnswer(manager: QueueManager, socket: Socket, id: JobId, w: nat, mail: seq<Msg>, silence: Option<string>,
                      t: real, ghost c: Config, ghost s: Sched)
    returns (chunkCount: nat, totalBytes: nat, ghost s': Sched)
    requires manager.Shows(c, s) && At(s, id) && s.reqs[id].phase.Consuming? && s.reqs[id].phase.w == w
    requires s.reqs[id].spec.kind == Stream && w < |s.pool| && s.pool[w].workerId != ""
    requires mail == s.reqs[id].mail && forall x <- mail :: x.Chunk? || x.End?
    modifies manager`drain, socket, manager.dispatcher`notifications, manager.dispatcher.workers
    ensures var (n, last) := LastReply(mail, silence, chunkCount);
            && Acts(c, s, Receives(id, t, n) + [Collecting(id, last, t), Release(id)], s')
            && At(s', id) && s'.reqs[id].phase.Released? && s'.reqs[id].phase.outcome == OutcomeOf(Stream, id, last)
    ensures manager.Shows(c, s')
    ensures manager.dispatcher.notifications == old(manager.dispatcher.notifications) + 1
  {
    ChunksBeforeEnd(mail);
    assert manager.dispatcher.View()[w].workerId == manager.dispatcher.workers[w].workerId;
    hide Followed, Acts, LastReply, Receives, ReleaseBy, SecondFrame, Chunks, Terminal, Complete, BinaryFrames, Flatten;
    ghost var tail;
    chunkCount, totalBytes, tail :=
      StreamChunks(id, manager.dispatcher.workers[w].workerId, mail, silence, socket, manager.dispatcher);
    manager.drain := if manager.drain.Parked? then Woken(manager.drain.id) else manager.drain;
    s' := StreamActs(c, s, id, silence, chunkCount, t);
  }
}
