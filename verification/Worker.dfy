/** The worker process: its request loop and what each handler puts on a request's own result queue. */
module Workers {
  import opened Common
  import opened Messages

  /** The private result queue that travels with a request. */
  class ResultQueue {
    var items: seq<Msg>

    method Put(x: Msg)
      modifies this
      ensures items == old(items) + [x]
    {
      items := items + [x];
    }
  }

  datatype Request = Request(id: JobId, spec: Spec, replies: ResultQueue)

  /** What stands in a worker's request queue. */
  datatype Order = Ask(request: Request) | Unknown | Sentinel

  /** What the model call of one handler comes to, and the milliseconds it takes. */
  datatype Outcome =
    | Returned(audio: Samples, ms: real)
    | Streamed(chunks: seq<Samples>, raised: Option<string>, ms: real)
    | Conditioned(voice: Voice, ms: real)
    | Threw(traceback: string, ms: real)

  ghost predicate Possible(m: Model, spec: Spec, o: Outcome) {
    match o
    case Returned(audio, _) => (spec.kind == Job || spec.kind == Sync) && m.infers(spec.payload, audio)
    case Streamed(chunks, None, _) => spec.kind == Stream && m.streams(spec.payload, chunks)
    case Streamed(chunks, Some(tb), _) => spec.kind == Stream && m.begins(spec.payload, chunks) && tb != ""
    case Conditioned(voice, _) => spec.kind == Latents && m.conditions(spec.payload, voice)
    case Threw(tb, _) => spec.kind != Stream && tb != ""
  }

  /** The messages tell what the model call came to: its audio, its chunks, its voice or its traceback. */
  ghost predicate Tells(o: Outcome, script: seq<Msg>) {
    match o
    case Returned(audio, _) => |script| == 1 && script[0].Result? && script[0].audio == Some(audio)
    case Conditioned(voice, _) => |script| == 1 && script[0].LatentsMsg? && script[0].voice == Some(voice)
    case Threw(text, _) =>
      |script| == 1 && (script[0].Result? || script[0].LatentsMsg?) && script[0].error == Some(text)
    case Streamed(chunks, raised, _) =>
      && |script| == |chunks| + 1 && ChunksOf(script) == chunks
      && script[|chunks|].End? && script[|chunks|].error == raised
  }

  /** `_handle_synthesis`: one answer, with audio exactly when the model returned some. */
  method HandleSynthesis(r: Request, o: Outcome, ghost m: Model) returns (ms: real, ghost script: seq<Msg>)
    requires r.spec.kind == Job || r.spec.kind == Sync
    requires Possible(m, r.spec, o)
    modifies r.replies
    ensures r.replies.items == old(r.replies.items) + script && ms == o.ms
    ensures Legal(m, r.id, r.spec, script) && |script| == 1 && Tells(o, script)
    ensures script[0].Result? && (script[0].audio.Some? <==> o.Returned?)
  {
    ms := o.ms;
    if o.Returned? {
      script := [Result(r.id, Some(o.audio), None)];
      r.replies.Put(Result(r.id, Some(o.audio), None));
    } else {
      script := [Result(r.id, None, Some(o.traceback))];
      r.replies.Put(Result(r.id, None, Some(o.traceback)));
    }
  }

  /** `_handle_stream`: every chunk of the model in order, then one end marker. */
  method HandleStream(r: Request, o: Outcome, ghost m: Model) returns (ms: real, ghost script: seq<Msg>)
    requires r.spec.kind == Stream && Possible(m, r.spec, o)
    modifies r.replies
    ensures r.replies.items == old(r.replies.items) + script && ms == o.ms
    ensures Legal(m, r.id, r.spec, script) && Tells(o, script)
    ensures ChunksOf(script) == o.chunks && |script| == |o.chunks| + 1 && script[|o.chunks|] == End(r.id, o.raised)
  {
    ms := o.ms;
    script := [];
    for i := 0 to |o.chunks|
      invariant r.replies.items == old(r.replies.items) + script
      invariant |script| == i && ChunksOf(script) == o.chunks[..i]
      invariant forall j :: 0 <= j < i ==> script[j].job == r.id && script[j].Chunk?
    {
      r.replies.Put(Chunk(r.id, o.chunks[i]));
      ChunksOfSnoc(script, Chunk(r.id, o.chunks[i]));
      script := script + [Chunk(r.id, o.chunks[i])];
    }
    assert o.chunks[..|o.chunks|] == o.chunks;
    r.replies.Put(End(r.id, o.raised));
    ChunksOfSnoc(script, End(r.id, o.raised));
    script := script + [End(r.id, o.raised)];
    assert ChunksOf(script) == o.chunks;
    assert o.raised.None? ==> m.streams(r.spec.payload, o.chunks);
    assert o.raised.Some? ==> m.begins(r.spec.payload, o.chunks);
  }

  lemma ChunksOfSnoc(ms: seq<Msg>, x: Msg)
    ensures ChunksOf(ms + [x]) == ChunksOf(ms) + if x.Chunk? then [x.samples] else []
  {
  }

  /** `_handle_compute_latents`: one answer, with a voice exactly when the model found one. */
  method HandleComputeLatents(r: Request, o: Outcome, ghost m: Model) returns (ghost script: seq<Msg>)
    requires r.spec.kind == Latents && Possible(m, r.spec, o)
    modifies r.replies
    ensures r.replies.items == old(r.replies.items) + script
    ensures Legal(m, r.id, r.spec, script) && |script| == 1 && Tells(o, script)
    ensures script[0].LatentsMsg? && (script[0].voice.Some? <==> o.Conditioned?)
  {
    if o.Conditioned? {
      script := [LatentsMsg(r.id, Some(o.voice), None)];
      r.replies.Put(LatentsMsg(r.id, Some(o.voice), None));
    } else {
      script := [LatentsMsg(r.id, None, Some(o.traceback))];
      r.replies.Put(LatentsMsg(r.id, None, Some(o.traceback)));
    }
  }

  method Handle(r: Request, o: Outcome, ghost m: Model) returns (ms: real, ghost script: seq<Msg>)
    requires Possible(m, r.spec, o)
    modifies r.replies
    ensures r.replies.items == old(r.replies.items) + script
    ensures Legal(m, r.id, r.spec, script) && script != [] && Tells(o, script)
    ensures ms == if Counts(Ask(r)) then o.ms else 0.0
  {
    match r.spec.kind {
      case Stream => ms, script := HandleStream(r, o, m);
      case Latents => script := HandleComputeLatents(r, o, m); ms := 0.0;
      case _ => ms, script := HandleSynthesis(r, o, m);
    }
  }

  // ------------------------------------------------------------------
  // The request loop
  // ------------------------------------------------------------------

  /** Requests that enter the worker's own statistics. */
  predicate Counts(order: Order) {
    order.Ask? && order.request.spec.kind != Latents
  }

  function Total(orders: seq<Order>): nat {
    if orders == [] then 0 else Total(orders[..|orders| - 1]) + if Counts(orders[|orders| - 1]) then 1 else 0
  }

  /** The requests among `orders` that synthesise speech. */
  ghost function Synthesised(orders: seq<Order>): set<nat> {
    set i: nat | i < |orders| && orders[i].Ask? && orders[i].request.spec.kind in {Job, Sync, Stream}
  }

  lemma {:induction false} TotalMeans(orders: seq<Order>)
    ensures Total(orders) == |Synthesised(orders)|
  {
    if orders == [] {
      assert Synthesised(orders) == {};
    } else {
      var n := |orders| - 1;
      TotalMeans(orders[..n]);
      if Counts(orders[n]) {
        assert Synthesised(orders) == Synthesised(orders[..n]) + {n};
      } else {
        assert Synthesised(orders) == Synthesised(orders[..n]);
      }
    }
  }

  function TotalMs(orders: seq<Order>, outcomes: seq<Outcome>): real
    requires |orders| == |outcomes|
  {
    if orders == [] then 0.0
    else
      var n := |orders| - 1;
      TotalMs(orders[..n], outcomes[..n]) + if Counts(orders[n]) then outcomes[n].ms else 0.0
  }

  /** Each such request adds its own milliseconds, and nothing else adds any. */
  lemma TotalMsMeans(orders: seq<Order>, outcomes: seq<Outcome>, i: nat)
    requires |orders| == |outcomes| && i < |orders|
    ensures TotalMs([], []) == 0.0
    ensures TotalMs(orders[..i + 1], outcomes[..i + 1]) - TotalMs(orders[..i], outcomes[..i])
            == if i in Synthesised(orders) then outcomes[i].ms else 0.0
  {
    assert orders[..i + 1][..i] == orders[..i] && outcomes[..i + 1][..i] == outcomes[..i];
  }

  /** How many orders come before the first shutdown sentinel. */
  function BeforeSentinel(orders: seq<Order>): (n: nat)
    ensures n <= |orders| && (forall i :: 0 <= i < n ==> !orders[i].Sentinel?) && (n < |orders| ==> orders[n].Sentinel?)
  {
    if orders == [] || orders[0].Sentinel? then 0 else 1 + BeforeSentinel(orders[1..])
  }

  lemma SentinelAt(orders: seq<Order>, n: nat)
    requires n <= |orders| && (forall i :: 0 <= i < n ==> !orders[i].Sentinel?)
        && (n < |orders| ==> orders[n].Sentinel?)
    ensures n == BeforeSentinel(orders)
  {
  }

  ghost predicate OwnQueues(orders: seq<Order>) {
    forall i, j :: 0 <= i < j < |orders| && orders[i].Ask? && orders[j].Ask? ==>
      orders[i].request.replies != orders[j].request.replies
  }

  function Queues(orders: seq<Order>): set<ResultQueue> {
    set i | 0 <= i < |orders| && orders[i].Ask? :: orders[i].request.replies
  }

  /**
   `worker_main`'s loop over what its request queue holds: it serves the orders before the first
   sentinel, each with messages of that request alone, on that request's queue alone.
   */
  method ServeAll(orders: seq<Order>, outcomes: seq<Outcome>, ghost m: Model)
    returns (n: nat, totalRequests: nat, totalMs: real, ghost scripts: seq<seq<Msg>>)
    requires |orders| == |outcomes| && OwnQueues(orders)
    requires forall i :: 0 <= i < |orders| && orders[i].Ask? ==> Possible(m, orders[i].request.spec, outcomes[i])
    modifies Queues(orders)
    ensures n == BeforeSentinel(orders) && |scripts| == n
    ensures forall i :: 0 <= i < n && orders[i].Ask? ==>
              && Legal(m, orders[i].request.id, orders[i].request.spec, scripts[i]) && scripts[i] != []
              && Tells(outcomes[i], scripts[i])
              && orders[i].request.replies.items == old(orders[i].request.replies.items) + scripts[i]
    ensures forall i :: n <= i < |orders| && orders[i].Ask? ==>
              orders[i].request.replies.items == old(orders[i].request.replies.items)
    ensures totalRequests == Total(orders[..n]) && totalMs == TotalMs(orders[..n], outcomes[..n])
  {
    hide Legal, Possible, Tells;
    n, totalRequests, totalMs, scripts := 0, 0, 0.0, [];
    while n < |orders| && !orders[n].Sentinel?
      invariant n <= |orders| && |scripts| == n
      invariant forall i :: 0 <= i < n ==> !orders[i].Sentinel?
      invariant forall i :: 0 <= i < n && orders[i].Ask? ==>
              && Legal(m, orders[i].request.id, orders[i].request.spec, scripts[i]) && scripts[i] != []
              && Tells(outcomes[i], scripts[i])
              && orders[i].request.replies.items == old(orders[i].request.replies.items) + scripts[i]
      invariant forall i :: n <= i < |orders| && orders[i].Ask? ==>
              orders[i].request.replies.items == old(orders[i].request.replies.items)
      invariant totalRequests == Total(orders[..n]) && totalMs == TotalMs(orders[..n], outcomes[..n])
    {
      assert orders[..n + 1][..n] == orders[..n] && outcomes[..n + 1][..n] == outcomes[..n];
      ghost var script: seq<Msg> := [];
      if orders[n].Ask? {
        assert orders[n].request.replies in Queues(orders);
        var ms;
        ms, script := Handle(orders[n].request, outcomes[n], m);
        if Counts(orders[n]) {
          totalRequests, totalMs := totalRequests + 1, totalMs + ms;
        }
      }
      scripts := scripts + [script];
      n := n + 1;
    }
    SentinelAt(orders, n);
  }
}
