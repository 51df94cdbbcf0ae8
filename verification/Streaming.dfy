/** The WebSocket handler once its request is dispatched: frames, terminal frame and slot release. */
module Streaming {
  import opened Common
  import opened Messages
  import opened Pool
  import opened Dispatchers

  type Bytes = seq<bv8>

  // ------------------------------------------------------------------
  // float32 images
  // ------------------------------------------------------------------

  /** The little-endian bytes of one sample. */
  function Word(x: Sample): Bytes {
    [(x & 0xFF) as bv8, ((x >> 8) & 0xFF) as bv8, ((x >> 16) & 0xFF) as bv8, (x >> 24) as bv8]
  }

  function FromWord(b: Bytes): Sample
    requires |b| == 4
  {
    (b[0] as bv32) | ((b[1] as bv32) << 8) | ((b[2] as bv32) << 16) | ((b[3] as bv32) << 24)
  }

  /** `chunk.astype(np.float32).tobytes()`. */
  function Image(s: Samples): Bytes {
    if s == [] then [] else Word(s[0]) + Image(s[1..])
  }

  /** What a client makes of the bytes it receives. */
  function Unpack(b: Bytes): Samples {
    if |b| < 4 then [] else [FromWord(b[..4])] + Unpack(b[4..])
  }

  lemma {:induction false} ImageRoundTrip(s: Samples)
    ensures Unpack(Image(s)) == s && |Image(s)| == 4 * |s|
  {
    if s != [] {
      ImageRoundTrip(s[1..]);
      assert Image(s)[..4] == Word(s[0]) && Image(s)[4..] == Image(s[1..]);
      assert FromWord(Word(s[0])) == s[0];
    }
  }

  /** The least significant byte comes first. */
  lemma LittleEndian(a: bv8)
    ensures Image([a as bv32]) == [a, 0, 0, 0] && Image([(a as bv32) << 24]) == [0, 0, 0, a]
  {
    assert Image([]) == [];
    assert Word(a as bv32) == [a, 0, 0, 0] && Word((a as bv32) << 24) == [0, 0, 0, a];
  }

  lemma {:induction false} ImageOfConcat(s: Samples, t: Samples)
    ensures Image(s + t) == Image(s) + Image(t)
  {
    if s == [] {
      assert s + t == t;
    } else {
      ImageOfConcat(s[1..], t);
      assert (s + t)[1..] == s[1..] + t;
      hide Word;
      Associates(Word(s[0]), Image(s[1..]), Image(t));
    }
  }

  lemma Associates(a: Bytes, b: Bytes, c: Bytes)
    ensures (a + b) + c == a + (b + c)
  {
  }

  // ------------------------------------------------------------------
  // Frames
  // ------------------------------------------------------------------

  datatype Frame = Binary(data: Bytes) | Done | Error(detail: string)

  function BinaryFrames(chunks: seq<Samples>): seq<Frame> {
    seq(|chunks|, i requires 0 <= i < |chunks| => Binary(Image(chunks[i])))
  }

  function Flatten(chunks: seq<Samples>): Samples {
    if chunks == [] then [] else Flatten(chunks[..|chunks| - 1]) + chunks[|chunks| - 1]
  }

  /** All the audio bytes a client has received. */
  function Received(frames: seq<Frame>): Bytes {
    if frames == [] then []
    else Received(frames[..|frames| - 1]) + if frames[|frames| - 1].Binary? then frames[|frames| - 1].data else []
  }

  lemma {:induction false} ReceivedImage(chunks: seq<Samples>)
    ensures Received(BinaryFrames(chunks)) == Image(Flatten(chunks))
  {
    if chunks != [] {
      var n := |chunks| - 1;
      ReceivedImage(chunks[..n]);
      assert BinaryFrames(chunks)[..n] == BinaryFrames(chunks[..n]);
      ImageOfConcat(Flatten(chunks[..n]), chunks[n]);
    }
  }

  // ------------------------------------------------------------------
  // The handler
  // ------------------------------------------------------------------

  /** What becomes of one operation on the socket. */
  datatype Fate = Sent | Disconnected | Broken

  class Socket {
    const line: Line
    var attempts: nat
    var frames: seq<Frame>

    constructor (line: Line)
      ensures this.line == line && attempts == 0 && frames == []
    {
      this.line := line;
      attempts, frames := 0, [];
    }

    method Send(f: Frame) returns (fate: Fate)
      modifies this
      ensures fate == line(old(attempts)) && attempts == old(attempts) + 1
      ensures frames == if fate.Sent? then old(frames) + [f] else old(frames)
    {
      fate := line(attempts);
      attempts := attempts + 1;
      if fate.Sent? {
        frames := frames + [f];
      }
    }

    method Close() returns (fate: Fate)
      modifies this`attempts
      ensures fate == line(old(attempts)) && attempts == old(attempts) + 1
    {
      fate := line(attempts);
      attempts := attempts + 1;
    }

    /** `_close_error`: every exception is swallowed. */
    method CloseError(detail: string)
      modifies this
      ensures frames == if line(old(attempts)).Sent? then old(frames) + [Error(detail)] else old(frames)
    {
      var fate := Send(Error(detail));
      if fate.Sent? {
        fate := Close();
      }
    }
  }

  const INTERNAL := "Internal server error."

  function Clip(error: string): string {
    if |error| <= 300 then error else error[..300]
  }

  /** Position of the first end marker, or the length when there is none. */
  function FirstEnd(mail: seq<Msg>): (k: nat)
    ensures k <= |mail| && (forall i :: 0 <= i < k ==> !mail[i].End?) && (k < |mail| ==> mail[k].End?)
  {
    if mail == [] || mail[0].End? then 0 else 1 + FirstEnd(mail[1..])
  }

  lemma FirstEndAt(mail: seq<Msg>, k: nat)
    requires k <= |mail| && (forall i :: 0 <= i < k ==> !mail[i].End?) && (k < |mail| ==> mail[k].End?)
    ensures k == FirstEnd(mail)
  {
  }

  predicate Complete(mail: seq<Msg>) {
    FirstEnd(mail) < |mail| && !Truthy(mail[FirstEnd(mail)].error)
  }

  /** The last frame over a working socket. `silence` is what `get` raises besides a timeout, if it does. */
  function Terminal(mail: seq<Msg>, silence: Option<string>): Frame {
    if Complete(mail) then Done
    else if FirstEnd(mail) < |mail| then Error(Clip(mail[FirstEnd(mail)].error.value))
    else if silence.None? then Error(NO_RESPONSE)
    else Error(INTERNAL)
  }

  /**
   What a client is told in the end: done for a clean end marker, else the first 300 characters of its error;
   without one that the worker did not answer, or nothing of the exception that was raised instead.
   */
  lemma TerminalMeans(mail: seq<Msg>, silence: Option<string>, k: nat)
    requires k <= |mail| && (forall i :: 0 <= i < k ==> !mail[i].End?) && (k < |mail| ==> mail[k].End?)
    ensures k < |mail| && !Truthy(mail[k].error) ==> Terminal(mail, silence) == Done
    ensures k < |mail| && Truthy(mail[k].error) ==>
              var f, text := Terminal(mail, silence), mail[k].error.value;
              f.Error? && f.detail <= text && |f.detail| == if |text| <= 300 then |text| else 300
    ensures k == |mail| ==> Terminal(mail, silence) == Error(if silence.None? then NO_RESPONSE else INTERNAL)
    ensures Terminal(mail, silence).Error? ==> Terminal(mail, silence).detail != ""
  {
    assert |NO_RESPONSE| > 0 && |INTERNAL| > 0;
    FirstEndAt(mail, k);
  }

  type Line = nat -> Fate

  /** The operations from `start` up to `end` succeed. */
  ghost predicate AllSent(line: Line, start: nat, end: nat) {
    forall i: nat :: start <= i < end ==> line(i).Sent?
  }

  /** The outer handler's report, attempted as operation `at`. */
  function Report(line: Line, at: nat): seq<Frame> {
    if line(at).Sent? then [Error(INTERNAL)] else []
  }

  /** All frames after the binary ones, when `at` is the operation after them and `all` tells whether they were all. */
  function Ending(mail: seq<Msg>, silence: Option<string>, line: Line, at: nat, all: bool): seq<Frame> {
    if !all then
      if line(at).Broken? then Report(line, at + 1) else []
    else if Complete(mail) then
      match line(at)
      case Sent => [Done] + if line(at + 1).Broken? then Report(line, at + 2) else []
      case Broken => Report(line, at + 1)
      case Disconnected => []
    else if FirstEnd(mail) == |mail| && silence.Some? then
      Report(line, at)
    else
      if line(at).Sent? then [Terminal(mail, silence)] else []
  }

  /** `sent` binary frames went out before the first failure, or all did, and `tail` followed. */
  ghost predicate Followed(mail: seq<Msg>, silence: Option<string>,
                           line: Line, start: nat, sent: nat, tail: seq<Frame>) {
    && sent <= |Chunks(mail)| && AllSent(line, start, start + sent)
    && (sent < |Chunks(mail)| ==> !line(start + sent).Sent?)
    && tail == Ending(mail, silence, line, start + sent, sent == |Chunks(mail)|)
  }

  /**
   Who is told what. A client that leaves while chunks are sent is told nothing. A send that breaks is reported
   if the report goes through. After all chunks, a clean end is told by the done frame, and a broken attempt at
   it is reported; an error or a time-out is told once; any other exception is reported.
   */
  lemma EndingMeans(mail: seq<Msg>, silence: Option<string>, line: Line, start: nat, sent: nat, tail: seq<Frame>)
    requires Followed(mail, silence, line, start, sent, tail)
    ensures var at, report := start + sent, [Error(INTERNAL)];
            if sent < |Chunks(mail)| then
              tail == if line(at).Broken? && line(at + 1).Sent? then report else []
            else if Complete(mail) then
              && (line(at).Sent? ==> tail != [] && tail[0] == Done)
              && (line(at).Sent? ==> tail[1..] == if line(at + 1).Broken? && line(at + 2).Sent? then report else [])
              && (!line(at).Sent? ==> tail == if line(at).Broken? && line(at + 1).Sent? then report else [])
            else
              && (!line(at).Sent? ==> tail == [])
              && (line(at).Sent? ==> tail == [Terminal(mail, silence)])
  {
    hide Chunks, Terminal;
    assert FirstEnd(mail) == |mail| && silence.Some? ==> Terminal(mail, silence) == Error(INTERNAL) by {
      TerminalMeans(mail, silence, FirstEnd(mail));
    }
  }

  ghost predicate Working(socket: Socket) {
    forall n: nat :: socket.line(n) == Sent
  }

  /** The chunks before the first end marker. */
  function Chunks(mail: seq<Msg>): seq<Samples> {
    ChunksOf(mail[..FirstEnd(mail)])
  }

  /** The first `n` of the chunks were sent, in `totalBytes` bytes. */
  ghost predicate Sofar(chunks: seq<Samples>, n: nat, totalBytes: nat, before: seq<Frame>, frames: seq<Frame>) {
    && n <= |chunks|
    && frames == before + BinaryFrames(chunks[..n])
    && totalBytes == 4 * |Flatten(chunks[..n])|
  }

  lemma NothingSent(chunks: seq<Samples>, before: seq<Frame>)
    ensures Sofar(chunks, 0, 0, before, before)
  {
  }

  lemma ChunkSent(chunks: seq<Samples>, n: nat, totalBytes: nat, before: seq<Frame>, frames: seq<Frame>)
    requires Sofar(chunks, n, totalBytes, before, frames) && n < |chunks|
    ensures Sofar(chunks, n + 1, totalBytes + |Image(chunks[n])|, before, frames + [Binary(Image(chunks[n]))])
  {
    ImageRoundTrip(chunks[n]);
    hide Image, Unpack;
    assert chunks[..n + 1][..n] == chunks[..n];
    assert BinaryFrames(chunks[..n + 1]) == BinaryFrames(chunks[..n]) + [Binary(Image(chunks[n]))];
  }

  lemma NextChunk(mail: seq<Msg>, i: nat)
    requires i < FirstEnd(mail)
    ensures var n := |ChunksOf(mail[..i])|;
            && |ChunksOf(mail[..i + 1])| == n + (if mail[i].Chunk? then 1 else 0)
            && (mail[i].Chunk? ==> n < |Chunks(mail)| && Chunks(mail)[n] == mail[i].samples)
  {
    assert mail[..i + 1][..i] == mail[..i];
    ChunksPrefix(mail, i + 1, FirstEnd(mail));
  }

  lemma {:induction false} ChunksPrefix(mail: seq<Msg>, i: nat, k: nat)
    requires i <= k <= |mail|
    ensures ChunksOf(mail[..i]) <= ChunksOf(mail[..k])
  {
    if i < k {
      ChunksPrefix(mail, i, k - 1);
      assert mail[..k][..k - 1] == mail[..k - 1];
    }
  }

  /** `sent` chunks went out since operation `start`, and the socket did nothing else. */
  ghost predicate Sending(socket: Socket, start: nat, sent: nat)
    reads socket
  {
    socket.attempts == start + sent && AllSent(socket.line, start, socket.attempts)
  }

  /** What has been sent after the chunks, with the report that a broken socket is still to get. */
  ghost predicate Ends(mail: seq<Msg>, silence: Option<string>, socket: Socket,
                       start: nat, sent: nat, tail: seq<Frame>, fate: Fate)
    reads socket
  {
    Followed(mail, silence, socket.line, start, sent,
        tail + if fate.Broken? then Report(socket.line, socket.attempts) else [])
  }

  /** The end marker's branch: an error frame, or the done frame and a close. */
  method EndStream(error: Option<string>, socket: Socket,
                   ghost mail: seq<Msg>, ghost silence: Option<string>, ghost start: nat)
    returns (fate: Fate, ghost tail: seq<Frame>)
    requires FirstEnd(mail) < |mail| && error == mail[FirstEnd(mail)].error && Sending(socket, start, |Chunks(mail)|)
    modifies socket
    ensures socket.frames == old(socket.frames) + tail
    ensures Ends(mail, silence, socket, start, |Chunks(mail)|, tail, fate)
  {
    if Truthy(error) {
      socket.CloseError(Clip(error.value));
      fate := Sent;
    } else {
      fate := socket.Send(Done);
      if fate.Sent? {
        fate := socket.Close();
      }
    }
    tail := socket.frames[|old(socket.frames)|..];
  }

  /** No message is left: a timeout is told to the client, any other exception is passed on. */
  method FallSilent(socket: Socket, silence: Option<string>, ghost mail: seq<Msg>, ghost start: nat)
    returns (fate: Fate, ghost tail: seq<Frame>)
    requires FirstEnd(mail) == |mail| && Sending(socket, start, |Chunks(mail)|)
    modifies socket
    ensures socket.frames == old(socket.frames) + tail
    ensures Ends(mail, silence, socket, start, |Chunks(mail)|, tail, fate)
  {
    fate := Broken;
    if silence.None? {
      socket.CloseError(NO_RESPONSE);
      fate := Sent;
    }
    tail := socket.frames[|old(socket.frames)|..];
  }

  /** One chunk: its image, then the counters. */
  method SendChunk(chunk: Samples, sent: nat, totalBytes: nat, socket: Socket,
                   ghost mail: seq<Msg>, ghost silence: Option<string>, ghost start: nat, ghost before: seq<Frame>)
    returns (fate: Fate, bytes: nat)
    requires sent < |Chunks(mail)| && chunk == Chunks(mail)[sent] && Sending(socket, start, sent)
    requires Sofar(Chunks(mail), sent, totalBytes, before, socket.frames)
    modifies socket
    ensures fate.Sent? ==>
              Sending(socket, start, sent + 1) && Sofar(Chunks(mail), sent + 1, bytes, before, socket.frames)
    ensures !fate.Sent? ==> socket.frames == old(socket.frames) && Ends(mail, silence, socket, start, sent, [], fate)
  {
    ChunkSent(Chunks(mail), sent, totalBytes, before, socket.frames);
    hide Sofar, Image;
    fate := socket.Send(Binary(Image(chunk)));
    bytes := totalBytes + |Image(chunk)|;
  }

  /** The chunk loop: until an end marker, silence or a failing send. */
  method Relay(mail: seq<Msg>, silence: Option<string>, socket: Socket)
    returns (chunkCount: nat, totalBytes: nat, fate: Fate, ghost body: seq<Frame>, ghost tail: seq<Frame>)
    modifies socket
    ensures Sofar(Chunks(mail), chunkCount, totalBytes, old(socket.frames), body) && socket.frames == body + tail
    ensures Ends(mail, silence, socket, old(socket.attempts), chunkCount, tail, fate)
  {
    ghost var before, start := socket.frames, socket.attempts;
    chunkCount, totalBytes, body, tail := 0, 0, before, [];
    var i, bytes := 0, 0;
    NothingSent(Chunks(mail), before);
    assert Sending(socket, start, 0);
    hide Sofar, Sending, Ends;
    while true
      invariant i <= |mail| && forall j :: 0 <= j < i ==> !mail[j].End?
      invariant chunkCount == |ChunksOf(mail[..i])|
      invariant Sofar(Chunks(mail), chunkCount, totalBytes, before, socket.frames)
      invariant Sending(socket, start, chunkCount) && tail == []
      decreases |mail| - i
    {
      body := socket.frames;
      if i == |mail| {
        FirstEndAt(mail, i);
        fate, tail := FallSilent(socket, silence, mail, start);
        return;
      }
      var item := mail[i];
      if item.End? {
        FirstEndAt(mail, i);
        fate, tail := EndStream(item.error, socket, mail, silence, start);
        return;
      }
      NextChunk(mail, i);
      if item.Chunk? {
        fate, bytes := SendChunk(item.samples, chunkCount, totalBytes, socket, mail, silence, start, before);
        if !fate.Sent? {
          return;
        }
        chunkCount, totalBytes := chunkCount + 1, bytes;
      }
      i := i + 1;
    }
  }

  /**
   Step 6 of `stream_tts` over a result queue that yields `mail` and then nothing more: binary
   frames for a prefix of the chunks, then exactly `Ending`. A second frame after the done frame
   appears if and only if everything up to it was sent, closing fails other than by a disconnect,
   and the report of that failure is sent all the same. The slot is released exactly once,
   whatever the socket does.
   */
  method StreamChunks(id: JobId, workerId: string, mail: seq<Msg>, silence: Option<string>,
                      socket: Socket, dispatcher: Dispatcher)
    returns (chunkCount: nat, totalBytes: nat, ghost tail: seq<Frame>)
    requires dispatcher.Valid() && workerId != ""
    modifies socket, dispatcher`notifications, dispatcher.workers
    ensures Followed(mail, silence, socket.line, old(socket.attempts), chunkCount, tail)
    ensures chunkCount <= |Chunks(mail)|
    ensures socket.frames == old(socket.frames) + BinaryFrames(Chunks(mail)[..chunkCount]) + tail
    ensures totalBytes == 4 * |Flatten(Chunks(mail)[..chunkCount])|
    ensures tail == [] || tail == [Terminal(mail, silence)] || tail == [Error(INTERNAL)]
        || tail == [Done, Error(INTERNAL)]
    ensures Done in tail ==> Complete(mail) && chunkCount == |Chunks(mail)|
    ensures Working(socket) ==> tail == [Terminal(mail, silence)] && chunkCount == |Chunks(mail)|
    ensures |tail| > 1 <==> SecondFrame(mail, socket.line, old(socket.attempts))
    ensures dispatcher.View() == ReleaseBy(old(dispatcher.View()), workerId, 0.0, id)
    ensures dispatcher.Inboxes() == old(dispatcher.Inboxes())
    ensures dispatcher.notifications == old(dispatcher.notifications) + 1
  {
    var fate;
    ghost var body, start := [], socket.attempts;
    chunkCount, totalBytes, fate, body, tail := Relay(mail, silence, socket);
    SofarMeans(Chunks(mail), chunkCount, totalBytes, old(socket.frames), body);
    hide *;
    dispatcher.Release(workerId, 0.0, id);
    tail := ReportIfBroken(socket, fate, tail, mail, silence, start, chunkCount, body);
    SecondFrameIff(mail, silence, socket.line, start, chunkCount, tail);
  }

  /** The outer `except`: one attempt to report. */
  method ReportIfBroken(socket: Socket, fate: Fate, ghost tail: seq<Frame>, ghost mail: seq<Msg>,
                        ghost silence: Option<string>, ghost start: nat, ghost sent: nat, ghost body: seq<Frame>)
    returns (ghost all: seq<Frame>)
    requires Ends(mail, silence, socket, start, sent, tail, fate) && socket.frames == body + tail
    modifies socket
    ensures Followed(mail, silence, socket.line, start, sent, all) && socket.frames == body + all
  {
    all := tail;
    if fate.Broken? {
      ghost var before := socket.frames;
      socket.CloseError(INTERNAL);
      all := tail + socket.frames[|before|..];
    }
  }

  lemma SofarMeans(chunks: seq<Samples>, n: nat, totalBytes: nat, before: seq<Frame>, body: seq<Frame>)
    requires Sofar(chunks, n, totalBytes, before, body)
    ensures n <= |chunks| && body == before + BinaryFrames(chunks[..n]) && totalBytes == 4 * |Flatten(chunks[..n])|
  {
  }

  /** Everything up to the done frame is sent, the close breaks, and a report of it is still sent. */
  ghost predicate SecondFrame(mail: seq<Msg>, line: Line, start: nat) {
    var n := |Chunks(mail)|;
    && Complete(mail) && AllSent(line, start, start + n + 1)
    && line(start + n + 1).Broken? && line(start + n + 2).Sent?
  }

  lemma SecondFrameIff(mail: seq<Msg>, silence: Option<string>, line: Line, start: nat, sent: nat, tail: seq<Frame>)
    requires Followed(mail, silence, line, start, sent, tail)
    ensures tail == [] || tail == [Terminal(mail, silence)] || tail == [Error(INTERNAL)]
        || tail == [Done, Error(INTERNAL)]
    ensures Done in tail ==> Complete(mail) && sent == |Chunks(mail)|
    ensures |tail| > 1 <==> SecondFrame(mail, line, start)
    ensures (forall n: nat :: line(n) == Sent) ==> tail == [Terminal(mail, silence)] && sent == |Chunks(mail)|
  {
    hide Chunks;
    assert sent < |Chunks(mail)| ==> !AllSent(line, start, start + |Chunks(mail)| + 1);
  }

  /** A socket that breaks when it is closed and works again afterwards: an error frame follows the done frame. */
  method FrameAfterDone() returns (frames: seq<Frame>)
    ensures frames == [Done, Error(INTERNAL)]
  {
    var dispatcher := new Dispatcher();
    var socket := new Socket(n => if n == 1 then Broken else Sent);
    var mail := [End(0, None)];
    assert FirstEnd(mail) == 0 && Chunks(mail) == [];
    assert SecondFrame(mail, socket.line, 0);
    ghost var tail;
    var chunkCount, totalBytes;
    chunkCount, totalBytes, tail := StreamChunks(0, "gpu0-w0", mail, None, socket, dispatcher);
    frames := socket.frames;
  }

  lemma MailOfScript(script: seq<Msg>, mail: seq<Msg>)
    requires mail <= script
    ensures Chunks(mail) <= ChunksOf(script)
  {
    var k := FirstEnd(mail);
    assert mail[..k] == script[..k];
    ChunksPrefix(script, k, |script|);
    assert script[..|script|] == script;
  }

  /** A worker's end marker is the last message of its script, so a consumer that sees it has seen all. */
  lemma EndIsLast(m: Model, id: JobId, spec: Spec, script: seq<Msg>, mail: seq<Msg>)
    requires spec.kind == Stream && LegalStream(m, id, spec, script) && mail <= script && Complete(mail)
    ensures mail == script && Chunks(mail) == ChunksOf(script) && m.streams(spec.payload, Chunks(mail))
  {
  }

  /**
   What a client receives: the frames it got decode to the samples of the first chunks that the
   worker put on the queue, and a done frame tells it that it has the model's complete stream.
   */
  lemma StreamFidelity(m: Model, id: JobId, spec: Spec, script: seq<Msg>, mail: seq<Msg>, n: nat, tail: seq<Frame>)
    requires spec.kind == Stream && Legal(m, id, spec, script) && mail <= script
    requires n <= |Chunks(mail)| && forall f <- tail :: !f.Binary?
    ensures n <= |ChunksOf(script)|
    ensures Unpack(Received(BinaryFrames(Chunks(mail)[..n]) + tail)) == Flatten(ChunksOf(script)[..n])
    ensures Complete(mail) ==> mail == script && m.streams(spec.payload, Chunks(mail))
  {
    if Complete(mail) {
      EndIsLast(m, id, spec, script, mail);
    }
    MailOfScript(script, mail);
    hide *;
    var cs := Chunks(mail)[..n];
    assert cs == ChunksOf(script)[..n];
    ReceivedTail(BinaryFrames(cs), tail);
    ReceivedImage(cs);
    ImageRoundTrip(Flatten(cs));
  }

  lemma {:induction false} ReceivedTail(frames: seq<Frame>, tail: seq<Frame>)
    requires forall f <- tail :: !f.Binary?
    ensures Received(frames + tail) == Received(frames)
  {
    if tail == [] {
      assert frames + tail == frames;
    } else {
      ReceivedTail(frames, tail[..|tail| - 1]);
      assert (frames + tail)[..|frames + tail| - 1] == frames + tail[..|tail| - 1];
    }
  }
}
