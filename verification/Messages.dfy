/** Requests, the messages a worker may answer them with, and the speech model's contract. */
module Messages {
  import opened Common

  /** Fire-and-poll or batch job, synchronous endpoint, WebSocket stream, latent computation. */
  datatype Kind = Job | Sync | Stream | Latents

  datatype Format = Wav | Mp3 | Ogg | Flac

  type Sample = bv32
  type Samples = seq<Sample>

  datatype Voice = Voice(gptCondLatent: seq<seq<real>>, speakerEmbedding: seq<real>)

  datatype Params = Params(
    temperature: real, lengthPenalty: real, repetitionPenalty: real, topK: int, topP: real,
    doSample: bool, numBeams: int, speed: real, enableTextSplitting: bool)

  datatype Payload =
    | Speech(text: string, language: string, voice: Voice, params: Params)
    | Reference(wavPath: string)

  datatype Spec = Spec(kind: Kind, payload: Payload, format: Format, speakerId: string)

  datatype Msg =
    | Result(job: JobId, audio: Option<Samples>, error: Option<string>)
    | Chunk(job: JobId, samples: Samples)
    | End(job: JobId, error: Option<string>)
    | LatentsMsg(job: JobId, voice: Option<Voice>, error: Option<string>)

  /**
   The speech model, as the relations between an input and what it may return:
   a full clip, a complete stream of chunks, a stream cut short, a voice.
   */
  datatype Model = Model(
    infers: (Payload, Samples) -> bool,
    streams: (Payload, seq<Samples>) -> bool,
    begins: (Payload, seq<Samples>) -> bool,
    conditions: (Payload, Voice) -> bool)

  /** The samples of the chunks among `ms`, in order. */
  function ChunksOf(ms: seq<Msg>): seq<Samples> {
    if ms == [] then []
    else ChunksOf(ms[..|ms| - 1]) + if ms[|ms| - 1].Chunk? then [ms[|ms| - 1].samples] else []
  }

  /**
   What a worker may put on the private result queue of request `id`: one answer
   or nothing, and for a stream some chunks and at most one end marker.
   */
  ghost predicate Legal(m: Model, id: JobId, spec: Spec, script: seq<Msg>) {
    match spec.kind
    case Job => LegalReplies(m, id, spec, script)
    case Sync => LegalReplies(m, id, spec, script)
    case Stream => LegalStream(m, id, spec, script)
    case Latents => |script| <= 1 && forall x <- script :: GenuineLatents(m, id, spec, x)
  }

  ghost predicate LegalReplies(m: Model, id: JobId, spec: Spec, script: seq<Msg>) {
    |script| <= 1 && forall x <- script :: GenuineResult(m, id, spec, x) && (x.error.Some? ==> Truthy(x.error))
  }

  ghost predicate LegalStream(m: Model, id: JobId, spec: Spec, script: seq<Msg>) {
    && (forall i :: 0 <= i < |script| ==>
          script[i].job == id && (script[i].Chunk? || (script[i].End? && i == |script| - 1)))
    && (script != [] && script[|script| - 1].End? ==>
         script[|script| - 1].error.None? || Truthy(script[|script| - 1].error))
    && (if script != [] && script[|script| - 1].End? && script[|script| - 1].error.None?
        then m.streams(spec.payload, ChunksOf(script))
        else m.begins(spec.payload, ChunksOf(script)))
  }

  /** A result of `id` that carries audio only if the model inferred it from `id`'s own payload. */
  ghost predicate GenuineResult(m: Model, id: JobId, spec: Spec, x: Msg) {
    && x.Result? && x.job == id
    && (x.audio.Some? <==> x.error.None?)
    && (x.audio.Some? ==> m.infers(spec.payload, x.audio.value))
  }

  ghost predicate GenuineLatents(m: Model, id: JobId, spec: Spec, x: Msg) {
    && x.LatentsMsg? && x.job == id
    && (x.voice.Some? <==> x.error.None?)
    && (x.voice.Some? ==> m.conditions(spec.payload, x.voice.value))
  }

  /** What the consumer of `id` ends up with. */
  ghost predicate Genuine(m: Model, id: JobId, spec: Spec, x: Msg) {
    match spec.kind
    case Job => GenuineResult(m, id, spec, x)
    case Sync => GenuineResult(m, id, spec, x)
    case Stream => x.End? && x.job == id
    case Latents => GenuineLatents(m, id, spec, x)
  }

  /** The outcome recorded when no usable answer was collected. */
  function Failure(kind: Kind, id: JobId, error: string): Msg {
    match kind
    case Job => Result(id, None, Some(error))
    case Sync => Result(id, None, Some(error))
    case Stream => End(id, Some(error))
    case Latents => LatentsMsg(id, None, Some(error))
  }

  const NO_RESPONSE := "Worker did not respond in time — it may have crashed."

  /** The time-out's text is a true error. */
  lemma SilenceSpeaks()
    ensures Truthy(Some(NO_RESPONSE))
  {
    assert |NO_RESPONSE| > 0;
  }

  lemma FailureIsGenuine(m: Model, id: JobId, spec: Spec, error: string)
    ensures Genuine(m, id, spec, Failure(spec.kind, id, error))
  {
  }
}
