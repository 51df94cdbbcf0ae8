/**
 The job lifecycle on top of the scheduling protocol: HTTP handlers, completion
 callbacks, downloads, the cleanup sweep and a clock, over every interleaving.

 `POST /v1/tts` is a batch of one: it creates the job, submits it, and on a full
 queue marks it failed before answering 503.
 */
module Lifecycle {
  import opened Common
  import opened Messages
  import opened Scheduling
  import opened Jobs

  /** Where a submitting handler stands in its create/submit loop. */
  datatype Stage = Creating | Submitting | Marking(k: nat) | Accepted | Rejected

  datatype Handler = Handler(items: seq<Spec>, ids: seq<JobId>, stage: Stage) {
    /** The queue overflowed under this handler. */
    predicate Overflowed() {
      stage.Marking? || stage.Rejected?
    }
  }

  /** Sending the file, the file unlinked, the record's path cleared. */
  datatype DownloadStage = Sending | Removed | Cleared

  datatype Download = Download(id: JobId, stage: DownloadStage)

  /** History of one request: its handler, its statuses and its audio path values. */
  datatype Life = Life(handler: nat, index: nat, trace: seq<Status>, paths: seq<Option<Path>>)

  datatype Setup = Setup(c: Config, encode: (Samples, Format) -> Bytes, ttl: real, slack: real)

  datatype System = System(
    a: Sched,
    jobs: Table,
    files: map<Path, Bytes>,
    life: seq<Life>,
    handlers: seq<Handler>,
    downloads: seq<Download>,
    undeleted: set<Path>,   // history: files whose deletion failed
    now: real,
    swept: real)            // time of the last sweep

  datatype Event =
    | Post(items: seq<Spec>)
    | Create(h: nat)
    | Submit(h: nat)
    | Mark(h: nat)
    | Call(act: Action)
    | CallbackRuns(id: JobId)
    | CallbackFails(id: JobId)
    | CallbackSaves(id: JobId)
    | SaveRaises(id: JobId)
    | CallbackEnds(id: JobId)
    | Fetch(id: JobId)
    | Unlink(d: nat, ok: bool)
    | Forget(d: nat)
    | Sweep(stuck: set<Path>)
    | Tick(dt: real)

  const QUEUE_FULL := "Request queue is full. Try again later."

  /** The overflow's text is a true error. */
  lemma OverflowSpeaks()
    ensures Truthy(Some(QUEUE_FULL))
  {
    assert |QUEUE_FULL| > 0;
  }

  ghost predicate Start(k: Setup, s: System) {
    && Init(k.c, s.a) && k.ttl >= 0.0 && k.slack >= 0.0
    && s == System(s.a, map[], map[], [], [], [], {}, s.now, s.now)
  }

  predicate IsJob(s: System, id: JobId) {
    id < |s.a.reqs| && s.a.reqs[id].spec.kind == Job
  }

  function PathOf(s: System, id: JobId): Path
    requires id < |s.a.reqs|
  {
    Path(id, s.a.reqs[id].spec.format)
  }

  /** The scheduling actions taken as they are: those of no job's handler or callback. */
  ghost predicate Plain(s: System, act: Action) {
    match act
    case Arrive(spec) => spec.kind != Job
    case Enqueue(id) => !IsJob(s, id)
    case Refuse(id) => !IsJob(s, id)
    case Advance(id, to) => !IsJob(s, id) && to.Finished?
    case DrainPick(t) => t == s.now
    case Direct(_, t) => t == s.now
    case Start(_, t) => t == s.now
    case Receive(_, t) => t == s.now
    case TimeOut(_, t) => t == s.now
    case Abort(_, t, _) => t == s.now
    case _ => true
  }

  predicate Calling(s: System, id: JobId) {
    IsJob(s, id) && s.a.reqs[id].phase.Running? && s.a.reqs[id].phase.outcome.Result?
  }

  ghost predicate Allowed(k: Setup, s: System, e: Event) {
    match e
    case Post(items) => items != [] && forall x <- items :: x.kind == Job && x.payload.Speech?
    case Create(h) => h < |s.handlers| && s.handlers[h].stage.Creating? && |s.handlers[h].ids| < |s.handlers[h].items|
    case Submit(h) => h < |s.handlers| && s.handlers[h].stage.Submitting? && s.handlers[h].ids != [] &&
      var id := s.handlers[h].ids[|s.handlers[h].ids| - 1];
      Enabled(k.c, s.a, Enqueue(id)) || Enabled(k.c, s.a, Refuse(id))
    case Mark(h) => h < |s.handlers| && s.handlers[h].stage.Marking? && s.handlers[h].stage.k < |s.handlers[h].ids|
      && s.handlers[h].ids[s.handlers[h].stage.k] < |s.life|
    case Call(act) => Enabled(k.c, s.a, act) && Plain(s, act)
    case CallbackRuns(id) => IsJob(s, id) && id < |s.life| && s.a.reqs[id].phase.Released?
        && s.a.reqs[id].phase.w < |s.a.pool|
    case CallbackFails(id) => Calling(s, id) && id < |s.life| && Truthy(s.a.reqs[id].phase.outcome.error)
    case CallbackSaves(id) => Calling(s, id) && !Truthy(s.a.reqs[id].phase.outcome.error)
        && s.a.reqs[id].phase.outcome.audio.Some?
    case SaveRaises(id) => Calling(s, id) && !Truthy(s.a.reqs[id].phase.outcome.error)
    case CallbackEnds(id) => IsJob(s, id) && id < |s.life| && s.a.reqs[id].phase.Saved?
    case Fetch(id) => AudioStatus(s.jobs, s.files, id) == 200
    case Unlink(d, _) => d < |s.downloads| && s.downloads[d].stage.Sending? && s.downloads[d].id < |s.a.reqs|
    case Forget(d) => d < |s.downloads| && s.downloads[d].stage.Removed? && s.downloads[d].id < |s.life|
    case Sweep(_) => true
    case Tick(dt) => dt >= 0.0 && s.now + dt <= s.swept + 60.0 + k.slack
  }

  // ------------------------------------------------------------------
  // Effects
  // ------------------------------------------------------------------

  /** The store becomes `jobs` after an operation on `id`; the history notes what it changed. */
  function Stored(s: System, jobs: Table, id: JobId): System
    requires id < |s.life|
  {
    if id in s.jobs && id in jobs then
      var l := s.life[id];
      s.(jobs := jobs,
         life := s.life[id := l.(
           trace := if jobs[id].status != s.jobs[id].status then l.trace + [jobs[id].status] else l.trace,
           paths := if jobs[id].audioPath != s.jobs[id].audioPath then l.paths + [jobs[id].audioPath] else l.paths)])
    else
      s.(jobs := jobs)
  }

  function SetReqPhase(s: System, id: JobId, p: Phase): System
    requires id < |s.a.reqs|
  {
    s.(a := s.a.(reqs := s.a.reqs[id := s.a.reqs[id].(phase := p)]))
  }

  function SetHandler(s: System, h: nat, handler: Handler): System
    requires h < |s.handlers|
  {
    s.(handlers := s.handlers[h := handler])
  }

  function Created(k: Setup, s: System, h: nat): System
    requires h < |s.handlers| && |s.handlers[h].ids| < |s.handlers[h].items|
  {
    var hd := s.handlers[h];
    var spec := hd.items[|hd.ids|];
    var id := |s.a.reqs|;
    var text, language := if spec.payload.Speech? then spec.payload.text else "",
        if spec.payload.Speech? then spec.payload.language else "";
    SetHandler(s, h, hd.(ids := hd.ids + [id], stage := Submitting)).(
      a := s.a.(reqs := s.a.reqs + [Entry(spec, Fresh, Unposted, [], [], [])]),
      jobs := s.jobs[id := New(text, language, spec.speakerId, s.now)],
      life := s.life + [Life(h, |hd.ids|, [PENDING], [])])
  }

  ghost function Submitted(k: Setup, s: System, h: nat): System
    requires Allowed(k, s, Submit(h))
  {
    var hd := s.handlers[h];
    var id := hd.ids[|hd.ids| - 1];
    if Enabled(k.c, s.a, Enqueue(id))
    then SetHandler(s, h, hd.(stage := if |hd.ids| < |hd.items| then Creating else Accepted)).(
           a := Apply(k.c, s.a, Enqueue(id)))
    else SetHandler(s, h, hd.(stage := Marking(0))).(a := Apply(k.c, s.a, Refuse(id)))
  }

  function Marked(s: System, h: nat): System
    requires h < |s.handlers| && s.handlers[h].stage.Marking? && s.handlers[h].stage.k < |s.handlers[h].ids|
    requires s.handlers[h].ids[s.handlers[h].stage.k] < |s.life|
  {
    var hd := s.handlers[h];
    var id := hd.ids[hd.stage.k];
    SetHandler(Stored(s, MarkFailed(s.jobs, id, QUEUE_FULL, s.now), id), h,
               hd.(stage := if hd.stage.k + 1 < |hd.ids| then Marking(hd.stage.k + 1) else Rejected))
  }

  ghost function Called(k: Setup, s: System, act: Action): System
    requires Enabled(k.c, s.a, act)
  {
    s.(a := Apply(k.c, s.a, act), life := if act.Arrive? then s.life + [Life(0, 0, [], [])] else s.life)
  }

  function Runs(s: System, id: JobId): System
    requires id < |s.a.reqs| && id < |s.life| && s.a.reqs[id].phase.Released? && s.a.reqs[id].phase.w < |s.a.pool|
  {
    var p := s.a.reqs[id].phase;
    var slot := s.a.pool[p.w];
    Stored(SetReqPhase(s, id, Running(p.w, p.outcome, p.ms)),
           MarkRunning(s.jobs, id, slot.workerId, slot.gpu, p.ms, s.now), id)
  }

  function Fails(s: System, id: JobId): System
    requires id < |s.life| && Calling(s, id) && Truthy(s.a.reqs[id].phase.outcome.error)
  {
    var p := s.a.reqs[id].phase;
    Stored(SetReqPhase(s, id, Finished(p.w, p.outcome, p.ms)),
           MarkFailed(s.jobs, id, p.outcome.error.value, s.now), id)
  }

  function Saves(k: Setup, s: System, id: JobId): System
    requires Calling(s, id) && s.a.reqs[id].phase.outcome.audio.Some?
  {
    var p := s.a.reqs[id].phase;
    SetReqPhase(s, id, Saved(p.w, p.outcome, p.ms)).(
      files := s.files[PathOf(s, id) := k.encode(p.outcome.audio.value, s.a.reqs[id].spec.format)])
  }

  function Raises(s: System, id: JobId): System
    requires Calling(s, id)
  {
    var p := s.a.reqs[id].phase;
    SetReqPhase(s, id, Crashed(p.w, p.outcome, p.ms))
  }

  function Ends(s: System, id: JobId): System
    requires id < |s.a.reqs| && id < |s.life| && s.a.reqs[id].phase.Saved?
  {
    var p := s.a.reqs[id].phase;
    Stored(SetReqPhase(s, id, Finished(p.w, p.outcome, p.ms)), MarkDone(s.jobs, id, PathOf(s, id), s.now), id)
  }

  function Unlinked(s: System, d: nat, ok: bool): System
    requires d < |s.downloads| && s.downloads[d].id < |s.a.reqs|
  {
    var p := PathOf(s, s.downloads[d].id);
    s.(downloads := s.downloads[d := s.downloads[d].(stage := Removed)],
       files := if ok then s.files - {p} else s.files,
       undeleted := if ok then s.undeleted else s.undeleted + {p})
  }

  function Forgotten(s: System, d: nat): System
    requires d < |s.downloads| && s.downloads[d].id < |s.life|
  {
    Stored(s, ClearAudioPath(s.jobs, s.downloads[d].id), s.downloads[d].id).(
      downloads := s.downloads[d := s.downloads[d].(stage := Cleared)])
  }

  function Swept(k: Setup, s: System, stuck: set<Path>): System {
    var cutoff := s.now - k.ttl;
    s.(jobs := Unexpired(s.jobs, cutoff),
       files := s.files - (ExpiredFiles(s.jobs, cutoff) - stuck),
       undeleted := s.undeleted + stuck,
       swept := s.now)
  }

  ghost function After(k: Setup, s: System, e: Event): System
    requires Allowed(k, s, e)
  {
    match e
    case Post(items) => s.(handlers := s.handlers + [Handler(items, [], Creating)])
    case Create(h) => Created(k, s, h)
    case Submit(h) => Submitted(k, s, h)
    case Mark(h) => Marked(s, h)
    case Call(act) => Called(k, s, act)
    case CallbackRuns(id) => Runs(s, id)
    case CallbackFails(id) => Fails(s, id)
    case CallbackSaves(id) => Saves(k, s, id)
    case SaveRaises(id) => Raises(s, id)
    case CallbackEnds(id) => Ends(s, id)
    case Fetch(id) => s.(downloads := s.downloads + [Download(id, Sending)])
    case Unlink(d, ok) => Unlinked(s, d, ok)
    case Forget(d) => Forgotten(s, d)
    case Sweep(stuck) => Swept(k, s, stuck)
    case Tick(dt) => s.(now := s.now + dt)
  }
}
