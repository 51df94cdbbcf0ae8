/** The invariant of the job lifecycle: each job is judged on its own view of the system. */
module LifecycleSafety {
  import opened Common
  import opened Messages
  import opened Scheduling
  import opened Jobs
  import opened Lifecycle

  // ------------------------------------------------------------------
  // Views
  // ------------------------------------------------------------------

  /** An item that an overflowing batch had already enqueued. */
  predicate Stray(s: System, id: JobId) {
    && id < |s.life| && s.life[id].handler < |s.handlers|
    && s.handlers[s.life[id].handler].Overflowed()
    && s.life[id].index + 1 < |s.handlers[s.life[id].handler].ids|
  }

  predicate BeingMarked(s: System, id: JobId) {
    id < |s.life| && s.life[id].handler < |s.handlers| && s.handlers[s.life[id].handler].stage.Marking?
  }

  predicate DownloadAt(s: System, id: JobId, stage: DownloadStage) {
    Download(id, stage) in s.downloads
  }

  /** Everything the invariant of one request depends on, except the clock. */
  datatype View = View(
    spec: Spec, phase: Phase, life: Life, job: Option<Record>, file: Option<Bytes>,
    stray: bool, marking: bool, undeleted: bool, sending: bool, removed: bool, cleared: bool)

  function ViewOf(s: System, id: JobId): View
    requires id < |s.a.reqs| && id < |s.life|
  {
    var p := PathOf(s, id);
    View(s.a.reqs[id].spec, s.a.reqs[id].phase, s.life[id],
         if id in s.jobs then Some(s.jobs[id]) else None,
         if p in s.files then Some(s.files[p]) else None,
         Stray(s, id), BeingMarked(s, id), p in s.undeleted,
         DownloadAt(s, id, Sending), DownloadAt(s, id, Removed), DownloadAt(s, id, Cleared))
  }

  function Last(trace: seq<Status>): Status
    requires trace != []
  {
    trace[|trace| - 1]
  }

  predicate IsTerminal(status: Status) {
    status == DONE || status == FAILED
  }

  /** The only trace a job that is no stray may have, stage by stage. */
  function Expected(v: View): seq<Status> {
    match v.phase
    case Refused => if v.marking then [PENDING] else [PENDING, FAILED]
    case Running(_, _, _) => [PENDING, RUNNING]
    case Saved(_, _, _) => [PENDING, RUNNING]
    case Crashed(_, _, _) => [PENDING, RUNNING]
    case Finished(_, outcome, _) =>
      [PENDING, RUNNING] + if outcome.Result? && Truthy(outcome.error) then [FAILED] else [DONE]
    case _ => [PENDING]
  }

  ghost predicate Untouched(v: View) {
    && v.life.trace == [] && v.life.paths == [] && v.job.None? && v.file.None?
    && !v.sending && !v.removed && !v.cleared
  }

  ghost predicate StatusOk(v: View) {
    && v.life.trace != [] && v.life.trace[0] == PENDING
    && (v.job.Some? ==> v.job.value.status == Last(v.life.trace))
    && (v.job.None? ==> IsTerminal(Last(v.life.trace)))
    && (!v.stray ==> v.life.trace == Expected(v))
    && (v.phase.Finished? ==> IsTerminal(Last(v.life.trace)))
    && (Last(v.life.trace) == DONE ==> v.phase.Finished?)
    && (!v.stray && v.job.Some? ==> (v.job.value.error.Some? <==> v.job.value.status == FAILED))
  }

  predicate HasAudio(v: View) {
    v.phase.Concluded() && v.phase.outcome.Result? && v.phase.outcome.audio.Some? && !Truthy(v.phase.outcome.error)
  }

  ghost predicate AudioOk(k: Setup, v: View, path: Path) {
    && (v.job.Some? ==> v.job.value.audioPath == if v.life.paths == [] then None else v.life.paths[|v.life.paths| - 1])
    && (v.life.paths == [] || (v.phase.Finished?
         && (v.life.paths == [Some(path)] || v.life.paths == [Some(path), None])))
    && (v.job.Some? && v.job.value.status == DONE ==> v.life.paths != [])
    && (v.life.paths != [] ==> HasAudio(v))
    && (v.file.Some? ==> (v.phase.Saved? || v.phase.Finished?) && HasAudio(v)
                         && v.file.value == k.encode(v.phase.outcome.audio.value, v.spec.format))
    && (v.phase.Saved? ==> v.file.Some?)
    && (v.sending || v.removed || v.cleared ==> v.phase.Finished? && v.life.paths != [])
    && (v.removed || v.cleared ==> !v.undeleted ==> v.file.None?)
    && (v.cleared && v.job.Some? ==> |v.life.paths| == 2)
    && (v.job.Some? && v.job.value.audioPath.Some? && v.file.None? ==> v.removed)
    && (v.file.Some? && !v.stray && !v.undeleted && v.phase.Finished? ==>
         v.job.Some? && v.job.value.audioPath == Some(path))
  }

  ghost predicate TimeOk(v: View, now: real, swept: real, ttl: real) {
    && (v.phase.Concluded() ==> v.phase.ms >= 0.0)
    && (v.job.Some? ==>
          var job := v.job.value;
          && job.createdAt <= now
          && (v.phase.Consuming? ==> job.createdAt <= v.phase.t0)
          && (v.phase.Closing? || v.phase.Released? ==> job.createdAt + v.phase.ms / 1000.0 <= now)
          && (v.phase.Running? || v.phase.Saved? ==>
                && job.startedAt.Some? && job.createdAt <= job.startedAt.value
                && job.startedAt.value + v.phase.ms / 1000.0 <= now)
          && (job.status == DONE ==>
                && v.phase.Finished? && job.startedAt.Some? && job.finishedAt.Some?
                     && job.createdAt <= job.startedAt.value
                && job.startedAt.value + v.phase.ms / 1000.0 <= job.finishedAt.value)
          && (job.Terminal() ==> job.finishedAt.Some? && swept - ttl <= job.finishedAt.value <= now))
    && (v.phase.Consuming? ==> v.phase.t0 <= now)
  }

  ghost predicate ViewOk(k: Setup, v: View, id: JobId, now: real, swept: real) {
    if v.spec.kind == Job
    then StatusOk(v) && AudioOk(k, v, Path(id, v.spec.format)) && TimeOk(v, now, swept, k.ttl)
    else Untouched(v)
  }

  // ------------------------------------------------------------------
  // The invariant
  // ------------------------------------------------------------------

  /** A handler's jobs are its own, in order; all but the last were accepted. */
  ghost predicate HandlerOk(s: System, h: nat)
    requires h < |s.handlers|
  {
    var hd := s.handlers[h];
    && |hd.ids| <= |hd.items|
    && (forall x <- hd.items :: x.kind == Job)
    && (forall i :: 0 <= i < |hd.ids| ==> OwnItem(s, h, i))
    && (forall i :: 0 <= i < |hd.ids| - 1 ==> Joined(s, hd.ids[i]))
    && (if hd.ids == [] then hd.stage.Creating? && hd.items != []
        else
          var last := hd.ids[|hd.ids| - 1];
          match hd.stage
          case Creating => |hd.ids| < |hd.items| && Joined(s, last)
          case Submitting => InPhase(s, last, Fresh)
          case Marking(i) => i < |hd.ids| && InPhase(s, last, Refused)
          case Accepted => |hd.ids| == |hd.items| && Joined(s, last)
          case Rejected => InPhase(s, last, Refused))
  }

  predicate InPhase(s: System, id: JobId, p: Phase) {
    id < |s.a.reqs| && s.a.reqs[id].phase == p
  }

  predicate Joined(s: System, id: JobId) {
    id < |s.a.reqs| && !s.a.reqs[id].phase.Fresh? && !s.a.reqs[id].phase.Refused?
  }

  ghost predicate OwnItem(s: System, h: nat, i: nat)
    requires h < |s.handlers| && i < |s.handlers[h].ids|
  {
    var id := s.handlers[h].ids[i];
    && id < |s.a.reqs| && id < |s.life|
    && s.life[id].handler == h && s.life[id].index == i
    && i < |s.handlers[h].items| && s.a.reqs[id].spec == s.handlers[h].items[i]
  }

  ghost predicate Employed(s: System, id: JobId)
    requires id < |s.life|
  {
    && s.life[id].handler < |s.handlers|
    && s.life[id].index < |s.handlers[s.life[id].handler].ids|
    && s.handlers[s.life[id].handler].ids[s.life[id].index] == id
  }

  ghost predicate Handlers(s: System) {
    && (forall h :: 0 <= h < |s.handlers| ==> HandlerOk(s, h))
    && (forall id :: 0 <= id < |s.life| && id < |s.a.reqs| && s.a.reqs[id].spec.kind == Job ==> Employed(s, id))
  }

  ghost predicate Known(s: System) {
    && |s.life| == |s.a.reqs|
    && (forall id <- s.jobs :: id < |s.life|)
    && (forall p <- s.files :: p.id < |s.life| && p == PathOf(s, p.id))
    && (forall d <- s.downloads :: d.id < |s.life|)
  }

  ghost predicate Views(k: Setup, s: System)
    requires |s.life| == |s.a.reqs|
  {
    forall id :: 0 <= id < |s.life| ==> ViewOk(k, ViewOf(s, id), id, s.now, s.swept)
  }

  ghost predicate SysInv(k: Setup, s: System) {
    && k.ttl >= 0.0 && s.swept <= s.now <= s.swept + 60.0 + k.slack
    && Inv(k.c, s.a)
    && Known(s) && Handlers(s) && Views(k, s)
  }
}
