/** Completion callbacks and audio downloads as the code that runs them, against the lifecycle's steps. */
module Completion {
  import opened Common
  import opened Messages
  import opened Scheduling
  import opened Jobs
  import opened JobStores
  import opened QueueManagers
  import opened Lifecycle

  /** The future a synchronous request waits on. */
  class Future {
    var result: Option<Msg>

    method SetOnce(x: Msg)
      modifies this
      ensures result == if old(result).Some? then old(result) else Some(x)
    {
      if result.None? {
        result := Some(x);
      }
    }
  }

  /** What follows the RUNNING mark; `saves` tells whether `save_audio` returns. */
  function RestEvents(id: JobId, outcome: Msg, saves: bool): seq<Event>
    requires outcome.Result?
  {
    if Truthy(outcome.error) then [CallbackFails(id)]
    else if saves && outcome.audio.Some? then [CallbackSaves(id), CallbackEnds(id)]
    else [SaveRaises(id)]
  }

  /** The events that one callback of job `id` goes through. */
  function CallbackEvents(id: JobId, outcome: Msg, saves: bool): seq<Event>
    requires outcome.Result?
  {
    [CallbackRuns(id)] + RestEvents(id, outcome, saves)
  }

  ghost predicate Performs(k: Setup, s: System, es: seq<Event>, s': System)
    decreases |es|
  {
    if es == [] then s == s' else Allowed(k, s, es[0]) && Performs(k, After(k, s, es[0]), es[1..], s')
  }

  /** Store and files at the end of the callback of `id`, from those after the RUNNING mark. */
  function Ended(jobs: Table, files: map<Path, Bytes>, encode: (Samples, Format) -> Bytes,
                 id: JobId, format: Format, outcome: Msg, now: real, saves: bool): (Table, map<Path, Bytes>)
    requires outcome.Result?
  {
    if Truthy(outcome.error) then (MarkFailed(jobs, id, outcome.error.value, now), files)
    else if saves && outcome.audio.Some? then
      (MarkDone(jobs, id, Path(id, format), now), files[Path(id, format) := encode(outcome.audio.value, format)])
    else (jobs, files)
  }

  /** Store and files after the callback of `id` has run to its end. */
  function Completed(jobs: Table, files: map<Path, Bytes>, encode: (Samples, Format) -> Bytes,
                     id: JobId, format: Format, workerId: string, gpu: int, outcome: Msg,
                     ms: real, now: real, saves: bool): (Table, map<Path, Bytes>)
    requires outcome.Result?
  {
    Ended(MarkRunning(jobs, id, workerId, gpu, ms, now), files, encode, id, format, outcome, now, saves)
  }

  lemma RunsEffect(k: Setup, s: System, id: JobId)
    requires Allowed(k, s, CallbackRuns(id))
    ensures var s1 := After(k, s, CallbackRuns(id));
            var p, slot := s.a.reqs[id].phase, s.a.pool[s.a.reqs[id].phase.w];
            && s1.jobs == MarkRunning(s.jobs, id, slot.workerId, slot.gpu, p.ms, s.now) && s1.files == s.files
                 && s1.now == s.now
            && IsJob(s1, id) && id < |s1.life| && s1.a.reqs[id].spec == s.a.reqs[id].spec
            && s1.a.reqs[id].phase == Running(p.w, p.outcome, p.ms)
  {
  }

  lemma SavesEffect(k: Setup, s: System, id: JobId)
    requires Allowed(k, s, CallbackSaves(id)) && id < |s.life|
    ensures var s1 := After(k, s, CallbackSaves(id));
            && Allowed(k, s1, CallbackEnds(id))
            && var s2 := After(k, s1, CallbackEnds(id));
               && s2.jobs == MarkDone(s.jobs, id, PathOf(s, id), s.now)
               && s2.files == s.files[PathOf(s, id) := k.encode(s.a.reqs[id].phase.outcome.audio.value,
                    s.a.reqs[id].spec.format)]
  {
  }

  /** The callback's run is a run of the lifecycle's steps and has the effect `Completed`. */
  lemma CallbackPerforms(k: Setup, s: System, id: JobId, saves: bool) returns (s': System)
    requires Allowed(k, s, CallbackRuns(id)) && s.a.reqs[id].phase.outcome.Result?
    ensures var p, slot := s.a.reqs[id].phase, s.a.pool[s.a.reqs[id].phase.w];
            && Performs(k, s, CallbackEvents(id, p.outcome, saves), s')
            && (s'.jobs, s'.files) == Completed(s.jobs, s.files, k.encode, id, s.a.reqs[id].spec.format,
                                                slot.workerId, slot.gpu, p.outcome, p.ms, s.now, saves)
  {
    RunsEffect(k, s, id);
    var outcome := s.a.reqs[id].phase.outcome;
    var s1 := After(k, s, CallbackRuns(id));
    s' := RestPerforms(k, s1, id, saves);
    assert CallbackEvents(id, outcome, saves)[1..] == RestEvents(id, outcome, saves);
    hide After, Allowed, MarkRunning, MarkDone, MarkFailed;
  }

  /** From RUNNING on. */
  lemma RestPerforms(k: Setup, s1: System, id: JobId, saves: bool) returns (s': System)
    requires Calling(s1, id) && id < |s1.life|
    ensures var outcome, format := s1.a.reqs[id].phase.outcome, s1.a.reqs[id].spec.format;
            && Performs(k, s1, RestEvents(id, outcome, saves), s')
            && (s'.jobs, s'.files) == Ended(s1.jobs, s1.files, k.encode, id, format, outcome, s1.now, saves)
  {
    hide MarkRunning, MarkDone, MarkFailed;
    var outcome := s1.a.reqs[id].phase.outcome;
    if Truthy(outcome.error) {
      s' := After(k, s1, CallbackFails(id));
      assert Performs(k, s', [], s') && Performs(k, s1, [CallbackFails(id)], s');
    } else if saves && outcome.audio.Some? {
      SavesEffect(k, s1, id);
      var s2 := After(k, s1, CallbackSaves(id));
      s' := After(k, s2, CallbackEnds(id));
      assert Performs(k, s', [], s') && Performs(k, s2, [CallbackEnds(id)], s');
      assert [CallbackSaves(id), CallbackEnds(id)][1..] == [CallbackEnds(id)];
    } else {
      s' := After(k, s1, SaveRaises(id));
      assert Performs(k, s', [], s') && Performs(k, s1, [SaveRaises(id)], s');
    }
  }

  /** The callback of a job: RUNNING, then FAILED, or the file written and DONE. */
  method SaveAndMark(id: JobId, format: Format, workerId: string, gpu: int, result: Msg, ms: real, now: real,
                     saves: bool, encode: (Samples, Format) -> Bytes, store: JobStore, disk: JobStores.Disk)
    requires store.Valid() && result.Result?
    modifies disk, if id in store.jobs then {store.jobs[id]} else {}
    ensures (store.View(), disk.files)
            == Completed(old(store.View()), old(disk.files), encode, id, format, workerId, gpu, result, ms, now, saves)
  {
    hide Jobs.MarkRunning, Ended;
    store.MarkRunning(id, workerId, gpu, ms, now);
    FailOrSave(id, format, result, now, saves, encode, store, disk);
  }

  /** What the callback of a job leaves behind, on record and on disk. */
  ghost predicate Recorded(id: JobId, format: Format, workerId: string, gpu: int, result: Msg, ms: real, now: real,
                           saves: bool, encode: (Samples, Format) -> Bytes,
                           was: Record, job: Record, before: map<Path, Bytes>, files: map<Path, Bytes>)
    requires result.Result?
  {
    var begun := was.(status := RUNNING, startedAt := Some(now - ms / 1000.0), workerId := workerId, gpu := gpu);
    if Truthy(result.error) then
      job == begun.(status := FAILED, finishedAt := Some(now), error := result.error) && files == before
    else if saves && result.audio.Some? then
      && job == begun.(status := DONE, finishedAt := Some(now), audioPath := Some(Path(id, format)))
      && files == before[Path(id, format) := encode(result.audio.value, format)]
    else
      job == begun && files == before
  }

  /** The code's effect, spelled out: the worker's own error or the encoded audio, on the one record. */
  lemma CompletedMeans(jobs: Table, files: map<Path, Bytes>, encode: (Samples, Format) -> Bytes,
                       id: JobId, format: Format, workerId: string, gpu: int, outcome: Msg,
                       ms: real, now: real, saves: bool)
    requires outcome.Result?
    ensures var (jobs', files') := Completed(jobs, files, encode, id, format, workerId, gpu, outcome, ms, now, saves);
            && jobs'.Keys == jobs.Keys && (forall other <- jobs :: other != id ==> jobs'[other] == jobs[other])
            && (id in jobs ==> Recorded(id, format, workerId, gpu, outcome, ms, now, saves, encode,
                                        jobs[id], jobs'[id], files, files'))
  {
  }

  method FailOrSave(id: JobId, format: Format, result: Msg, now: real, saves: bool,
                    encode: (Samples, Format) -> Bytes, store: JobStore, disk: JobStores.Disk)
    requires store.Valid() && result.Result?
    modifies disk, if id in store.jobs then {store.jobs[id]} else {}
    ensures (store.View(), disk.files) ==
            Ended(old(store.View()), old(disk.files), encode, id, format, result, now, saves)
  {
    hide Jobs.MarkDone, Jobs.MarkFailed;
    if Truthy(result.error) {
      store.MarkFailed(id, result.error.value, now);
      return;
    }
    if !saves || result.audio.None? {
      return;   // save_audio raises
    }
    disk.files := disk.files[Path(id, format) := encode(result.audio.value, format)];
    store.MarkDone(id, Path(id, format), now);
  }

  /**
   `on_complete`. The closure of a job acts on its own captured job and format; that of a
   synchronous request resolves its future.
   */
  method OnComplete(callback: Callback, workerId: string, gpu: int, result: Msg, ms: real, now: real, saves: bool,
                    encode: (Samples, Format) -> Bytes, store: JobStore, disk: JobStores.Disk, future: Future)
    requires store.Valid() && result.Result?
    modifies disk, future, if callback.Save? && callback.job in store.jobs then {store.jobs[callback.job]} else {}
    ensures callback.Save? ==>
              && (store.View(), disk.files)
                 == Completed(old(store.View()), old(disk.files), encode, callback.job, callback.format,
                              workerId, gpu, result, ms, now, saves)
              && future.result == old(future.result)
    ensures callback.Save? ==>
              && store.View().Keys == old(store.View()).Keys
              && (forall id <- store.View() :: id != callback.job ==> store.View()[id] == old(store.View())[id])
              && (callback.job in store.View() ==>
                    Recorded(callback.job, callback.format, workerId, gpu, result, ms, now, saves, encode,
                             old(store.View())[callback.job], store.View()[callback.job],
                             old(disk.files), disk.files))
    ensures callback.Resolve? ==>
              && store.View() == old(store.View()) && disk.files == old(disk.files)
              && future.result == if old(future.result).Some? then old(future.result) else Some(result)
  {
    if callback.Resolve? {
      future.SetOnce(result);
    } else {
      CompletedMeans(store.View(), disk.files, encode, callback.job, callback.format, workerId, gpu, result, ms, now,
                     saves);
      hide Completed, Recorded;
      SaveAndMark(callback.job, callback.format, workerId, gpu, result, ms, now, saves, encode, store, disk);
    }
  }

  // ------------------------------------------------------------------
  // Downloads
  // ------------------------------------------------------------------

  /** `get_audio`: 200 with the path to send, or the error code. */
  method GetAudio(store: JobStore, disk: JobStores.Disk, id: JobId) returns (code: nat, path: Option<Path>)
    requires store.Valid()
    ensures code == AudioStatus(store.View(), disk.files, id)
    ensures code == 404 <==> id !in store.View()
    ensures code == 409 <==> id in store.View() && store.View()[id].status in {PENDING, RUNNING}
    ensures code == 410 <==> id in store.View() && store.View()[id].status == DONE && store.View()[id].audioPath.None?
    ensures code == 200 <==> path.Some?
    ensures code == 200 <==>
            id in store.View() && store.View()[id].status == DONE && store.View()[id].audioPath.Some?
            && store.View()[id].audioPath.value in disk.files
    ensures code == 200 ==> store.View()[id].audioPath == path
    ensures code !in {200, 404, 409, 410} ==> code == 500
  {
    path := None;
    if id !in store.jobs {
      return 404, None;
    }
    var job := store.jobs[id];
    assert store.View()[id] == job.Rec();
    if job.status == FAILED {
      return 500, None;
    }
    if job.status != DONE {
      return 409, None;
    }
    if job.audioPath.None? {
      return 410, None;
    }
    if job.audioPath.value !in disk.files {
      return 500, None;
    }
    return 200, job.audioPath;
  }

  /** `_delete_after_send`: a failing unlink is ignored, and the path is cleared in any case. */
  method DeleteAfterSend(store: JobStore, disk: JobStores.Disk, id: JobId, path: Path, removable: bool)
    requires store.Valid()
    modifies disk, if id in store.jobs then {store.jobs[id]} else {}
    ensures disk.files == if removable then old(disk.files) - {path} else old(disk.files)
    ensures store.View() == Jobs.ClearAudioPath(old(store.View()), id)
    ensures id in store.View() && store.View()[id].status == DONE ==> AudioStatus(store.View(), disk.files, id) == 410
    ensures AudioStatus(store.View(), disk.files, id) != 200
  {
    if removable {
      disk.files := disk.files - {path};
    }
    store.ClearAudioPath(id);
  }
}
