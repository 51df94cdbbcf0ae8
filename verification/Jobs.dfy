/** Job records and the store operations, on values. `JobStore.JobStore` is proved against them. */
module Jobs {
  import opened Common
  import opened Messages

  datatype Status = PENDING | RUNNING | DONE | FAILED

  /** The output file `{job_id}.{format}` below the outputs directory. */
  datatype Path = Path(id: JobId, format: Format)

  type Bytes = seq<bv8>

  datatype Record = Record(
    status: Status,
    createdAt: real,
    startedAt: Option<real>,
    finishedAt: Option<real>,
    audioPath: Option<Path>,
    error: Option<string>,
    textPreview: string,
    language: string,
    speakerId: string,
    workerId: string,
    gpu: int)
  {
    function QueueWaitMs(): Option<real> {
      if startedAt.None? then None else Some((startedAt.value - createdAt) * 1000.0)
    }

    function SynthesisMs(): Option<real> {
      if startedAt.None? || finishedAt.None? then None else Some((finishedAt.value - startedAt.value) * 1000.0)
    }

    function TotalMs(): Option<real> {
      if finishedAt.None? then None else Some((finishedAt.value - createdAt) * 1000.0)
    }

    predicate Terminal() {
      status == DONE || status == FAILED
    }

    /** What the cleanup sweep removes: a terminal record that finished before `cutoff`. */
    predicate Expired(cutoff: real) {
      Terminal() && finishedAt.Some? && finishedAt.value < cutoff
    }
  }

  type Table = map<JobId, Record>

  /** The first 60 characters on one line. */
  function Preview(text: string): string {
    var t := if |text| <= 60 then text else text[..60];
    seq(|t|, i requires 0 <= i < |t| => if t[i] == '\n' then ' ' else t[i])
  }

  /** `preview` shows the first 60 characters of `text`, with spaces for line breaks. */
  ghost predicate IsPreview(preview: string, text: string) {
    && |preview| == (if |text| <= 60 then |text| else 60)
    && forall i :: 0 <= i < |preview| ==> preview[i] == if text[i] == '\n' then ' ' else text[i]
  }

  function New(text: string, language: string, speakerId: string, now: real): Record {
    Record(PENDING, now, None, None, None, None, Preview(text), language, speakerId, "", -1)
  }

  function MarkRunning(jobs: Table, id: JobId, workerId: string, gpu: int, ms: real, now: real): Table {
    if id in jobs
    then jobs[id := jobs[id].(status := RUNNING, startedAt := Some(now - ms / 1000.0), workerId := workerId,
        gpu := gpu)]
    else jobs
  }

  function MarkDone(jobs: Table, id: JobId, path: Path, now: real): Table {
    if id in jobs then jobs[id := jobs[id].(status := DONE, finishedAt := Some(now), audioPath := Some(path))] else jobs
  }

  function MarkFailed(jobs: Table, id: JobId, error: string, now: real): Table {
    if id in jobs then jobs[id := jobs[id].(status := FAILED, finishedAt := Some(now), error := Some(error))] else jobs
  }

  function ClearAudioPath(jobs: Table, id: JobId): Table {
    if id in jobs then jobs[id := jobs[id].(audioPath := None)] else jobs
  }

  function Unexpired(jobs: Table, cutoff: real): Table {
    map id | id in jobs && !jobs[id].Expired(cutoff) :: jobs[id]
  }

  /** The files the sweep tries to delete: those of the records it removes. */
  function ExpiredFiles(jobs: Table, cutoff: real): set<Path> {
    set id | id in jobs && jobs[id].Expired(cutoff) && jobs[id].audioPath.Some? :: jobs[id].audioPath.value
  }

  /** The answer of `GET /v1/tts/{job_id}/audio`. */
  function AudioStatus(jobs: Table, files: map<Path, Bytes>, id: JobId): nat {
    if id !in jobs then 404
    else if jobs[id].status == FAILED then 500
    else if jobs[id].status != DONE then 409
    else if jobs[id].audioPath.None? then 410
    else if jobs[id].audioPath.value !in files then 500
    else 200
  }
}
