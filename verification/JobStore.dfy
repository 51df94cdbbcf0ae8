/** The job store and its mutable records as the objects they are. */
module JobStores {
  import opened Common
  import opened Jobs

  class Job {
    var status: Status
    const createdAt: real
    var startedAt: Option<real>
    var finishedAt: Option<real>
    var audioPath: Option<Path>
    var error: Option<string>
    const textPreview: string
    const language: string
    const speakerId: string
    var workerId: string
    var gpu: int

    constructor (text: string, language: string, speakerId: string, now: real)
      ensures Rec() == New(text, language, speakerId, now)
    {
      status, createdAt := PENDING, now;
      startedAt, finishedAt, audioPath, error := None, None, None, None;
      textPreview := Preview(text);
      this.language, this.speakerId := language, speakerId;
      workerId, gpu := "", -1;
    }

    function Rec(): Record
      reads this
    {
      Record(status, createdAt, startedAt, finishedAt, audioPath, error, textPreview, language, speakerId, workerId,
          gpu)
    }
  }

  /** The outputs directory. */
  class Disk {
    var files: map<Path, Bytes>
  }

  class JobStore {
    const ttl: real
    var jobs: map<JobId, Job>

    ghost predicate Valid()
      reads this
    {
      forall i, j :: i in jobs && j in jobs && i != j ==> jobs[i] != jobs[j]
    }

    function View(): Table
      reads this, jobs.Values
    {
      map id | id in jobs :: jobs[id].Rec()
    }

    constructor (ttl: real)
      ensures Valid() && jobs == map[] && this.ttl == ttl
    {
      this.ttl := ttl;
      jobs := map[];
    }

    method Create(id: JobId, text: string, language: string, speakerId: string, now: real) returns (job: Job)
      requires Valid() && id !in jobs
      modifies this`jobs
      ensures Valid() && fresh(job) && jobs == old(jobs)[id := job]
      ensures View() == old(View())[id := New(text, language, speakerId, now)]
    {
      job := new Job(text, language, speakerId, now);
      jobs := jobs[id := job];
    }

    method MarkRunning(id: JobId, workerId: string, gpu: int, ms: real, now: real)
      requires Valid()
      modifies if id in jobs then {jobs[id]} else {}
      ensures View() == Jobs.MarkRunning(old(View()), id, workerId, gpu, ms, now)
    {
      if id !in jobs {
        return;
      }
      var job := jobs[id];
      job.status := RUNNING;
      job.startedAt := Some(now - ms / 1000.0);
      job.workerId := workerId;
      job.gpu := gpu;
    }

    method MarkDone(id: JobId, path: Path, now: real)
      requires Valid()
      modifies if id in jobs then {jobs[id]} else {}
      ensures View() == Jobs.MarkDone(old(View()), id, path, now)
    {
      if id !in jobs {
        return;
      }
      var job := jobs[id];
      job.status := DONE;
      job.finishedAt := Some(now);
      job.audioPath := Some(path);
    }

    method MarkFailed(id: JobId, error: string, now: real)
      requires Valid()
      modifies if id in jobs then {jobs[id]} else {}
      ensures View() == Jobs.MarkFailed(old(View()), id, error, now)
    {
      if id !in jobs {
        return;
      }
      var job := jobs[id];
      job.status := FAILED;
      job.finishedAt := Some(now);
      job.error := Some(error);
    }

    method ClearAudioPath(id: JobId)
      requires Valid()
      modifies if id in jobs then {jobs[id]} else {}
      ensures View() == Jobs.ClearAudioPath(old(View()), id)
    {
      if id in jobs {
        jobs[id].audioPath := None;
      }
    }

    /**
     `_evict_expired`: exactly the expired records go, the others stay as they are, and the files
     of the expired ones are deleted, save those whose deletion fails (`stuck`).
     */
    method EvictExpired(disk: Disk, now: real, stuck: set<Path>)
      requires Valid()
      modifies this`jobs, disk
      ensures Valid()
      ensures jobs == old(jobs) - Gone(old(View()), old(View()).Keys, now - ttl)
      ensures View() == Unexpired(old(View()), now - ttl)
      ensures disk.files == old(disk.files) - (ExpiredFiles(old(View()), now - ttl) - stuck)
    {
      ghost var before := View();
      AllSwept(before, now - ttl);
      SweepAll(disk, now - ttl, stuck);
    }

    method SweepAll(disk: Disk, cutoff: real, stuck: set<Path>)
      requires Valid()
      modifies this`jobs, disk
      ensures Swept(disk, old(View()), old(jobs), old(disk.files), old(View()).Keys, cutoff, stuck)
    {
      var todo := jobs.Keys;
      ghost var before, all, files := View(), jobs, disk.files;
      NothingSwept(before, all, cutoff);
      assert before.Keys == todo;
      assert before.Keys - todo == {};
      assert Swept(disk, before, all, files, {}, cutoff, stuck);
      hide *;
      while todo != {}
        invariant todo <= before.Keys
        invariant Swept(disk, before, all, files, before.Keys - todo, cutoff, stuck)
        decreases todo
      {
        var id :| id in todo;
        EvictNext(disk, id, cutoff, stuck, before, all, files, before.Keys - todo);
        assert before.Keys - (todo - {id}) == before.Keys - todo + {id};
        todo := todo - {id};
      }
      assert before.Keys - todo == before.Keys;
    }

    /** The sweep has treated the records `seen` of the table `before`. */
    ghost predicate Swept(disk: Disk, before: Table, all: map<JobId, Job>, files: map<Path, Bytes>,
                          seen: set<JobId>, cutoff: real, stuck: set<Path>)
      reads this, jobs.Values, disk
    {
      && Valid() && before.Keys == all.Keys
      && jobs == all - Gone(before, seen, cutoff)
      && View() == before - Gone(before, seen, cutoff)
      && disk.files == files - (SweptFiles(before, seen, cutoff) - stuck)
    }

    /** One round of the sweep. */
    method EvictNext(disk: Disk, id: JobId, cutoff: real, stuck: set<Path>,
                     ghost before: Table, ghost all: map<JobId, Job>, ghost files: map<Path, Bytes>,
                         ghost seen: set<JobId>)
      requires Swept(disk, before, all, files, seen, cutoff, stuck) && id in before && id !in seen
      modifies this`jobs, disk
      ensures Swept(disk, before, all, files, seen + {id}, cutoff, stuck)
    {
      SweepOne(before, seen, id, cutoff);
      ghost var gone, h := Gone(before, seen, cutoff), if before[id].Expired(cutoff) then {id} else {};
      MinusTwice(files, SweptFiles(before, seen, cutoff), FilesOf(before[id], cutoff), stuck);
      MinusTwice(all, gone, h, {});
      MinusTwice(before, gone, h, {});
      hide Gone, SweptFiles, FilesOf;
      Evict(disk, id, cutoff, stuck);
    }

    /** The body of the sweep for one record. */
    method Evict(disk: Disk, id: JobId, cutoff: real, stuck: set<Path>)
      requires Valid() && id in jobs
      modifies this`jobs, disk
      ensures Valid()
      ensures var gone := if old(View())[id].Expired(cutoff) then {id} else {};
              jobs == old(jobs) - gone && View() == old(View()) - gone
      ensures disk.files == old(disk.files) - (FilesOf(old(View())[id], cutoff) - stuck)
    {
      var job := jobs[id];
      if job.status != DONE && job.status != FAILED {
        return;
      }
      if job.finishedAt.Some? && job.finishedAt.value < cutoff {
        if job.audioPath.Some? && job.audioPath.value in disk.files && job.audioPath.value !in stuck {
          disk.files := disk.files - {job.audioPath.value};
        }
        jobs := jobs - {id};
      }
    }

    method StatusOf(id: JobId) returns (status: Status)
      requires id in jobs
      ensures id in View() && status == View()[id].status
    {
      status := jobs[id].status;
    }

    /** The loop of `stats`. */
    method CountAll() returns (counts: map<Status, nat>)
      requires Valid()
      ensures Counted(View(), View().Keys, counts)
    {
      counts := map[PENDING := 0, RUNNING := 0, DONE := 0, FAILED := 0];
      var todo := jobs.Keys;
      ghost var v := View();
      NoneCounted(v, counts);
      assert v.Keys == todo && v.Keys - todo == {};
      hide *;
      while todo != {}
        invariant todo <= jobs.Keys
        invariant Counted(v, v.Keys - todo, counts)
        decreases todo
      {
        var id :| id in todo;
        var status := StatusOf(id);
        assert v.Keys - (todo - {id}) == v.Keys - todo + {id};
        OneMore(v, v.Keys - todo, id, counts);
        todo := todo - {id};
        counts := counts[status := counts[status] + 1];
      }
      assert v.Keys - todo == v.Keys;
    }

    /** `stats`: one counter per status, and their sum is the number of jobs. */
    method Stats() returns (total: nat, counts: map<Status, nat>)
      requires Valid()
      ensures Counted(View(), View().Keys, counts)
      ensures total == |View()|
    {
      counts := CountAll();
      StatusesPartition(View(), counts);
      total := counts[PENDING] + counts[RUNNING] + counts[DONE] + counts[FAILED];
    }
  }

  // ------------------------------------------------------------------
  // A sweep half way
  // ------------------------------------------------------------------

  ghost function Gone(jobs: Table, seen: set<JobId>, cutoff: real): set<JobId> {
    set id | id in seen && id in jobs && jobs[id].Expired(cutoff)
  }

  function FilesOf(job: Record, cutoff: real): set<Path> {
    if job.Expired(cutoff) && job.audioPath.Some? then {job.audioPath.value} else {}
  }

  ghost function SweptFiles(jobs: Table, seen: set<JobId>, cutoff: real): set<Path> {
    set id, p | id in seen && id in jobs && p in FilesOf(jobs[id], cutoff) :: p
  }

  lemma NothingSwept(jobs: Table, all: map<JobId, Job>, cutoff: real)
    ensures Gone(jobs, {}, cutoff) == {} && SweptFiles(jobs, {}, cutoff) == {}
    ensures jobs - {} == jobs && all - {} == all
  {
  }

  lemma AllSwept(jobs: Table, cutoff: real)
    ensures jobs - Gone(jobs, jobs.Keys, cutoff) == Unexpired(jobs, cutoff)
    ensures SweptFiles(jobs, jobs.Keys, cutoff) == ExpiredFiles(jobs, cutoff)
  {
    forall p
      ensures p in SweptFiles(jobs, jobs.Keys, cutoff) <==> p in ExpiredFiles(jobs, cutoff)
    {
      if id :| id in jobs && jobs[id].Expired(cutoff) && jobs[id].audioPath == Some(p) {
        assert p in FilesOf(jobs[id], cutoff);
      }
    }
  }

  lemma MinusTwice<K, V>(m: map<K, V>, a: set<K>, b: set<K>, stuck: set<K>)
    ensures m - (a - stuck) - (b - stuck) == m - (a + b - stuck)
    ensures m - a - b == m - (a + b)
  {
  }

  lemma SweepOne(jobs: Table, seen: set<JobId>, id: JobId, cutoff: real)
    requires id in jobs && id !in seen
    ensures id !in Gone(jobs, seen, cutoff)
    ensures Gone(jobs, seen + {id}, cutoff) == Gone(jobs, seen, cutoff) + if jobs[id].Expired(cutoff) then {id} else {}
    ensures SweptFiles(jobs, seen + {id}, cutoff) == SweptFiles(jobs, seen, cutoff) + FilesOf(jobs[id], cutoff)
  {
  }

  // ------------------------------------------------------------------
  // Counting
  // ------------------------------------------------------------------

  ghost function WithStatus(jobs: Table, seen: set<JobId>, status: Status): set<JobId> {
    set id | id in seen && id in jobs && jobs[id].status == status
  }

  ghost predicate Counted(jobs: Table, seen: set<JobId>, counts: map<Status, nat>) {
    forall s: Status :: s in counts && counts[s] == |WithStatus(jobs, seen, s)|
  }

  lemma NoneCounted(v: Table, counts: map<Status, nat>)
    requires counts == map[PENDING := 0, RUNNING := 0, DONE := 0, FAILED := 0]
    ensures Counted(v, {}, counts)
  {
    forall s: Status
      ensures s in counts && counts[s] == |WithStatus(v, {}, s)|
    {
      match s case PENDING => case RUNNING => case DONE => case FAILED =>
    }
  }

  lemma OneMore(v: Table, seen: set<JobId>, id: JobId, counts: map<Status, nat>)
    requires id in v && id !in seen && Counted(v, seen, counts)
    ensures v[id].status in counts
    ensures Counted(v, seen + {id}, counts[v[id].status := counts[v[id].status] + 1])
  {
    forall s: Status {
      OneMoreOf(v, seen, id, s);
    }
    hide WithStatus;
  }

  lemma OneMoreOf(v: Table, seen: set<JobId>, id: JobId, s: Status)
    requires id in v && id !in seen
    ensures |WithStatus(v, seen + {id}, s)| == |WithStatus(v, seen, s)| + if v[id].status == s then 1 else 0
  {
    var before := WithStatus(v, seen, s);
    if v[id].status == s {
      assert WithStatus(v, seen + {id}, s) == before + {id};
    } else {
      assert WithStatus(v, seen + {id}, s) == before;
    }
  }

  /** The four counters add up to the number of records. */
  lemma StatusesPartition(v: Table, counts: map<Status, nat>)
    requires Counted(v, v.Keys, counts)
    ensures PENDING in counts && RUNNING in counts && DONE in counts && FAILED in counts
    ensures |v| == counts[PENDING] + counts[RUNNING] + counts[DONE] + counts[FAILED]
  {
    var ids := v.Keys;
    var p, r, d, f := WithStatus(v, ids, PENDING), WithStatus(v, ids, RUNNING), WithStatus(v, ids, DONE),
      WithStatus(v, ids, FAILED);
    assert ids == p + r + d + f by {
      forall id | id in ids
        ensures id in p + r + d + f
      {
        assert v[id].status in {PENDING, RUNNING, DONE, FAILED};
      }
    }
    FourParts(ids, p, r, d, f);
  }

  lemma FourParts(all: set<JobId>, a: set<JobId>, b: set<JobId>, c: set<JobId>, d: set<JobId>)
    requires all == a + b + c + d && a !! b && a + b !! c && a + b + c !! d
    ensures |all| == |a| + |b| + |c| + |d|
  {
  }
}
