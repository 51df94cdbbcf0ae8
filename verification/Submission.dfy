/** `POST /v1/tts` and `POST /v1/batch`: validation, job creation and enqueueing, item by item. */
module Submission {
  import opened Common
  import opened Messages
  import opened Jobs
  import opened JobStores
  import opened QueueManagers
  import S = Speakers
  import Lifecycle

  const SUPPORTED_LANGUAGES := {
    "en", "es", "fr", "de", "it", "pt", "pl", "tr", "ru", "nl", "cs", "ar", "zh-cn", "ja", "hu", "ko", "hi"}

  const MAX_BATCH_SIZE := 50

  datatype Settings = Settings(maxTextLength: nat, defaultLanguage: string)

  datatype Speaker = Named(name: string) | Embedded(voice: Voice)

  /** The body of a single request or one item of a batch. */
  datatype Item = Item(text: string, language: Option<string>, speaker: Speaker, format: Format, params: Params)

  datatype Resolved = Resolved(item: Item, language: string, voice: Voice, speakerId: string)

  datatype Verdict = Ready(r: Resolved) | Declined(code: nat)

  datatype Response = Accepted(ids: seq<JobId>) | Refused(code: nat)

  // ------------------------------------------------------------------
  // Validation
  // ------------------------------------------------------------------

  /** `language or DEFAULT_LANGUAGE`: the empty string counts as no language. */
  function Effective(st: Settings, language: Option<string>): string {
    if Truthy(language) then language.value else st.defaultLanguage
  }

  /** `_resolve_speaker`. */
  function Resolve(st: Settings, disk: S.Disk, item: Item): Verdict {
    var language := Effective(st, item.language);
    match item.speaker
    case Embedded(voice) => Ready(Resolved(item, language, voice, "inline"))
    case Named(name) =>
      (match S.LoadFromDisk(disk, name)
       case Some(record) => Ready(Resolved(item, language, record.voice, name))
       case None => Declined(404))
  }

  function SingleVerdict(st: Settings, disk: S.Disk, item: Item): Verdict {
    if item.language.Some? && item.language.value !in SUPPORTED_LANGUAGES then Declined(422)
    else if |item.text| > st.maxTextLength then Declined(422)
    else Resolve(st, disk, item)
  }

  function BatchVerdict(st: Settings, disk: S.Disk, item: Item): Verdict {
    if |item.text| > st.maxTextLength then Declined(422)
    else if Effective(st, item.language) !in SUPPORTED_LANGUAGES then Declined(422)
    else Resolve(st, disk, item)
  }

  /** The language an item is spoken in: its own, unless that is missing or empty. */
  predicate SpokenIn(st: Settings, item: Item, language: string) {
    match item.language
    case None => language == st.defaultLanguage
    case Some(own) => language == if own == "" then st.defaultLanguage else own
  }

  /** The voice an item is spoken with: the one it brings, or the latents on disk of the speaker it names. */
  predicate SpokenBy(disk: S.Disk, item: Item, voice: Voice, speakerId: string) {
    match item.speaker
    case Embedded(own) => voice == own && speakerId == "inline"
    case Named(name) => name in disk && disk[name].latents == Some(voice) && speakerId == name
  }

  predicate Unknown(disk: S.Disk, item: Item) {
    item.speaker.Named? && (item.speaker.name in disk ==> disk[item.speaker.name].latents.None?)
  }

  predicate Understood(st: Settings, disk: S.Disk, item: Item, r: Resolved) {
    r.item == item && SpokenIn(st, item, r.language) && SpokenBy(disk, item, r.voice, r.speakerId)
  }

  /** The verdict of the single endpoint: 422 for a bad language or a long text, 404 for an unknown speaker. */
  lemma SingleVerdictMeans(st: Settings, disk: S.Disk, item: Item)
    ensures var v, bad := SingleVerdict(st, disk, item),
              |item.text| > st.maxTextLength
              || (item.language.Some? && item.language.value !in SUPPORTED_LANGUAGES);
            && (v == Declined(422) <==> bad)
            && (v == Declined(404) <==> !bad && Unknown(disk, item))
            && (v.Ready? <==> !bad && !Unknown(disk, item))
            && (v.Ready? ==> Understood(st, disk, item, v.r))
  {
  }

  /** That of the batch endpoint: the language checked is the one the item would be spoken in. */
  lemma BatchVerdictMeans(st: Settings, disk: S.Disk, item: Item, language: string)
    requires SpokenIn(st, item, language)
    ensures var v, bad := BatchVerdict(st, disk, item),
              |item.text| > st.maxTextLength || language !in SUPPORTED_LANGUAGES;
            && (v == Declined(422) <==> bad)
            && (v == Declined(404) <==> !bad && Unknown(disk, item))
            && (v.Ready? <==> !bad && !Unknown(disk, item))
            && (v.Ready? ==> Understood(st, disk, item, v.r) && v.r.language == language)
  {
  }

  /** The two endpoints treat an item differently: an explicit empty language, or none under an unsupported default. */
  predicate Disputed(st: Settings, item: Item) {
    && |item.text| <= st.maxTextLength
    && match item.language
       case None => st.defaultLanguage !in SUPPORTED_LANGUAGES
       case Some(language) => language == "" && st.defaultLanguage in SUPPORTED_LANGUAGES
  }

  /** Batch validation is that of the single endpoint exactly for the items that are not disputed. */
  lemma VerdictsAgreeIff(st: Settings, disk: S.Disk, item: Item)
    ensures SingleVerdict(st, disk, item) == BatchVerdict(st, disk, item) <==> !Disputed(st, item)
  {
  }

  const PARAMS := Params(0.75, 1.0, 10.0, 50, 0.85, true, 1, 1.0, false)

  /** An explicit empty language: 422 alone, accepted in a batch as the default language. */
  lemma EmptyLanguageIsDisputed(disk: S.Disk)
    ensures var st, item := Settings(5000, "tr"), Item("hello", Some(""), Embedded(Voice([], [])), Wav, PARAMS);
            && SingleVerdict(st, disk, item) == Declined(422)
            && BatchVerdict(st, disk, item) == Ready(Resolved(item, "tr", Voice([], []), "inline"))
  {
  }

  /** No language under an unsupported default: accepted alone, 422 in a batch. */
  lemma UnsupportedDefaultIsDisputed(disk: S.Disk)
    ensures var st, item := Settings(5000, "xx"), Item("hello", None, Embedded(Voice([], [])), Wav, PARAMS);
            && SingleVerdict(st, disk, item) == Ready(Resolved(item, "xx", Voice([], []), "inline"))
            && BatchVerdict(st, disk, item) == Declined(422)
  {
  }

  // ------------------------------------------------------------------
  // Store and queue, on values
  // ------------------------------------------------------------------

  datatype Shop = Shop(jobs: Table, queue: seq<Envelope>)

  datatype Times = Times(created: real, queued: real, failed: real)

  predicate HasRoom(max: int, queue: seq<Envelope>) {
    max <= 0 || |queue| < max
  }

  function EnvelopeFor(r: Resolved, id: JobId, now: real): Envelope {
    var payload := Speech(r.item.text, r.language, r.voice, r.item.params);
    Envelope(id, Spec(Job, payload, r.item.format, r.speakerId), now, Some(Save(id, r.item.format)))
  }

  function Created(jobs: Table, r: Resolved, id: JobId, now: real): Table {
    jobs[id := New(r.item.text, r.language, r.speakerId, now)]
  }

  /** One single submission of a valid request. */
  function Single(max: int, shop: Shop, r: Resolved, id: JobId, t: Times): Shop {
    var jobs := Created(shop.jobs, r, id, t.created);
    if HasRoom(max, shop.queue)
    then Shop(jobs, shop.queue + [EnvelopeFor(r, id, t.queued)])
    else Shop(MarkFailed(jobs, id, Lifecycle.QUEUE_FULL, t.failed), shop.queue)
  }

  /** The first `n` requests submitted one by one. */
  function Singles(max: int, shop: Shop, rs: seq<Resolved>, ids: seq<JobId>, ts: seq<Times>, n: nat): Shop
    requires n <= |rs| && |rs| == |ids| == |ts|
  {
    if n == 0 then shop else Single(max, Singles(max, shop, rs, ids, ts, n - 1), rs[n - 1], ids[n - 1], ts[n - 1])
  }

  /** `mark_failed` for the first `n` of `ids`, in order. */
  function MarkAll(jobs: Table, ids: seq<JobId>, late: nat -> real, n: nat): Table
    requires n <= |ids|
  {
    if n == 0 then jobs else MarkFailed(MarkAll(jobs, ids, late, n - 1), ids[n - 1], Lifecycle.QUEUE_FULL, late(n - 1))
  }

  ghost predicate Fresh(jobs: Table, ids: seq<JobId>) {
    NoDup(ids) && forall i :: 0 <= i < |ids| ==> ids[i] !in jobs
  }

  /** How many of `n` envelopes the queue still takes. */
  function Fitting(max: int, queue: seq<Envelope>, n: nat): (k: nat)
    ensures k <= n && (k < n ==> !HasRoom(max, queue) || |queue| + k == max)
    ensures k > 0 ==> max <= 0 || |queue| + k <= max
  {
    if max <= 0 || |queue| + n <= max then n else if |queue| >= max then 0 else max - |queue|
  }

  ghost predicate Queued(before: seq<Envelope>, queue: seq<Envelope>, rs: seq<Resolved>, ids: seq<JobId>,
      ts: seq<Times>, n: nat)
    requires n <= |rs| && |rs| == |ids| == |ts|
  {
    && |queue| == |before| + n && queue[..|before|] == before
    && forall i :: 0 <= i < n ==> queue[|before| + i] == EnvelopeFor(rs[i], ids[i], ts[i].queued)
  }

  ghost predicate Pending(before: Table, jobs: Table, rs: seq<Resolved>, ids: seq<JobId>, ts: seq<Times>, n: nat)
    requires n <= |rs| && |rs| == |ids| == |ts|
  {
    && (forall id :: id in jobs <==> id in before || id in ids[..n])
    && (forall i :: 0 <= i < n ==> jobs[ids[i]] == New(rs[i].item.text, rs[i].language, rs[i].speakerId, ts[i].created))
    && (forall id :: id in before ==> jobs[id] == before[id])
  }

  lemma OneMorePending(before: Table, jobs: Table, rs: seq<Resolved>, ids: seq<JobId>, ts: seq<Times>, n: nat)
    requires n < |rs| && |rs| == |ids| == |ts| && Fresh(before, ids) && Pending(before, jobs, rs, ids, ts, n)
    ensures Pending(before, Created(jobs, rs[n], ids[n], ts[n].created), rs, ids, ts, n + 1)
  {
  }

  /**
   While there is room, submitting appends one envelope and one PENDING record per request, in
   order: the i-th id names the i-th request, in the record, in the request and in the callback.
   */
  lemma {:induction false} SinglesInOrder(max: int, shop: Shop, rs: seq<Resolved>, ids: seq<JobId>, ts: seq<Times>,
      n: nat)
    requires |rs| == |ids| == |ts| && Fresh(shop.jobs, ids) && n <= Fitting(max, shop.queue, |rs|)
    ensures var s := Singles(max, shop, rs, ids, ts, n);
            Queued(shop.queue, s.queue, rs, ids, ts, n) && Pending(shop.jobs, s.jobs, rs, ids, ts, n)
  {
    hide Pending, Created, EnvelopeFor;
    if n > 0 {
      SinglesInOrder(max, shop, rs, ids, ts, n - 1);
      OneMorePending(shop.jobs, Singles(max, shop, rs, ids, ts, n - 1).jobs, rs, ids, ts, n - 1);
    } else {
      NothingPending(shop.jobs, rs, ids, ts);
    }
  }

  lemma NothingPending(jobs: Table, rs: seq<Resolved>, ids: seq<JobId>, ts: seq<Times>)
    requires |rs| == |ids| == |ts|
    ensures Pending(jobs, jobs, rs, ids, ts, 0)
  {
  }

  /** Marking fails exactly the named records and keeps the rest. */
  lemma {:induction false} MarkAllFails(jobs: Table, ids: seq<JobId>, late: nat -> real, n: nat)
    requires n <= |ids|
    ensures var marked := MarkAll(jobs, ids, late, n);
            && marked.Keys == jobs.Keys
            && (forall id :: id in jobs && id !in ids[..n] ==> marked[id] == jobs[id])
            && (forall i :: 0 <= i < n && ids[i] in jobs ==>
                  var job := marked[ids[i]];
                  && job.status == FAILED && job.error == Some(Lifecycle.QUEUE_FULL) && job.finishedAt.Some?
                  && job.audioPath == jobs[ids[i]].audioPath)
  {
    if n > 0 {
      MarkAllFails(jobs, ids, late, n - 1);
      assert ids[..n] == ids[..n - 1] + [ids[n - 1]];
    }
  }

  /** Each record gets the time at which the loop came to it. */
  lemma {:induction false} MarkAllTimes(jobs: Table, ids: seq<JobId>, late: nat -> real, n: nat, i: nat)
    requires NoDup(ids) && i < n <= |ids| && ids[i] in jobs
    ensures ids[i] in MarkAll(jobs, ids, late, n) && MarkAll(jobs, ids, late, n)[ids[i]].finishedAt == Some(late(i))
  {
    if i < n - 1 {
      MarkAllTimes(jobs, ids, late, n - 1, i);
    } else {
      MarkAllFails(jobs, ids, late, n - 1);
    }
  }

  // ------------------------------------------------------------------
  // What a submission leaves behind, item by item
  // ------------------------------------------------------------------

  /** The envelope asks for `item` under `id`, and its callback saves under the same id in the same format. */
  predicate AsksFor(e: Envelope, id: JobId, st: Settings, disk: S.Disk, item: Item) {
    && e.id == id && e.spec.kind == Job && e.spec.payload.Speech?
    && e.spec.payload.text == item.text && e.spec.payload.params == item.params
    && SpokenIn(st, item, e.spec.payload.language) && SpokenBy(disk, item, e.spec.payload.voice, e.spec.speakerId)
    && e.spec.format == item.format && e.callback == Some(Save(id, item.format))
  }

  /** A record of `item` that is still waiting to run. */
  ghost predicate WaitsFor(job: Record, st: Settings, disk: S.Disk, item: Item) {
    && job.status == PENDING && job.error.None? && job.startedAt.None? && job.finishedAt.None? && job.audioPath.None?
    && IsPreview(job.textPreview, item.text) && SpokenIn(st, item, job.language)
    && (item.speaker.Embedded? ==> job.speakerId == "inline")
    && (item.speaker.Named? ==> job.speakerId == item.speaker.name)
  }

  /** A record that was given up because the queue had no room for it. */
  predicate GivenUp(job: Record) {
    && job.status == FAILED && job.error == Some(Lifecycle.QUEUE_FULL) && Truthy(job.error)
    && job.finishedAt.Some? && job.audioPath.None?
  }

  lemma EnvelopeAsks(st: Settings, disk: S.Disk, r: Resolved, item: Item, id: JobId, now: real, created: real)
    requires Understood(st, disk, item, r)
    ensures AsksFor(EnvelopeFor(r, id, now), id, st, disk, item)
    ensures EnvelopeFor(r, id, now).callback == CallbackOf(id, EnvelopeFor(r, id, now).spec)
    ensures WaitsFor(New(item.text, r.language, r.speakerId, created), st, disk, item)
  {
  }

  /** A single submission, accepted or without room, in terms of its item. */
  lemma SingleMeans(max: int, shop: Shop, st: Settings, disk: S.Disk, r: Resolved, item: Item, id: JobId, t: Times)
    requires id !in shop.jobs && Understood(st, disk, item, r)
    ensures var s := Single(max, shop, r, id, t);
            && s.jobs.Keys == shop.jobs.Keys + {id} && (forall other <- shop.jobs :: s.jobs[other] == shop.jobs[other])
            && (HasRoom(max, shop.queue) ==>
                  && |s.queue| == |shop.queue| + 1 && s.queue[..|shop.queue|] == shop.queue
                  && AsksFor(s.queue[|shop.queue|], id, st, disk, item) && WaitsFor(s.jobs[id], st, disk, item)
                  && s.queue[|shop.queue|].enqueuedAt == t.queued)
            && (!HasRoom(max, shop.queue) ==>
                  s.queue == shop.queue && GivenUp(s.jobs[id]) && s.jobs[id].finishedAt == Some(t.failed))
            && s.jobs[id].createdAt == t.created
  {
    EnvelopeAsks(st, disk, r, item, id, t.queued, t.created);
    Lifecycle.OverflowSpeaks();
  }

  // ------------------------------------------------------------------
  // The endpoints
  // ------------------------------------------------------------------

  function ShopOf(store: JobStore, manager: QueueManager): Shop
    reads store, store.jobs.Values, manager
  {
    Shop(store.View(), manager.queue)
  }

  /** `_resolve_speaker` over the cached store: what a disk read would give. */
  method ResolveSpeaker(st: Settings, item: Item, speakers: S.SpeakerStore) returns (v: Verdict)
    requires S.Coherent(speakers.View())
    modifies speakers`cache
    ensures S.Coherent(speakers.View())
    ensures v == Resolve(st, speakers.disk, item)
  {
    var language := Effective(st, item.language);
    match item.speaker {
      case Embedded(voice) => v := Ready(Resolved(item, language, voice, "inline"));
      case Named(name) =>
        S.CachedStepRefines(speakers.View(), S.Get(name));
        var record := speakers.Get(name);
        v := if record.Some? then Ready(Resolved(item, language, record.value.voice, name)) else Declined(404);
    }
  }

  method CreateAndEnqueue(r: Resolved, id: JobId, t: Times, store: JobStore, manager: QueueManager) returns (ok: bool)
    requires store.Valid() && id !in store.jobs
    modifies store`jobs, manager`queue
    ensures store.Valid() && id in store.jobs && fresh(store.jobs[id])
        && store.jobs == old(store.jobs)[id := store.jobs[id]]
    ensures ok <==> HasRoom(manager.maxSize, old(manager.queue))
    ensures ShopOf(store, manager) ==
            Shop(Created(old(store.View()), r, id, t.created),
                 if ok then old(manager.queue) + [EnvelopeFor(r, id, t.queued)] else old(manager.queue))
  {
    var job := store.Create(id, r.item.text, r.language, r.speakerId, t.created);
    ok := manager.Enqueue(EnvelopeFor(r, id, t.queued));
  }

  /** The field validator, the length guard and the speaker lookup of the single endpoint. */
  method ValidateSingle(st: Settings, item: Item, speakers: S.SpeakerStore) returns (v: Verdict)
    requires S.Coherent(speakers.View())
    modifies speakers`cache
    ensures S.Coherent(speakers.View())
    ensures v == SingleVerdict(st, speakers.disk, item)
  {
    if item.language.Some? && item.language.value !in SUPPORTED_LANGUAGES {
      return Declined(422);
    }
    if |item.text| > st.maxTextLength {
      return Declined(422);
    }
    v := ResolveSpeaker(st, item, speakers);
  }

  method CreateOrFail(r: Resolved, id: JobId, t: Times, store: JobStore, manager: QueueManager)
    returns (response: Response)
    requires store.Valid() && id !in store.jobs
    modifies store`jobs, manager`queue
    ensures store.Valid()
    ensures ShopOf(store, manager) == Single(manager.maxSize, old(ShopOf(store, manager)), r, id, t)
    ensures response == if HasRoom(manager.maxSize, old(manager.queue)) then Accepted([id]) else Refused(503)
  {
    var ok := CreateAndEnqueue(r, id, t, store, manager);
    if ok {
      return Accepted([id]);
    }
    store.MarkFailed(id, Lifecycle.QUEUE_FULL, t.failed);
    return Refused(503);
  }

  /** `submit_tts`: a declined request leaves no trace; a full queue leaves a FAILED record and answers 503. */
  method SubmitTts(st: Settings, item: Item, id: JobId, t: Times,
                   speakers: S.SpeakerStore, store: JobStore, manager: QueueManager) returns (response: Response)
    requires S.Coherent(speakers.View()) && store.Valid() && id !in store.jobs
    modifies speakers`cache, store`jobs, manager`queue
    ensures S.Coherent(speakers.View()) && store.Valid()
    ensures var before := old(ShopOf(store, manager));
            match SingleVerdict(st, speakers.disk, item)
            case Declined(code) => response == Refused(code) && ShopOf(store, manager) == before
            case Ready(r) =>
              && ShopOf(store, manager) == Single(manager.maxSize, before, r, id, t)
              && response == if HasRoom(manager.maxSize, before.queue) then Accepted([id]) else Refused(503)
    ensures response.Accepted? ==>
              && response == Accepted([id])
              && |manager.queue| == |old(manager.queue)| + 1
              && manager.queue[..|old(manager.queue)|] == old(manager.queue)
              && AsksFor(manager.queue[|old(manager.queue)|], id, st, speakers.disk, item)
              && id in store.View() && WaitsFor(store.View()[id], st, speakers.disk, item)
    ensures response == Refused(503) ==>
              && manager.queue == old(manager.queue)
              && id in store.View() && GivenUp(store.View()[id]) && store.View()[id].finishedAt == Some(t.failed)
    ensures response.Refused? && response.code != 503 ==>
              response.code in {404, 422} && manager.queue == old(manager.queue) && store.View() == old(store.View())
    ensures forall other <- old(store.View()) ::
              other in store.View() && store.View()[other] == old(store.View())[other]
  {
    SingleVerdictMeans(st, speakers.disk, item);
    hide SingleVerdict, Single, AsksFor, WaitsFor, Understood;
    var v := ValidateSingle(st, item, speakers);
    match v {
      case Declined(code) => response := Refused(code);
      case Ready(r) =>
        SingleMeans(manager.maxSize, ShopOf(store, manager), st, speakers.disk, r, item, id, t);
        response := CreateOrFail(r, id, t, store, manager);
    }
  }

  // ------------------------------------------------------------------
  // Batches
  // ------------------------------------------------------------------

  /** The first item that batch validation declines, or the number of items. */
  function FirstDeclined(st: Settings, disk: S.Disk, items: seq<Item>): (n: nat)
    ensures n <= |items| && (forall i :: 0 <= i < n ==> BatchVerdict(st, disk, items[i]).Ready?)
    ensures n < |items| ==> BatchVerdict(st, disk, items[n]).Declined?
  {
    if items == [] || BatchVerdict(st, disk, items[0]).Declined? then 0 else 1 + FirstDeclined(st, disk, items[1..])
  }

  lemma FirstDeclinedAt(st: Settings, disk: S.Disk, items: seq<Item>, n: nat)
    requires n <= |items| && (forall i :: 0 <= i < n ==> BatchVerdict(st, disk, items[i]).Ready?)
    requires n < |items| ==> BatchVerdict(st, disk, items[n]).Declined?
    ensures n == FirstDeclined(st, disk, items)
  {
  }

  /** The requests of a batch all of whose items are valid. */
  function ResolvedItems(st: Settings, disk: S.Disk, items: seq<Item>): seq<Resolved>
    requires forall x <- items :: BatchVerdict(st, disk, x).Ready?
  {
    seq(|items|, i requires 0 <= i < |items| => BatchVerdict(st, disk, items[i]).r)
  }

  method ValidateItem(st: Settings, item: Item, speakers: S.SpeakerStore) returns (v: Verdict)
    requires S.Coherent(speakers.View())
    modifies speakers`cache
    ensures S.Coherent(speakers.View())
    ensures v == BatchVerdict(st, speakers.disk, item)
  {
    if |item.text| > st.maxTextLength {
      return Declined(422);
    }
    if Effective(st, item.language) !in SUPPORTED_LANGUAGES {
      return Declined(422);
    }
    v := ResolveSpeaker(st, item, speakers);
  }

  /** The first loop of `submit_batch`: all items, or the verdict on the first bad one. */
  method ValidateBatch(st: Settings, items: seq<Item>, speakers: S.SpeakerStore)
    returns (code: Option<nat>, resolved: seq<Resolved>)
    requires S.Coherent(speakers.View())
    modifies speakers`cache
    ensures S.Coherent(speakers.View())
    ensures code.None? ==> (forall x <- items :: BatchVerdict(st, speakers.disk, x).Ready?)
                           && resolved == ResolvedItems(st, speakers.disk, items)
    ensures code.Some? ==> var n := FirstDeclined(st, speakers.disk, items);
                           n < |items| && BatchVerdict(st, speakers.disk, items[n]) == Declined(code.value)
  {
    hide BatchVerdict;
    resolved := [];
    for i := 0 to |items|
      invariant S.Coherent(speakers.View()) && speakers.disk == old(speakers.disk) && |resolved| == i
      invariant forall j :: 0 <= j < i ==> BatchVerdict(st, speakers.disk, items[j]) == Ready(resolved[j])
    {
      var v := ValidateItem(st, items[i], speakers);
      if v.Declined? {
        FirstDeclinedAt(st, speakers.disk, items, i);
        return Some(v.code), [];
      }
      resolved := resolved + [v.r];
    }
    code := None;
  }

  /** The marking loop of an overflowed batch. */
  method MarkFailedAll(store: JobStore, ids: seq<JobId>, late: nat -> real)
    requires store.Valid()
    modifies set id | id in ids && id in store.jobs :: store.jobs[id]
    ensures store.View() == MarkAll(old(store.View()), ids, late, |ids|)
  {
    ghost var before := store.View();
    for i := 0 to |ids|
      invariant store.View() == MarkAll(before, ids, late, i)
    {
      store.MarkFailed(ids[i], Lifecycle.QUEUE_FULL, late(i));
    }
  }

  /** Store and queue after a valid batch. */
  function Batch(max: int, shop: Shop, rs: seq<Resolved>, ids: seq<JobId>, ts: seq<Times>, late: nat -> real): Shop
    requires |rs| == |ids| == |ts|
  {
    var k := Fitting(max, shop.queue, |rs|);
    var s := Singles(max, shop, rs, ids, ts, k);
    if k == |rs| then s
    else s.(jobs := MarkAll(Created(s.jobs, rs[k], ids[k], ts[k].created), ids[..k + 1], late, k + 1))
  }

  lemma SinglesStep(max: int, shop: Shop, rs: seq<Resolved>, ids: seq<JobId>, ts: seq<Times>, i: nat)
    requires i < |rs| == |ids| == |ts|
    requires HasRoom(max, Singles(max, shop, rs, ids, ts, i).queue)
    ensures var s := Singles(max, shop, rs, ids, ts, i);
            Singles(max, shop, rs, ids, ts, i + 1)
            == Shop(Created(s.jobs, rs[i], ids[i], ts[i].created), s.queue + [EnvelopeFor(rs[i], ids[i], ts[i].queued)])
  {
  }

  /** The first `n` items are created and enqueued; their jobs are among `mine`. */
  ghost predicate Halfway(store: JobStore, manager: QueueManager, before: Shop, mine: set<Job>,
                          rs: seq<Resolved>, ids: seq<JobId>, ts: seq<Times>, n: nat)
    requires n <= |rs| == |ids| == |ts|
    reads store, store.jobs.Values, manager
  {
    && store.Valid()
    && (forall j :: 0 <= j < n ==> ids[j] in store.jobs && store.jobs[ids[j]] in mine)
    && (forall j :: n <= j < |ids| ==> ids[j] !in store.jobs)
    && ShopOf(store, manager) == Singles(manager.maxSize, before, rs, ids, ts, n)
    && n <= Fitting(manager.maxSize, before.queue, |rs|) && |manager.queue| == |before.queue| + n
  }

  /** One round of the second loop of `submit_batch`, with its overflow branch. */
  method SubmitItem(rs: seq<Resolved>, ids: seq<JobId>, ts: seq<Times>, late: nat -> real, i: nat,
                    store: JobStore, manager: QueueManager, ghost before: Shop, ghost mine: set<Job>)
    returns (ok: bool, ghost job: Job)
    requires i < |rs| == |ids| == |ts| && NoDup(ids)
    requires Halfway(store, manager, before, mine, rs, ids, ts, i)
    modifies store`jobs, manager`queue, mine
    ensures fresh(job)
    ensures ok ==> Halfway(store, manager, before, mine + {job}, rs, ids, ts, i + 1)
    ensures !ok ==> Enqueued(store, manager, before, rs, ids, ts, late, false)
  {
    hide Created, EnvelopeFor, Single, MarkAll;
    ok := CreateAndEnqueue(rs[i], ids[i], ts[i], store, manager);
    job := store.jobs[ids[i]];
    if ok {
      SinglesStep(manager.maxSize, before, rs, ids, ts, i);
    } else {
      assert i == Fitting(manager.maxSize, before.queue, |rs|);
      MarkFailedAll(store, ids[..i + 1], late);
    }
  }

  lemma WholeBatch(store: JobStore, manager: QueueManager, before: Shop, mine: set<Job>,
                   rs: seq<Resolved>, ids: seq<JobId>, ts: seq<Times>, late: nat -> real)
    requires |rs| == |ids| == |ts| && Halfway(store, manager, before, mine, rs, ids, ts, |rs|)
    ensures Enqueued(store, manager, before, rs, ids, ts, late, true)
  {
  }

  /** The loop of `submit_batch` that creates and enqueues, item by item, until one has no room. */
  method EnqueueEach(rs: seq<Resolved>, ids: seq<JobId>, ts: seq<Times>, late: nat -> real, store: JobStore,
      manager: QueueManager, ghost before: Shop)
    returns (ok: bool, entries: seq<JobId>)
    requires |rs| == |ids| == |ts| && NoDup(ids) && Halfway(store, manager, before, {}, rs, ids, ts, 0)
    modifies store`jobs, manager`queue
    ensures Enqueued(store, manager, before, rs, ids, ts, late, ok)
    ensures ok ==> entries == ids
  {
    hide *;
    ghost var mine := {};
    entries := [];
    for i := 0 to |rs|
      invariant entries == ids[..i] && fresh(mine)
      invariant Halfway(store, manager, before, mine, rs, ids, ts, i)
    {
      ghost var job;
      ok, job := SubmitItem(rs, ids, ts, late, i, store, manager, before, mine);
      if !ok {
        return;
      }
      mine := mine + {job};
      entries := entries + [ids[i]];
    }
    WholeBatch(store, manager, before, mine, rs, ids, ts, late);
    ok := true;
  }

  /** All items are enqueued, or as many as had room, and then the store and the queue are those of the batch. */
  ghost predicate Enqueued(store: JobStore, manager: QueueManager, before: Shop,
                           rs: seq<Resolved>, ids: seq<JobId>, ts: seq<Times>, late: nat -> real, ok: bool)
    requires |rs| == |ids| == |ts|
    reads store, store.jobs.Values, manager
  {
    && store.Valid() && ShopOf(store, manager) == Batch(manager.maxSize, before, rs, ids, ts, late)
    && (ok <==> Fitting(manager.maxSize, before.queue, |rs|) == |rs|)
  }

  /** The second part of `submit_batch`. */
  method EnqueueAll(rs: seq<Resolved>, ids: seq<JobId>, ts: seq<Times>, late: nat -> real, store: JobStore,
      manager: QueueManager)
    returns (response: Response)
    requires store.Valid() && |rs| == |ids| == |ts| && Fresh(store.View(), ids)
    modifies store`jobs, manager`queue
    ensures store.Valid()
    ensures ShopOf(store, manager) == Batch(manager.maxSize, old(ShopOf(store, manager)), rs, ids, ts, late)
    ensures response == if Fitting(manager.maxSize, old(manager.queue), |rs|) == |rs| then Accepted(ids)
        else Refused(503)
  {
    ghost var before := ShopOf(store, manager);
    assert Halfway(store, manager, before, {}, rs, ids, ts, 0);
    var ok, entries := EnqueueEach(rs, ids, ts, late, store, manager, before);
    response := if ok then Accepted(entries) else Refused(503);
  }

  lemma DeclinedCode(st: Settings, disk: S.Disk, item: Item)
    requires BatchVerdict(st, disk, item).Declined?
    ensures BatchVerdict(st, disk, item).code in {404, 422}
  {
  }

  /**
   `submit_batch`: a batch of a wrong size or with a declined item leaves no trace; a valid one
   has the effect of the same single submissions, and its ids come back in the order of its items.
   When the queue overflows, everything created so far is FAILED and the answer is 503.
   */
  method SubmitBatch(st: Settings, items: seq<Item>, ids: seq<JobId>, ts: seq<Times>, late: nat -> real,
                     speakers: S.SpeakerStore, store: JobStore, manager: QueueManager) returns (response: Response)
    requires S.Coherent(speakers.View()) && store.Valid()
    requires |items| == |ids| == |ts| && Fresh(store.View(), ids)
    modifies speakers`cache, store`jobs, manager`queue
    ensures S.Coherent(speakers.View()) && store.Valid()
    ensures var before, n := old(ShopOf(store, manager)), FirstDeclined(st, speakers.disk, items);
            if !(1 <= |items| <= MAX_BATCH_SIZE) then response == Refused(422) && ShopOf(store, manager) == before
            else if n < |items| then
              response == Refused(BatchVerdict(st, speakers.disk, items[n]).code) && ShopOf(store, manager) == before
            else
              var rs := ResolvedItems(st, speakers.disk, items);
              && ShopOf(store, manager) == Batch(manager.maxSize, before, rs, ids, ts, late)
              && response == if Fitting(manager.maxSize, before.queue, |rs|) == |rs| then Accepted(ids)
                   else Refused(503)
    ensures response.Accepted? ==>
              && response == Accepted(ids)
              && BatchLeaves(old(ShopOf(store, manager)), ShopOf(store, manager), st, speakers.disk, items, ids,
                             |items|)
    ensures response == Refused(503) ==>
              exists k :: 0 <= k < |items| &&
                BatchLeaves(old(ShopOf(store, manager)), ShopOf(store, manager), st, speakers.disk, items, ids, k)
    ensures response.Refused? && response.code != 503 ==>
              response.code in {404, 422} && ShopOf(store, manager) == old(ShopOf(store, manager))
  {
    hide BatchVerdict, Batch, BatchLeaves, ResolvedItems, Understood;
    if |items| < 1 || |items| > MAX_BATCH_SIZE {
      return Refused(422);
    }
    var code, rs := ValidateBatch(st, items, speakers);
    if code.Some? {
      DeclinedCode(st, speakers.disk, items[FirstDeclined(st, speakers.disk, items)]);
      return Refused(code.value);
    }
    FirstDeclinedAt(st, speakers.disk, items, |items|);
    ResolvedMeans(st, speakers.disk, items);
    BatchMeans(manager.maxSize, ShopOf(store, manager), st, speakers.disk, rs, items, ids, ts, late);
    response := EnqueueAll(rs, ids, ts, late, store, manager);
  }

  lemma PendingGivenUp(before: Table, jobs: Table, rs: seq<Resolved>, ids: seq<JobId>, ts: seq<Times>,
      late: nat -> real, n: nat, i: nat)
    requires i < n <= |rs| == |ids| == |ts| && Fresh(before, ids) && Pending(before, jobs, rs, ids, ts, n)
    ensures var marked := MarkAll(jobs, ids[..n], late, n);
            ids[i] in marked && GivenUp(marked[ids[i]]) && marked[ids[i]].finishedAt == Some(late(i))
  {
    hide MarkAll, Preview;
    assert ids[..n][i] == ids[i] && ids[i] in ids[..n];
    Lifecycle.OverflowSpeaks();
    MarkAllTimes(jobs, ids[..n], late, n, i);
    MarkAllFails(jobs, ids[..n], late, n);
  }

  lemma MarkedAfterPending(before: Table, jobs: Table, rs: seq<Resolved>, ids: seq<JobId>, ts: seq<Times>,
      late: nat -> real, n: nat)
    requires n <= |rs| == |ids| == |ts| && Fresh(before, ids) && Pending(before, jobs, rs, ids, ts, n)
    ensures var marked := MarkAll(jobs, ids[..n], late, n);
            && (forall i :: 0 <= i < n ==>
                  ids[i] in marked && GivenUp(marked[ids[i]]) && marked[ids[i]].finishedAt == Some(late(i)))
            && (forall i :: n <= i < |ids| ==> ids[i] !in marked)
            && (forall id :: id in before ==> id in marked && marked[id] == before[id])
  {
    hide MarkAll, New, GivenUp;
    forall i | 0 <= i < n {
      PendingGivenUp(before, jobs, rs, ids, ts, late, n, i);
    }
    MarkAllFails(jobs, ids[..n], late, n);
  }

  /**
   An overflowing batch, at item k = max - depth: the k accepted envelopes stay in the queue, the
   records of items 0 to k are all FAILED, later items have none, and nothing else changes.
   */
  lemma OverflowFailsAll(max: int, shop: Shop, rs: seq<Resolved>, ids: seq<JobId>, ts: seq<Times>, late: nat -> real)
    requires |rs| == |ids| == |ts| && Fresh(shop.jobs, ids)
    requires Fitting(max, shop.queue, |rs|) < |rs|
    ensures var k := Fitting(max, shop.queue, |rs|);
            var s := Batch(max, shop, rs, ids, ts, late);
            && Queued(shop.queue, s.queue, rs, ids, ts, k)
            && (forall i :: 0 <= i <= k ==>
                  ids[i] in s.jobs && GivenUp(s.jobs[ids[i]]) && s.jobs[ids[i]].finishedAt == Some(late(i)))
            && (forall i :: k < i < |ids| ==> ids[i] !in s.jobs)
            && (forall id :: id in shop.jobs ==> id in s.jobs && s.jobs[id] == shop.jobs[id])
  {
    hide Pending, Created, Singles, MarkAll, Queued, Fresh;
    var k := Fitting(max, shop.queue, |rs|);
    SinglesInOrder(max, shop, rs, ids, ts, k);
    var jobs := Singles(max, shop, rs, ids, ts, k).jobs;
    OneMorePending(shop.jobs, jobs, rs, ids, ts, k);
    MarkedAfterPending(shop.jobs, Created(jobs, rs[k], ids[k], ts[k].created), rs, ids, ts, late, k + 1);
  }

  /** A batch that fits is the same single submissions, in the same order. */
  lemma BatchRefinesSingles(max: int, shop: Shop, rs: seq<Resolved>, ids: seq<JobId>, ts: seq<Times>, late: nat -> real)
    requires |rs| == |ids| == |ts| && Fresh(shop.jobs, ids)
    requires Fitting(max, shop.queue, |rs|) == |rs|
    ensures var s := Batch(max, shop, rs, ids, ts, late);
            && s == Singles(max, shop, rs, ids, ts, |rs|)
            && Queued(shop.queue, s.queue, rs, ids, ts, |rs|) && Pending(shop.jobs, s.jobs, rs, ids, ts, |rs|)
  {
    SinglesInOrder(max, shop, rs, ids, ts, |rs|);
  }

  /** The envelopes, the records and the untouched rest after a valid batch, in terms of its items. */
  ghost predicate BatchLeaves(before: Shop, after: Shop, st: Settings, disk: S.Disk, items: seq<Item>, ids: seq<JobId>,
                              k: nat)
    requires k <= |items| == |ids|
  {
    && |after.queue| == |before.queue| + k && after.queue[..|before.queue|] == before.queue
    && (forall i :: 0 <= i < k ==> AsksFor(after.queue[|before.queue| + i], ids[i], st, disk, items[i]))
    && (k == |items| ==>
          forall i :: 0 <= i < k ==> ids[i] in after.jobs && WaitsFor(after.jobs[ids[i]], st, disk, items[i]))
    && (k < |items| ==> forall i :: 0 <= i <= k ==> ids[i] in after.jobs && GivenUp(after.jobs[ids[i]]))
    && (k < |items| ==> forall i :: k < i < |ids| ==> ids[i] !in after.jobs)
    && (forall id :: id in before.jobs ==> id in after.jobs && after.jobs[id] == before.jobs[id])
  }

  lemma BatchMeans(max: int, shop: Shop, st: Settings, disk: S.Disk, rs: seq<Resolved>, items: seq<Item>,
                   ids: seq<JobId>, ts: seq<Times>, late: nat -> real)
    requires |rs| == |items| == |ids| == |ts| && Fresh(shop.jobs, ids)
    requires forall i :: 0 <= i < |rs| ==> Understood(st, disk, items[i], rs[i])
    ensures BatchLeaves(shop, Batch(max, shop, rs, ids, ts, late), st, disk, items, ids,
                        Fitting(max, shop.queue, |rs|))
  {
    hide *;
    hide BatchLeaves;
    if Fitting(max, shop.queue, |rs|) == |rs| {
      FittingBatchMeans(max, shop, st, disk, rs, items, ids, ts, late);
    } else {
      OverflowMeans(max, shop, st, disk, rs, items, ids, ts, late);
    }
  }

  lemma FittingBatchMeans(max: int, shop: Shop, st: Settings, disk: S.Disk, rs: seq<Resolved>, items: seq<Item>,
                          ids: seq<JobId>, ts: seq<Times>, late: nat -> real)
    requires |rs| == |items| == |ids| == |ts| && Fresh(shop.jobs, ids)
    requires forall i :: 0 <= i < |rs| ==> Understood(st, disk, items[i], rs[i])
    requires Fitting(max, shop.queue, |rs|) == |rs|
    ensures BatchLeaves(shop, Batch(max, shop, rs, ids, ts, late), st, disk, items, ids, |rs|)
  {
    FittingQueue(max, shop, st, disk, rs, items, ids, ts, late);
    FittingRecords(max, shop, st, disk, rs, items, ids, ts, late);
  }

  lemma FittingQueue(max: int, shop: Shop, st: Settings, disk: S.Disk, rs: seq<Resolved>, items: seq<Item>,
                     ids: seq<JobId>, ts: seq<Times>, late: nat -> real)
    requires |rs| == |items| == |ids| == |ts| && Fresh(shop.jobs, ids)
    requires forall i :: 0 <= i < |rs| ==> Understood(st, disk, items[i], rs[i])
    requires Fitting(max, shop.queue, |rs|) == |rs|
    ensures var before, queue := shop.queue, Batch(max, shop, rs, ids, ts, late).queue;
            && |queue| == |before| + |rs| && queue[..|before|] == before
            && forall i :: 0 <= i < |rs| ==> AsksFor(queue[|before| + i], ids[i], st, disk, items[i])
  {
    hide *;
    BatchRefinesSingles(max, shop, rs, ids, ts, late);
    QueuedAsks(shop.queue, Batch(max, shop, rs, ids, ts, late).queue, st, disk, rs, items, ids, ts, |rs|);
  }

  lemma FittingRecords(max: int, shop: Shop, st: Settings, disk: S.Disk, rs: seq<Resolved>, items: seq<Item>,
                       ids: seq<JobId>, ts: seq<Times>, late: nat -> real)
    requires |rs| == |items| == |ids| == |ts| && Fresh(shop.jobs, ids)
    requires forall i :: 0 <= i < |rs| ==> Understood(st, disk, items[i], rs[i])
    requires Fitting(max, shop.queue, |rs|) == |rs|
    ensures var jobs := Batch(max, shop, rs, ids, ts, late).jobs;
            && (forall i :: 0 <= i < |ids| ==> ids[i] in jobs && WaitsFor(jobs[ids[i]], st, disk, items[i]))
            && (forall id :: id in shop.jobs ==> id in jobs && jobs[id] == shop.jobs[id])
  {
    hide *;
    BatchRefinesSingles(max, shop, rs, ids, ts, late);
    PendingWaits(shop.jobs, Batch(max, shop, rs, ids, ts, late).jobs, st, disk, rs, items, ids, ts);
  }

  lemma OverflowMeans(max: int, shop: Shop, st: Settings, disk: S.Disk, rs: seq<Resolved>, items: seq<Item>,
                      ids: seq<JobId>, ts: seq<Times>, late: nat -> real)
    requires |rs| == |items| == |ids| == |ts| && Fresh(shop.jobs, ids)
    requires forall i :: 0 <= i < |rs| ==> Understood(st, disk, items[i], rs[i])
    requires Fitting(max, shop.queue, |rs|) < |rs|
    ensures BatchLeaves(shop, Batch(max, shop, rs, ids, ts, late), st, disk, items, ids,
                        Fitting(max, shop.queue, |rs|))
  {
    OverflowQueue(max, shop, st, disk, rs, items, ids, ts, late);
    OverflowRecords(max, shop, rs, ids, ts, late);
  }

  lemma OverflowQueue(max: int, shop: Shop, st: Settings, disk: S.Disk, rs: seq<Resolved>, items: seq<Item>,
                      ids: seq<JobId>, ts: seq<Times>, late: nat -> real)
    requires |rs| == |items| == |ids| == |ts| && Fresh(shop.jobs, ids)
    requires forall i :: 0 <= i < |rs| ==> Understood(st, disk, items[i], rs[i])
    requires Fitting(max, shop.queue, |rs|) < |rs|
    ensures var before, queue := shop.queue, Batch(max, shop, rs, ids, ts, late).queue;
            var k := Fitting(max, before, |rs|);
            && |queue| == |before| + k && queue[..|before|] == before
            && forall i :: 0 <= i < k ==> AsksFor(queue[|before| + i], ids[i], st, disk, items[i])
  {
    hide *;
    OverflowFailsAll(max, shop, rs, ids, ts, late);
    QueuedAsks(shop.queue, Batch(max, shop, rs, ids, ts, late).queue, st, disk, rs, items, ids, ts,
               Fitting(max, shop.queue, |rs|));
  }

  lemma OverflowRecords(max: int, shop: Shop, rs: seq<Resolved>, ids: seq<JobId>, ts: seq<Times>, late: nat -> real)
    requires |rs| == |ids| == |ts| && Fresh(shop.jobs, ids)
    requires Fitting(max, shop.queue, |rs|) < |rs|
    ensures var jobs, k := Batch(max, shop, rs, ids, ts, late).jobs, Fitting(max, shop.queue, |rs|);
            && (forall i :: 0 <= i <= k ==> ids[i] in jobs && GivenUp(jobs[ids[i]]))
            && (forall i :: k < i < |ids| ==> ids[i] !in jobs)
            && (forall id :: id in shop.jobs ==> id in jobs && jobs[id] == shop.jobs[id])
  {
    hide *;
    OverflowFailsAll(max, shop, rs, ids, ts, late);
  }

  lemma QueuedAsks(before: seq<Envelope>, queue: seq<Envelope>, st: Settings, disk: S.Disk, rs: seq<Resolved>,
                   items: seq<Item>, ids: seq<JobId>, ts: seq<Times>, n: nat)
    requires n <= |rs| == |items| == |ids| == |ts| && Queued(before, queue, rs, ids, ts, n)
    requires forall i :: 0 <= i < |rs| ==> Understood(st, disk, items[i], rs[i])
    ensures |queue| == |before| + n && queue[..|before|] == before
    ensures forall i :: 0 <= i < n ==> AsksFor(queue[|before| + i], ids[i], st, disk, items[i])
  {
    hide Understood, AsksFor, EnvelopeFor;
    forall i | 0 <= i < n
      ensures AsksFor(queue[|before| + i], ids[i], st, disk, items[i])
    {
      EnvelopeAsks(st, disk, rs[i], items[i], ids[i], ts[i].queued, ts[i].created);
    }
  }

  lemma PendingWaits(before: Table, jobs: Table, st: Settings, disk: S.Disk, rs: seq<Resolved>, items: seq<Item>,
                     ids: seq<JobId>, ts: seq<Times>)
    requires |rs| == |items| == |ids| == |ts| && Pending(before, jobs, rs, ids, ts, |rs|)
    requires forall i :: 0 <= i < |rs| ==> Understood(st, disk, items[i], rs[i])
    ensures forall i :: 0 <= i < |ids| ==> ids[i] in jobs && WaitsFor(jobs[ids[i]], st, disk, items[i])
    ensures forall id :: id in before ==> id in jobs && jobs[id] == before[id]
  {
    hide Understood, WaitsFor, New;
    forall i | 0 <= i < |ids|
      ensures ids[i] in jobs && WaitsFor(jobs[ids[i]], st, disk, items[i])
    {
      UnderstoodItem(st, disk, items[i], rs[i]);
      EnvelopeAsks(st, disk, rs[i], items[i], ids[i], ts[i].queued, ts[i].created);
      assert ids[i] in ids[..|rs|];
    }
  }

  lemma UnderstoodItem(st: Settings, disk: S.Disk, item: Item, r: Resolved)
    requires Understood(st, disk, item, r)
    ensures r.item == item
  {
  }

  /** The requests of a valid batch are its items, each with its own language and voice. */
  lemma ResolvedMeans(st: Settings, disk: S.Disk, items: seq<Item>)
    requires forall x <- items :: BatchVerdict(st, disk, x).Ready?
    ensures |ResolvedItems(st, disk, items)| == |items|
    ensures forall i :: 0 <= i < |items| ==> Understood(st, disk, items[i], ResolvedItems(st, disk, items)[i])
  {
    forall i | 0 <= i < |items|
      ensures Understood(st, disk, items[i], ResolvedItems(st, disk, items)[i])
    {
      assert items[i] in items;
      BatchVerdictMeans(st, disk, items[i], BatchVerdict(st, disk, items[i]).r.language);
    }
  }

  // ------------------------------------------------------------------
  // The lifecycle's steps
  // ------------------------------------------------------------------

  /**
   One round of a handler is the step Create and then the step Submit of the lifecycle: the
   same record, the same envelope, accepted on the same condition.
   */
  lemma RoundIsCreateThenSubmit(k: Lifecycle.Setup, s: Lifecycle.System, h: nat, r: Resolved)
    requires Lifecycle.Allowed(k, s, Lifecycle.Create(h)) && k.c.maxQueue > 0
    requires s.handlers[h].items[|s.handlers[h].ids|] == EnvelopeFor(r, |s.a.reqs|, s.now).spec
    ensures var s1 := Lifecycle.After(k, s, Lifecycle.Create(h));
            && Lifecycle.Allowed(k, s1, Lifecycle.Submit(h))
            && var s2, id := Lifecycle.After(k, s1, Lifecycle.Submit(h)), |s.a.reqs|;
               && s2.jobs == Created(s.jobs, r, id, s.now)
               && s2.a.queue == (if |s.a.queue| < k.c.maxQueue then s.a.queue + [id] else s.a.queue)
               && (|s.a.queue| >= k.c.maxQueue <==> s2.handlers[h].stage == Lifecycle.Marking(0))
               && s2.handlers[h].ids == s.handlers[h].ids + [id]
  {
    var s1 := Lifecycle.Created(k, s, h);
    var id := |s.a.reqs|;
    assert s1.handlers[h].ids == s.handlers[h].ids + [id] && s1.a.reqs[id].phase.Fresh?;
    assert s1.jobs == Created(s.jobs, r, id, s.now);
    var enqueues := Scheduling.Enabled(k.c, s1.a, Scheduling.Enqueue(id));
    assert enqueues <==> |s.a.queue| < k.c.maxQueue;
    assert !enqueues ==> Scheduling.Enabled(k.c, s1.a, Scheduling.Refuse(id));
  }

  /** Each round of the marking loop is the step Mark of the lifecycle. */
  lemma MarkingIsMark(k: Lifecycle.Setup, s: Lifecycle.System, h: nat)
    requires Lifecycle.Allowed(k, s, Lifecycle.Mark(h))
    ensures var n, ids := s.handlers[h].stage.k, s.handlers[h].ids;
            forall jobs: Table, late: nat -> real :: s.jobs == MarkAll(jobs, ids, late, n) && late(n) == s.now ==>
              Lifecycle.After(k, s, Lifecycle.Mark(h)).jobs == MarkAll(jobs, ids, late, n + 1)
  {
    var n, ids := s.handlers[h].stage.k, s.handlers[h].ids;
    assert Lifecycle.After(k, s, Lifecycle.Mark(h)).jobs == MarkFailed(s.jobs, ids[n], Lifecycle.QUEUE_FULL, s.now);
  }

  /**
   A single submission without room is a handler of one item going through Create, Submit and
   Mark: the same table, and the handler ends Rejected.
   */
  lemma RefusedSingleIsLifecycle(k: Lifecycle.Setup, s: Lifecycle.System, h: nat, r: Resolved, shop: Shop)
    requires Lifecycle.Allowed(k, s, Lifecycle.Create(h)) && k.c.maxQueue > 0 && |s.life| == |s.a.reqs|
    requires s.handlers[h].items == [EnvelopeFor(r, |s.a.reqs|, s.now).spec]
    requires shop.jobs == s.jobs && Ids(shop.queue) == s.a.queue && !HasRoom(k.c.maxQueue, shop.queue)
    ensures var s1, id := Lifecycle.After(k, s, Lifecycle.Create(h)), |s.a.reqs|;
            && Lifecycle.Allowed(k, s1, Lifecycle.Submit(h))
            && var s2 := Lifecycle.After(k, s1, Lifecycle.Submit(h));
               && Lifecycle.Allowed(k, s2, Lifecycle.Mark(h))
               && var s3 := Lifecycle.After(k, s2, Lifecycle.Mark(h));
                  && s3.handlers[h].stage == Lifecycle.Rejected && s3.a.queue == s.a.queue
                  && s3.jobs == Single(k.c.maxQueue, shop, r, id, Times(s.now, s.now, s.now)).jobs
  {
    assert |Ids(shop.queue)| == |shop.queue|;
    RoundIsCreateThenSubmit(k, s, h, r);
    var s1 := Lifecycle.After(k, s, Lifecycle.Create(h));
    var s2 := Lifecycle.After(k, s1, Lifecycle.Submit(h));
    RefusedHandler(k, s, h, s1, s2);
    hide EnvelopeFor, Created, Lifecycle.Created, Lifecycle.Submitted;
  }

  lemma RefusedHandler(k: Lifecycle.Setup, s: Lifecycle.System, h: nat, s1: Lifecycle.System, s2: Lifecycle.System)
    requires Lifecycle.Allowed(k, s, Lifecycle.Create(h)) && s1 == Lifecycle.After(k, s, Lifecycle.Create(h))
    requires Lifecycle.Allowed(k, s1, Lifecycle.Submit(h)) && s2 == Lifecycle.After(k, s1, Lifecycle.Submit(h))
    requires |s.handlers[h].items| == 1 && |s.life| == |s.a.reqs|
    ensures h < |s2.handlers| && s2.handlers[h].ids == [|s.a.reqs|] && |s2.life| == |s.life| + 1 && s2.now == s.now
    ensures s.handlers[h].ids == []
  {
  }
}
