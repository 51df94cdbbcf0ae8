/** The speaker store: a cache in front of one directory per speaker. */
module Speakers {
  import opened Common
  import opened Messages

  datatype Meta = Meta(createdAt: Option<string>)

  /** A speaker's directory: `ref.wav`, `latents.npz` and `meta.json`, each present or not. */
  datatype Folder = Folder(wav: Option<string>, latents: Option<Voice>, meta: Option<Meta>)

  type Disk = map<string, Folder>

  datatype SpeakerRecord = SpeakerRecord(name: string, wavPath: string, voice: Voice, createdAt: string)

  datatype Store = Store(cache: map<string, SpeakerRecord>, disk: Disk)

  function WavPath(name: string): string {
    name + "/ref.wav"
  }

  function HasLatents(disk: Disk, name: string): bool {
    name in disk && disk[name].latents.Some?
  }

  /** `_load_from_disk`. */
  function LoadFromDisk(disk: Disk, name: string): Option<SpeakerRecord> {
    if !HasLatents(disk, name) then None
    else
      var f := disk[name];
      var createdAt := if f.meta.Some? && f.meta.value.createdAt.Some? then f.meta.value.createdAt.value else "";
      Some(SpeakerRecord(name, if f.wav.Some? then WavPath(name) else "", f.latents.value, createdAt))
  }

  /** Every cached record is what a disk read would return. */
  ghost predicate Coherent(s: Store) {
    forall name :: name in s.cache ==> LoadFromDisk(s.disk, name) == Some(s.cache[name])
  }

  datatype Op =
    | Register(name: string, wav: string, voice: Voice, at: string)
    | Delete(name: string)
    | Get(name: string)
    | Exists(name: string)
    | Preload

  datatype Answer = Found(record: SpeakerRecord) | NotFound | Yes | No | Done

  /** A store without a cache. */
  function Plain(disk: Disk, op: Op): (Disk, Answer) {
    match op
    case Register(name, wav, voice, at) =>
      var disk' := disk[name := Folder(Some(wav), Some(voice), Some(Meta(Some(at))))];
      (disk', Found(SpeakerRecord(name, WavPath(name), voice, at)))
    case Delete(name) => if name in disk then (disk - {name}, Done) else (disk, NotFound)
    case Get(name) => (disk, match LoadFromDisk(disk, name) case Some(r) => Found(r) case None => NotFound)
    case Exists(name) => (disk, if HasLatents(disk, name) then Yes else No)
    case Preload => (disk, Done)
  }

  /** The store as it is. */
  function Cached(s: Store, op: Op): (Store, Answer) {
    match op
    case Register(name, wav, voice, at) =>
      var r := SpeakerRecord(name, WavPath(name), voice, at);
      (Store(s.cache[name := r], s.disk[name := Folder(Some(wav), Some(voice), Some(Meta(Some(at))))]), Found(r))
    case Delete(name) =>
      if name in s.disk then (Store(s.cache - {name}, s.disk - {name}), Done) else (s, NotFound)
    case Get(name) =>
      if name in s.cache then (s, Found(s.cache[name]))
      else
        (match LoadFromDisk(s.disk, name)
         case Some(r) => (s.(cache := s.cache[name := r]), Found(r))
         case None => (s, NotFound))
    case Exists(name) => (s, if name in s.cache || HasLatents(s.disk, name) then Yes else No)
    case Preload => (s.(cache := s.cache + Loadable(s.disk, s.cache.Keys)), Done)
  }

  /** What preloading adds: every speaker with latents that is not cached yet. */
  function Loadable(disk: Disk, cached: set<string>): map<string, SpeakerRecord> {
    map name | name in disk && name !in cached && HasLatents(disk, name) :: LoadFromDisk(disk, name).value
  }

  lemma CachedStepRefines(s: Store, op: Op)
    requires Coherent(s)
    ensures var (s', a) := Cached(s, op);
            Coherent(s') && (s'.disk, a) == Plain(s.disk, op)
  {
  }

  function PlainRun(disk: Disk, ops: seq<Op>): (Disk, seq<Answer>)
    decreases |ops|
  {
    if ops == [] then (disk, [])
    else
      var (disk1, a) := Plain(disk, ops[0]);
      var (disk2, rest) := PlainRun(disk1, ops[1..]);
      (disk2, [a] + rest)
  }

  function CachedRun(s: Store, ops: seq<Op>): (Store, seq<Answer>)
    decreases |ops|
  {
    if ops == [] then (s, [])
    else
      var (s1, a) := Cached(s, ops[0]);
      var (s2, rest) := CachedRun(s1, ops[1..]);
      (s2, [a] + rest)
  }

  /**
   After any sequence of operations every cached record is what a disk read would return,
   and all answers are those of a store that reads the disk each time.
   */
  lemma {:induction false} CacheRefinesDisk(s: Store, ops: seq<Op>)
    requires Coherent(s)
    ensures var (s', answers) := CachedRun(s, ops);
            Coherent(s') && (s'.disk, answers) == PlainRun(s.disk, ops)
    decreases |ops|
  {
    if ops != [] {
      CachedStepRefines(s, ops[0]);
      CacheRefinesDisk(Cached(s, ops[0]).0, ops[1..]);
    }
  }

  /** `exists` answers yes exactly when `latents.npz` is on disk. */
  lemma ExistsIffLatents(s: Store, name: string)
    requires Coherent(s)
    ensures Cached(s, Exists(name)).1 == Yes <==> HasLatents(s.disk, name)
  {
  }

  lemma {:induction false} AbsentNeverServed(s: Store, name: string, ops: seq<Op>, i: nat)
    requires Coherent(s) && i < |ops| && forall op <- ops :: op.Register? ==> op.name != name
    requires !HasLatents(s.disk, name)
    ensures |CachedRun(s, ops).1| == |ops|
    ensures ops[i] == Get(name) ==> CachedRun(s, ops).1[i] == NotFound
    ensures ops[i] == Exists(name) ==> CachedRun(s, ops).1[i] == No
    decreases |ops|
  {
    CachedStepRefines(s, ops[0]);
    if |ops| > 1 {
      AbsentNeverServed(Cached(s, ops[0]).0, name, ops[1..], if i > 0 then i - 1 else 0);
    }
  }

  /** After a deletion, and as long as nobody registers the name again, it is never served. */
  lemma DeletedNeverServed(s: Store, name: string, ops: seq<Op>, i: nat)
    requires Coherent(s) && Cached(s, Delete(name)).1 == Done
    requires i < |ops| && forall op <- ops :: op.Register? ==> op.name != name
    ensures var s' := Cached(s, Delete(name)).0;
            && |CachedRun(s', ops).1| == |ops|
            && (ops[i] == Get(name) ==> CachedRun(s', ops).1[i] == NotFound)
            && (ops[i] == Exists(name) ==> CachedRun(s', ops).1[i] == No)
  {
    CachedStepRefines(s, Delete(name));
    AbsentNeverServed(Cached(s, Delete(name)).0, name, ops, i);
  }

  /** What `get` returns: the latents on disk, the path of the reference clip and the time, as far as they are there. */
  lemma GetMeans(s: Store, name: string)
    requires Coherent(s)
    ensures var a := Cached(s, Get(name)).1;
            && (a.Found? <==> name in s.disk && s.disk[name].latents.Some?)
            && (a.Found? ==>
                  && a.record.name == name && Some(a.record.voice) == s.disk[name].latents
                  && a.record.wavPath == (if s.disk[name].wav.Some? then name + "/ref.wav" else "")
                  && (match s.disk[name].meta
                      case Some(Meta(Some(at))) => a.record.createdAt == at
                      case _ => a.record.createdAt == ""))
            && (!a.Found? ==> a == NotFound)
  {
    CachedStepRefines(s, Get(name));
  }

  /** Preloading leaves exactly the speakers with latents on disk cached. */
  lemma PreloadMeans(s: Store, name: string)
    requires Coherent(s)
    ensures name in Cached(s, Preload).0.cache <==> HasLatents(s.disk, name)
  {
  }

  ghost predicate Leaves(op: Op, name: string) {
    (op.Register? || op.Delete?) ==> op.name != name
  }

  lemma {:induction false} PresentIsServed(s: Store, name: string, wav: string, voice: Voice, at: string,
                                           ops: seq<Op>, i: nat)
    requires Coherent(s) && i < |ops| && forall op <- ops :: Leaves(op, name)
    requires name in s.disk && s.disk[name] == Folder(Some(wav), Some(voice), Some(Meta(Some(at))))
    ensures |CachedRun(s, ops).1| == |ops|
    ensures ops[i] == Get(name) ==>
              CachedRun(s, ops).1[i] == Found(SpeakerRecord(name, name + "/ref.wav", voice, at))
    ensures ops[i] == Exists(name) ==> CachedRun(s, ops).1[i] == Yes
    decreases |ops|
  {
    CachedStepRefines(s, ops[0]);
    assert Leaves(ops[0], name);
    if |ops| > 1 {
      PresentIsServed(Cached(s, ops[0]).0, name, wav, voice, at, ops[1..], if i > 0 then i - 1 else 0);
    }
  }

  /** After a registration, and as long as nobody registers or deletes the name, just what was registered is served. */
  lemma RegisteredIsServed(s: Store, name: string, wav: string, voice: Voice, at: string, ops: seq<Op>, i: nat)
    requires Coherent(s) && i < |ops| && forall op <- ops :: Leaves(op, name)
    ensures var s' := Cached(s, Register(name, wav, voice, at)).0;
            && |CachedRun(s', ops).1| == |ops|
            && (ops[i] == Get(name) ==>
                  CachedRun(s', ops).1[i] == Found(SpeakerRecord(name, name + "/ref.wav", voice, at)))
            && (ops[i] == Exists(name) ==> CachedRun(s', ops).1[i] == Yes)
  {
    CachedStepRefines(s, Register(name, wav, voice, at));
    PresentIsServed(Cached(s, Register(name, wav, voice, at)).0, name, wav, voice, at, ops, i);
  }

  class SpeakerStore {
    var cache: map<string, SpeakerRecord>
    var disk: Disk

    function View(): Store
      reads this
    {
      Store(cache, disk)
    }

    constructor (disk: Disk)
      ensures View() == Store(map[], disk) && Coherent(View())
    {
      cache := map[];
      this.disk := disk;
    }

    method Register(name: string, wav: string, voice: Voice, at: string) returns (record: SpeakerRecord)
      modifies this
      ensures (View(), Found(record)) == Cached(old(View()), Op.Register(name, wav, voice, at))
      ensures disk == old(disk)[name := Folder(Some(wav), Some(voice), Some(Meta(Some(at))))]
    {
      disk := disk[name := if name in disk then disk[name] else Folder(None, None, None)];
      disk := disk[name := disk[name].(wav := Some(wav))];
      disk := disk[name := disk[name].(latents := Some(voice))];
      disk := disk[name := disk[name].(meta := Some(Meta(Some(at))))];
      assert disk == old(disk)[name := Folder(Some(wav), Some(voice), Some(Meta(Some(at))))];
      record := SpeakerRecord(name, WavPath(name), voice, at);
      cache := cache[name := record];
    }

    method Delete(name: string) returns (found: bool)
      modifies this
      ensures (View(), if found then Done else NotFound) == Cached(old(View()), Op.Delete(name))
      ensures (found <==> name in old(disk)) && disk == old(disk) - {name}
    {
      if name !in disk {
        return false;
      }
      cache := cache - {name};
      disk := disk - {name};
      found := true;
    }

    method Get(name: string) returns (record: Option<SpeakerRecord>)
      modifies this`cache
      ensures (View(), if record.Some? then Found(record.value) else NotFound) == Cached(old(View()), Op.Get(name))
    {
      if name in cache {
        return Some(cache[name]);
      }
      record := LoadFromDisk(disk, name);
      if record.Some? {
        cache := cache[name := record.value];
      }
    }

    method Exists(name: string) returns (r: bool)
      ensures (View(), if r then Yes else No) == Cached(View(), Op.Exists(name))
    {
      if name in cache {
        return true;
      }
      r := name in disk && disk[name].latents.Some?;
    }

    /** One directory of `preload_all`. */
    method PreloadOne(name: string) returns (added: nat)
      modifies this`cache
      ensures cache == if name !in old(cache) && HasLatents(disk, name)
                       then old(cache)[name := LoadFromDisk(disk, name).value] else old(cache)
      ensures added == |cache| - |old(cache)|
    {
      added := 0;
      if name !in cache {
        var record := LoadFromDisk(disk, name);
        if record.Some? {
          cache := cache[name := record.value];
          added := 1;
        }
      }
    }

    /** The speakers among `seen` are cached as far as they can be loaded. */
    ghost predicate Loaded(before: map<string, SpeakerRecord>, seen: set<string>)
      reads this
    {
      cache == before + LoadableAmong(disk, before.Keys, seen)
    }

    method PreloadNext(name: string, ghost before: map<string, SpeakerRecord>, ghost seen: set<string>)
      returns (added: nat)
      requires Loaded(before, seen) && name in disk && name !in seen
      modifies this`cache
      ensures Loaded(before, seen + {name}) && added == |cache| - |old(cache)|
    {
      LoadOne(disk, before, seen, name);
      hide LoadableAmong, HasLatents, LoadFromDisk;
      added := PreloadOne(name);
    }

    /** The loop of `preload_all`, over the directories in any order. */
    method PreloadEach() returns (loaded: nat)
      modifies this`cache
      ensures cache == old(cache) + Loadable(disk, old(cache).Keys) && loaded == |cache| - |old(cache)|
    {
      loaded := 0;
      var todo := disk.Keys;
      ghost var before, seen := cache, {};
      AllLoaded(disk, before);
      assert Loaded(before, seen);
      hide *;
      while todo != {}
        invariant seen + todo == disk.Keys && seen !! todo
        invariant Loaded(before, seen) && loaded == |cache| - |before|
        decreases todo
      {
        var name :| name in todo;
        var added := PreloadNext(name, before, seen);
        todo, seen := todo - {name}, seen + {name};
        loaded := loaded + added;
      }
      assert seen == disk.Keys;
      AllLoadedMeans(before);
    }

    lemma AllLoadedMeans(before: map<string, SpeakerRecord>)
      requires Loaded(before, disk.Keys)
      ensures cache == before + Loadable(disk, before.Keys)
    {
      AllLoaded(disk, before);
    }

    /** `preload_all`: every loadable speaker is cached; the count is that of the records added. */
    method PreloadAll() returns (loaded: nat)
      modifies this`cache
      ensures View() == Cached(old(View()), Preload).0
      ensures loaded == |cache| - |old(cache)|
    {
      loaded := PreloadEach();
    }
  }

  function LoadableAmong(disk: Disk, cached: set<string>, seen: set<string>): map<string, SpeakerRecord> {
    map name | name in disk && name in seen && name !in cached && HasLatents(disk, name) ::
        LoadFromDisk(disk, name).value
  }

  lemma AllLoaded(disk: Disk, before: map<string, SpeakerRecord>)
    ensures before + LoadableAmong(disk, before.Keys, {}) == before
    ensures LoadableAmong(disk, before.Keys, disk.Keys) == Loadable(disk, before.Keys)
  {
  }

  lemma LoadOne(disk: Disk, before: map<string, SpeakerRecord>, seen: set<string>, name: string)
    requires name in disk && name !in seen
    ensures var cache := before + LoadableAmong(disk, before.Keys, seen);
            var cache' := before + LoadableAmong(disk, before.Keys, seen + {name});
            && (name in cache <==> name in before)
            && cache' == if name !in cache && HasLatents(disk, name)
                 then cache[name := LoadFromDisk(disk, name).value] else cache
  {
  }
}
