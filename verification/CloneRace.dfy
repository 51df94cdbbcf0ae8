/** Any number of concurrent `POST /v1/speakers` requests over one speaker store. */
module CloneRace {
  import opened Common
  import opened Messages
  import opened Speakers

  /** The endpoint's awaits separate: arrival, the first check, the latent computation, the rest. */
  datatype Stage = Arrived | Computing | Computed(voice: Voice) | Answered(code: nat)

  datatype Client = Client(name: string, upload: string, stage: Stage)

  datatype Happening = Won(client: nat, name: string, voice: Voice) | Removed(name: string)

  datatype Race = Race(store: Store, clients: seq<Client>, log: seq<Happening>)

  datatype Step =
    | Arrive(name: string, upload: string)
    | FirstCheck(c: nat)
    | Reject(c: nat, code: nat)
    | Compute(c: nat, voice: Voice)
    | Finish(c: nat, at: string)
    | Remove(name: string)
    | Serve(name: string)
    | PreloadAll

  ghost predicate Start(r: Race) {
    Coherent(r.store) && r.clients == [] && r.log == []
  }

  predicate Exists(s: Store, name: string) {
    Cached(s, Op.Exists(name)).1 == Yes
  }

  ghost predicate Allowed(m: Model, r: Race, step: Step) {
    match step
    case FirstCheck(c) => c < |r.clients| && r.clients[c].stage.Arrived?
    case Reject(c, code) => c < |r.clients| && r.clients[c].stage.Computing? && code in {413, 422, 500}
    case Compute(c, voice) => c < |r.clients| && r.clients[c].stage.Computing?
        && m.conditions(Reference(r.clients[c].upload), voice)
    case Finish(c, _) => c < |r.clients| && r.clients[c].stage.Computed?
    case _ => true
  }

  function SetStage(r: Race, c: nat, stage: Stage): Race
    requires c < |r.clients|
  {
    r.(clients := r.clients[c := r.clients[c].(stage := stage)])
  }

  /** The second check and the registration, with no await in between. */
  function Finished(r: Race, c: nat, at: string): Race
    requires c < |r.clients| && r.clients[c].stage.Computed?
  {
    var client := r.clients[c];
    if Exists(r.store, client.name) then SetStage(r, c, Answered(409))
    else
      SetStage(r, c, Answered(201)).(
        store := Cached(r.store, Register(client.name, client.upload, client.stage.voice, at)).0,
        log := r.log + [Won(c, client.name, client.stage.voice)])
  }

  ghost function After(m: Model, r: Race, step: Step): Race
    requires Allowed(m, r, step)
  {
    match step
    case Arrive(name, upload) => r.(clients := r.clients + [Client(name, upload, Arrived)])
    case FirstCheck(c) => SetStage(r, c, if Exists(r.store, r.clients[c].name) then Answered(409) else Computing)
    case Reject(c, code) => SetStage(r, c, Answered(code))
    case Compute(c, voice) => SetStage(r, c, Computed(voice))
    case Finish(c, at) => Finished(r, c, at)
    case Remove(name) =>
      var (store, a) := Cached(r.store, Delete(name));
      r.(store := store, log := if a.Done? then r.log + [Removed(name)] else r.log)
    case Serve(name) => r.(store := Cached(r.store, Get(name)).0)
    case PreloadAll => r.(store := Cached(r.store, Preload).0)
  }

  // ------------------------------------------------------------------
  // The log
  // ------------------------------------------------------------------

  /** The voice of the last registration of `name` that no deletion has followed. */
  function Live(log: seq<Happening>, name: string): Option<Voice> {
    if log == [] then None
    else
      var last := log[|log| - 1];
      if last.name != name then Live(log[..|log| - 1], name)
      else if last.Won? then Some(last.voice)
      else None
  }

  ghost predicate RemovedBetween(log: seq<Happening>, name: string, i: nat, j: nat) {
    exists k :: i < k < j && k < |log| && log[k] == Removed(name)
  }

  /** Between two registrations of a name there is a deletion of it. */
  ghost predicate OneWinnerEach(log: seq<Happening>) {
    forall i, j :: 0 <= i < j < |log| && log[i].Won? && log[j].Won? && log[i].name == log[j].name ==>
      RemovedBetween(log, log[i].name, i, j)
  }

  lemma {:induction false} NotLive(log: seq<Happening>, i: nat)
    requires i < |log| && log[i].Won? && Live(log, log[i].name).None?
    ensures RemovedBetween(log, log[i].name, i, |log|)
  {
    var front := log[..|log| - 1];
    if log[|log| - 1] != Removed(log[i].name) {
      NotLive(front, i);
      var k :| i < k < |front| && front[k] == Removed(log[i].name);
      assert log[k] == Removed(log[i].name);
    }
  }

  lemma {:induction false} StillLive(log: seq<Happening>, i: nat)
    requires i < |log| && log[i].Won? && OneWinnerEach(log) && !RemovedBetween(log, log[i].name, i, |log|)
    ensures Live(log, log[i].name) == Some(log[i].voice)
  {
    var n: nat := |log| - 1;
    if i < n {
      var name, front := log[i].name, log[..n];
      var earlier := RemovedBetween(log, name, i, n);
      assert log[n] != Removed(name) && !earlier;
      FrontKeeps(log);
      StillLive(front, i);
    }
  }

  lemma FrontKeeps(log: seq<Happening>)
    requires log != [] && OneWinnerEach(log)
    ensures OneWinnerEach(log[..|log| - 1])
  {
  }

  lemma SnocKeeps(log: seq<Happening>, h: Happening)
    requires OneWinnerEach(log) && (h.Won? ==> Live(log, h.name).None?)
    ensures OneWinnerEach(log + [h])
  {
    var more := log + [h];
    forall i, j | 0 <= i < j < |more| && more[i].Won? && more[j].Won? && more[i].name == more[j].name
      ensures RemovedBetween(more, more[i].name, i, j)
    {
      if j == |log| {
        NotLive(log, i);
      }
      assert RemovedBetween(log, log[i].name, i, j);
      var k :| i < k < j && k < |log| && log[k] == Removed(log[i].name);
      assert more[k] == log[k];
    }
  }

  // ------------------------------------------------------------------
  // The invariant
  // ------------------------------------------------------------------

  ghost predicate Winner(m: Model, clients: seq<Client>, h: Happening) {
    && h.Won? && h.client < |clients|
    && clients[h.client].stage == Answered(201) && clients[h.client].name == h.name
    && m.conditions(Reference(clients[h.client].upload), h.voice)
  }

  predicate HasWon(log: seq<Happening>, c: nat) {
    exists i :: 0 <= i < |log| && log[i].Won? && log[i].client == c
  }

  /** The store holds the latents of the last registration. */
  ghost predicate Current(s: Store, log: seq<Happening>) {
    forall name :: Live(log, name).Some? ==> name in s.disk && s.disk[name].latents == Live(log, name)
  }

  /** Each registration is credited to one client, the one that was answered 201. */
  ghost predicate Credited(m: Model, clients: seq<Client>, log: seq<Happening>) {
    && (forall i :: 0 <= i < |log| && log[i].Won? ==> Winner(m, clients, log[i]))
    && (forall i, j :: 0 <= i < j < |log| && log[i].Won? && log[j].Won? ==> log[i].client != log[j].client)
    && (forall c :: 0 <= c < |clients| && clients[c].stage == Answered(201) ==> HasWon(log, c))
    && (forall c :: 0 <= c < |clients| && clients[c].stage.Computed? ==>
          m.conditions(Reference(clients[c].upload), clients[c].stage.voice))
  }

  ghost predicate Inv(m: Model, r: Race) {
    Coherent(r.store) && OneWinnerEach(r.log) && Current(r.store, r.log) && Credited(m, r.clients, r.log)
  }

  lemma ExistsMeans(s: Store, name: string)
    requires Coherent(s)
    ensures Exists(s, name) <==> HasLatents(s.disk, name)
  {
  }

  lemma LiveAfter(log: seq<Happening>, h: Happening, name: string)
    ensures Live(log + [h], name) == if h.name != name then Live(log, name) else if h.Won? then Some(h.voice) else None
  {
  }

  lemma CreditWinner(m: Model, clients: seq<Client>, log: seq<Happening>, c: nat)
    requires Credited(m, clients, log) && c < |clients| && clients[c].stage.Computed?
    ensures Credited(m, clients[c := clients[c].(stage := Answered(201))],
        log + [Won(c, clients[c].name, clients[c].stage.voice)])
  {
    var clients' := clients[c := clients[c].(stage := Answered(201))];
    var log' := log + [Won(c, clients[c].name, clients[c].stage.voice)];
    assert log'[|log|].client == c;
    forall d | 0 <= d < |clients'| && clients'[d].stage == Answered(201)
      ensures HasWon(log', d)
    {
      if d != c {
        assert HasWon(log, d);
        var i :| 0 <= i < |log| && log[i].Won? && log[i].client == d;
        assert log'[i] == log[i];
      }
    }
    forall i | 0 <= i < |log'| && log'[i].Won?
      ensures Winner(m, clients', log'[i]) && (i < |log| ==> log'[i].client != c)
    {
      assert i < |log| ==> Winner(m, clients, log[i]);
    }
  }

  lemma CreditRemoval(m: Model, clients: seq<Client>, log: seq<Happening>, name: string)
    requires Credited(m, clients, log)
    ensures Credited(m, clients, log + [Removed(name)])
  {
    var log' := log + [Removed(name)];
    forall d | 0 <= d < |clients| && clients[d].stage == Answered(201)
      ensures HasWon(log', d)
    {
      assert HasWon(log, d);
      var i :| 0 <= i < |log| && log[i].Won? && log[i].client == d;
      assert log'[i] == log[i];
    }
  }

  lemma CreditArrival(m: Model, clients: seq<Client>, log: seq<Happening>, client: Client)
    requires Credited(m, clients, log) && client.stage.Arrived?
    ensures Credited(m, clients + [client], log)
  {
  }

  lemma CreditStage(m: Model, clients: seq<Client>, log: seq<Happening>, c: nat, stage: Stage)
    requires Credited(m, clients, log) && c < |clients| && !clients[c].stage.Answered? && stage != Answered(201)
    requires stage.Computed? ==> m.conditions(Reference(clients[c].upload), stage.voice)
    ensures Credited(m, clients[c := clients[c].(stage := stage)], log)
  {
  }

  lemma FinishStep(m: Model, r: Race, c: nat, at: string)
    requires Inv(m, r) && Allowed(m, r, Finish(c, at))
    ensures Inv(m, Finished(r, c, at))
  {
    hide Credited, OneWinnerEach;
    var client := r.clients[c];
    ExistsMeans(r.store, client.name);
    if Exists(r.store, client.name) {
      CreditStage(m, r.clients, r.log, c, Answered(409));
    } else {
      var h := Won(c, client.name, client.stage.voice);
      CachedStepRefines(r.store, Register(client.name, client.upload, client.stage.voice, at));
      SnocKeeps(r.log, h);
      CreditWinner(m, r.clients, r.log, c);
      forall name {
        LiveAfter(r.log, h, name);
      }
    }
  }

  lemma RemoveStep(m: Model, r: Race, name: string)
    requires Inv(m, r)
    ensures Inv(m, After(m, r, Remove(name)))
  {
    hide Credited, OneWinnerEach;
    CachedStepRefines(r.store, Delete(name));
    SnocKeeps(r.log, Removed(name));
    CreditRemoval(m, r.clients, r.log, name);
    forall other {
      LiveAfter(r.log, Removed(name), other);
    }
  }

  lemma StoreStep(m: Model, r: Race, op: Op)
    requires Inv(m, r) && (op.Get? || op.Preload?)
    ensures Inv(m, r.(store := Cached(r.store, op).0))
  {
  }

  lemma StepInv(m: Model, r: Race, step: Step)
    requires Inv(m, r) && Allowed(m, r, step)
    ensures Inv(m, After(m, r, step))
  {
    match step
    case Arrive(name, upload) => CreditArrival(m, r.clients, r.log, Client(name, upload, Arrived));
    case FirstCheck(c) =>
      CreditStage(m, r.clients, r.log, c, if Exists(r.store, r.clients[c].name) then Answered(409) else Computing);
    case Reject(c, code) => CreditStage(m, r.clients, r.log, c, Answered(code));
    case Compute(c, voice) => CreditStage(m, r.clients, r.log, c, Computed(voice));
    case Finish(c, at) => FinishStep(m, r, c, at);
    case Remove(name) => RemoveStep(m, r, name);
    case Serve(name) => StoreStep(m, r, Get(name));
    case PreloadAll => StoreStep(m, r, Preload);
  }

  // ------------------------------------------------------------------
  // Runs
  // ------------------------------------------------------------------

  ghost predicate Next(m: Model, r: Race, r': Race) {
    exists step :: Allowed(m, r, step) && r' == After(m, r, step)
  }

  ghost predicate Run(m: Model, rs: seq<Race>) {
    rs != [] && Start(rs[0]) && forall i :: 0 <= i < |rs| - 1 ==> Next(m, rs[i], rs[i + 1])
  }

  lemma {:induction false} RunInv(m: Model, rs: seq<Race>, i: nat)
    requires Run(m, rs) && i < |rs|
    ensures Inv(m, rs[i])
  {
    if i > 0 {
      RunInv(m, rs, i - 1);
      assert Next(m, rs[i - 1], rs[i]);
      var step :| Allowed(m, rs[i - 1], step) && rs[i] == After(m, rs[i - 1], step);
      StepInv(m, rs[i - 1], step);
    }
  }

  /** However many clients race, two of them register the same name only with a deletion in between. */
  lemma AtMostOneWinner(m: Model, rs: seq<Race>, n: nat, i: nat, j: nat)
    requires Run(m, rs) && n < |rs| && i < j < |rs[n].log|
    requires rs[n].log[i].Won? && rs[n].log[j].Won? && rs[n].log[i].name == rs[n].log[j].name
    ensures RemovedBetween(rs[n].log, rs[n].log[i].name, i, j)
  {
    RunInv(m, rs, n);
  }

  /**
   Until the next deletion of its name, every `get` returns the winner's own latents: those the
   model computed from the winner's upload between the two checks.
   */
  lemma WinnerIsServed(m: Model, rs: seq<Race>, n: nat, i: nat)
    requires Run(m, rs) && n < |rs| && i < |rs[n].log| && rs[n].log[i].Won?
    requires !RemovedBetween(rs[n].log, rs[n].log[i].name, i, |rs[n].log|)
    ensures var r, h := rs[n], rs[n].log[i];
            && h.client < |r.clients| && r.clients[h.client].name == h.name
            && m.conditions(Reference(r.clients[h.client].upload), h.voice)
            && var a := Cached(r.store, Get(h.name)).1;
               a.Found? && a.record.name == h.name && a.record.voice == h.voice
  {
    var r, h := rs[n], rs[n].log[i];
    RunInv(m, rs, n);
    StillLive(r.log, i);
    assert Winner(m, r.clients, h);
    CachedStepRefines(r.store, Get(h.name));
  }

  /** A client is answered 201 exactly when it registered its speaker, and it does so once. */
  lemma CreatedIffRegistered(m: Model, rs: seq<Race>, n: nat, c: nat)
    requires Run(m, rs) && n < |rs| && c < |rs[n].clients|
    ensures rs[n].clients[c].stage == Answered(201) <==> HasWon(rs[n].log, c)
    ensures var log := rs[n].log;
            forall i, j :: 0 <= i < j < |log| && log[i].Won? && log[j].Won? ==> !(log[i].client == c == log[j].client)
  {
    RunInv(m, rs, n);
    var log := rs[n].log;
    forall i | 0 <= i < |log| && log[i].Won? && log[i].client == c
      ensures rs[n].clients[c].stage == Answered(201)
    {
      assert Winner(m, rs[n].clients, log[i]);
    }
  }

  /** A check answers 409 exactly when the name has latents on disk at that moment. */
  lemma ConflictIff(m: Model, r: Race, c: nat, at: string)
    requires Inv(m, r) && c < |r.clients|
    ensures Allowed(m, r, FirstCheck(c)) ==>
              After(m, r, FirstCheck(c)).clients[c].stage
              == if HasLatents(r.store.disk, r.clients[c].name) then Answered(409) else Computing
    ensures Allowed(m, r, Finish(c, at)) ==>
              After(m, r, Finish(c, at)).clients[c].stage
              == Answered(if HasLatents(r.store.disk, r.clients[c].name) then 409 else 201)
  {
    ExistsMeans(r.store, r.clients[c].name);
  }

  /** A client keeps its name and upload, and its answer is never taken back. */
  lemma {:induction false} AnswerStays(m: Model, rs: seq<Race>, i: nat, n: nat, c: nat)
    requires Run(m, rs) && i <= n < |rs| && c < |rs[i].clients|
    ensures c < |rs[n].clients| && rs[n].clients[c].name == rs[i].clients[c].name
    ensures rs[n].clients[c].upload == rs[i].clients[c].upload
    ensures rs[i].clients[c].stage.Answered? ==> rs[n].clients[c].stage == rs[i].clients[c].stage
    decreases n
  {
    if i < n {
      AnswerStays(m, rs, i, n - 1, c);
      assert Next(m, rs[n - 1], rs[n - 1 + 1]);
    }
  }

  /** Whoever is answered 409 met the name on disk at one of the two checks. */
  lemma {:induction false} ConflictMet(m: Model, rs: seq<Race>, n: nat, c: nat) returns (i: nat)
    requires Run(m, rs) && n < |rs| && c < |rs[n].clients| && rs[n].clients[c].stage == Answered(409)
    ensures i < n && c < |rs[i].clients| && !rs[i].clients[c].stage.Answered?
    ensures HasLatents(rs[i].store.disk, rs[n].clients[c].name)
  {
    hide Inv;
    assert n > 0;
    assert Next(m, rs[n - 1], rs[n - 1 + 1]);
    var step :| Allowed(m, rs[n - 1], step) && rs[n] == After(m, rs[n - 1], step);
    RunInv(m, rs, n - 1);
    if c < |rs[n - 1].clients| && rs[n - 1].clients[c].stage == Answered(409) {
      i := ConflictMet(m, rs, n - 1, c);
      AnswerStays(m, rs, n - 1, n, c);
    } else {
      i := n - 1;
      ConflictIff(m, rs[i], c, if step.Finish? then step.at else "");
    }
  }

  function Duel(s: Store, name: string, a: string, b: string, p: Stage, q: Stage): Race {
    Race(s, [Client(name, a, p), Client(name, b, q)], [])
  }

  lemma DuelMoves(m: Model, s: Store, name: string, a: string, b: string, x: Voice, y: Voice)
    requires m.conditions(Reference(a), x) && m.conditions(Reference(b), y) && !Exists(s, name)
    ensures Next(m, Duel(s, name, a, b, Arrived, Arrived), Duel(s, name, a, b, Computing, Arrived))
    ensures Next(m, Duel(s, name, a, b, Computing, Arrived), Duel(s, name, a, b, Computing, Computing))
    ensures Next(m, Duel(s, name, a, b, Computing, Computing), Duel(s, name, a, b, Computed(x), Computing))
    ensures Next(m, Duel(s, name, a, b, Computed(x), Computing), Duel(s, name, a, b, Computed(x), Computed(y)))
  {
    assert Duel(s, name, a, b, Computing, Arrived) == After(m, Duel(s, name, a, b, Arrived, Arrived), FirstCheck(0));
    assert Duel(s, name, a, b, Computing, Computing)
        == After(m, Duel(s, name, a, b, Computing, Arrived), FirstCheck(1));
    assert Duel(s, name, a, b, Computed(x), Computing)
        == After(m, Duel(s, name, a, b, Computing, Computing), Compute(0, x));
    assert Duel(s, name, a, b, Computed(x), Computed(y))
        == After(m, Duel(s, name, a, b, Computed(x), Computing), Compute(1, y));
  }

  lemma DuelArrives(m: Model, s: Store, name: string, a: string, b: string)
    ensures Next(m, Race(s, [], []), Race(s, [Client(name, a, Arrived)], []))
    ensures Next(m, Race(s, [Client(name, a, Arrived)], []), Duel(s, name, a, b, Arrived, Arrived))
  {
    assert Race(s, [Client(name, a, Arrived)], []) == After(m, Race(s, [], []), Arrive(name, a));
    assert Duel(s, name, a, b, Arrived, Arrived) == After(m, Race(s, [Client(name, a, Arrived)], []), Arrive(name, b));
  }

  function Won1(s: Store, name: string, a: string, b: string, p: Stage, y: Voice, t: string): Race {
    Race(Cached(s, Register(name, b, y, t)).0, [Client(name, a, p), Client(name, b, Answered(201))], [Won(1, name, y)])
  }

  lemma DuelEnds(m: Model, s: Store, name: string, a: string, b: string, x: Voice, y: Voice, t: string)
    requires !Exists(s, name)
    ensures Next(m, Duel(s, name, a, b, Computed(x), Computed(y)), Won1(s, name, a, b, Computed(x), y, t))
    ensures Next(m, Won1(s, name, a, b, Computed(x), y, t), Won1(s, name, a, b, Answered(409), y, t))
  {
    assert Won1(s, name, a, b, Computed(x), y, t)
        == After(m, Duel(s, name, a, b, Computed(x), Computed(y)), Finish(1, t));
    assert Won1(s, name, a, b, Answered(409), y, t) == After(m, Won1(s, name, a, b, Computed(x), y, t), Finish(0, t));
  }

  /**
   The second check is needed: two clients pass the first one and both hold latents. With it,
   one of them wins and the other is answered 409.
   */
  lemma TwoPassTheFirstCheck(m: Model, name: string, a: string, b: string, x: Voice, y: Voice, t: string)
    returns (rs: seq<Race>, n: nat)
    requires m.conditions(Reference(a), x) && m.conditions(Reference(b), y)
    ensures Run(m, rs) && n < |rs|
    ensures rs[n].clients == [Client(name, a, Computed(x)), Client(name, b, Computed(y))]
    ensures rs[|rs| - 1].clients == [Client(name, a, Answered(409)), Client(name, b, Answered(201))]
    ensures rs[|rs| - 1].log == [Won(1, name, y)]
  {
    var s := Store(map[], map[]);
    DuelArrives(m, s, name, a, b);
    DuelMoves(m, s, name, a, b, x, y);
    DuelEnds(m, s, name, a, b, x, y, t);
    assert Coherent(s);
    hide Next;
    rs := [Race(s, [], []), Race(s, [Client(name, a, Arrived)], []), Duel(s, name, a, b, Arrived, Arrived)];
    rs := Extended(m, rs, Duel(s, name, a, b, Computing, Arrived));
    rs := Extended(m, rs, Duel(s, name, a, b, Computing, Computing));
    rs := Extended(m, rs, Duel(s, name, a, b, Computed(x), Computing));
    rs := Extended(m, rs, Duel(s, name, a, b, Computed(x), Computed(y)));
    n := 6;
    rs := Extended(m, rs, Won1(s, name, a, b, Computed(x), y, t));
    rs := Extended(m, rs, Won1(s, name, a, b, Answered(409), y, t));
  }

  lemma Extended(m: Model, rs: seq<Race>, r: Race) returns (more: seq<Race>)
    requires Run(m, rs) && Next(m, rs[|rs| - 1], r)
    ensures more == rs + [r] && Run(m, more)
  {
    more := rs + [r];
  }

  /** The end of `clone_speaker`, from the second check on: the step Finish of the race. */
  method CheckAndRegister(store: SpeakerStore, client: Client, at: string, ghost r: Race, ghost c: nat)
    returns (code: nat, registered: bool)
    requires c < |r.clients| && r.clients[c] == client && client.stage.Computed? && store.View() == r.store
    modifies store
    ensures store.View() == Finished(r, c, at).store && Finished(r, c, at).clients[c].stage == Answered(code)
    ensures registered <==> code == 201
    ensures code == if Exists(old(store.View()), client.name) then 409 else 201
    ensures var folder := Folder(Some(client.upload), Some(client.stage.voice), Some(Meta(Some(at))));
            store.disk == if registered then old(store.disk)[client.name := folder] else old(store.disk)
  {
    var taken := store.Exists(client.name);
    if taken {
      return 409, false;
    }
    var record := store.Register(client.name, client.upload, client.stage.voice, at);
    return 201, true;
  }
}
