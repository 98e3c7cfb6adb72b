/** The server's entry points as programs over its locks.  Every function that calls another one
    in the source is built from that one's program; `k` is what runs after the call returns. */
module Handlers {
  import opened LlmState
  import opened Goroutines
  import opened Discipline

  /** A POST to the model endpoint; fields that are not sent are empty or zero. */
  datatype ModelRequest = ModelRequest(path: string, mmproj: string, ctx: int, gpu: int, threads: int, predict: int,
                                       action: string)

  datatype Request =
    | ApiSetModelPath(p: string) | ApiSetOption(o: Setting) | ApiSetModelLoaded(b: bool)
    | ModelGet | ModelPost(q: ModelRequest) | ModelDelete
    | WorkersGet | WorkersDelete | AddWorker | AddRPCWorker | RemoveRPCWorker(index: int)
    | Connect | BroadcastUpdate
    | RegistryWrite | RegistryRead
    | LlmSetPath(p: string) | LlmSetOption(s: Setting) | LlmIsRunning
    | LlmStart | LlmStop | LlmRestart | LlmStartNonBlocking

  // ---- internal/discovery/discovery.go ----

  function GetWorkers(k: Prog): Prog { Section(R(DiscMu), DiscRead, k) }

  function UpdateRegistry(k: Prog): Prog { Section(W(DiscMu), DiscWrite, k) }

  // ---- internal/llmserver/server.go ----

  function Locked(a: Action, k: Prog): Prog { Section(W(LlmMu), a, k) }

  /** At most n health requests; the first good answer ends the wait. */
  function Poll(n: nat, ok: Prog, err: Prog): Prog {
    if n == 0 then err else Do(Health, ok, Poll(n - 1, ok, err))
  }

  function Unlock(k: Prog): Prog { Release(W(LlmMu), k) }

  /** What Start does after its path and flag checks. */
  function Launch(polls: nat, ok: Prog, err: Prog): Prog {
    Do(FindBinary, Act(SpawnProcess, Poll(polls, Unlock(ok), Unlock(err))), Unlock(err))
  }

  function Start(polls: nat, ok: Prog, err: Prog): Prog {
    Acquire(W(LlmMu), Do(CheckPath, Act(StopRunning, Launch(polls, ok, err)), Unlock(err)))
  }

  function StartNonBlocking(k: Prog): Prog {
    Acquire(W(LlmMu), Do(CheckPath, Do(TestRunning, Unlock(k), Do(FindBinary, Act(SpawnProcess, Unlock(k)), Unlock(k))),
                         Unlock(k)))
  }

  function Restart(polls: nat): Prog {
    Acquire(W(LlmMu), Do(CheckPath, Unlock(Start(polls, Done, Done)), Unlock(Done)))
  }

  // ---- internal/api/api.go ----

  function Broadcast(k: Prog): Prog {
    Acquire(R(ApiMu), GetWorkers(Act(Publish, Release(R(ApiMu), k))))
  }

  /** An API setter that forwards to the supervisor while it holds the API lock. */
  function Forwarding(a: Action, b: Action): Prog {
    Acquire(W(ApiMu), Act(a, Locked(b, Release(W(ApiMu), Done))))
  }

  function SetApi(a: Action, k: Prog): Prog { Section(W(ApiMu), a, k) }

  function SetApiOption(o: Setting): Prog {
    if o.MMProj? then Forwarding(SetApiMMProj(o.s), SetOption(o))
    else Acquire(W(ApiMu), Locked(SetOption(o), Release(W(ApiMu), Done)))
  }

  /** The load goroutine. */
  function Loader(polls: nat): Prog {
    Acquire(W(ApiMu), Locked(HandOver, Release(W(ApiMu),
      Start(polls, SetApi(SetLoaded(true), Broadcast(Done)), Done))))
  }

  function Optional(b: bool, o: Setting, k: Prog): Prog { if b then Locked(SetOption(o), k) else k }

  /** What a POST does after the settings are stored. */
  function PostAction(action: string, polls: nat): Prog {
    if action == "start" || action == "load" then Go(Loader(polls), Done)
    else if action == "stop" || action == "unload" then
      Locked(StopProcess, SetApi(SetLoaded(false), Broadcast(Done)))
    else Done
  }

  /** The supervisor's settings: the path and the mmproj always, the others where they are given. */
  function PostSettings(q: ModelRequest, k: Prog): Prog {
    Locked(SetLlmPath(q.path), Locked(SetOption(MMProj(q.mmproj)),
      Optional(q.ctx > 0, CtxSize(q.ctx), Optional(q.gpu != 0, GPULayers(q.gpu),
      Optional(q.threads > 0, Threads(q.threads), Optional(q.predict > 0, Predict(q.predict), k))))))
  }

  function Post(q: ModelRequest, polls: nat): Prog {
    var settings := PostSettings(q, PostAction(q.action, polls));
    var rest := Release(W(ApiMu), settings);
    Acquire(W(ApiMu), Act(SetApiPath(q.path), if q.mmproj != "" then Act(SetApiMMProj(q.mmproj), rest) else rest))
  }

  function Delete(): Prog {
    Locked(StopProcess, Acquire(W(ApiMu), Act(SetApiPath(""), Act(SetApiMMProj(""), Act(SetLoaded(false),
      Release(W(ApiMu), Broadcast(Done)))))))
  }

  function AddRPC(k: Prog): Prog {
    Acquire(W(ApiMu), Act(AppendWorker, Broadcast(Release(W(ApiMu), k))))
  }

  function RemoveRPC(index: int): Prog {
    Acquire(W(ApiMu),
        Do(InRange(index), Act(RemoveWorker, Broadcast(Release(W(ApiMu), Done))), Release(W(ApiMu), Done)))
  }

  function DeleteWorker(): Prog {
    Acquire(R(ApiMu), UpdateRegistry(Broadcast(Release(R(ApiMu), Done))))
  }

  function Code(r: Request): Prog {
    match r
    case ApiSetModelPath(p) => Forwarding(SetApiPath(p), SetLlmPath(p))
    case ApiSetOption(o) => SetApiOption(o)
    case ApiSetModelLoaded(b) => SetApi(SetLoaded(b), Done)
    case ModelGet => Acquire(R(ApiMu), Locked(LlmRead, Act(ApiRead, Release(R(ApiMu), Done))))
    case ModelPost(q) => Post(q, HEALTH_POLLS)
    case ModelDelete => Delete()
    case WorkersGet => GetWorkers(Done)
    case WorkersDelete => DeleteWorker()
    case AddWorker => UpdateRegistry(AddRPC(Broadcast(Done)))
    case AddRPCWorker => AddRPC(Done)
    case RemoveRPCWorker(i) => RemoveRPC(i)
    case Connect => SetApi(Register, Go(Await(SetApi(Unregister, Done)), Done))
    case BroadcastUpdate => Broadcast(Done)
    case RegistryWrite => UpdateRegistry(Done)
    case RegistryRead => GetWorkers(Done)
    case LlmSetPath(p) => Locked(SetLlmPath(p), Done)
    case LlmSetOption(o) => Locked(SetOption(o), Done)
    case LlmIsRunning => Locked(LlmRead, Done)
    case LlmStart => Start(HEALTH_POLLS, Done, Done)
    case LlmStop => Locked(StopProcess, Done)
    case LlmRestart => Restart(HEALTH_POLLS)
    case LlmStartNonBlocking => StartNonBlocking(Done)
  }

  /** The requests that can deadlock: they ask for the API lock while they hold it. */
  predicate Rerequests(r: Request) { r.AddRPCWorker? || r.AddWorker? || r.WorkersDelete? }

  /** The requests whose code asks for a lock it may already hold; with the last one this never happens in a run. */
  predicate Nests(r: Request) { Rerequests(r) || r.RemoveRPCWorker? }

  // ---- The machine: requests arrive, goroutines step in any order ----

  datatype Event = Arrive(r: Request) | Step(i: nat, choice: bool)

  /** A scheduled goroutine that cannot move stays where it is. */
  function Next(c: Config, e: Event): Config {
    match e
    case Arrive(r) => c.(threads := c.threads + [NewThread(Code(r))])
    case Step(i, choice) => if Enabled(c, i) then After(c, i, choice) else c
  }

  function Exec(c: Config, es: seq<Event>): Config
    decreases |es|
  {
    if es == [] then c else Exec(Next(c, es[0]), es[1..])
  }

  const INIT: Config := Config([], Data(FRESH, Options("", 4096, -1, 0, -1), 0, "", "", false, 0, 0, [], 0))

  predicate NoRerequests(es: seq<Event>) {
    forall k :: 0 <= k < |es| && es[k].Arrive? ==> !Rerequests(es[k].r)
  }

  // ---- The code obeys the discipline ----

  predicate Fine(p: Prog, held: multiset<Hold>, ordered: bool) {
    Disciplined(p, held, ordered) && !NeedsStopped(p)
  }

  lemma ActFine(a: Action, k: Prog, held: multiset<Hold>, ordered: bool)
    requires Fine(k, held, ordered) && Covered(a, held) && (Free(a) || (a.AppendWorker? && Reads(k, ApiMu)))
    ensures Fine(Act(a, k), held, ordered)
  {
  }

  lemma ReleaseFine(h: Hold, k: Prog, held: multiset<Hold>, ordered: bool)
    requires h in held && Fine(k, held - multiset{h}, ordered)
    ensures Fine(Release(h, k), held, ordered)
  {
    assert !NeedsStopped(Release(h, k));
  }

  lemma DoneFine(ordered: bool)
    ensures Fine(Done, multiset{}, ordered)
  {
    assert !NeedsStopped(Done);
  }

  lemma LockedFine(a: Action, k: Prog, held: multiset<Hold>, ordered: bool)
    requires Fine(k, held, ordered) && Covered(a, held + multiset{W(LlmMu)}) && Free(a)
    requires Above(LlmMu, held)
    ensures Fine(Locked(a, k), held, ordered)
  {
    SectionDisciplined(W(LlmMu), a, k, held, ordered);
  }

  lemma GetWorkersFine(k: Prog, held: multiset<Hold>, ordered: bool)
    requires Fine(k, held, ordered) && Above(DiscMu, held)
    ensures Fine(GetWorkers(k), held, ordered)
  {
    SectionDisciplined(R(DiscMu), DiscRead, k, held, ordered);
  }

  lemma UpdateRegistryFine(k: Prog, held: multiset<Hold>, ordered: bool)
    requires Fine(k, held, ordered) && Above(DiscMu, held)
    ensures Fine(UpdateRegistry(k), held, ordered)
  {
    SectionDisciplined(W(DiscMu), DiscWrite, k, held, ordered);
  }

  lemma SetApiFine(a: Action, k: Prog, ordered: bool)
    requires Fine(k, multiset{}, ordered) && Covered(a, multiset{W(ApiMu)}) && Free(a)
    ensures Fine(SetApi(a, k), multiset{}, ordered)
  {
    assert multiset{} + multiset{W(ApiMu)} == multiset{W(ApiMu)};
    SectionDisciplined(W(ApiMu), a, k, multiset{}, ordered);
  }

  lemma BroadcastFine(k: Prog, held: multiset<Hold>, ordered: bool)
    requires Fine(k, held, ordered) && (if ordered then held == multiset{} else Rereads(R(ApiMu), held))
    ensures Fine(Broadcast(k), held, ordered)
  {
    var inner := held + multiset{R(ApiMu)};
    assert inner - multiset{R(ApiMu)} == held;
    var tail := Release(R(ApiMu), k);
    ReleaseFine(R(ApiMu), k, inner, ordered);
    ActFine(Publish, tail, inner, ordered);
    GetWorkersFine(Act(Publish, tail), inner, ordered);
  }

  lemma {:induction false} PollFine(n: nat, ok: Prog, err: Prog, held: multiset<Hold>, ordered: bool)
    requires W(LlmMu) in held && Fine(ok, held, ordered) && Fine(err, held, ordered)
    ensures Fine(Poll(n, ok, err), held, ordered)
  {
    if n > 0 { PollFine(n - 1, ok, err, held, ordered); }
  }

  lemma UnlockFine(k: Prog, ordered: bool)
    requires Fine(k, multiset{}, ordered)
    ensures Fine(Unlock(k), multiset{W(LlmMu)}, ordered)
  {
    assert multiset{W(LlmMu)} - multiset{W(LlmMu)} == multiset{};
    ReleaseFine(W(LlmMu), k, multiset{W(LlmMu)}, ordered);
  }

  /** A lookup, and behind it the spawn. */
  lemma FindDisciplined(found: Prog, missing: Prog, held: multiset<Hold>, ordered: bool)
    requires W(LlmMu) in held && Fine(found, held, ordered) && Fine(missing, held, ordered)
    ensures Disciplined(Do(FindBinary, Act(SpawnProcess, found), missing), held, ordered)
  {
    assert !Spawns(found) && !Spawns(missing);
    assert Disciplined(Act(SpawnProcess, found), held, ordered);
  }

  /** A flag test behind whose `no` a process may be spawned. */
  lemma TestFine(running: Prog, clear: Prog, held: multiset<Hold>, ordered: bool)
    requires W(LlmMu) in held && Fine(running, held, ordered) && Disciplined(clear, held, ordered) && !Spawns(clear)
    ensures Fine(Do(TestRunning, running, clear), held, ordered)
  {
  }

  lemma ChoiceFine(a: Action, yes: Prog, no: Prog, held: multiset<Hold>, ordered: bool)
    requires Fine(yes, held, ordered) && Fine(no, held, ordered) && Covered(a, held) && Free(a)
    ensures Fine(Do(a, yes, no), held, ordered)
  {
  }

  /** A stop of what runs, and behind it the lookup. */
  lemma StopFine(launch: Prog, held: multiset<Hold>, ordered: bool)
    requires W(LlmMu) in held && Disciplined(launch, held, ordered) && Looks(launch)
    ensures Fine(Act(StopRunning, launch), held, ordered)
  {
  }

  lemma StartFine(polls: nat, ok: Prog, err: Prog, ordered: bool)
    requires Fine(ok, multiset{}, ordered) && Fine(err, multiset{}, ordered)
    ensures Fine(Start(polls, ok, err), multiset{}, ordered)
  {
    var h := multiset{W(LlmMu)};
    assert multiset{} + h == h;
    UnlockFine(ok, ordered);
    UnlockFine(err, ordered);
    PollFine(polls, Unlock(ok), Unlock(err), h, ordered);
    FindDisciplined(Poll(polls, Unlock(ok), Unlock(err)), Unlock(err), h, ordered);
    var stop := Act(StopRunning, Launch(polls, ok, err));
    StopFine(Launch(polls, ok, err), h, ordered);
    ChoiceFine(CheckPath, stop, Unlock(err), h, ordered);
  }

  lemma StartNonBlockingFine(k: Prog, ordered: bool)
    requires Fine(k, multiset{}, ordered)
    ensures Fine(StartNonBlocking(k), multiset{}, ordered)
  {
    var h := multiset{W(LlmMu)};
    assert multiset{} + h == h;
    UnlockFine(k, ordered);
    var find := Do(FindBinary, Act(SpawnProcess, Unlock(k)), Unlock(k));
    FindDisciplined(Unlock(k), Unlock(k), h, ordered);
    TestFine(Unlock(k), find, h, ordered);
    ChoiceFine(CheckPath, Do(TestRunning, Unlock(k), find), Unlock(k), h, ordered);
  }

  lemma RestartFine(polls: nat, ordered: bool)
    ensures Fine(Restart(polls), multiset{}, ordered)
  {
    var h := multiset{W(LlmMu)};
    assert multiset{} + h == h;
    StartFine(polls, Done, Done, ordered);
    UnlockFine(Start(polls, Done, Done), ordered);
    UnlockFine(Done, ordered);
    assert Fine(Do(CheckPath, Unlock(Start(polls, Done, Done)), Unlock(Done)), h, ordered);
  }

  lemma ForwardingFine(a: Action, b: Action, ordered: bool)
    requires Covered(a, multiset{W(ApiMu)}) && Free(a)
    requires b.SetOption? || b.SetLlmPath?
    ensures Fine(Forwarding(a, b), multiset{}, ordered)
  {
    var h := multiset{W(ApiMu)};
    assert multiset{} + h == h && h - h == multiset{};
    var tail := Release(W(ApiMu), Done);
    DoneFine(ordered);
    ReleaseFine(W(ApiMu), Done, h, ordered);
    LockedFine(b, tail, h, ordered);
    ActFine(a, Locked(b, tail), h, ordered);
  }

  lemma SetApiOptionFine(o: Setting, ordered: bool)
    ensures Fine(SetApiOption(o), multiset{}, ordered)
  {
    if o.MMProj? {
      ForwardingFine(SetApiMMProj(o.s), SetOption(o), ordered);
    } else {
      var h := multiset{W(ApiMu)};
      assert multiset{} + h == h && h - h == multiset{};
      DoneFine(ordered);
      ReleaseFine(W(ApiMu), Done, h, ordered);
      LockedFine(SetOption(o), Release(W(ApiMu), Done), h, ordered);
    }
  }

  lemma LoaderFine(polls: nat, ordered: bool)
    ensures Fine(Loader(polls), multiset{}, ordered)
  {
    var h := multiset{W(ApiMu)};
    assert multiset{} + h == h && h - h == multiset{};
    BroadcastFine(Done, multiset{}, ordered);
    SetApiFine(SetLoaded(true), Broadcast(Done), ordered);
    var start := Start(polls, SetApi(SetLoaded(true), Broadcast(Done)), Done);
    StartFine(polls, SetApi(SetLoaded(true), Broadcast(Done)), Done, ordered);
    var tail := Release(W(ApiMu), start);
    DoneFine(ordered);
    ReleaseFine(W(ApiMu), start, h, ordered);
    LockedFine(HandOver, tail, h, ordered);
    assert Fine(Locked(HandOver, tail), h, ordered);
  }

  lemma OptionalFine(b: bool, o: Setting, k: Prog, ordered: bool)
    requires Fine(k, multiset{}, ordered)
    ensures Fine(Optional(b, o, k), multiset{}, ordered)
  {
    LockedFine(SetOption(o), k, multiset{}, ordered);
  }

  lemma SettingsFine(q: ModelRequest, k: Prog, ordered: bool)
    requires Fine(k, multiset{}, ordered)
    ensures Fine(PostSettings(q, k), multiset{}, ordered)
  {
    var p1 := Optional(q.predict > 0, Predict(q.predict), k);
    OptionalFine(q.predict > 0, Predict(q.predict), k, ordered);
    var p2 := Optional(q.threads > 0, Threads(q.threads), p1);
    OptionalFine(q.threads > 0, Threads(q.threads), p1, ordered);
    var p3 := Optional(q.gpu != 0, GPULayers(q.gpu), p2);
    OptionalFine(q.gpu != 0, GPULayers(q.gpu), p2, ordered);
    var p4 := Optional(q.ctx > 0, CtxSize(q.ctx), p3);
    OptionalFine(q.ctx > 0, CtxSize(q.ctx), p3, ordered);
    LockedFine(SetOption(MMProj(q.mmproj)), p4, multiset{}, ordered);
    LockedFine(SetLlmPath(q.path), Locked(SetOption(MMProj(q.mmproj)), p4), multiset{}, ordered);
  }

  lemma UnloadFine(ordered: bool)
    ensures Fine(Locked(StopProcess, SetApi(SetLoaded(false), Broadcast(Done))), multiset{}, ordered)
  {
    BroadcastFine(Done, multiset{}, ordered);
    SetApiFine(SetLoaded(false), Broadcast(Done), ordered);
    LockedFine(StopProcess, SetApi(SetLoaded(false), Broadcast(Done)), multiset{}, ordered);
  }

  lemma PostFine(q: ModelRequest, polls: nat, ordered: bool)
    ensures Fine(Post(q, polls), multiset{}, ordered)
  {
    LoaderFine(polls, ordered);
    UnloadFine(ordered);
    DoneFine(ordered);
    assert Fine(Go(Loader(polls), Done), multiset{}, ordered);
    var settings := PostSettings(q, PostAction(q.action, polls));
    SettingsFine(q, PostAction(q.action, polls), ordered);
    var h := multiset{W(ApiMu)};
    assert multiset{} + h == h && h - h == multiset{};
    var rest := Release(W(ApiMu), settings);
    ReleaseFine(W(ApiMu), settings, h, ordered);
    ActFine(SetApiMMProj(q.mmproj), rest, h, ordered);
    ActFine(SetApiPath(q.path), if q.mmproj != "" then Act(SetApiMMProj(q.mmproj), rest) else rest, h, ordered);
  }

  lemma DeleteFine(ordered: bool)
    ensures Fine(Delete(), multiset{}, ordered)
  {
    var h := multiset{W(ApiMu)};
    assert multiset{} + h == h && h - h == multiset{};
    BroadcastFine(Done, multiset{}, ordered);
    var tail := Release(W(ApiMu), Broadcast(Done));
    ReleaseFine(W(ApiMu), Broadcast(Done), h, ordered);
    var a := Act(SetLoaded(false), tail);
    ActFine(SetLoaded(false), tail, h, ordered);
    var b := Act(SetApiMMProj(""), a);
    ActFine(SetApiMMProj(""), a, h, ordered);
    ActFine(SetApiPath(""), b, h, ordered);
    var clear := Acquire(W(ApiMu), Act(SetApiPath(""), b));
    assert Fine(clear, multiset{}, ordered);
    LockedFine(StopProcess, clear, multiset{}, ordered);
  }

  /** The nesting code obeys everything but the strict lock order. */
  lemma AddRPCFine(k: Prog)
    requires Fine(k, multiset{}, false)
    ensures Fine(AddRPC(k), multiset{}, false)
  {
    var h := multiset{W(ApiMu)};
    assert multiset{} + h == h && h - h == multiset{};
    var tail := Release(W(ApiMu), k);
    ReleaseFine(W(ApiMu), k, h, false);
    BroadcastFine(tail, h, false);
    ActFine(AppendWorker, Broadcast(tail), h, false);
  }

  lemma RemoveRPCFine(index: int)
    ensures Fine(RemoveRPC(index), multiset{}, false)
  {
    var h := multiset{W(ApiMu)};
    assert multiset{} + h == h && h - h == multiset{};
    var tail := Release(W(ApiMu), Done);
    DoneFine(false);
    ReleaseFine(W(ApiMu), Done, h, false);
    BroadcastFine(tail, h, false);
    ActFine(RemoveWorker, Broadcast(tail), h, false);
  }

  lemma DeleteWorkerFine()
    ensures Fine(DeleteWorker(), multiset{}, false)
  {
    var h := multiset{R(ApiMu)};
    assert multiset{} + h == h && h - h == multiset{};
    var tail := Release(R(ApiMu), Done);
    DoneFine(false);
    ReleaseFine(R(ApiMu), Done, h, false);
    BroadcastFine(tail, h, false);
    UpdateRegistryFine(Broadcast(tail), h, false);
  }

  lemma ModelGetFine(ordered: bool)
    ensures Fine(Code(ModelGet), multiset{}, ordered)
  {
    var h := multiset{R(ApiMu)};
    assert multiset{} + h == h && h - h == multiset{};
    var tail := Release(R(ApiMu), Done);
    DoneFine(ordered);
    ReleaseFine(R(ApiMu), Done, h, ordered);
    ActFine(ApiRead, tail, h, ordered);
    LockedFine(LlmRead, Act(ApiRead, tail), h, ordered);
  }

  lemma ConnectFine(ordered: bool)
    ensures Fine(Code(Connect), multiset{}, ordered)
  {
    DoneFine(ordered);
    SetApiFine(Unregister, Done, ordered);
    var wait := Await(SetApi(Unregister, Done));
    assert Fine(wait, multiset{}, ordered);
    var k := Go(wait, Done);
    assert Fine(k, multiset{}, ordered);
    SetApiFine(Register, k, ordered);
  }

  /** The requests to the API server. */
  predicate OfApi(r: Request) {
    r.ApiSetModelPath? || r.ApiSetOption? || r.ApiSetModelLoaded? || r.ModelGet? || r.ModelPost? || r.ModelDelete? ||
    r.Connect? || r.BroadcastUpdate?
  }

  lemma ApiDisciplined(r: Request, ordered: bool)
    requires OfApi(r)
    ensures Fine(Code(r), multiset{}, ordered)
  {
    DoneFine(ordered);
    match r
    case ApiSetModelPath(p) => ForwardingFine(SetApiPath(p), SetLlmPath(p), ordered);
    case ApiSetOption(o) => SetApiOptionFine(o, ordered);
    case ApiSetModelLoaded(b) => SetApiFine(SetLoaded(b), Done, ordered);
    case ModelGet => ModelGetFine(ordered);
    case ModelPost(q) => PostFine(q, HEALTH_POLLS, ordered);
    case ModelDelete => DeleteFine(ordered);
    case Connect => ConnectFine(ordered);
    case BroadcastUpdate => BroadcastFine(Done, multiset{}, ordered);
  }

  lemma NestingDisciplined(r: Request)
    requires Nests(r)
    ensures Fine(Code(r), multiset{}, false)
  {
    DoneFine(false);
    match r
    case WorkersDelete => DeleteWorkerFine();
    case AddWorker =>
      BroadcastFine(Done, multiset{}, false);
      AddRPCFine(Broadcast(Done));
      UpdateRegistryFine(AddRPC(Broadcast(Done)), multiset{}, false);
    case AddRPCWorker => AddRPCFine(Done);
    case RemoveRPCWorker(i) => RemoveRPCFine(i);
  }

  lemma OwnLockDisciplined(r: Request, ordered: bool)
    requires !OfApi(r) && !Nests(r)
    ensures Fine(Code(r), multiset{}, ordered)
  {
    DoneFine(ordered);
    match r
    case WorkersGet => GetWorkersFine(Done, multiset{}, ordered);
    case RegistryWrite => UpdateRegistryFine(Done, multiset{}, ordered);
    case RegistryRead => GetWorkersFine(Done, multiset{}, ordered);
    case LlmSetPath(p) => LockedFine(SetLlmPath(p), Done, multiset{}, ordered);
    case LlmSetOption(o) => LockedFine(SetOption(o), Done, multiset{}, ordered);
    case LlmIsRunning => LockedFine(LlmRead, Done, multiset{}, ordered);
    case LlmStart => StartFine(HEALTH_POLLS, Done, Done, ordered);
    case LlmStop => LockedFine(StopProcess, Done, multiset{}, ordered);
    case LlmRestart => RestartFine(HEALTH_POLLS, ordered);
    case LlmStartNonBlocking => StartNonBlockingFine(Done, ordered);
  }

  /** All the server's code obeys the discipline; all but the nesting requests keep to the strict lock order too. */
  lemma CodeDisciplined(r: Request, ordered: bool)
    requires ordered ==> !Nests(r)
    ensures Fine(Code(r), multiset{}, ordered)
  {
    if Nests(r) {
      NestingDisciplined(r);
    } else if OfApi(r) {
      ApiDisciplined(r, ordered);
    } else {
      OwnLockDisciplined(r, ordered);
    }
  }

}
