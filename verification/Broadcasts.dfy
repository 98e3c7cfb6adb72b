/** What the clients have been told about the flag, in every run. */
module Broadcasts {
  import opened LlmState
  import opened Goroutines
  import opened Handlers
  import opened Supervision
  import opened FlagSafety
  import opened FlagSerial

  /** The flag as the clients know it; before the first broadcast they know of no loaded model. */
  predicate ToldLoaded(d: Data) { d.told != [] && d.told[|d.told|-1].loaded }

  /** Whatever the environment answers, the program goes on to tell the clients, without an outside wait before it. */
  predicate WillTell(p: Prog) {
    match p
    case Done => false
    case Acquire(_, q) => WillTell(q)
    case Release(_, q) => WillTell(q)
    case Do(a, y, n) => a.Publish? || (WillTell(y) && WillTell(n))
    case Go(_, q) => WillTell(q)
    case Await(_) => false
  }

  /** Each change of the flag goes on to tell the clients. */
  predicate Telling(p: Prog) {
    match p
    case Done => true
    case Acquire(_, q) => Telling(q)
    case Release(_, q) => Telling(q)
    case Do(a, y, n) => (a.SetLoaded? ==> WillTell(y)) && Telling(y) && Telling(n)
    case Go(ch, q) => Telling(ch) && Telling(q)
    case Await(q) => Telling(q)
  }

  predicate Announcing(c: Config) {
    exists i :: 0 <= i < |c.threads| && WillTell(c.threads[i].prog)
  }

  predicate ToldInv(c: Config) {
    (forall i :: 0 <= i < |c.threads| ==> Telling(c.threads[i].prog)) &&
    (ToldLoaded(c.data) == c.data.loaded || Announcing(c))
  }

  // ---- The code ----

  lemma {:induction false} NeutralTelling(p: Prog)
    requires !Touches(p)
    ensures Telling(p)
  {
    match p
    case Done =>
    case Acquire(_, q) => NeutralTelling(q);
    case Release(_, q) => NeutralTelling(q);
    case Do(a, y, n) =>
      NeutralTelling(y);
      NeutralTelling(n);
    case Go(ch, q) =>
      NeutralTelling(ch);
      NeutralTelling(q);
    case Await(q) => NeutralTelling(q);
  }

  lemma {:induction false} PollTelling(n: nat, ok: Prog, err: Prog)
    requires Telling(ok) && Telling(err)
    ensures Telling(Poll(n, ok, err))
  {
    if n > 0 { PollTelling(n - 1, ok, err); }
  }

  lemma StartTelling(polls: nat, ok: Prog, err: Prog)
    requires Telling(ok) && Telling(err)
    ensures Telling(Handlers.Start(polls, ok, err))
  {
    PollTelling(polls, Unlock(ok), Unlock(err));
    var launch := Launch(polls, ok, err);
    assert Telling(Act(SpawnProcess, Poll(polls, Unlock(ok), Unlock(err)))) && Telling(Unlock(err));
    assert Telling(Act(StopRunning, launch));
    assert Telling(Do(CheckPath, Act(StopRunning, launch), Unlock(err)));
  }

  lemma StartNonBlockingTelling()
    ensures Telling(StartNonBlocking(Done))
  {
    var u := Unlock(Done);
    assert Telling(Act(SpawnProcess, u));
    var find := Do(FindBinary, Act(SpawnProcess, u), u);
    assert Telling(find);
    assert Telling(Do(CheckPath, Do(TestRunning, u, find), u));
  }

  lemma BroadcastTells(k: Prog)
    ensures WillTell(Broadcast(k))
  {
    assert WillTell(Act(Publish, Release(R(ApiMu), k)));
    assert WillTell(Act(DiscRead, Release(R(DiscMu), Act(Publish, Release(R(ApiMu), k)))));
  }

  lemma BroadcastTelling()
    ensures Telling(Broadcast(Done)) && WillTell(Broadcast(Done))
  {
    BroadcastNeutral(Done);
    NeutralTelling(Broadcast(Done));
    BroadcastTells(Done);
  }

  lemma SetLoadedTelling(b: bool)
    ensures Telling(SetApi(SetLoaded(b), Broadcast(Done)))
  {
    BroadcastTelling();
    assert Telling(Act(SetLoaded(b), Release(W(ApiMu), Broadcast(Done))));
  }

  lemma LockedTelling(a: Action, k: Prog)
    requires !a.SetLoaded? && Telling(k)
    ensures Telling(Locked(a, k))
  {
    assert Telling(Act(a, Release(W(LlmMu), k)));
  }

  lemma LoaderTelling(polls: nat)
    ensures Telling(Loader(polls))
  {
    SetLoadedTelling(true);
    var ok := SetApi(SetLoaded(true), Broadcast(Done));
    StartTelling(polls, ok, Done);
    LockedTelling(HandOver, Release(W(ApiMu), Handlers.Start(polls, ok, Done)));
  }

  lemma OptionalTelling(b: bool, o: Setting, k: Prog)
    requires Telling(k)
    ensures Telling(Optional(b, o, k))
  {
    LockedTelling(SetOption(o), k);
  }

  lemma SettingsTelling(q: ModelRequest, k: Prog)
    requires Telling(k)
    ensures Telling(PostSettings(q, k))
  {
    var p1 := Optional(q.predict > 0, Predict(q.predict), k);
    OptionalTelling(q.predict > 0, Predict(q.predict), k);
    var p2 := Optional(q.threads > 0, Threads(q.threads), p1);
    OptionalTelling(q.threads > 0, Threads(q.threads), p1);
    var p3 := Optional(q.gpu != 0, GPULayers(q.gpu), p2);
    OptionalTelling(q.gpu != 0, GPULayers(q.gpu), p2);
    var p4 := Optional(q.ctx > 0, CtxSize(q.ctx), p3);
    OptionalTelling(q.ctx > 0, CtxSize(q.ctx), p3);
    LockedTelling(SetOption(MMProj(q.mmproj)), p4);
    LockedTelling(SetLlmPath(q.path), Locked(SetOption(MMProj(q.mmproj)), p4));
  }

  lemma PostTelling(q: ModelRequest)
    ensures Telling(Post(q, HEALTH_POLLS))
  {
    LoaderTelling(HEALTH_POLLS);
    SetLoadedTelling(false);
    LockedTelling(StopProcess, SetApi(SetLoaded(false), Broadcast(Done)));
    var action := PostAction(q.action, HEALTH_POLLS);
    SettingsTelling(q, action);
    var rest := Release(W(ApiMu), PostSettings(q, action));
    assert Telling(rest);
    assert Telling(Act(SetApiMMProj(q.mmproj), rest));
    assert Telling(Act(SetApiPath(q.path), if q.mmproj != "" then Act(SetApiMMProj(q.mmproj), rest) else rest));
  }

  lemma DeleteTelling()
    ensures Telling(Delete())
  {
    BroadcastTelling();
    var a := Act(SetLoaded(false), Release(W(ApiMu), Broadcast(Done)));
    assert Telling(a);
    assert Telling(Act(SetApiMMProj(""), a));
    assert Telling(Act(SetApiPath(""), Act(SetApiMMProj(""), a)));
    LockedTelling(StopProcess, Acquire(W(ApiMu), Act(SetApiPath(""), Act(SetApiMMProj(""), a))));
  }

  lemma RestartTelling()
    ensures Telling(Restart(HEALTH_POLLS))
  {
    StartTelling(HEALTH_POLLS, Done, Done);
    assert Telling(Do(CheckPath, Unlock(Handlers.Start(HEALTH_POLLS, Done, Done)), Unlock(Done)));
  }

  lemma CodeTelling(r: Request)
    requires !r.ApiSetModelLoaded?
    ensures Telling(Code(r))
  {
    if !Toucher(r) {
      OthersNeutral(r);
      NeutralTelling(Code(r));
    } else {
      match r
      case ModelPost(q) => PostTelling(q);
      case ModelDelete => DeleteTelling();
      case LlmStart => StartTelling(HEALTH_POLLS, Done, Done);
      case LlmStop => LockedTelling(StopProcess, Done);
      case LlmRestart => RestartTelling();
      case LlmStartNonBlocking => StartNonBlockingTelling();
    }
  }

  // ---- Every run ----

  /** An action changes what flag and clients agree on only if it sets the flag. */
  lemma ActionTold(a: Action, d: Data, choice: bool)
    ensures var d' := Perform(a, d, choice).0;
            (a.Publish? ==> ToldLoaded(d') == d'.loaded) &&
            (!a.Publish? && !a.SetLoaded? ==> ToldLoaded(d') == ToldLoaded(d) && d'.loaded == d.loaded)
  {
  }

  /** The stepper keeps what it has to tell, unless it tells it. */
  lemma StepperTold(c: Config, i: nat, choice: bool)
    requires ToldInv(c) && Enabled(c, i)
    ensures var c' := After(c, i, choice);
            Telling(c'.threads[i].prog) &&
                (forall j :: |c.threads| <= j < |c'.threads| ==> Telling(c'.threads[j].prog)) &&
            (ToldLoaded(c'.data) == c'.data.loaded || WillTell(c'.threads[i].prog) ||
             (ToldLoaded(c.data) != c.data.loaded && !WillTell(c.threads[i].prog)))
  {
    var t := c.threads[i];
    assert Telling(t.prog);
    ExitWatcherNeutral(|c.data.llm.procs|);
    NeutralTelling(ExitWatcher(|c.data.llm.procs|));
    if t.prog.Do? { ActionTold(t.prog.a, c.data, choice); }
  }

  lemma StepTold(c: Config, i: nat, choice: bool)
    requires ToldInv(c) && Enabled(c, i)
    ensures ToldInv(After(c, i, choice))
  {
    var c' := After(c, i, choice);
    StepperTold(c, i, choice);
    forall j | 0 <= j < |c'.threads|
      ensures Telling(c'.threads[j].prog)
    {
      if j < |c.threads| && j != i { OthersStay(c, i, choice, j); }
    }
    if ToldLoaded(c'.data) != c'.data.loaded && !WillTell(c'.threads[i].prog) {
      var j :| 0 <= j < |c.threads| && WillTell(c.threads[j].prog);
      OthersStay(c, i, choice, j);
      assert WillTell(c'.threads[j].prog);
    }
  }

  lemma ArriveTold(c: Config, r: Request)
    requires ToldInv(c) && !r.ApiSetModelLoaded?
    ensures ToldInv(Next(c, Arrive(r)))
  {
    var c' := Next(c, Arrive(r));
    CodeTelling(r);
    assert forall j :: 0 <= j < |c.threads| ==> c'.threads[j] == c.threads[j];
    if j :| 0 <= j < |c.threads| && WillTell(c.threads[j].prog) {
      assert WillTell(c'.threads[j].prog);
    }
  }

  /** Nobody sets the flag but the handlers. */
  predicate HandlersSet(es: seq<Event>) { forall e :: e in es && e.Arrive? ==> !e.r.ApiSetModelLoaded? }

  lemma {:induction false} ExecTold(c: Config, es: seq<Event>)
    requires ToldInv(c) && HandlersSet(es)
    ensures ToldInv(Exec(c, es))
    decreases |es|
  {
    if es != [] {
      assert es[0] in es;
      match es[0] {
        case Arrive(r) => ArriveTold(c, r);
        case Step(i, choice) => if Enabled(c, i) { StepTold(c, i, choice); }
      }
      ExecTold(Next(c, es[0]), es[1..]);
    }
  }

  /** In every run, overlapping or not, in every state: the clients know the flag as it is, or some goroutine is on
      its way to tell them. */
  lemma ClientsKnowFlag(es: seq<Event>)
    requires HandlersSet(es)
    ensures var c := Exec(INIT, es); ToldLoaded(c.data) == c.data.loaded || Announcing(c)
  {
    ExecTold(INIT, es);
  }

  /** So they know it whenever every goroutine has finished or waits for an outside event. */
  lemma ClientsKnowFlagAtRest(es: seq<Event>)
    requires HandlersSet(es) && AllIdle(Exec(INIT, es))
    ensures ToldLoaded(Exec(INIT, es).data) == Exec(INIT, es).data.loaded
  {
    ClientsKnowFlag(es);
  }
}
