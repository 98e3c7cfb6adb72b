/** The flag in runs that keep apart what touches it: which of the reasons for a flag over a cancelled process
    remain. */
module FlagSerial {
  import opened LlmState
  import opened Goroutines
  import opened Discipline
  import opened Handlers
  import opened Supervision
  import opened FlagSafety

  /** The latest spawned process has not been cancelled. */
  predicate Standing(m: Llm) { HasLatest(m) && !Latest(m).cancelled }

  // ---- The runs ----

  /** Nobody but the handlers stops the supervisor, or sets the flag: nobody in the repository does. */
  predicate NoBareStop(es: seq<Event>) { Arrive(LlmStop) !in es }

  predicate NoDirectSet(es: seq<Event>) { Arrive(ApiSetModelLoaded(true)) !in es }

  predicate Keeping(es: seq<Event>) { NoBareStop(es) && NoDirectSet(es) }

  predicate Keeps(r: Request) { r != LlmStop && r != ApiSetModelLoaded(true) }

  /** Handlers that touch flag or processes do not overlap one another's goroutines. */
  predicate NoOverlap(c: Config, es: seq<Event>)
    decreases |es|
  {
    es == [] || ((es[0].Arrive? && Touches(Code(es[0].r)) ==> !Busy(c)) && NoOverlap(Next(c, es[0]), es[1..]))
  }

  predicate LooksUp(c: Config, e: Event) { e.Step? && e.i < |c.threads| && Looks(c.threads[e.i].prog) }

  /** The binary lookup keeps one answer. */
  predicate OneLookup(c: Config, es: seq<Event>, found: bool)
    decreases |es|
  {
    es == [] || ((LooksUp(c, es[0]) ==> es[0].choice == found) && OneLookup(Next(c, es[0]), es[1..], found))
  }

  // ---- What the programs do on their own ----

  function StandingAfter(a: Action, standing: bool): bool {
    a.SpawnProcess? || (standing && !a.StopProcess? && !a.StopRunning?)
  }

  /** Run with nobody else touching flag or processes, the program sets the flag only over a standing process; and
      each of its stops goes on to clear the flag. */
  predicate Good(p: Prog, standing: bool) {
    match p
    case Done => true
    case Acquire(_, q) => Good(q, standing)
    case Release(_, q) => Good(q, standing)
    case Do(a, y, n) =>
      (a == SetLoaded(true) ==> standing) && (a.StopProcess? ==> WillClear(y)) &&
      Good(y, StandingAfter(a, standing)) && Good(n, StandingAfter(a, standing))
    case Go(ch, q) => !Touches(q) && Good(ch, false)
    case Await(q) => Good(q, standing)
  }

  /** A standing process does no harm. */
  lemma {:induction false} GoodMore(p: Prog, s: bool, t: bool)
    requires Good(p, s) && (s ==> t)
    ensures Good(p, t)
  {
    match p
    case Done =>
    case Acquire(_, q) => GoodMore(q, s, t);
    case Release(_, q) => GoodMore(q, s, t);
    case Do(a, y, n) =>
      GoodMore(y, StandingAfter(a, s), StandingAfter(a, t));
      GoodMore(n, StandingAfter(a, s), StandingAfter(a, t));
    case Go(ch, q) =>
    case Await(q) => GoodMore(q, s, t);
  }

  lemma {:induction false} NeutralGood(p: Prog, standing: bool)
    requires !Touches(p)
    ensures Good(p, standing)
  {
    match p
    case Done =>
    case Acquire(_, q) => NeutralGood(q, standing);
    case Release(_, q) => NeutralGood(q, standing);
    case Do(a, y, n) =>
      NeutralGood(y, standing);
      NeutralGood(n, standing);
    case Go(ch, q) => NeutralGood(ch, false);
    case Await(q) => NeutralGood(q, standing);
  }

  lemma {:induction false} PollGood(n: nat, ok: Prog, err: Prog, standing: bool)
    requires Good(ok, standing) && Good(err, standing)
    ensures Good(Poll(n, ok, err), standing)
  {
    if n > 0 { PollGood(n - 1, ok, err, standing); }
  }

  /** Start is good when what follows a success is good with a standing process, and what follows a failure without. */
  lemma StartGood(polls: nat, ok: Prog, err: Prog, standing: bool)
    requires Good(ok, true) && Good(err, false)
    ensures Good(Handlers.Start(polls, ok, err), standing)
  {
    GoodMore(err, false, true);
    PollGood(polls, Unlock(ok), Unlock(err), true);
    var launch := Launch(polls, ok, err);
    assert Good(Act(SpawnProcess, Poll(polls, Unlock(ok), Unlock(err))), false);
    assert Good(Unlock(err), false);
    assert Good(launch, false);
    assert Good(Act(StopRunning, launch), standing);
    GoodMore(Unlock(err), false, standing);
    assert Good(Do(CheckPath, Act(StopRunning, launch), Unlock(err)), standing);
  }

  lemma StartNonBlockingGood()
    ensures Good(StartNonBlocking(Done), false)
  {
    var u := Unlock(Done);
    assert Good(Act(SpawnProcess, u), false);
    var find := Do(FindBinary, Act(SpawnProcess, u), u);
    assert Good(find, false);
    assert Good(Do(TestRunning, u, find), false);
    assert Good(Do(CheckPath, Do(TestRunning, u, find), u), false);
  }

  lemma BroadcastGood(standing: bool)
    ensures Good(Broadcast(Done), standing)
  {
    BroadcastNeutral(Done);
    NeutralGood(Broadcast(Done), standing);
  }

  lemma LockedGood(a: Action, k: Prog)
    requires !Sets(a) && Good(k, false)
    ensures Good(Locked(a, k), false)
  {
    assert Good(Act(a, Release(W(LlmMu), k)), false);
  }

  lemma LoaderGood(polls: nat)
    ensures Good(Loader(polls), false)
  {
    var ok := SetApi(SetLoaded(true), Broadcast(Done));
    BroadcastGood(true);
    StartGood(polls, ok, Done, false);
    var tail := Release(W(ApiMu), Handlers.Start(polls, ok, Done));
    LockedGood(HandOver, tail);
  }

  lemma UnloadGood()
    ensures Good(PostAction("stop", HEALTH_POLLS), false)
  {
    BroadcastGood(false);
    var clear := SetApi(SetLoaded(false), Broadcast(Done));
    assert WillClear(Release(W(LlmMu), clear));
    assert Good(Act(StopProcess, Release(W(LlmMu), clear)), false);
  }

  lemma OptionalGood(b: bool, o: Setting, k: Prog)
    requires Good(k, false)
    ensures Good(Optional(b, o, k), false)
  {
    LockedGood(SetOption(o), k);
  }

  lemma SettingsGood(q: ModelRequest, k: Prog)
    requires Good(k, false)
    ensures Good(PostSettings(q, k), false)
  {
    var p1 := Optional(q.predict > 0, Predict(q.predict), k);
    OptionalGood(q.predict > 0, Predict(q.predict), k);
    var p2 := Optional(q.threads > 0, Threads(q.threads), p1);
    OptionalGood(q.threads > 0, Threads(q.threads), p1);
    var p3 := Optional(q.gpu != 0, GPULayers(q.gpu), p2);
    OptionalGood(q.gpu != 0, GPULayers(q.gpu), p2);
    var p4 := Optional(q.ctx > 0, CtxSize(q.ctx), p3);
    OptionalGood(q.ctx > 0, CtxSize(q.ctx), p3);
    LockedGood(SetOption(MMProj(q.mmproj)), p4);
    LockedGood(SetLlmPath(q.path), Locked(SetOption(MMProj(q.mmproj)), p4));
  }

  lemma PostGood(q: ModelRequest)
    ensures Good(Post(q, HEALTH_POLLS), false)
  {
    LoaderGood(HEALTH_POLLS);
    UnloadGood();
    var action := PostAction(q.action, HEALTH_POLLS);
    assert Good(action, false);
    SettingsGood(q, action);
    var rest := Release(W(ApiMu), PostSettings(q, action));
    assert Good(rest, false);
    assert Good(Act(SetApiMMProj(q.mmproj), rest), false);
    assert Good(Act(SetApiPath(q.path), if q.mmproj != "" then Act(SetApiMMProj(q.mmproj), rest) else rest), false);
  }

  lemma DeleteGood()
    ensures Good(Delete(), false)
  {
    BroadcastGood(false);
    var tail := Release(W(ApiMu), Broadcast(Done));
    var a := Act(SetApiMMProj(""), Act(SetLoaded(false), tail));
    var clear := Acquire(W(ApiMu), Act(SetApiPath(""), a));
    assert Good(a, false) && WillClear(a);
    assert Good(Act(SetApiPath(""), a), false) && WillClear(Act(SetApiPath(""), a));
    assert WillClear(Release(W(LlmMu), clear));
    assert Good(Act(StopProcess, Release(W(LlmMu), clear)), false);
  }

  lemma RestartGood()
    ensures Good(Restart(HEALTH_POLLS), false)
  {
    StartGood(HEALTH_POLLS, Done, Done, false);
    var start := Unlock(Handlers.Start(HEALTH_POLLS, Done, Done));
    assert Good(start, false) && Good(Unlock(Done), false);
    assert Good(Do(CheckPath, start, Unlock(Done)), false);
  }

  lemma BroadcastNeutral(k: Prog)
    ensures Touches(Broadcast(k)) <==> Touches(k)
  {
    var tail := Act(Publish, Release(R(ApiMu), k));
    assert Touches(tail) <==> Touches(k);
    assert Touches(Act(DiscRead, Release(R(DiscMu), tail))) <==> Touches(tail);
  }

  lemma SectionNeutral(h: Hold, a: Action, k: Prog)
    ensures Touches(Section(h, a, k)) <==> Sets(a) || Touches(k)
  {
    assert Touches(Act(a, Release(h, k))) <==> Sets(a) || Touches(k);
  }

  predicate Toucher(r: Request) {
    r.ApiSetModelLoaded? || r.ModelPost? || r.ModelDelete? || r.LlmStart? || r.LlmStop? || r.LlmRestart? ||
        r.LlmStartNonBlocking?
  }

  /** Every request that the repository makes is good. */
  lemma CodeGood(r: Request)
    requires Keeps(r)
    ensures Good(Code(r), false)
  {
    if !Toucher(r) {
      OthersNeutral(r);
      NeutralGood(Code(r), false);
    } else if r.ModelPost? {
      PostGood(r.q);
    } else if r.ModelDelete? {
      DeleteGood();
    } else if r.LlmStart? {
      StartGood(HEALTH_POLLS, Done, Done, false);
    } else if r.LlmRestart? {
      RestartGood();
    } else if r.LlmStartNonBlocking? {
      StartNonBlockingGood();
    }
  }

  lemma OthersNeutral(r: Request)
    requires !Toucher(r)
    ensures !Touches(Code(r))
  {
    match r
    case ApiSetModelPath(p) =>
      SectionNeutral(W(LlmMu), SetLlmPath(p), Release(W(ApiMu), Done));
      assert !Touches(Act(SetApiPath(p), Locked(SetLlmPath(p), Release(W(ApiMu), Done))));
    case ApiSetOption(o) =>
      SectionNeutral(W(LlmMu), SetOption(o), Release(W(ApiMu), Done));
      if o.MMProj? { assert !Touches(Act(SetApiMMProj(o.s), Locked(SetOption(o), Release(W(ApiMu), Done)))); }
    case ModelGet =>
      assert !Touches(Act(ApiRead, Release(R(ApiMu), Done)));
      SectionNeutral(W(LlmMu), LlmRead, Act(ApiRead, Release(R(ApiMu), Done)));
    case WorkersGet => SectionNeutral(R(DiscMu), DiscRead, Done);
    case WorkersDelete =>
      BroadcastNeutral(Release(R(ApiMu), Done));
      SectionNeutral(W(DiscMu), DiscWrite, Broadcast(Release(R(ApiMu), Done)));
    case AddWorker =>
      BroadcastNeutral(Done);
      AddNeutral(Broadcast(Done));
      SectionNeutral(W(DiscMu), DiscWrite, AddRPC(Broadcast(Done)));
    case AddRPCWorker => AddNeutral(Done);
    case RemoveRPCWorker(i) =>
      var tail := Release(W(ApiMu), Done);
      BroadcastNeutral(tail);
      assert !Touches(Act(RemoveWorker, Broadcast(tail)));
      assert !Touches(Do(InRange(i), Act(RemoveWorker, Broadcast(tail)), tail));
    case Connect =>
      SectionNeutral(W(ApiMu), Unregister, Done);
      assert !Touches(Go(Await(SetApi(Unregister, Done)), Done));
      SectionNeutral(W(ApiMu), Register, Go(Await(SetApi(Unregister, Done)), Done));
    case BroadcastUpdate => BroadcastNeutral(Done);
    case RegistryWrite => SectionNeutral(W(DiscMu), DiscWrite, Done);
    case RegistryRead => SectionNeutral(R(DiscMu), DiscRead, Done);
    case LlmSetPath(p) => SectionNeutral(W(LlmMu), SetLlmPath(p), Done);
    case LlmSetOption(o) => SectionNeutral(W(LlmMu), SetOption(o), Done);
    case LlmIsRunning => SectionNeutral(W(LlmMu), LlmRead, Done);
  }

  lemma AddNeutral(k: Prog)
    ensures Touches(AddRPC(k)) <==> Touches(k)
  {
    BroadcastNeutral(Release(W(ApiMu), k));
    assert Touches(Act(AppendWorker, Broadcast(Release(W(ApiMu), k)))) <==> Touches(k);
  }

  lemma ExitWatcherNeutral(g: nat)
    ensures !Touches(ExitWatcher(g))
  {
    assert !Touches(Act(ClearRunning(g), Release(W(LlmMu), Done)));
  }

  // ---- No bare stop: nothing is dropped ----

  /** A stop in the program does not go on to clear the flag. */
  predicate Bare(p: Prog) {
    match p
    case Done => false
    case Acquire(_, q) => Bare(q)
    case Release(_, q) => Bare(q)
    case Do(a, y, n) => (a.StopProcess? && !WillClear(y)) || Bare(y) || Bare(n)
    case Go(ch, q) => Bare(ch) || Bare(q)
    case Await(q) => Bare(q)
  }

  lemma {:induction false} NeutralNotBare(p: Prog)
    requires !Touches(p)
    ensures !Bare(p)
  {
    match p
    case Done =>
    case Acquire(_, q) => NeutralNotBare(q);
    case Release(_, q) => NeutralNotBare(q);
    case Do(a, y, n) =>
      NeutralNotBare(y);
      NeutralNotBare(n);
    case Go(ch, q) =>
      NeutralNotBare(ch);
      NeutralNotBare(q);
    case Await(q) => NeutralNotBare(q);
  }

  lemma {:induction false} GoodNotBare(p: Prog, standing: bool)
    requires Good(p, standing)
    ensures !Bare(p)
  {
    match p
    case Done =>
    case Acquire(_, q) => GoodNotBare(q, standing);
    case Release(_, q) => GoodNotBare(q, standing);
    case Do(a, y, n) =>
      GoodNotBare(y, StandingAfter(a, standing));
      GoodNotBare(n, StandingAfter(a, standing));
    case Go(ch, q) =>
      GoodNotBare(ch, false);
      NeutralNotBare(q);
    case Await(q) => GoodNotBare(q, standing);
  }

  lemma CodeNotBare(r: Request)
    requires r != LlmStop
    ensures !Bare(Code(r))
  {
    if Keeps(r) {
      CodeGood(r);
      GoodNotBare(Code(r), false);
    } else {
      GoodNotBare(Code(r), true);
    }
  }

  predicate NobodyBare(c: Config) { forall i :: 0 <= i < |c.threads| ==> !Bare(c.threads[i].prog) }

  lemma StepNotBare(c: Config, i: nat, choice: bool, h: History)
    requires NobodyBare(c) && !h.dropped && Enabled(c, i)
    ensures NobodyBare(After(c, i, choice)) && !HistoryAfter(c, Step(i, choice), h).dropped
  {
    ExitWatcherNeutral(|c.data.llm.procs|);
    NeutralNotBare(ExitWatcher(|c.data.llm.procs|));
    assert !Bare(c.threads[i].prog);
    var c' := After(c, i, choice);
    assert !Bare(c'.threads[i].prog);
    assert forall j :: |c.threads| <= j < |c'.threads| ==> !Bare(c'.threads[j].prog);
    forall j | 0 <= j < |c'.threads|
      ensures !Bare(c'.threads[j].prog)
    {
      if j < |c.threads| && j != i { OthersStay(c, i, choice, j); }
    }
  }

  lemma NextNotBare(c: Config, e: Event, h: History)
    requires NobodyBare(c) && !h.dropped && e != Arrive(LlmStop)
    ensures NobodyBare(Next(c, e)) && !HistoryAfter(c, e, h).dropped
  {
    match e
    case Arrive(r) => CodeNotBare(r);
    case Step(i, choice) => if Enabled(c, i) { StepNotBare(c, i, choice, h); }
  }

  lemma {:induction false} NeverDropped(c: Config, es: seq<Event>, h: History)
    requires NobodyBare(c) && !h.dropped && NoBareStop(es)
    ensures !HistoryOf(c, es, h).dropped
    decreases |es|
  {
    if es != [] {
      NextNotBare(c, es[0], h);
      NeverDropped(Next(c, es[0]), es[1..], HistoryAfter(c, es[0], h));
    }
  }

  /** In every run without a bare stop, overlapping or not: at rest with the flag set, the latest process has been
      cancelled if and only if a start missed the binary behind its stop, or a load was overtaken by a stop. */
  lemma MissedOrOvertakenIff(es: seq<Event>)
    requires NoBareStop(es) && Exec(INIT, es).data.loaded && !Busy(Exec(INIT, es))
    ensures var h := HistoryOf(INIT, es, NO_HISTORY);
            Cancelled(Exec(INIT, es).data.llm) <==> h.missed || h.overtaken
  {
    NeverDropped(INIT, es, NO_HISTORY);
    LoadedCancelledIff(es);
  }

  // ---- No overlap: nothing is overtaken ----

  predicate SerialInv(c: Config) {
    (forall i :: 0 <= i < |c.threads| && Touches(c.threads[i].prog) ==>
        Good(c.threads[i].prog, Standing(c.data.llm))) &&
    (forall i, j :: 0 <= i < j < |c.threads| ==> !Touches(c.threads[i].prog) || !Touches(c.threads[j].prog)) &&
    (c.data.loaded ==> HasLatest(c.data.llm))
  }

  lemma RecordExitStanding(m: Llm, g: nat)
    ensures Standing(RecordExit(m, g)) == Standing(m)
  {
  }

  /** What an action leaves of a standing process, and of the flag's process. */
  lemma PerformStanding(a: Action, d: Data, choice: bool)
    requires Inv(d.llm) && (a == SetLoaded(true) ==> Standing(d.llm)) && (d.loaded ==> HasLatest(d.llm))
    ensures var d' := Perform(a, d, choice).0;
            (StandingAfter(a, Standing(d.llm)) ==> Standing(d'.llm)) && (d'.loaded ==> HasLatest(d'.llm)) &&
            (!Sets(a) ==> Standing(d'.llm) == Standing(d.llm))
  {
    if a.ClearRunning? { RecordExitStanding(d.llm, a.g); }
  }

  /** The stepper stays good, if it was, and starts at most one goroutine that touches, in its own place. */
  lemma StepperGood(c: Config, i: nat, choice: bool)
    requires SystemInv(c) && SerialInv(c) && Enabled(c, i)
    ensures var c' := After(c, i, choice);
            var t, t' := c.threads[i], c'.threads[i];
            (Touches(t.prog) && Touches(t'.prog) ==> Good(t'.prog, Standing(c'.data.llm))) &&
            (!Touches(t.prog) ==> !Touches(t'.prog) && Standing(c'.data.llm) == Standing(c.data.llm)) &&
            (c'.data.loaded ==> HasLatest(c'.data.llm))
  {
    var t := c.threads[i];
    var s, s' := Standing(c.data.llm), Standing(After(c, i, choice).data.llm);
    if t.prog.Do? {
      PerformStanding(t.prog.a, c.data, choice);
      if Touches(t.prog) {
        GoodMore(t.prog.yes, StandingAfter(t.prog.a, s), s');
        GoodMore(t.prog.no, StandingAfter(t.prog.a, s), s');
      }
    }
  }

  lemma ChildGood(c: Config, i: nat, choice: bool)
    requires SystemInv(c) && SerialInv(c) && Enabled(c, i)
    ensures var c' := After(c, i, choice);
            |c.threads| <= |c'.threads| <= |c.threads| + 1 &&
            (|c'.threads| > |c.threads| && Touches(c'.threads[|c.threads|].prog) ==>
               Touches(c.threads[i].prog) && !Touches(c'.threads[i].prog) &&
               Good(c'.threads[|c.threads|].prog, Standing(c'.data.llm)))
  {
    ExitWatcherNeutral(|c.data.llm.procs|);
    var t := c.threads[i];
    if t.prog.Go? && Touches(t.prog) { GoodMore(t.prog.child, false, Standing(c.data.llm)); }
  }

  lemma StepSerial(c: Config, i: nat, choice: bool)
    requires SystemInv(c) && SerialInv(c) && Enabled(c, i)
    ensures SerialInv(After(c, i, choice))
  {
    var c' := After(c, i, choice);
    StepperGood(c, i, choice);
    ChildGood(c, i, choice);
    SerialFrame(c, c', i);
  }

  /** Goroutine i has stepped from c to c', and started at most one. */
  lemma SerialFrame(c: Config, c': Config, i: nat)
    requires SerialInv(c) && i < |c.threads| <= |c'.threads| <= |c.threads| + 1
    requires forall j :: 0 <= j < |c.threads| && j != i ==> c'.threads[j] == c.threads[j]
    requires c'.data.loaded ==> HasLatest(c'.data.llm)
    requires var p, p', s' := c.threads[i].prog, c'.threads[i].prog, Standing(c'.data.llm);
             (Touches(p) && Touches(p') ==> Good(p', s')) &&
             (!Touches(p) ==> !Touches(p') && s' == Standing(c.data.llm)) &&
             (|c'.threads| > |c.threads| && Touches(c'.threads[|c.threads|].prog) ==>
                Touches(p) && !Touches(p') && Good(c'.threads[|c.threads|].prog, s'))
    ensures SerialInv(c')
  {
    var n := |c.threads|;
    forall j | 0 <= j < |c'.threads| && Touches(c'.threads[j].prog)
      ensures Good(c'.threads[j].prog, Standing(c'.data.llm))
      ensures j != i && j < n ==> !Touches(c.threads[i].prog)
    {
      if j != i && j < n { assert Touches(c.threads[j].prog); }
    }
  }

  lemma CodeGoodHere(r: Request, standing: bool)
    requires Keeps(r)
    ensures Good(Code(r), standing)
  {
    CodeGood(r);
    GoodMore(Code(r), false, standing);
  }

  lemma ArriveSerial(c: Config, r: Request)
    requires SerialInv(c) && Keeps(r) && (Touches(Code(r)) ==> !Busy(c))
    ensures SerialInv(Next(c, Arrive(r)))
  {
    var c' := Next(c, Arrive(r));
    CodeGoodHere(r, Standing(c.data.llm));
    forall j | 0 <= j < |c'.threads| && Touches(c'.threads[j].prog)
      ensures Good(c'.threads[j].prog, Standing(c'.data.llm))
      ensures j == |c.threads| ==> !Busy(c)
    {
      if j < |c.threads| {
        assert c'.threads[j] == c.threads[j];
      } else {
        assert c'.threads[j] == NewThread(Code(r));
      }
    }
  }

  lemma NextSerial(c: Config, e: Event, h: History)
    requires SystemInv(c) && SerialInv(c) && !h.overtaken
    requires e.Arrive? ==> Keeps(e.r) && (Touches(Code(e.r)) ==> !Busy(c))
    ensures SerialInv(Next(c, e)) && !HistoryAfter(c, e, h).overtaken
  {
    match e
    case Arrive(r) => ArriveSerial(c, r);
    case Step(i, choice) =>
      if Enabled(c, i) { StepSerial(c, i, choice); }
  }

  lemma {:induction false} NeverOvertaken(c: Config, es: seq<Event>, h: History)
    requires SystemInv(c) && SerialInv(c) && !h.overtaken && Keeping(es) && NoOverlap(c, es)
    ensures !HistoryOf(c, es, h).overtaken && SerialInv(Exec(c, es))
    decreases |es|
  {
    if es != [] {
      assert es[0] in es;
      NextSerial(c, es[0], h);
      NextKeeps(c, es[0]);
      NeverOvertaken(Next(c, es[0]), es[1..], HistoryAfter(c, es[0], h));
    }
  }

  /** In every run whose loads, unloads and deletes do not overlap: at rest with the flag set there is a process,
      and it has been cancelled if and only if a start that had stopped it found no binary. */
  lemma SerialCancelledIff(es: seq<Event>)
    requires Keeping(es) && NoOverlap(INIT, es) && Exec(INIT, es).data.loaded && !Busy(Exec(INIT, es))
    ensures var m := Exec(INIT, es).data.llm;
            HasLatest(m) && (Latest(m).cancelled <==> HistoryOf(INIT, es, NO_HISTORY).missed)
  {
    InitInv();
    NeverOvertaken(INIT, es, NO_HISTORY);
    MissedOrOvertakenIff(es);
  }

  // ---- One lookup answer: nothing is missed ----

  lemma {:induction false} NeverMissed(c: Config, es: seq<Event>, h: History)
    requires OneLookup(c, es, true) && !h.missed
    ensures !HistoryOf(c, es, h).missed
    decreases |es|
  {
    if es != [] { NeverMissed(Next(c, es[0]), es[1..], HistoryAfter(c, es[0], h)); }
  }

  predicate NobodySpawns(c: Config) {
    c.data.llm.procs == [] && forall i :: 0 <= i < |c.threads| ==> !Spawns(c.threads[i].prog)
  }

  lemma StepSpawnsNot(c: Config, i: nat, choice: bool)
    requires SystemInv(c) && NobodySpawns(c) && Enabled(c, i) && (Looks(c.threads[i].prog) ==> !choice)
    ensures NobodySpawns(After(c, i, choice))
  {
    var t := c.threads[i];
    assert ThreadOk(t, c.data) && !Spawns(t.prog);
    var c' := After(c, i, choice);
    assert !Spawns(c'.threads[i].prog);
    assert forall j :: |c.threads| <= j < |c'.threads| ==> !Spawns(c'.threads[j].prog);
    forall j | 0 <= j < |c'.threads|
      ensures !Spawns(c'.threads[j].prog)
    {
      if j < |c.threads| && j != i { OthersStay(c, i, choice, j); }
    }
  }

  lemma NextSpawnsNot(c: Config, e: Event)
    requires SystemInv(c) && NobodySpawns(c) && (LooksUp(c, e) ==> !e.choice)
    ensures NobodySpawns(Next(c, e))
  {
    match e
    case Arrive(r) => CodeDisciplined(r, false);
    case Step(i, choice) => if Enabled(c, i) { StepSpawnsNot(c, i, choice); }
  }

  /** A binary that is never found is never spawned. */
  lemma {:induction false} NeverSpawned(c: Config, es: seq<Event>)
    requires SystemInv(c) && NobodySpawns(c) && OneLookup(c, es, false)
    ensures NobodySpawns(Exec(c, es))
    decreases |es|
  {
    if es != [] {
      NextSpawnsNot(c, es[0]);
      NextKeeps(c, es[0]);
      NeverSpawned(Next(c, es[0]), es[1..]);
    }
  }

  /** When the lookup keeps one answer as well, the flag means in every state that the binary is found and that the
      latest process has not been cancelled, or that a goroutine is going to clear the flag or to replace the
      process; at rest nobody is. */
  lemma LoadedImpliesUncancelled(es: seq<Event>, found: bool)
    requires Keeping(es) && NoOverlap(INIT, es) && OneLookup(INIT, es, found) && Exec(INIT, es).data.loaded
    ensures var c := Exec(INIT, es);
            found && HasLatest(c.data.llm) &&
            (Latest(c.data.llm).cancelled ==> Busy(c) && Mending(c, HistoryOf(INIT, es, NO_HISTORY)))
  {
    InitInv();
    var c, h := Exec(INIT, es), HistoryOf(INIT, es, NO_HISTORY);
    NeverOvertaken(INIT, es, NO_HISTORY);
    NeverDropped(INIT, es, NO_HISTORY);
    if found { NeverMissed(INIT, es, NO_HISTORY); } else { NeverSpawned(INIT, es); }
    CancelledExplained(es);
    if Mending(c, h) { MendingBusy(c, h); }
  }
}
