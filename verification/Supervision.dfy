/** What holds over every run of the server: any requests, any number of goroutines, any order
    of steps, any answers of the environment. */
module Supervision {
  import opened Wrappers
  import opened LlmState
  import opened Goroutines
  import opened Discipline
  import opened Handlers

  lemma InitInv()
    ensures SystemInv(INIT)
  {
  }

  lemma NextKeeps(c: Config, e: Event)
    requires SystemInv(c)
    ensures SystemInv(Next(c, e))
  {
    match e
    case Arrive(r) =>
      CodeDisciplined(r, false);
      var c' := Next(c, e);
      assert forall j :: 0 <= j < |c.threads| ==> c'.threads[j] == c.threads[j];
      assert c'.threads[|c.threads|] == NewThread(Code(r));
      assert SelfExclusive(NewThread(Code(r)));
    case Step(i, choice) =>
      if Enabled(c, i) { StepKeeps(c, i, choice); }
  }

  lemma {:induction false} ExecKeeps(c: Config, es: seq<Event>)
    requires SystemInv(c)
    ensures SystemInv(Exec(c, es))
    decreases |es|
  {
    if es != [] {
      NextKeeps(c, es[0]);
      ExecKeeps(Next(c, es[0]), es[1..]);
    }
  }

  lemma {:induction false} ExecConcat(c: Config, es: seq<Event>, fs: seq<Event>)
    ensures Exec(c, es + fs) == Exec(Exec(c, es), fs)
    decreases |es|
  {
    if es == [] {
      assert es + fs == fs;
    } else {
      assert (es + fs)[1..] == es[1..] + fs;
      ExecConcat(Next(c, es[0]), es[1..], fs);
    }
  }

  // ---- The supervisor's state ----

  /** Over all runs of all the code: a held cancel function always belongs to the latest generation, which is
      then uncancelled, and the running flag, when set, is true of that generation. */
  lemma RunningFlagOneWay(es: seq<Event>)
    ensures var m := Exec(INIT, es).data.llm;
            (m.isRunning ==>
                HasLatest(m) && !Latest(m).cancelled && !Latest(m).recorded && m.cancel == Some(|m.procs| - 1)) &&
            (m.cancel.Some? <==> HasLatest(m) && !Latest(m).cancelled) &&
            (m.cancel.Some? ==> m.cancel.value == |m.procs| - 1)
  {
    InitInv();
    ExecKeeps(INIT, es);
  }

  /** Over all runs: no more processes are lost than exits were recorded by a generation that was no longer the
      latest. */
  lemma LostProcessBound(es: seq<Event>)
    ensures var m := Exec(INIT, es).data.llm; Lost(m) <= m.stale && CountLive(m.procs) <= m.stale + 1
  {
    InitInv();
    ExecKeeps(INIT, es);
    LiveBound(Exec(INIT, es).data.llm);
  }

  /** The losses of a run, less those that came to their end by themselves: spawns over an orphaned process, less
      exits of live processes that were not the latest; n were counted before it. */
  function LossesLeft(c: Config, es: seq<Event>, n: int): int
    decreases |es|
  {
    if es == [] then n else LossesLeft(Next(c, es[0]), es[1..], n + LossOf(c, es[0]))
  }

  function LossOf(c: Config, e: Event): int {
    if e.Arrive? || !Enabled(c, e.i) || !c.threads[e.i].prog.Do? then 0
    else ActionLoss(c.threads[e.i].prog.a, c.data.llm)
  }

  function ActionLoss(a: Action, m: Llm): int {
    match a
    case SpawnProcess => if Orphaned(m) then 1 else 0
    case ClearRunning(g) => if g + 1 < |m.procs| && m.procs[g].Live() then -1 else 0
    case _ => 0
  }

  lemma LossStep(c: Config, e: Event)
    requires SystemInv(c)
    ensures Lost(Next(c, e).data.llm) == Lost(c.data.llm) + LossOf(c, e)
  {
    if e.Step? && Enabled(c, e.i) && c.threads[e.i].prog.Do? {
      assert ThreadOk(c.threads[e.i], c.data);
      LossOfAction(c.threads[e.i].prog.a, c.data, e.choice);
    }
  }

  lemma LossOfAction(a: Action, d: Data, choice: bool)
    requires Inv(d.llm) && (a.SpawnProcess? ==> !d.llm.isRunning)
    ensures Lost(Perform(a, d, choice).0.llm) == Lost(d.llm) + ActionLoss(a, d.llm)
  {
    match a
    case SpawnProcess => SpawnKeeps(d.llm);
    case StopRunning => StopKeeps(d.llm);
    case StopProcess => StopKeeps(d.llm);
    case ClearRunning(g) => if g < |d.llm.procs| { RecordExitLost(d.llm, g); }
    case _ =>
  }

  lemma {:induction false} LossesCount(c: Config, es: seq<Event>)
    requires SystemInv(c)
    ensures Lost(Exec(c, es).data.llm) == LossesLeft(c, es, Lost(c.data.llm))
    decreases |es|
  {
    if es != [] {
      LossStep(c, es[0]);
      NextKeeps(c, es[0]);
      LossesCount(Next(c, es[0]), es[1..]);
    }
  }

  /** Over all runs, exactly: the lost processes are the spawns over an orphaned one, less the later exits of lost
      ones. */
  lemma LostProcessesExact(es: seq<Event>)
    ensures Lost(Exec(INIT, es).data.llm) == LossesLeft(INIT, es, 0)
  {
    InitInv();
    LossesCount(INIT, es);
  }

  /** The steps of a run, since its latest spawn, that recorded an older generation's exit; n were counted before it. */
  function LateExits(c: Config, es: seq<Event>, n: nat): nat
    decreases |es|
  {
    if es == [] then n else LateExits(Next(c, es[0]), es[1..], LateAfter(c, es[0], n))
  }

  function LateAfter(c: Config, e: Event, n: nat): nat {
    if e.Arrive? || !Enabled(c, e.i) || !c.threads[e.i].prog.Do? then n
    else
      match c.threads[e.i].prog.a
      case SpawnProcess => 0
      case ClearRunning(g) => if g + 1 < |c.data.llm.procs| then n + 1 else n
      case _ => n
  }

  lemma {:induction false} LateCounts(c: Config, es: seq<Event>)
    ensures Exec(c, es).data.llm.late == LateExits(c, es, c.data.llm.late)
    decreases |es|
  {
    if es != [] {
      LateCounts(Next(c, es[0]), es[1..]);
    }
  }

  /** Over all runs the flag is set exactly while the latest process is live and no older one has recorded its exit
      since that was spawned. */
  lemma RunningFlagExact(es: seq<Event>)
    ensures var m := Exec(INIT, es).data.llm;
            m.isRunning <==> HasLatest(m) && Latest(m).Live() && LateExits(INIT, es, 0) == 0
  {
    InitInv();
    ExecKeeps(INIT, es);
    LateCounts(INIT, es);
  }

  /** Without a stale exit the flag is exact and only the latest process can be live. */
  lemma NoStaleExitNoLoss(es: seq<Event>)
    requires Exec(INIT, es).data.llm.stale == 0
    ensures var m := Exec(INIT, es).data.llm;
            (m.isRunning <==> HasLatest(m) && Latest(m).Live()) &&
            forall g :: 0 <= g < |m.procs| && m.procs[g].Live() ==> g == |m.procs| - 1
  {
    RunningFlagExact(es);
    InitInv();
    ExecKeeps(INIT, es);
    LateCounts(INIT, es);
    LiveBound(Exec(INIT, es).data.llm);
  }

  /** The step that stops leaves the latest process cancelled, whatever the running flag was. */
  lemma StopCancelsLatest(es: seq<Event>, i: nat, choice: bool)
    requires var c := Exec(INIT, es);
             i < |c.threads| && c.threads[i].prog.Do? && c.threads[i].prog.a == StopProcess
    ensures var m := Next(Exec(INIT, es), Step(i, choice)).data.llm;
            HasLatest(m) ==> Latest(m).cancelled && Lost(m) == Lost(Exec(INIT, es).data.llm)
  {
    InitInv();
    ExecKeeps(INIT, es);
    StopKeeps(Exec(INIT, es).data.llm);
  }

  /** While Start waits for a good health answer it keeps the supervisor's mutex: nobody else gets it, not the
      goroutine of a process that has exited already, nor a stop. */
  lemma PollingKeepsMutex(es: seq<Event>, i: nat, j: nat)
    requires var c := Exec(INIT, es);
             i < |c.threads| && j < |c.threads| && i != j && c.threads[i].prog.Do? && c.threads[i].prog.a == Health
    ensures var c := Exec(INIT, es);
            Holds(c.threads[i], W(LlmMu)) && !Holds(c.threads[j], W(LlmMu)) &&
            (c.threads[j].prog.Acquire? && c.threads[j].prog.h == W(LlmMu) && c.threads[j].announced ==> !Enabled(c, j))
  {
    InitInv();
    ExecKeeps(INIT, es);
    var c := Exec(INIT, es);
    assert ThreadOk(c.threads[i], c.data) && Compatible(c.threads[i], c.threads[j]);
  }

  // ---- Deadlocks, of all the code ----

  /** In every reachable state, if some goroutine is unfinished and not waiting for an outside event, some such
      goroutine can step, or the API lock is in a deadlock: a writer asks to read it, or a reader asks again behind
      a writer. */
  lemma StepOrDeadlock(es: seq<Event>)
    ensures var c := Exec(INIT, es);
            (exists i :: 0 <= i < |c.threads| && !Idle(c.threads[i])) ==>
            (exists k :: 0 <= k < |c.threads| && !Idle(c.threads[k]) && Enabled(c, k)) || Deadlocked(c, ApiMu)
  {
    InitInv();
    ExecKeeps(INIT, es);
    var c := Exec(INIT, es);
    if !Deadlocked(c, ApiMu) {
      if i :| 0 <= i < |c.threads| && !Idle(c.threads[i]) {
        var k := Progress(c, i);
      }
    }
  }

  predicate AllIdle(c: Config) {
    forall i :: 0 <= i < |c.threads| ==> Idle(c.threads[i])
  }

  /** No goroutine that is not idle can step. */
  predicate Stuck(c: Config) {
    forall k: nat :: k < |c.threads| && Enabled(c, k) ==> Idle(c.threads[k])
  }

  lemma StuckGoroutine(c: Config, i: nat)
    requires SystemInv(c) && Stuck(c) && i < |c.threads| && !Deadlocked(c, ApiMu)
    ensures Idle(c.threads[i]) && c.threads[i].held == multiset{}
  {
    assert ThreadOk(c.threads[i], c.data);
    if !Idle(c.threads[i]) {
      var k := Progress(c, i);
      assert false;
    }
  }

  /** A schedule that can move nobody any more has brought each goroutine to its end or to an outside wait exactly when
      the API lock is not in a deadlock. */
  lemma StuckIdleIff(es: seq<Event>)
    requires Stuck(Exec(INIT, es))
    ensures AllIdle(Exec(INIT, es)) <==> !Deadlocked(Exec(INIT, es), ApiMu)
  {
    InitInv();
    ExecKeeps(INIT, es);
    var c := Exec(INIT, es);
    if !Deadlocked(c, ApiMu) {
      forall i | 0 <= i < |c.threads|
        ensures Idle(c.threads[i])
      {
        StuckGoroutine(c, i);
      }
    }
  }

  /** Steps of a schedule that move some goroutine, until a request arrives. */
  function Moves(c: Config, es: seq<Event>): nat
    decreases |es|
  {
    if es == [] || es[0].Arrive? then 0
    else (if Enabled(c, es[0].i) then 1 else 0) + Moves(Next(c, es[0]), es[1..])
  }

  /** Between two arrivals every schedule makes boundedly many moves. */
  lemma {:induction false} MovesBounded(c: Config, es: seq<Event>)
    requires SystemInv(c)
    ensures Moves(c, es) <= Work(c.threads)
    decreases |es|
  {
    if es == [] || es[0].Arrive? {
      forall i | 0 <= i < |c.threads|
        ensures c.threads[i].announced ==> c.threads[i].prog.Acquire?
      {
        assert ThreadOk(c.threads[i], c.data);
      }
      WorkNonNegative(c.threads);
    } else {
      if Enabled(c, es[0].i) {
        StepKeeps(c, es[0].i, es[0].choice);
        StepUsesWork(c, es[0].i, es[0].choice);
      }
      MovesBounded(Next(c, es[0]), es[1..]);
    }
  }

  predicate OnlySteps(es: seq<Event>) { forall k :: 0 <= k < |es| ==> es[k].Step? }

  /** From every reachable state the goroutines can all be run until each is finished or waits for an outside event, or
      until the API lock is in a deadlock. */
  lemma {:induction false} CanEnd(c: Config) returns (fs: seq<Event>)
    requires SystemInv(c)
    ensures OnlySteps(fs) && (AllIdle(Exec(c, fs)) || Deadlocked(Exec(c, fs), ApiMu))
    decreases Work(c.threads)
  {
    if AllIdle(c) || Deadlocked(c, ApiMu) {
      fs := [];
    } else {
      var i: nat :| i < |c.threads| && !Idle(c.threads[i]);
      var k := Progress(c, i);
      StepKeeps(c, k, true);
      StepUsesWork(c, k, true);
      MovesBounded(c, []);
      var rest := CanEnd(After(c, k, true));
      fs := [Step(k, true)] + rest;
      assert fs[1..] == rest;
      assert Exec(c, fs) == Exec(Next(c, fs[0]), fs[1..]);
    }
  }

  lemma EveryRunCanEnd(es: seq<Event>) returns (fs: seq<Event>)
    ensures OnlySteps(fs) && (AllIdle(Exec(INIT, es + fs)) || Deadlocked(Exec(INIT, es + fs), ApiMu))
  {
    InitInv();
    ExecKeeps(INIT, es);
    fs := CanEnd(Exec(INIT, es));
    ExecConcat(INIT, es, fs);
  }

  // ---- Deadlock freedom: three requests are the only causes ----

  /** RemoveRPCWorker at the test of its index. */
  predicate TestsIndex(p: Prog) { p.Do? && p.a.InRange? && p == RemoveRPC(p.a.index).next }

  /** A RemoveRPCWorker before or at its test. */
  predicate Removing(t: Thread) {
    (t.held == multiset{} && t.prog.Acquire? && t.prog.h == W(ApiMu) && TestsIndex(t.prog.next)) ||
    (t.held == multiset{W(ApiMu)} && TestsIndex(t.prog))
  }

  /** The goroutine keeps to the strict lock order, or will if it finds the worker list empty. */
  predicate Strict(t: Thread) { Disciplined(t.prog, t.held, true) || Removing(t) }

  predicate StrictInv(c: Config) {
    SystemInv(c) && c.data.workers == 0 && forall i :: 0 <= i < |c.threads| ==> Strict(c.threads[i])
  }

  /** RemoveRPCWorker goes to its test, and from there out, for the list is empty. */
  lemma RemovingStep(c: Config, i: nat, choice: bool)
    requires Enabled(c, i) && Removing(c.threads[i]) && c.data.workers == 0
    ensures var c' := After(c, i, choice);
            |c'.threads| == |c.threads| && c'.data == c.data && Strict(c'.threads[i])
  {
    assert multiset{} + multiset{W(ApiMu)} == multiset{W(ApiMu)};
    assert multiset{W(ApiMu)} - multiset{W(ApiMu)} == multiset{};
    assert Disciplined(Release(W(ApiMu), Done), multiset{W(ApiMu)}, true);
  }

  lemma OrderedStep(c: Config, i: nat, choice: bool)
    requires Enabled(c, i) && Disciplined(c.threads[i].prog, c.threads[i].held, true) && c.data.workers == 0
    ensures var c' := After(c, i, choice);
            c'.data.workers == 0 && Strict(c'.threads[i]) &&
            forall j :: |c.threads| <= j < |c'.threads| ==> Strict(c'.threads[j])
  {
    var t := c.threads[i];
    ExitWatcherDisciplined(|c.data.llm.procs|, true);
  }

  lemma StrictStep(c: Config, i: nat, choice: bool)
    requires StrictInv(c) && Enabled(c, i)
    ensures StrictInv(After(c, i, choice))
  {
    StepKeeps(c, i, choice);
    assert Strict(c.threads[i]);
    if Removing(c.threads[i]) { RemovingStep(c, i, choice); } else { OrderedStep(c, i, choice); }
    var c' := After(c, i, choice);
    forall j | 0 <= j < |c.threads| && j != i
      ensures Strict(c'.threads[j])
    {
      OthersStay(c, i, choice, j);
      assert Strict(c.threads[j]);
    }
  }

  lemma StrictCode(r: Request)
    requires !Rerequests(r)
    ensures Strict(NewThread(Code(r)))
  {
    if !r.RemoveRPCWorker? { CodeDisciplined(r, true); }
  }

  lemma NextStrict(c: Config, e: Event)
    requires StrictInv(c) && (e.Arrive? ==> !Rerequests(e.r))
    ensures StrictInv(Next(c, e))
  {
    NextKeeps(c, e);
    match e
    case Arrive(r) =>
      StrictCode(r);
      assert forall j :: 0 <= j < |c.threads| ==> Next(c, e).threads[j] == c.threads[j];
    case Step(i, choice) =>
      if Enabled(c, i) { StrictStep(c, i, choice); }
  }

  lemma {:induction false} ExecStrict(c: Config, es: seq<Event>)
    requires StrictInv(c) && NoRerequests(es)
    ensures StrictInv(Exec(c, es))
    decreases |es|
  {
    if es != [] {
      NextStrict(c, es[0]);
      ExecStrict(Next(c, es[0]), es[1..]);
    }
  }

  /** AddRPCWorker, the manual-add request and the worker DELETE are the only causes of a deadlock. */
  lemma NeverDeadlocked(es: seq<Event>)
    requires NoRerequests(es)
    ensures !Deadlocked(Exec(INIT, es), ApiMu)
  {
    InitInv();
    ExecStrict(INIT, es);
  }

  /** Without them, in every reachable state, if some goroutine is unfinished and not waiting for an outside event, some
      such goroutine can step. */
  lemma DeadlockFree(es: seq<Event>)
    requires NoRerequests(es)
    ensures var c := Exec(INIT, es);
            (exists i :: 0 <= i < |c.threads| && !Idle(c.threads[i])) ==>
            exists k :: 0 <= k < |c.threads| && !Idle(c.threads[k]) && Enabled(c, k)
  {
    NeverDeadlocked(es);
    StepOrDeadlock(es);
  }

  /** So every such run can be carried on until nobody has anything left to do. */
  lemma EveryRunCanFinish(es: seq<Event>) returns (fs: seq<Event>)
    requires NoRerequests(es)
    ensures OnlySteps(fs) && AllIdle(Exec(INIT, es + fs))
  {
    fs := EveryRunCanEnd(es);
    NeverDeadlocked(es + fs);
  }

  /** And a schedule that cannot move a goroutine any more has brought each to its end or to an outside wait, holding no
      lock. */
  lemma StuckMeansIdle(es: seq<Event>)
    requires NoRerequests(es) && Stuck(Exec(INIT, es))
    ensures AllIdle(Exec(INIT, es))
    ensures forall i :: 0 <= i < |Exec(INIT, es).threads| ==> Exec(INIT, es).threads[i].held == multiset{}
  {
    InitInv();
    ExecKeeps(INIT, es);
    NeverDeadlocked(es);
    forall i | 0 <= i < |Exec(INIT, es).threads|
      ensures Idle(Exec(INIT, es).threads[i]) && Exec(INIT, es).threads[i].held == multiset{}
    {
      StuckGoroutine(Exec(INIT, es), i);
    }
  }
}
