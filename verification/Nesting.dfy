/** The requests that take a lock they may already hold: who blocks, for how long, and whom they take along. */
module Nesting {
  import opened Goroutines
  import opened Discipline
  import opened Handlers
  import opened Supervision

  // ---- A writer that reads its own lock ----

  /** Nobody but goroutine i holds l. */
  predicate OnlyHolder(c: Config, i: nat, l: Lock) {
    forall j :: 0 <= j < |c.threads| && j != i ==> !Holds(c.threads[j], R(l)) && !Holds(c.threads[j], W(l))
  }

  lemma NextSelfBlocked(c: Config, i: nat, l: Lock, e: Event)
    requires SelfBlocked(c, i, l) && OnlyHolder(c, i, l)
    ensures SelfBlocked(Next(c, e), i, l) && OnlyHolder(Next(c, e), i, l) && Next(c, e).threads[i] == c.threads[i]
  {
    var c' := Next(c, e);
    assert !Readable(c, l) && !Unheld(c, l);
    forall j | 0 <= j < |c'.threads| && j != i
      ensures !Holds(c'.threads[j], R(l)) && !Holds(c'.threads[j], W(l))
    {
      if j < |c.threads| {
        assert !Holds(c.threads[j], R(l)) && !Holds(c.threads[j], W(l));
      }
    }
  }

  /** Self-blocking is permanent: in every continuation the goroutine stays put, and no other goroutine holds the
      lock ever after. */
  lemma {:induction false} SelfBlockedForever(c: Config, i: nat, l: Lock, es: seq<Event>)
    requires Exclusive(c) && SelfBlocked(c, i, l)
    ensures SelfBlocked(Exec(c, es), i, l) && OnlyHolder(Exec(c, es), i, l)
    ensures Exec(c, es).threads[i] == c.threads[i]
    decreases |es|
  {
    assert forall j :: 0 <= j < |c.threads| && j != i ==> Compatible(c.threads[i], c.threads[j]);
    SelfBlockedStays(c, i, l, es);
  }

  lemma {:induction false} SelfBlockedStays(c: Config, i: nat, l: Lock, es: seq<Event>)
    requires SelfBlocked(c, i, l) && OnlyHolder(c, i, l)
    ensures SelfBlocked(Exec(c, es), i, l) && OnlyHolder(Exec(c, es), i, l)
    ensures Exec(c, es).threads[i] == c.threads[i]
    decreases |es|
  {
    if es != [] {
      NextSelfBlocked(c, i, l, es[0]);
      SelfBlockedStays(Next(c, es[0]), i, l, es[1..]);
    }
  }

  // ---- AddRPCWorker ----

  /** Where a goroutine inside AddRPCWorker can be. */
  predicate InAddRPC(t: Thread, k: Prog) {
    (t.prog == AddRPC(k) && t.held == multiset{}) ||
    (t.prog == AddRPC(k).next && t.held == multiset{W(ApiMu)}) ||
    (t.prog == Broadcast(Release(W(ApiMu), k)) && t.held == multiset{W(ApiMu)})
  }

  /** Where a goroutine that will call AddRPCWorker with continuation k can be. */
  predicate BoundForAddRPC(t: Thread, k: Prog) {
    var p := UpdateRegistry(AddRPC(k));
    (t.prog == p && t.held == multiset{}) ||
    (t.prog == p.next && t.held == multiset{W(DiscMu)}) ||
    (t.prog == p.next.yes && t.held == multiset{W(DiscMu)}) ||
    InAddRPC(t, k)
  }

  /** Only its own effective step changes a goroutine. */
  lemma OthersLeave(c: Config, i: nat, e: Event)
    requires i < |c.threads|
    ensures i < |Next(c, e).threads|
    ensures !(e.Step? && e.i == i && Enabled(c, i)) ==> Next(c, e).threads[i] == c.threads[i]
  {
  }

  lemma StepInAddRPC(c: Config, i: nat, k: Prog, e: Event)
    requires i < |c.threads| && InAddRPC(c.threads[i], k)
    ensures i < |Next(c, e).threads| && InAddRPC(Next(c, e).threads[i], k)
  {
    OthersLeave(c, i, e);
    assert multiset{} + multiset{W(ApiMu)} == multiset{W(ApiMu)};
  }

  lemma StepBoundForAddRPC(c: Config, i: nat, k: Prog, e: Event)
    requires i < |c.threads| && BoundForAddRPC(c.threads[i], k) && !InAddRPC(c.threads[i], k)
    ensures i < |Next(c, e).threads| && BoundForAddRPC(Next(c, e).threads[i], k)
  {
    OthersLeave(c, i, e);
    assert multiset{} + multiset{W(DiscMu)} == multiset{W(DiscMu)};
    assert multiset{W(DiscMu)} - multiset{W(DiscMu)} == multiset{};
  }

  /** A goroutine that calls AddRPCWorker never gets past it, in any continuation of any run. */
  lemma {:induction false} AddRPCWorkerNeverReturns(c: Config, i: nat, k: Prog, es: seq<Event>)
    requires i < |c.threads| && BoundForAddRPC(c.threads[i], k)
    ensures i < |Exec(c, es).threads| && BoundForAddRPC(Exec(c, es).threads[i], k)
    ensures Exec(c, es).threads[i].prog != Done
    decreases |es|
  {
    if es != [] {
      if InAddRPC(c.threads[i], k) {
        StepInAddRPC(c, i, k, es[0]);
      } else {
        StepBoundForAddRPC(c, i, k, es[0]);
      }
      AddRPCWorkerNeverReturns(Next(c, es[0]), i, k, es[1..]);
    }
  }

  /** The two requests that call AddRPCWorker never finish once they have arrived. */
  lemma AddRequestsNeverFinish(es: seq<Event>, r: Request, fs: seq<Event>)
    requires r.AddRPCWorker? || r.AddWorker?
    ensures var c := Exec(INIT, es);
            var c' := Exec(Next(c, Arrive(r)), fs);
            |c.threads| < |c'.threads| && c'.threads[|c.threads|].prog != Done
  {
    var c := Exec(INIT, es);
    var c' := Next(c, Arrive(r));
    assert c'.threads[|c.threads|] == NewThread(Code(r));
    AddRPCWorkerNeverReturns(c', |c.threads|, if r.AddWorker? then Broadcast(Done) else Done, fs);
  }

  /** In a reachable state, once AddRPCWorker has appended, the API lock is never granted to anyone again. */
  lemma AddRPCWorkerTakesApiDown(es: seq<Event>, i: nat, k: Prog, fs: seq<Event>, j: nat)
    requires var c := Exec(INIT, es);
             i < |c.threads| && c.threads[i].prog == Broadcast(Release(W(ApiMu), k)) &&
                 c.threads[i].held == multiset{W(ApiMu)}
    requires j < |Exec(Exec(INIT, es), fs).threads| && j != i
    ensures var t := Exec(Exec(INIT, es), fs).threads[j]; !Holds(t, R(ApiMu)) && !Holds(t, W(ApiMu))
  {
    InitInv();
    ExecKeeps(INIT, es);
    SelfBlockedForever(Exec(INIT, es), i, ApiMu, fs);
  }

  // ---- A worker list that is not empty ----

  /** Some goroutine has blocked itself on the API lock and is its only holder. */
  ghost predicate ApiDown(c: Config) {
    exists j: nat :: SelfBlocked(c, j, ApiMu) && OnlyHolder(c, j, ApiMu)
  }

  ghost predicate EmptyUnlessDown(c: Config) { c.data.workers > 0 ==> ApiDown(c) }

  /** Appending to the list brings the API lock down. */
  lemma AppendBlocks(c: Config, i: nat, choice: bool)
    requires SystemInv(c) && Enabled(c, i) && c.threads[i].prog.Do? && c.threads[i].prog.a == AppendWorker
    ensures ApiDown(After(c, i, choice))
  {
    var t := c.threads[i];
    var c' := After(c, i, choice);
    assert ThreadOk(t, c.data);
    assert forall j :: 0 <= j < |c.threads| && j != i ==> Compatible(t, c.threads[j]);
    assert SelfBlocked(c', i, ApiMu) && OnlyHolder(c', i, ApiMu);
  }

  lemma NextEmptyUnlessDown(c: Config, e: Event)
    requires SystemInv(c) && EmptyUnlessDown(c)
    ensures EmptyUnlessDown(Next(c, e))
  {
    if ApiDown(c) {
      var j: nat :| SelfBlocked(c, j, ApiMu) && OnlyHolder(c, j, ApiMu);
      NextSelfBlocked(c, j, ApiMu, e);
    } else if e.Step? && Enabled(c, e.i) {
      var p := c.threads[e.i].prog;
      if p.Do? && p.a == AppendWorker { AppendBlocks(c, e.i, e.choice); }
    }
  }

  lemma {:induction false} ExecEmptyUnlessDown(c: Config, es: seq<Event>)
    requires SystemInv(c) && EmptyUnlessDown(c)
    ensures EmptyUnlessDown(Exec(c, es))
    decreases |es|
  {
    if es != [] {
      NextEmptyUnlessDown(c, es[0]);
      NextKeeps(c, es[0]);
      ExecEmptyUnlessDown(Next(c, es[0]), es[1..]);
    }
  }

  /** In every reachable state a worker list that is not empty means that the API lock is down. */
  lemma NonEmptyListMeansApiDown(es: seq<Event>)
    ensures Exec(INIT, es).data.workers > 0 ==> ApiDown(Exec(INIT, es))
  {
    InitInv();
    ExecEmptyUnlessDown(INIT, es);
  }

  lemma ExecLast(c: Config, es: seq<Event>, e: Event)
    ensures Exec(c, es + [e]) == Next(Exec(c, es), e)
  {
    ExecConcat(c, es, [e]);
    assert [e][1..] == [];
  }

  /** Goroutine 0, the only one and not inside Lock(), takes one step. */
  lemma OneStep(es: seq<Event>, t: Thread) returns (fs: seq<Event>)
    requires Exec(INIT, es).threads == [t] && Enabled(Exec(INIT, es), 0)
    ensures fs == es + [Step(0, true)] && Exec(INIT, fs) == After(Exec(INIT, es), 0, true)
  {
    fs := es + [Step(0, true)];
    ExecLast(INIT, es, Step(0, true));
  }

  /** Goroutine 0, alone, takes a lock that it does not hold, for writing. */
  lemma LockStep(es: seq<Event>, t: Thread) returns (fs: seq<Event>)
    requires Exec(INIT, es).threads == [t] && !t.announced && t.prog.Acquire? && t.prog.h.W?
    requires !Holds(t, R(t.prog.h.l)) && !Holds(t, W(t.prog.h.l))
    ensures Exec(INIT, fs).threads == [Thread(t.prog.next, t.held + multiset{t.prog.h}, false)]
    ensures Exec(INIT, fs).data == Exec(INIT, es).data
  {
    fs := OneStep(es, t);
    assert Exec(INIT, fs).threads == [t.(announced := true)];
    assert Unheld(Exec(INIT, fs), t.prog.h.l);
    fs := OneStep(fs, t.(announced := true));
  }

  /** A goroutine alone writes the registry under its lock. */
  lemma RegistryStep(es: seq<Event>, k: Prog) returns (fs: seq<Event>)
    requires Exec(INIT, es).threads == [NewThread(UpdateRegistry(k))]
    ensures Exec(INIT, fs).threads == [NewThread(k)]
    ensures Exec(INIT, fs).data == Exec(INIT, es).data.(writes := Exec(INIT, es).data.writes + 1)
  {
    var d, p := W(DiscMu), UpdateRegistry(k);
    assert multiset{} + multiset{d} == multiset{d} && multiset{d} - multiset{d} == multiset{};
    fs := LockStep(es, NewThread(p));
    fs := OneStep(fs, Thread(p.next, multiset{d}, false));
    fs := OneStep(fs, Thread(Release(d, k), multiset{d}, false));
  }

  /** A goroutine alone appends to the list, and that is its end. */
  lemma AppendStep(es: seq<Event>, k: Prog) returns (fs: seq<Event>)
    requires Exec(INIT, es).threads == [NewThread(AddRPC(k))] && Exec(INIT, es).data.workers == 0
    ensures Exec(INIT, fs).data == Exec(INIT, es).data.(workers := 1) && ApiDown(Exec(INIT, fs))
  {
    var w := W(ApiMu);
    assert multiset{} + multiset{w} == multiset{w};
    fs := LockStep(es, NewThread(AddRPC(k)));
    fs := OneStep(fs, Thread(AddRPC(k).next, multiset{w}, false));
    NonEmptyListMeansApiDown(fs);
  }

  /** A run that gets there: one AddRPCWorker on its own. */
  lemma AddTakesApiDown() returns (es: seq<Event>)
    ensures Exec(INIT, es).data.workers == 1 && ApiDown(Exec(INIT, es))
  {
    es := [Arrive(AddRPCWorker)];
    ExecLast(INIT, [], Arrive(AddRPCWorker));
    assert [] + es == es;
    es := AppendStep(es, Done);
  }

  /** The manual-add request on its own enters the worker into the registry and appends it to the list before it
      blocks. */
  lemma AddWorkerTakesApiDown() returns (es: seq<Event>)
    ensures Exec(INIT, es).data == INIT.data.(writes := 1, workers := 1) && ApiDown(Exec(INIT, es))
  {
    es := [Arrive(AddWorker)];
    ExecLast(INIT, [], Arrive(AddWorker));
    assert [] + es == es;
    es := RegistryStep(es, AddRPC(Broadcast(Done)));
    es := AppendStep(es, Broadcast(Done));
  }

  /** A worker DELETE on its own writes the registry once, tells the clients, and returns. */
  lemma WorkersDeleteReturns() returns (es: seq<Event>)
    ensures Exec(INIT, es).threads == [Thread(Done, multiset{}, false)]
    ensures Exec(INIT, es).data == INIT.data.(writes := 1, told := [Update("", false, 0)])
  {
    var r, d := R(ApiMu), W(DiscMu);
    var tail := Broadcast(Release(r, Done));
    var p := UpdateRegistry(tail);
    assert multiset{} + multiset{r} == multiset{r};
    assert multiset{r} + multiset{d} - multiset{d} == multiset{r};
    es := [Arrive(WorkersDelete)];
    ExecLast(INIT, [], Arrive(WorkersDelete));
    assert [] + es == es;
    es := OneStep(es, NewThread(DeleteWorker()));
    es := LockStep(es, Thread(p, multiset{r}, false));
    es := OneStep(es, Thread(p.next, multiset{r} + multiset{d}, false));
    es := OneStep(es, Thread(Release(d, tail), multiset{r} + multiset{d}, false));
    assert Exec(INIT, es).threads == [Thread(tail, multiset{r}, false)];
    es := LastBroadcast(es);
  }

  /** Its broadcast, under the read lock that it holds. */
  lemma LastBroadcast(es: seq<Event>) returns (fs: seq<Event>)
    requires Exec(INIT, es).threads == [Thread(Broadcast(Release(R(ApiMu), Done)), multiset{R(ApiMu)}, false)]
    requires Exec(INIT, es).data == INIT.data.(writes := 1)
    ensures Exec(INIT, fs).threads == [Thread(Done, multiset{}, false)]
    ensures Exec(INIT, fs).data == INIT.data.(writes := 1, told := [Update("", false, 0)])
  {
    var r, d := R(ApiMu), R(DiscMu);
    var two := multiset{r} + multiset{r};
    var end := Release(r, Release(r, Done));
    var get := GetWorkers(Act(Publish, end));
    assert two + multiset{d} - multiset{d} == two && two - multiset{r} == multiset{r};
    assert multiset{r} - multiset{r} == multiset{};
    fs := OneStep(es, Thread(Broadcast(Release(r, Done)), multiset{r}, false));
    assert Exec(INIT, fs).threads == [Thread(get, two, false)];
    fs := OneStep(fs, Thread(get, two, false));
    fs := OneStep(fs, Thread(get.next, two + multiset{d}, false));
    fs := OneStep(fs, Thread(Release(d, Act(Publish, end)), two + multiset{d}, false));
    assert Exec(INIT, fs).threads == [Thread(Act(Publish, end), two, false)];
    fs := OneStep(fs, Thread(Act(Publish, end), two, false));
    fs := OneStep(fs, Thread(end, two, false));
    fs := OneStep(fs, Thread(Release(r, Done), multiset{r}, false));
  }

  /** Goroutine i holds the API lock and is not the one that blocks itself on it. */
  predicate UsesApi(c: Config, i: nat) {
    i < |c.threads| && (Holds(c.threads[i], R(ApiMu)) || Holds(c.threads[i], W(ApiMu))) &&
        !Reads(c.threads[i].prog, ApiMu)
  }

  lemma UserSeesEmpty(c: Config, i: nat)
    requires EmptyUnlessDown(c) && UsesApi(c, i)
    ensures c.data.workers == 0
  {
  }

  /** In every reachable state, whoever else holds the API lock finds the list empty. */
  lemma ApiUserSeesEmptyList(es: seq<Event>, i: nat)
    requires UsesApi(Exec(INIT, es), i)
    ensures Exec(INIT, es).data.workers == 0
  {
    InitInv();
    ExecEmptyUnlessDown(INIT, es);
    UserSeesEmpty(Exec(INIT, es), i);
  }

  /** So does the load goroutine, in every run: the list that it hands to the supervisor is empty. */
  lemma HandOverIsEmpty(es: seq<Event>, i: nat)
    requires var c := Exec(INIT, es);
             i < |c.threads| && c.threads[i].prog.Do? && c.threads[i].prog.a == HandOver
    ensures Exec(INIT, es).data.workers == 0
  {
    InitInv();
    ExecKeeps(INIT, es);
    assert ThreadOk(Exec(INIT, es).threads[i], Exec(INIT, es).data);
    ApiUserSeesEmptyList(es, i);
  }

  // ---- RemoveRPCWorker ----

  /** Goroutine i holds the API lock and is about to test its index. */
  predicate AtRemove(c: Config, i: nat, index: int) {
    i < |c.threads| && c.threads[i] == Thread(RemoveRPC(index).next, multiset{W(ApiMu)}, false)
  }

  /** A RemoveRPCWorker that holds the API lock and finds the list empty, n steps before its end. */
  function Leaving(index: int, n: nat): Thread {
    if n == 0 then Thread(Done, multiset{}, false)
    else if n == 1 then Thread(Release(W(ApiMu), Done), multiset{W(ApiMu)}, false)
    else Thread(RemoveRPC(index).next, multiset{W(ApiMu)}, false)
  }

  /** The steps of a schedule that are goroutine i's. */
  function OwnSteps(es: seq<Event>, i: nat): nat {
    if es == [] then 0 else (if es[0].Step? && es[0].i == i then 1 else 0) + OwnSteps(es[1..], i)
  }

  function Minus(a: nat, b: nat): nat { if a < b then 0 else a - b }

  lemma LeavingStep(c: Config, i: nat, index: int, n: nat, e: Event)
    requires EmptyUnlessDown(c) && n <= 2 && i < |c.threads| && c.threads[i] == Leaving(index, n)
    ensures i < |Next(c, e).threads| && Next(c, e).threads[i] == Leaving(index, Minus(n, OwnSteps([e], i)))
    ensures n > 0 ==> Enabled(c, i)
  {
    OthersLeave(c, i, e);
    if n == 2 { UserSeesEmpty(c, i); }
    assert multiset{W(ApiMu)} - multiset{W(ApiMu)} == multiset{};
    assert [e][1..] == [];
  }

  lemma {:induction false} LeavingRun(c: Config, i: nat, index: int, n: nat, es: seq<Event>)
    requires SystemInv(c) && EmptyUnlessDown(c) && n <= 2 && i < |c.threads| && c.threads[i] == Leaving(index, n)
    ensures i < |Exec(c, es).threads| && Exec(c, es).threads[i] == Leaving(index, Minus(n, OwnSteps(es, i)))
    decreases |es|
  {
    if es != [] {
      LeavingStep(c, i, index, n, es[0]);
      assert [es[0]][1..] == [];
      NextKeeps(c, es[0]);
      NextEmptyUnlessDown(c, es[0]);
      LeavingRun(Next(c, es[0]), i, index, Minus(n, OwnSteps([es[0]], i)), es[1..]);
    }
  }

  /** In every run a RemoveRPCWorker that has got the API lock finds the list empty and returns: no schedule blocks
      it, and it has finished exactly when it has been given two steps. */
  lemma RemoveRPCWorkerReturns(es: seq<Event>, i: nat, index: int, fs: seq<Event>)
    requires AtRemove(Exec(INIT, es), i, index)
    ensures Exec(INIT, es).data.workers == 0
    ensures var c := Exec(Exec(INIT, es), fs);
            i < |c.threads| && (c.threads[i].prog == Done || Enabled(c, i)) &&
            (c.threads[i].prog == Done <==> OwnSteps(fs, i) >= 2)
  {
    InitInv();
    ExecKeeps(INIT, es);
    ExecEmptyUnlessDown(INIT, es);
    var c := Exec(INIT, es);
    UserSeesEmpty(c, i);
    LeavingRun(c, i, index, 2, fs);
    ExecKeeps(c, fs);
    ExecEmptyUnlessDown(c, fs);
    LeavingStep(Exec(c, fs), i, index, Minus(2, OwnSteps(fs, i)), Arrive(LlmStop));
  }

  // The removal itself, of code started on a list that is not empty; no run of the server gets there.

  /** Where a goroutine that has found its index in range can be. */
  predicate InRemoval(t: Thread) {
    t.held == multiset{W(ApiMu)} &&
    (t.prog == Act(RemoveWorker, Broadcast(Release(W(ApiMu), Done))) || t.prog == Broadcast(Release(W(ApiMu), Done)))
  }

  lemma {:induction false} RemovalNeverReturns(c: Config, i: nat, es: seq<Event>)
    requires i < |c.threads| && InRemoval(c.threads[i])
    ensures i < |Exec(c, es).threads| && InRemoval(Exec(c, es).threads[i])
    decreases |es|
  {
    if es != [] {
      RemovalNeverReturns(Next(c, es[0]), i, es[1..]);
    }
  }

  /** The steps of other goroutines change neither the tester nor what it tests. */
  lemma RemoveUndisturbed(c: Config, i: nat, index: int, e: Event)
    requires SystemInv(c) && AtRemove(c, i, index) && e != Step(i, true) && e != Step(i, false)
    ensures AtRemove(Next(c, e), i, index) && Next(c, e).data.workers == c.data.workers
  {
    if e.Step? && Enabled(c, e.i) {
      assert ThreadOk(c.threads[e.i], c.data);
      assert Compatible(c.threads[i], c.threads[e.i]);
      assert Holds(c.threads[i], W(ApiMu));
    }
  }

  /** Started on a list that holds its index, RemoveRPCWorker would never return. */
  lemma {:induction false} RemoveInRangeNeverReturns(c: Config, i: nat, index: int, es: seq<Event>)
    requires SystemInv(c) && AtRemove(c, i, index) && 0 <= index < c.data.workers
    ensures i < |Exec(c, es).threads| && Exec(c, es).threads[i].prog != Done
    decreases |es|
  {
    if es != [] {
      if es[0].Step? && es[0].i == i {
        assert InRemoval(Next(c, es[0]).threads[i]);
        RemovalNeverReturns(Next(c, es[0]), i, es[1..]);
      } else {
        RemoveUndisturbed(c, i, index, es[0]);
        NextKeeps(c, es[0]);
        RemoveInRangeNeverReturns(Next(c, es[0]), i, index, es[1..]);
      }
    }
  }

  // ---- DELETE of a worker: a reader that reads again past a waiting writer ----

  /** Goroutine k is there and holds l. */
  predicate HasHold(c: Config, k: int, l: Lock) {
    0 <= k < |c.threads| && (Holds(c.threads[k], R(l)) || Holds(c.threads[k], W(l)))
  }

  /** A lock that is held, and that a writer waits for, is granted to nobody. */
  lemma NoNewHold(c: Config, l: Lock, e: Event, k: int)
    requires !Readable(c, l) && !Unheld(c, l)
    ensures HasHold(Next(c, e), k, l) ==> HasHold(c, k, l)
  {
    if e.Step? && Enabled(c, e.i) {
      if k == e.i {
        NoNewHoldOfStepper(c, l, k, e.choice);
      } else if k >= 0 {
        OthersStay(c, e.i, e.choice, k);
      }
    }
  }

  lemma NoNewHoldOfStepper(c: Config, l: Lock, k: nat, choice: bool)
    requires Enabled(c, k) && !Readable(c, l) && !Unheld(c, l)
    ensures HasHold(After(c, k, choice), k, l) ==> HasHold(c, k, l)
  {
    NewHold(c, k, choice);
  }

  lemma MutuallyBlockedStep(c: Config, i: nat, j: nat, l: Lock, e: Event)
    requires MutuallyBlocked(c, i, j, l)
    ensures var c' := Next(c, e);
            MutuallyBlocked(c', i, j, l) && c'.threads[i] == c.threads[i] && c'.threads[j] == c.threads[j] &&
            forall k :: HasHold(c', k, l) ==> HasHold(c, k, l)
  {
    assert !Readable(c, l) && !Unheld(c, l);
    OthersLeave(c, i, e);
    OthersLeave(c, j, e);
    forall k | HasHold(Next(c, e), k, l)
      ensures HasHold(c, k, l)
    {
      NoNewHold(c, l, e, k);
    }
  }

  /** The mutual wait is permanent, and nobody gains a hold of the lock while it lasts. */
  lemma {:induction false} MutuallyBlockedForever(c: Config, i: nat, j: nat, l: Lock, es: seq<Event>)
    requires MutuallyBlocked(c, i, j, l)
    ensures var c' := Exec(c, es);
            MutuallyBlocked(c', i, j, l) && c'.threads[i] == c.threads[i] && c'.threads[j] == c.threads[j] &&
            forall k :: HasHold(c', k, l) ==> HasHold(c, k, l)
    decreases |es|
  {
    if es != [] {
      MutuallyBlockedStep(c, i, j, l, es[0]);
      MutuallyBlockedForever(Next(c, es[0]), i, j, l, es[1..]);
    }
  }

  /** The fate of a worker DELETE at its second read: it can step exactly while no writer waits, and with a waiting
      writer it never steps again. */
  lemma WorkersDeleteFate(es: seq<Event>, i: nat)
    requires var c := Exec(INIT, es);
             i < |c.threads| && c.threads[i].prog == Broadcast(Release(R(ApiMu), Done)) &&
                 c.threads[i].held == multiset{R(ApiMu)}
    ensures var c := Exec(INIT, es);
            (Enabled(c, i) <==> forall j :: 0 <= j < |c.threads| ==> !AwaitsWrite(c.threads[j], ApiMu)) &&
            (!Enabled(c, i) ==> forall fs :: |Exec(c, fs).threads| > i && Exec(c, fs).threads[i] == c.threads[i])
  {
    InitInv();
    ExecKeeps(INIT, es);
    var c := Exec(INIT, es);
    var t := c.threads[i];
    assert Holds(t, R(ApiMu)) && !Holds(t, W(ApiMu));
    forall j | 0 <= j < |c.threads|
      ensures !Holds(c.threads[j], W(ApiMu))
    {
      if j != i { assert Compatible(c.threads[j], t); }
    }
    if !Enabled(c, i) {
      var j :| 0 <= j < |c.threads| && AwaitsWrite(c.threads[j], ApiMu);
      forall fs: seq<Event>
        ensures |Exec(c, fs).threads| > i && Exec(c, fs).threads[i] == t
      {
        MutuallyBlockedForever(c, i, j, ApiMu, fs);
      }
    }
  }

  /** The worker DELETE, alone and up to its second read, in six events. */
  lemma DeleteToSecondRead(es: seq<Event>)
    requires es == [Arrive(WorkersDelete)] + [Step(0, true)] + [Step(0, true)] + [Step(0, true)] + [Step(0, true)] +
             [Step(0, true)]
    ensures Exec(INIT, es).threads == [Thread(Broadcast(Release(R(ApiMu), Done)), multiset{R(ApiMu)}, false)]
  {
    var s := Step(0, true);
    var r := R(ApiMu);
    var tail := Broadcast(Release(r, Done));
    var prog := UpdateRegistry(tail);
    assert multiset{r} + multiset{W(DiscMu)} - multiset{W(DiscMu)} == multiset{r};
    assert multiset{} + multiset{r} == multiset{r};
    var c1 := Next(INIT, Arrive(WorkersDelete));
    assert c1.threads == [NewThread(DeleteWorker())];
    var c2 := Next(c1, s);
    assert c2.threads == [Thread(prog, multiset{r}, false)];
    var c3 := Next(c2, s);
    assert c3.threads == [Thread(prog, multiset{r}, true)];
    assert Unheld(c3, DiscMu);
    var c4 := Next(c3, s);
    assert c4.threads == [Thread(prog.next, multiset{r} + multiset{W(DiscMu)}, false)];
    var c5 := Next(c4, s);
    assert c5.threads == [Thread(Release(W(DiscMu), tail), multiset{r} + multiset{W(DiscMu)}, false)];
    ExecSix(INIT, es);
  }

  /** A run in which the worker DELETE and a setter block each other. */
  lemma WorkersDeleteCanDeadlock() returns (es: seq<Event>)
    ensures MutuallyBlocked(Exec(INIT, es), 0, 1, ApiMu)
  {
    var s := Step(0, true);
    var before := [Arrive(WorkersDelete)] + [s] + [s] + [s] + [s] + [s];
    DeleteToSecondRead(before);
    var c := Exec(INIT, before);
    var write := Arrive(ApiSetModelLoaded(true));
    var c1 := Next(c, write);
    assert c1.threads == [c.threads[0], NewThread(Code(write.r))];
    var c2 := Next(c1, Step(1, true));
    assert c2.threads == [c.threads[0], NewThread(Code(write.r)).(announced := true)];
    var after := [write, Step(1, true)];
    assert after[1..][1..] == [];
    assert Exec(c, after) == Exec(c1, after[1..]) == Exec(c2, after[1..][1..]);
    es := before + after;
    ExecConcat(INIT, before, after);
  }

  lemma ExecSix(c: Config, es: seq<Event>)
    requires |es| == 6
    ensures Exec(c, es) == Next(Next(Next(Next(Next(Next(c, es[0]), es[1]), es[2]), es[3]), es[4]), es[5])
  {
    var a, b := es[..3], es[3..];
    assert es == a + b;
    ExecConcat(c, a, b);
    ExecThree(c, a);
    ExecThree(Exec(c, a), b);
    assert a[0] == es[0] && a[1] == es[1] && a[2] == es[2] && b[0] == es[3] && b[1] == es[4] && b[2] == es[5];
  }

  lemma ExecThree(c: Config, es: seq<Event>)
    requires |es| == 3
    ensures Exec(c, es) == Next(Next(Next(c, es[0]), es[1]), es[2])
  {
    var c1 := Next(c, es[0]);
    var c2 := Next(c1, es[1]);
    assert es[1..][1..] == es[2..] && es[2..][1..] == [];
    assert Exec(c1, es[1..]) == Exec(c2, es[2..]);
    assert Exec(c2, es[2..]) == Exec(Next(c2, es[2]), []);
  }
}
