/** What the server's code obeys.  Every field is touched under its lock, and locks are released by their holder.
    A process is spawned only where the running flag is known to be clear, and right behind a lookup that found the
    binary; a start looks for the binary right behind its stop; an addition to the worker list goes on to read the
    API lock. Locks are taken in the order API, supervisor, registry, and none twice: but for the API lock, which a
    goroutine that holds no other may ask to read again where the order is not strict (`ordered`). */
module Discipline {
  import opened LlmState
  import opened Goroutines

  /** The lock that protects what the action touches is held. */
  predicate Covered(a: Action, held: multiset<Hold>) {
    match a
    case ApiRead => R(ApiMu) in held || W(ApiMu) in held
    case Publish => R(ApiMu) in held || W(ApiMu) in held
    case Register => W(ApiMu) in held
    case Unregister => W(ApiMu) in held
    case SetApiMMProj(_) => W(ApiMu) in held
    case SetApiPath(_) => W(ApiMu) in held
    case SetLoaded(_) => W(ApiMu) in held
    case AppendWorker => W(ApiMu) in held
    case InRange(_) => W(ApiMu) in held
    case RemoveWorker => W(ApiMu) in held
    case DiscRead => R(DiscMu) in held || W(DiscMu) in held
    case DiscWrite => W(DiscMu) in held
    case HandOver => W(LlmMu) in held && W(ApiMu) in held
    case _ => W(LlmMu) in held
  }

  /** The action leaves the running flag clear, whatever it was. */
  predicate Clears(a: Action) { a.StopRunning? || a.StopProcess? }

  /** The program may spawn a process before it looks at the running flag again; the flag test's `no` branch has
      looked. */
  predicate NeedsStopped(p: Prog) {
    match p
    case Do(a, y, n) => a.SpawnProcess? || (!Clears(a) && (NeedsStopped(y) || (!a.TestRunning? && NeedsStopped(n))))
    case _ => false
  }

  /** Every lock held comes before l. */
  predicate Above(l: Lock, held: multiset<Hold>) {
    forall h: Hold :: h in held ==> Rank(h.l) < Rank(l)
  }

  /** The program's first step spawns a process, or looks for the binary. */
  predicate Spawns(p: Prog) { p.Do? && p.a.SpawnProcess? }

  predicate Looks(p: Prog) { p.Do? && p.a.FindBinary? }

  /** An action that the discipline allows anywhere under its lock. */
  predicate Free(a: Action) { !a.SpawnProcess? && !a.AppendWorker? && !a.StopRunning? && !a.FindBinary? }

  /** Asking to read the API lock while holding nothing else. */
  predicate Rereads(h: Hold, held: multiset<Hold>) {
    h == R(ApiMu) && forall k: Hold :: k in held ==> k.l == ApiMu
  }

  /** What the discipline asks of an action that goes on with y or n, beside its lock. */
  predicate InPlace(a: Action, y: Prog, n: Prog) {
    (a.SpawnProcess? ==> !NeedsStopped(y)) && (a.AppendWorker? ==> Reads(y, ApiMu)) &&
    (a.StopRunning? ==> Looks(y)) && (a.FindBinary? <==> Spawns(y)) && !Spawns(n)
  }

  predicate Disciplined(p: Prog, held: multiset<Hold>, ordered: bool) {
    match p
    case Done => held == multiset{}
    case Acquire(h, q) =>
      (Above(h.l, held) || (!ordered && Rereads(h, held))) && !NeedsStopped(q) &&
      Disciplined(q, held + multiset{h}, ordered)
    case Release(h, q) => h in held && !NeedsStopped(q) && Disciplined(q, held - multiset{h}, ordered)
    case Do(a, y, n) =>
      Covered(a, held) && Disciplined(y, held, ordered) && Disciplined(n, held, ordered) && InPlace(a, y, n)
    case Go(ch, q) =>
      !NeedsStopped(ch) && !NeedsStopped(q) && Disciplined(ch, multiset{}, ordered) && Disciplined(q, held, ordered)
    case Await(q) => held == multiset{} && !NeedsStopped(q) && Disciplined(q, held, ordered)
  }

  predicate ThreadOk(t: Thread, d: Data) {
    Disciplined(t.prog, t.held, false) &&
    (t.announced ==> t.prog.Acquire? && t.prog.h.W?) &&
    (NeedsStopped(t.prog) ==> Holds(t, W(LlmMu)) && !d.llm.isRunning)
  }

  /** All goroutines obey the discipline and the supervisor's state keeps its invariant. */
  predicate SystemInv(c: Config) {
    Exclusive(c) && Inv(c.data.llm) &&
    forall i :: 0 <= i < |c.threads| ==> ThreadOk(c.threads[i], c.data)
  }

  // ---- One step keeps the invariant ----

  lemma PerformKeeps(a: Action, y: Prog, n: Prog, t: Thread, d: Data, choice: bool)
    requires t.prog == Do(a, y, n) && ThreadOk(t, d) && Inv(d.llm)
    ensures var (d', b) := Perform(a, d, choice);
            Inv(d'.llm) && ThreadOk(t.(prog := if b then y else n), d')
    ensures var d' := Perform(a, d, choice).0;
            d'.llm.isRunning && !d.llm.isRunning ==> Holds(t, W(LlmMu))
  {
    match a
    case SpawnProcess => SpawnKeeps(d.llm);
    case StopRunning => StopKeeps(d.llm);
    case StopProcess => StopKeeps(d.llm);
    case ClearRunning(g) => RecordExitKeeps(d.llm, g);
    case _ =>
  }

  lemma ExitWatcherDisciplined(g: nat, ordered: bool)
    ensures Disciplined(ExitWatcher(g), multiset{}, ordered) && !NeedsStopped(ExitWatcher(g))
  {
    SectionDisciplined(W(LlmMu), ClearRunning(g), Done, multiset{}, ordered);
  }

  lemma SectionDisciplined(h: Hold, a: Action, k: Prog, held: multiset<Hold>, ordered: bool)
    requires Disciplined(k, held, ordered) && !NeedsStopped(k)
    requires Above(h.l, held) && Covered(a, held + multiset{h}) && Free(a)
    ensures Disciplined(Section(h, a, k), held, ordered) && !NeedsStopped(Section(h, a, k))
  {
    assert held + multiset{h} - multiset{h} == held;
    assert Disciplined(Release(h, k), held + multiset{h}, ordered);
    assert Disciplined(Act(a, Release(h, k)), held + multiset{h}, ordered);
  }

  /** The goroutine that steps stays disciplined. */
  lemma StepperOk(c: Config, i: nat, choice: bool)
    requires SystemInv(c) && Enabled(c, i)
    ensures var c' := After(c, i, choice);
            Inv(c'.data.llm) && ThreadOk(c'.threads[i], c'.data) &&
            (c'.data.llm.isRunning && !c.data.llm.isRunning ==> Holds(c.threads[i], W(LlmMu)))
  {
    var t := c.threads[i];
    assert ThreadOk(t, c.data);
    if t.prog.Do? {
      PerformKeeps(t.prog.a, t.prog.yes, t.prog.no, t, c.data, choice);
    }
  }

  /** So do the goroutines that it starts. */
  lemma ChildrenOk(c: Config, i: nat, choice: bool)
    requires SystemInv(c) && Enabled(c, i)
    ensures var c' := After(c, i, choice);
            |c.threads| <= |c'.threads| && forall j :: |c.threads| <= j < |c'.threads| ==>
                ThreadOk(c'.threads[j], c'.data)
  {
    assert ThreadOk(c.threads[i], c.data);
    ExitWatcherDisciplined(|c.data.llm.procs|, false);
  }

  lemma StepKeeps(c: Config, i: nat, choice: bool)
    requires SystemInv(c) && Enabled(c, i)
    ensures SystemInv(After(c, i, choice))
  {
    ExclusiveKept(c, i, choice);
    StepperOk(c, i, choice);
    ChildrenOk(c, i, choice);
    var c' := After(c, i, choice);
    forall j | 0 <= j < |c.threads| && j != i
      ensures ThreadOk(c'.threads[j], c'.data)
    {
      OthersStay(c, i, choice, j);
      assert ThreadOk(c.threads[j], c.data);
      assert Compatible(c.threads[i], c.threads[j]);
    }
  }

  // ---- Deadlock freedom ----

  /** Finished, or waiting for an event that may never come. */
  predicate Idle(t: Thread) { t.prog.Done? || t.prog.Await? }

  /** Unless there is a deadlock on the API lock, a goroutine that is not idle leads to one that can step: follow who
      blocks whom upwards. */
  lemma Progress(c: Config, i: nat) returns (k: nat)
    requires SystemInv(c) && !Deadlocked(c, ApiMu)
    requires i < |c.threads| && !Idle(c.threads[i])
    ensures k < |c.threads| && !Idle(c.threads[k]) && Enabled(c, k)
    decreases if c.threads[i].prog.Acquire? then 3 - Rank(c.threads[i].prog.h.l) else 4
  {
    var t := c.threads[i];
    assert ThreadOk(t, c.data);
    k := i;
    if !Enabled(c, i) {
      var l := t.prog.h.l;
      if t.prog.h.W? {
        k := ProgressUnheld(c, i, l);
      } else {
        var j :| 0 <= j < |c.threads| && (Holds(c.threads[j], W(l)) || AwaitsWrite(c.threads[j], l));
        if Holds(c.threads[j], W(l)) {
          k := ProgressUnheld(c, i, l);
        } else if Enabled(c, j) {
          k := j;
        } else {
          k := ProgressUnheld(c, i, l);
        }
      }
    }
  }

  lemma ProgressUnheld(c: Config, i: nat, l: Lock) returns (k: nat)
    requires SystemInv(c) && !Deadlocked(c, ApiMu) && !Unheld(c, l)
    requires i < |c.threads| && c.threads[i].prog.Acquire? && c.threads[i].prog.h.l == l
    ensures k < |c.threads| && !Idle(c.threads[k]) && Enabled(c, k)
    decreases 3 - Rank(l), 0
  {
    var u :| 0 <= u < |c.threads| && (Holds(c.threads[u], R(l)) || Holds(c.threads[u], W(l)));
    assert ThreadOk(c.threads[u], c.data);
    if Enabled(c, u) {
      k := u;
    } else {
      BlockedHigher(c, u, l);
      k := Progress(c, u);
    }
  }

  /** A holder of l that is blocked waits for a lock that comes after l: the only re-reading is that of the API
      lock, and a blocked one would be a deadlock. */
  lemma BlockedHigher(c: Config, u: nat, l: Lock)
    requires SystemInv(c) && !Deadlocked(c, ApiMu) && u < |c.threads| && !Enabled(c, u)
    requires Holds(c.threads[u], R(l)) || Holds(c.threads[u], W(l))
    ensures c.threads[u].prog.Acquire? && Rank(l) < Rank(c.threads[u].prog.h.l)
  {
    var t := c.threads[u];
    assert ThreadOk(t, c.data);
    var h := t.prog.h;
    assert R(l).l == l && W(l).l == l;
    if !Above(h.l, t.held) {
      RereaderDeadlocked(c, u);
      assert false;
    }
  }

  lemma RereaderDeadlocked(c: Config, u: nat)
    requires Exclusive(c) && u < |c.threads| && !Enabled(c, u) && Reads(c.threads[u].prog, ApiMu)
    requires Holds(c.threads[u], R(ApiMu)) || Holds(c.threads[u], W(ApiMu))
    ensures Deadlocked(c, ApiMu)
  {
    var t := c.threads[u];
    if Holds(t, W(ApiMu)) {
      assert SelfBlocked(c, u, ApiMu);
    } else {
      var j :| 0 <= j < |c.threads| && (Holds(c.threads[j], W(ApiMu)) || AwaitsWrite(c.threads[j], ApiMu));
      assert j != u;
      assert Compatible(c.threads[j], t);
      assert MutuallyBlocked(c, u, j, ApiMu);
    }
  }

  // ---- Every goroutine finishes: a measure that each step uses up ----

  function Max(a: nat, b: nat): nat { if a < b then b else a }

  function Size(p: Prog): nat {
    match p
    case Done => 0
    case Acquire(h, q) => 2 + Size(q)
    case Release(h, q) => 1 + Size(q)
    case Do(a, y, n) => 1 + (if a.SpawnProcess? then 5 else 0) + Max(Size(y), Size(n))
    case Go(ch, q) => 1 + Size(ch) + Size(q)
    case Await(q) => 1 + Size(q)
  }

  function Weight(t: Thread): int { Size(t.prog) - if t.announced then 1 else 0 }

  /** Steps that the goroutines can still take together. */
  function Work(ts: seq<Thread>): int {
    if ts == [] then 0 else Work(ts[..|ts|-1]) + Weight(ts[|ts|-1])
  }

  lemma {:induction false} WorkUpdate(ts: seq<Thread>, i: nat, t: Thread)
    requires i < |ts|
    ensures Work(ts[i := t]) == Work(ts) - Weight(ts[i]) + Weight(t)
  {
    var n := |ts| - 1;
    if i == n {
      assert ts[i := t][..n] == ts[..n];
    } else {
      assert ts[i := t][..n] == ts[..n][i := t];
      WorkUpdate(ts[..n], i, t);
    }
  }

  lemma {:induction false} WorkNonNegative(ts: seq<Thread>)
    requires forall i :: 0 <= i < |ts| ==> (ts[i].announced ==> ts[i].prog.Acquire?)
    ensures Work(ts) >= 0
  {
    if ts != [] { WorkNonNegative(ts[..|ts|-1]); }
  }

  lemma WorkAppend(ts: seq<Thread>, t: Thread)
    ensures Work(ts + [t]) == Work(ts) + Weight(t)
  {
    assert (ts + [t])[..|ts|] == ts;
  }

  lemma WatcherSize(g: nat)
    ensures Size(ExitWatcher(g)) == 5
  {
    var act := Act(ClearRunning(g), Release(W(LlmMu), Done));
    assert Size(act) == 2;
    assert Size(Acquire(W(LlmMu), act)) == 4;
  }

  /** The stepper's own weight and that of the goroutines it starts come to less than its weight before. */
  lemma WeightDrops(c: Config, i: nat, choice: bool)
    requires Enabled(c, i) && ThreadOk(c.threads[i], c.data)
    ensures var c' := After(c, i, choice);
            c'.threads == c.threads[i := c'.threads[i]] + c'.threads[|c.threads|..] &&
            |c'.threads| <= |c.threads| + 1 &&
            Weight(c'.threads[i]) +
                (if |c'.threads| > |c.threads| then Weight(c'.threads[|c.threads|]) else 0) < Weight(c.threads[i])
  {
    WatcherSize(|c.data.llm.procs|);
  }

  lemma StepUsesWork(c: Config, i: nat, choice: bool)
    requires SystemInv(c) && Enabled(c, i)
    ensures Work(After(c, i, choice).threads) < Work(c.threads)
  {
    var c' := After(c, i, choice);
    WeightDrops(c, i, choice);
    WorkUpdate(c.threads, i, c'.threads[i]);
    var base := c.threads[i := c'.threads[i]];
    if |c'.threads| > |c.threads| {
      assert c'.threads == base + [c'.threads[|c.threads|]];
      WorkAppend(base, c'.threads[|c.threads|]);
    } else {
      assert c'.threads == base;
    }
  }

}
